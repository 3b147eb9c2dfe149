/**
 * The companion's constants, its size stage per level, and the pseudo-random
 * 90-degree rotation of each displayed piece.
 */
module CubletUtils {
  import opened Wrappers

  /** Cubes one feeding costs, per unit of the multiplier. */
  const FeedCost: int := 1
  /** Experience one feeding gives, per unit of the multiplier. */
  const XpPerFeed: int := 10000
  /** Experience per step of the level requirement. */
  const XpBaseReq: int := 100

  datatype Stage = Stage(size: nat, stageName: string)

  /**
   * `getCubletStage`: level 0 is the 1-wide egg; every other level below 8
   * (negative ones included) is 2 wide, below 27 is 3 wide, and the rest 4 wide.
   */
  function GetCubletStage(level: int): (st: Stage)
    ensures 1 <= st.size <= 4
    ensures st.size == 1 <==> level == 0
    ensures st.size == 2 <==> level != 0 && level < 8
    ensures st.size == 3 <==> 8 <= level < 27
    ensures st.size == 4 <==> level >= 27
  {
    if level == 0 then Stage(1, "Cublet Egg")
    else if level < 8 then Stage(2, "Rookie Cube")
    else if level < 27 then Stage(3, "Speed Cube")
    else Stage(4, "Master Cube")
  }

  /** From level 0 upwards, the stage size never shrinks as the level grows. */
  lemma StageMonotone(a: int, b: int)
    requires 0 <= a <= b
    ensures GetCubletStage(a).size <= GetCubletStage(b).size
  {
  }

  /** JavaScript's `%`: the remainder takes the sign of the dividend. */
  function JsRem(a: int, n: int): (r: int)
    requires n > 0
    ensures a >= 0 ==> r == a % n
    ensures -n < r < n
    ensures a <= 0 ==> r <= 0
  {
    if a >= 0 then a % n else -((-a) % n)
  }

  /**
   * `JsRem` is the remainder of division truncated toward zero: `a` is a
   * whole multiple of `n` plus the remainder, whose sign is that of `a`.
   */
  lemma {:induction false} JsRemTruncates(a: int, n: int)
    requires n > 0
    ensures exists q :: a == q * n + JsRem(a, n) && (a >= 0 ==> q >= 0) && (a <= 0 ==> q <= 0)
  {
    if a >= 0 {
      var q := a / n;
      assert a == q * n + JsRem(a, n);
    } else {
      var q := -((-a) / n);
      assert -a == ((-a) / n) * n + (-a) % n;
      assert a == q * n + JsRem(a, n);
    }
  }

  /** Negating the dividend negates the remainder. */
  lemma {:induction false} JsRemOdd(a: int, n: int)
    requires n > 0
    ensures JsRem(-a, n) == -JsRem(a, n)
  {
  }

  /** The four quarter-turn angles; a negative index reads `undefined`. */
  function Axes(i: int): (deg: Option<nat>)
    requires i < 4
  {
    if i < 0 then None else Some([0, 90, 180, 270][i])
  }

  datatype Rotation = Rotation(rotateX: Option<nat>, rotateY: Option<nat>, rotateZ: Option<nat>)

  /** `generatePieceRotation`: three linear congruential draws from the seed, each mod 4. */
  function GeneratePieceRotation(seed: int): (r: Rotation)
  {
    var r1 := JsRem(seed * 9301 + 49297, 233280);
    var r2 := JsRem(seed * 1231 + 4566, 233280);
    var r3 := JsRem(seed * 888 + 999, 233280);
    Rotation(Axes(JsRem(r1, 4)), Axes(JsRem(r2, 4)), Axes(JsRem(r3, 4)))
  }

  /** A quarter-turn angle. */
  predicate IsQuarter(d: Option<nat>)
  {
    d == Some(0) || d == Some(90) || d == Some(180) || d == Some(270)
  }

  /**
   * For a non-negative seed every angle is a quarter turn, and since 233280 is
   * a multiple of 4 the draws reduce to closed forms: X is `90 * ((seed + 1) mod 4)`,
   * Y is `90 * ((3 * seed + 2) mod 4)`, and Z is always 270.
   */
  lemma RotationClosedForm(seed: nat)
    ensures var r := GeneratePieceRotation(seed);
      IsQuarter(r.rotateX) && IsQuarter(r.rotateY) && IsQuarter(r.rotateZ) &&
      r.rotateX == Some(90 * ((seed + 1) % 4)) &&
      r.rotateY == Some(90 * ((3 * seed + 2) % 4)) &&
      r.rotateZ == Some(270)
  {
    DrawX(seed);
    DrawY(seed);
    DrawZ(seed);
  }

  lemma DrawX(seed: nat)
    ensures JsRem(JsRem(seed * 9301 + 49297, 233280), 4) == (seed + 1) % 4
  {
    var a := seed * 9301 + 49297;
    ModFour(a);
    ShiftFour(a, seed * 2325 + 12324, seed + 1);
  }

  lemma DrawY(seed: nat)
    ensures JsRem(JsRem(seed * 1231 + 4566, 233280), 4) == (3 * seed + 2) % 4
  {
    var a := seed * 1231 + 4566;
    ModFour(a);
    ShiftFour(a, seed * 307 + 1141, 3 * seed + 2);
  }

  lemma DrawZ(seed: nat)
    ensures JsRem(JsRem(seed * 888 + 999, 233280), 4) == 3
  {
    var a := seed * 888 + 999;
    ModFour(a);
    ShiftFour(a, seed * 222 + 249, 3);
  }

  /** Adding a multiple of 4 does not change a value mod 4. */
  lemma ShiftFour(a: int, k: int, b: int)
    requires a == 4 * k + b
    ensures a % 4 == b % 4
  {
  }

  /** Reducing mod 233280 first does not change a value mod 4. */
  lemma ModFour(a: nat)
    ensures JsRem(JsRem(a, 233280), 4) == a % 4
  {
    var q, r := a / 233280, a % 233280;
    assert a == 233280 * q + r;
    ShiftFour(a, 58320 * q, r);
  }

  /** A seed negative enough makes a draw negative, and the angle read is `undefined`. */
  lemma NegativeSeedUndefined()
    ensures GeneratePieceRotation(-7).rotateX == None
  {
  }
}
