/**
 * The cube engine as it runs: a cube is an object holding six mutable face
 * arrays, turned in place by cycling array slots. Every operation is proved
 * against the value model in CubeMoves.
 */
module CubeLogic {
  import opened Wrappers
  import CubeState
  import M = CubeMoves
  import Constants
  import Scramble

  /** A cube state object: six arrays of nine colour symbols, keyed by face. */
  class Cube {
    var U: array<char>
    var L: array<char>
    var F: array<char>
    var R: array<char>
    var B: array<char>
    var D: array<char>

    /** Nine stickers per face, and no two faces share an array. */
    ghost predicate Valid()
      reads this
    {
      U.Length == 9 && L.Length == 9 && F.Length == 9 &&
      R.Length == 9 && B.Length == 9 && D.Length == 9 &&
      U != L && U != F && U != R && U != B && U != D &&
      L != F && L != R && L != B && L != D &&
      F != R && F != B && F != D &&
      R != B && R != D &&
      B != D
    }

    /** The cube this object currently shows, as a value. */
    function Contents(): (c: CubeState.Facelets)
      reads this, U, L, F, R, B, D
    {
      CubeState.Facelets(U[..], L[..], F[..], R[..], B[..], D[..])
    }

    /** A cube object holding `v` in six new arrays. */
    constructor (v: CubeState.Facelets)
      requires v.WellFormed()
      ensures Valid() && Contents() == v
      ensures fresh(U) && fresh(L) && fresh(F) && fresh(R) && fresh(B) && fresh(D)
    {
      var u := NewFace(v.u);
      var l := NewFace(v.l);
      var f := NewFace(v.f);
      var r := NewFace(v.r);
      var b := NewFace(v.b);
      var d := NewFace(v.d);
      U, L, F, R, B, D := u, l, f, r, b, d;
    }
  }

  /** A fresh array holding the stickers `s`. */
  method NewFace(s: seq<char>) returns (a: array<char>)
    ensures fresh(a) && a[..] == s
  {
    a := new char[|s|](i requires 0 <= i < |s| => s[i]);
  }

  /** `cloneCube`: a deep copy, sharing no face array with the original. */
  method CloneCube(state: Cube) returns (n: Cube)
    requires state.Valid()
    ensures n.Valid() && n.Contents() == state.Contents()
    ensures fresh(n) && fresh(n.U) && fresh(n.L) && fresh(n.F)
    ensures fresh(n.R) && fresh(n.B) && fresh(n.D)
  {
    n := new Cube(state.Contents());
  }

  /**
   * `cycle`: the value at `indices[j-1]` moves to `indices[j]` and the value at
   * the last index wraps round to the first; every other slot keeps its value.
   */
  method Cycle(arr: array<char>, indices: seq<nat>)
    requires |indices| >= 1
    requires forall j :: 0 <= j < |indices| ==> indices[j] < arr.Length
    requires forall j, k :: 0 <= j < k < |indices| ==> indices[j] != indices[k]
    modifies arr
    ensures arr[indices[0]] == old(arr[indices[|indices| - 1]])
    ensures forall j :: 1 <= j < |indices| ==> arr[indices[j]] == old(arr[indices[j - 1]])
    ensures forall p :: 0 <= p < arr.Length && p !in indices ==> arr[p] == old(arr[p])
  {
    var n := |indices|;
    var temp := arr[indices[n - 1]];
    var i := n - 1;
    while i > 0
      invariant 0 <= i <= n - 1
      invariant forall j :: i < j < n ==> arr[indices[j]] == old(arr[indices[j - 1]])
      invariant forall j :: 0 <= j <= i ==> arr[indices[j]] == old(arr[indices[j]])
      invariant forall p :: 0 <= p < arr.Length && p !in indices ==> arr[p] == old(arr[p])
    {
      arr[indices[i]] := arr[indices[i - 1]];
      i := i - 1;
    }
    arr[indices[0]] := temp;
  }

  /** `rotateFaceClockwise`: corners 0→2→8→6→0 and edges 1→5→7→3→1; the centre stays. */
  method RotateFaceClockwise(face: array<char>)
    requires face.Length == 9
    modifies face
    ensures face[2] == old(face[0]) && face[8] == old(face[2])
    ensures face[6] == old(face[8]) && face[0] == old(face[6])
    ensures face[5] == old(face[1]) && face[7] == old(face[5])
    ensures face[3] == old(face[7]) && face[1] == old(face[3])
    ensures face[4] == old(face[4])
    ensures face[..] == M.RotatedCW(old(face[..]))
  {
    ghost var s := face[..];
    Cycle(face, [0, 2, 8, 6]);
    assert face[1] == s[1] && face[3] == s[3] && face[5] == s[5] && face[7] == s[7] by {
      assert 1 !in [0, 2, 8, 6] && 3 !in [0, 2, 8, 6] && 5 !in [0, 2, 8, 6] && 7 !in [0, 2, 8, 6];
    }
    assert face[4] == s[4] by { assert 4 !in [0, 2, 8, 6]; }
    ghost var t := face[..];
    Cycle(face, [1, 5, 7, 3]);
    assert face[0] == t[0] && face[2] == t[2] && face[6] == t[6] && face[8] == t[8] && face[4] == t[4] by {
      assert 0 !in [1, 5, 7, 3] && 2 !in [1, 5, 7, 3] && 4 !in [1, 5, 7, 3];
      assert 6 !in [1, 5, 7, 3] && 8 !in [1, 5, 7, 3];
    }
    assert face[..] == M.RotatedCW(s);
  }

  /** Copies the three stickers `row` into `dst` from position `at` on. */
  method CopyRow(dst: array<char>, at: nat, row: seq<char>)
    requires |row| == 3 && at + 3 <= dst.Length
    modifies dst
    ensures dst[..] == old(dst[..at]) + row + old(dst[at + 3..])
  {
    for k := 0 to 3
      invariant forall p :: 0 <= p < dst.Length ==>
        dst[p] == if at <= p < at + k then row[p - at] else old(dst[p])
    {
      dst[at + k] := row[k];
    }
  }

  /** One clockwise quarter turn of face `x`, in place on the face arrays. */
  method TurnFace(c: Cube, x: CubeState.Face)
    requires c.Valid()
    modifies c.U, c.L, c.F, c.R, c.B, c.D
    ensures c.Contents() == M.QuarterTurn(old(c.Contents()), x)
  {
    match x
    case U => TurnU(c);
    case D => TurnD(c);
    case L => TurnL(c);
    case R => TurnR(c);
    case F => TurnF(c);
    case B => TurnB(c);
  }

  method TurnU(c: Cube)
    requires c.Valid()
    modifies c.U, c.L, c.F, c.R, c.B, c.D
    ensures c.Contents() == M.QuarterTurn(old(c.Contents()), CubeState.U)
  {
    ghost var v := c.Contents();
    RotateFaceClockwise(c.U);
    var t := c.F[..3];
    CopyRow(c.F, 0, c.R[..3]);
    assert c.F[..] == v.r[..3] + v.f[3..];
    CopyRow(c.R, 0, c.B[..3]);
    assert c.R[..] == v.b[..3] + v.r[3..];
    CopyRow(c.B, 0, c.L[..3]);
    assert c.B[..] == v.l[..3] + v.b[3..];
    CopyRow(c.L, 0, t);
    assert c.L[..] == v.f[..3] + v.l[3..];
  }

  method TurnD(c: Cube)
    requires c.Valid()
    modifies c.U, c.L, c.F, c.R, c.B, c.D
    ensures c.Contents() == M.QuarterTurn(old(c.Contents()), CubeState.D)
  {
    ghost var v := c.Contents();
    RotateFaceClockwise(c.D);
    var t := c.F[6..];
    CopyRow(c.F, 6, c.L[6..]);
    assert c.F[..] == v.f[..6] + v.l[6..];
    CopyRow(c.L, 6, c.B[6..]);
    assert c.L[..] == v.l[..6] + v.b[6..];
    CopyRow(c.B, 6, c.R[6..]);
    assert c.B[..] == v.b[..6] + v.r[6..];
    CopyRow(c.R, 6, t);
    assert c.R[..] == v.r[..6] + v.f[6..];
  }

  method TurnL(c: Cube)
    requires c.Valid()
    modifies c.U, c.L, c.F, c.R, c.B, c.D
    ensures c.Contents() == M.QuarterTurn(old(c.Contents()), CubeState.L)
  {
    RotateFaceClockwise(c.L);
    var t0, t3, t6 := c.U[0], c.U[3], c.U[6];
    c.U[0], c.U[3], c.U[6] := c.B[8], c.B[5], c.B[2];
    c.B[8], c.B[5], c.B[2] := c.D[0], c.D[3], c.D[6];
    c.D[0], c.D[3], c.D[6] := c.F[0], c.F[3], c.F[6];
    c.F[0], c.F[3], c.F[6] := t0, t3, t6;
  }

  method TurnR(c: Cube)
    requires c.Valid()
    modifies c.U, c.L, c.F, c.R, c.B, c.D
    ensures c.Contents() == M.QuarterTurn(old(c.Contents()), CubeState.R)
  {
    RotateFaceClockwise(c.R);
    var t2, t5, t8 := c.U[2], c.U[5], c.U[8];
    c.U[2], c.U[5], c.U[8] := c.F[2], c.F[5], c.F[8];
    c.F[2], c.F[5], c.F[8] := c.D[2], c.D[5], c.D[8];
    c.D[2], c.D[5], c.D[8] := c.B[6], c.B[3], c.B[0];
    c.B[6], c.B[3], c.B[0] := t2, t5, t8;
  }

  method TurnF(c: Cube)
    requires c.Valid()
    modifies c.U, c.L, c.F, c.R, c.B, c.D
    ensures c.Contents() == M.QuarterTurn(old(c.Contents()), CubeState.F)
  {
    RotateFaceClockwise(c.F);
    var t6, t7, t8 := c.U[6], c.U[7], c.U[8];
    c.U[6], c.U[7], c.U[8] := c.L[8], c.L[5], c.L[2];
    c.L[8], c.L[5], c.L[2] := c.D[2], c.D[1], c.D[0];
    c.D[2], c.D[1], c.D[0] := c.R[0], c.R[3], c.R[6];
    c.R[0], c.R[3], c.R[6] := t6, t7, t8;
  }

  method TurnB(c: Cube)
    requires c.Valid()
    modifies c.U, c.L, c.F, c.R, c.B, c.D
    ensures c.Contents() == M.QuarterTurn(old(c.Contents()), CubeState.B)
  {
    RotateFaceClockwise(c.B);
    var t2, t1, t0 := c.U[2], c.U[1], c.U[0];
    c.U[2], c.U[1], c.U[0] := c.R[8], c.R[5], c.R[2];
    c.R[8], c.R[5], c.R[2] := c.D[6], c.D[7], c.D[8];
    c.D[6], c.D[7], c.D[8] := c.L[0], c.L[3], c.L[6];
    c.L[0], c.L[3], c.L[6] := t2, t1, t0;
  }

  /**
   * The turning loop of `applyMove`: `n` quarter turns of face `x`, in place.
   * (The source switches on the face inside the loop; a letter that names no
   * face turns nothing on every pass, which `ApplyMove` handles by not calling this.)
   */
  method TurnRepeatedly(c: Cube, x: CubeState.Face, n: nat)
    requires c.Valid()
    modifies c.U, c.L, c.F, c.R, c.B, c.D
    ensures c.Valid()
    ensures c.Contents() == M.TurnTimes(old(c.Contents()), x, n)
  {
    ghost var start := c.Contents();
    for i := 0 to n
      invariant c.Valid()
      invariant c.Contents() == M.TurnTimes(start, x, i)
    {
      TurnFace(c, x);
    }
  }

  /**
   * `applyMove`: the empty move hands back the input object itself; any other
   * move works on a fresh deep copy, turning the face its first letter names
   * as often as its modifier says (an unknown letter turns nothing). With no
   * `modifies` clause, the input cube is never changed.
   */
  method ApplyMove(state: Cube, move: string) returns (r: Cube)
    requires state.Valid()
    ensures r.Valid()
    ensures r.Contents() == M.ApplyMove(state.Contents(), move)
    ensures move == "" ==> r == state
    ensures move != "" ==> fresh(r) && fresh(r.U) && fresh(r.L) && fresh(r.F)
    ensures move != "" ==> fresh(r.R) && fresh(r.B) && fresh(r.D)
  {
    if move == "" {
      return state;
    }
    var face := move[0];
    var modifier := if '\'' in move then "'" else if '2' in move then "2" else "";
    var newState := CloneCube(state);
    var turns := if modifier == "'" then 3 else if modifier == "2" then 2 else 1;
    assert turns == M.Turns(move);
    match M.FaceOf(face) {
      case Some(x) => TurnRepeatedly(newState, x, turns);
      case None =>
    }
    return newState;
  }

  /** The generator's resampling test: the face just used, or a return to the face two back across the same axis. */
  predicate Rejected(x: int, last: int, sl: int)
  {
    x == last || (x == sl && x / 2 == last / 2)
  }

  /**
   * `generateRandomMoves`: `len` tokens, each a face letter plus a modifier,
   * joined by single spaces. Each random draw is an arbitrary choice among the
   * values the resampling loop would accept.
   */
  method GenerateRandomMoves(len: nat) returns (s: string)
    ensures len == 0 ==> s == ""
    ensures len > 0 ==> |Scramble.Split(s)| == len && Scramble.ValidScramble(Scramble.Split(s))
  {
    var f := Scramble.FaceLetters;
    var m: seq<string> := [];
    var last, sl := -1, -1;
    for i := 0 to len
      invariant |m| == i
      invariant Scramble.ValidScramble(m)
      invariant last == if i == 0 then -1 else Scramble.Idx(m[i - 1])
      invariant sl == if i < 2 then -1 else Scramble.Idx(m[i - 2])
    {
      assert !Rejected(0, last, sl) || !Rejected(2, last, sl) || !Rejected(4, last, sl);
      var x :| 0 <= x < 6 && !Rejected(x, last, sl);
      var k :| 0 <= k < 3;
      var tok := [f[x]] + Constants.Modifiers[k];
      assert tok[1..] == Constants.Modifiers[k];
      assert Scramble.IsToken(tok) && Scramble.Idx(tok) == x;
      assert !Rejected(x, last, sl);
      assert i >= 1 ==> x != Scramble.Idx(m[i - 1]);
      assert i >= 2 && x == Scramble.Idx(m[i - 2]) ==> x / 2 != Scramble.Idx(m[i - 1]) / 2;
      Scramble.ValidScrambleSnoc(m, tok);
      m := m + [tok];
      sl, last := last, x;
    }
    s := Scramble.Join(m);
    if len > 0 {
      forall j | 0 <= j < |m| ensures ' ' !in m[j] {
        Scramble.TokenShape(m[j]);
      }
      Scramble.SplitJoin(m);
    }
  }
}
