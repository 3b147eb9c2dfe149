/**
 * The facelet representation of a 3x3x3 cube: six faces of nine colour
 * symbols, each face row-major (0-2 top row, 3-5 middle row, 6-8 bottom row).
 * The faces are listed in the key order of the solved-state object: U, L, F, R, B, D.
 */
module CubeState {

  datatype Face = U | L | F | R | B | D

  /** A cube state as a value: one sequence of stickers per face. */
  datatype Facelets = Facelets(u: seq<char>, l: seq<char>, f: seq<char>,
                               r: seq<char>, b: seq<char>, d: seq<char>)
  {
    /** Every face holds exactly nine stickers. */
    predicate WellFormed() {
      |u| == 9 && |l| == 9 && |f| == 9 && |r| == 9 && |b| == 9 && |d| == 9
    }

    /** The nine stickers of face `x`. */
    function Side(x: Face): seq<char> {
      match x
      case U => u
      case L => l
      case F => f
      case R => r
      case B => b
      case D => d
    }
  }

  /** All 54 stickers, face after face. */
  function Stickers(c: Facelets): (s: seq<char>)
    ensures c.WellFormed() ==> |s| == 54
  {
    c.u + c.l + c.f + c.r + c.b + c.d
  }

  /** 1 when sticker `a` has colour `v`, else 0. */
  function Is(a: char, v: char): nat {
    if a == v then 1 else 0
  }

  /** How many stickers of `s` have colour `v`. */
  function Count(s: seq<char>, v: char): (n: nat)
    ensures n <= |s|
  {
    if s == [] then 0 else Is(s[0], v) + Count(s[1..], v)
  }

  lemma {:induction false} CountAppend(a: seq<char>, b: seq<char>, v: char)
    ensures Count(a + b, v) == Count(a, v) + Count(b, v)
  {
    if a != [] {
      assert (a + b)[1..] == a[1..] + b;
      CountAppend(a[1..], b, v);
    } else {
      assert a + b == b;
    }
  }

  /** `Count` is the multiplicity of `v` in the multiset of stickers. */
  lemma {:induction false} CountIsMultiplicity(s: seq<char>, v: char)
    ensures Count(s, v) == multiset(s)[v]
  {
    if s != [] {
      assert s == [s[0]] + s[1..];
      CountIsMultiplicity(s[1..], v);
    }
  }

  /** A sequence uniformly of colour `x` has |s| stickers of `x` and none of any other colour. */
  lemma {:induction false} UniformCount(s: seq<char>, x: char, v: char)
    requires forall i :: 0 <= i < |s| ==> s[i] == x
    ensures Count(s, v) == if x == v then |s| else 0
  {
    if s != [] {
      UniformCount(s[1..], x, v);
    }
  }

  /** How many stickers of colour `x` the cube shows. */
  function ColourCount(c: Facelets, x: char): nat {
    Count(Stickers(c), x)
  }

  lemma StickersBySide(c: Facelets, v: char)
    ensures ColourCount(c, v) == Count(c.u, v) + Count(c.l, v) + Count(c.f, v)
                               + Count(c.r, v) + Count(c.b, v) + Count(c.d, v)
  {
    CountAppend(c.u, c.l, v);
    CountAppend(c.u + c.l, c.f, v);
    CountAppend(c.u + c.l + c.f, c.r, v);
    CountAppend(c.u + c.l + c.f + c.r, c.b, v);
    CountAppend(c.u + c.l + c.f + c.r + c.b, c.d, v);
  }
}
