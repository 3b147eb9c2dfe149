/**
 * Scrambles as text: tokens joined by single spaces, the JavaScript-style
 * split that reads them back, and the shape and adjacency rule a generated
 * scramble obeys.
 */
module Scramble {
  import opened Wrappers
  import Constants
  import CubeMoves

  /** The face letters, in the order the scramble generator numbers them. */
  const FaceLetters: string := "UDLRFB"

  /** The generator's number for a face letter; none for any other character. */
  function FaceIndex(ch: char): (k: Option<nat>)
    ensures k.Some? <==> ch in FaceLetters
    ensures k.Some? ==> k.value < 6 && FaceLetters[k.value] == ch
  {
    match ch
    case 'U' => Some(0)
    case 'D' => Some(1)
    case 'L' => Some(2)
    case 'R' => Some(3)
    case 'F' => Some(4)
    case 'B' => Some(5)
    case _ => None
  }

  /** A scramble token: a face letter followed by one of the modifiers. */
  predicate IsToken(t: string)
  {
    |t| >= 1 && FaceIndex(t[0]).Some? && t[1..] in Constants.Modifiers
  }

  /** The face number of a token (0 for text that does not start with a face letter). */
  function Idx(t: string): (k: nat)
    ensures k < 6
    ensures IsToken(t) ==> FaceIndex(t[0]) == Some(k)
  {
    if |t| == 0 then 0
    else match FaceIndex(t[0])
      case Some(k) => k
      case None => 0
  }

  /** Every token is a face letter plus a modifier. */
  predicate AllTokens(toks: seq<string>)
  {
    forall i :: 0 <= i < |toks| ==> IsToken(toks[i])
  }

  /** No face repeats the previous one. */
  predicate NoRepeat(toks: seq<string>)
  {
    forall i :: 1 <= i < |toks| ==> Idx(toks[i]) != Idx(toks[i - 1])
  }

  /** A face equal to the one two back is only allowed when the previous face lies on a different axis (U/D, L/R, F/B). */
  predicate AxisRule(toks: seq<string>)
  {
    forall i :: 2 <= i < |toks| && Idx(toks[i]) == Idx(toks[i - 2]) ==>
      Idx(toks[i]) / 2 != Idx(toks[i - 1]) / 2
  }

  /** A well-formed scramble: the three rules above. */
  predicate ValidScramble(toks: seq<string>)
  {
    AllTokens(toks) && NoRepeat(toks) && AxisRule(toks)
  }

  /** The rule a token must satisfy against the last two tokens of `toks` to be appended. */
  predicate Fits(toks: seq<string>, t: string)
  {
    var n := |toks|;
    (n >= 1 ==> Idx(t) != Idx(toks[n - 1])) &&
    (n >= 2 && Idx(t) == Idx(toks[n - 2]) ==> Idx(t) / 2 != Idx(toks[n - 1]) / 2)
  }

  /**
   * Appending a token keeps a scramble well formed exactly when the token
   * itself satisfies the rule against the last two tokens.
   */
  lemma ValidScrambleSnoc(toks: seq<string>, t: string)
    requires ValidScramble(toks) && IsToken(t)
    ensures ValidScramble(toks + [t]) <==>
      (|toks| >= 1 ==> Idx(t) != Idx(toks[|toks| - 1])) &&
      (|toks| >= 2 && Idx(t) == Idx(toks[|toks| - 2]) ==> Idx(t) / 2 != Idx(toks[|toks| - 1]) / 2)
  {
    if Fits(toks, t) {
      SnocTokens(toks, t);
      SnocNoRepeat(toks, t);
      SnocAxisRule(toks, t);
    } else {
      SnocMisfits(toks, t);
    }
  }

  lemma SnocTokens(toks: seq<string>, t: string)
    requires AllTokens(toks) && IsToken(t)
    ensures AllTokens(toks + [t])
  {
    var s, n := toks + [t], |toks|;
    forall i | 0 <= i < |s| ensures IsToken(s[i]) {
      if i < n { assert s[i] == toks[i]; }
    }
  }

  lemma SnocNoRepeat(toks: seq<string>, t: string)
    requires NoRepeat(toks) && Fits(toks, t)
    ensures NoRepeat(toks + [t])
  {
    var s, n := toks + [t], |toks|;
    forall i | 1 <= i < |s| ensures Idx(s[i]) != Idx(s[i - 1]) {
      assert s[i - 1] == toks[i - 1];
      if i < n { assert s[i] == toks[i]; }
    }
  }

  lemma SnocAxisRule(toks: seq<string>, t: string)
    requires AxisRule(toks) && Fits(toks, t)
    ensures AxisRule(toks + [t])
  {
    var s, n := toks + [t], |toks|;
    forall i | 2 <= i < |s| && Idx(s[i]) == Idx(s[i - 2])
      ensures Idx(s[i]) / 2 != Idx(s[i - 1]) / 2
    {
      assert s[i - 1] == toks[i - 1] && s[i - 2] == toks[i - 2];
      if i < n { assert s[i] == toks[i]; }
    }
  }

  lemma SnocMisfits(toks: seq<string>, t: string)
    requires !Fits(toks, t)
    ensures !ValidScramble(toks + [t])
  {
    var s, n := toks + [t], |toks|;
    assert s[n] == t;
    if n >= 1 && Idx(t) == Idx(toks[n - 1]) {
      assert s[n - 1] == toks[n - 1];
      assert Idx(s[n]) == Idx(s[n - 1]);
    } else {
      assert s[n - 1] == toks[n - 1] && s[n - 2] == toks[n - 2];
      assert Idx(s[n]) == Idx(s[n - 2]) && Idx(s[n]) / 2 == Idx(s[n - 1]) / 2;
    }
  }

  /** The tokens joined by single spaces, as `Array.prototype.join(" ")` does. */
  function Join(toks: seq<string>): string
  {
    if |toks| == 0 then ""
    else if |toks| == 1 then toks[0]
    else toks[0] + " " + Join(toks[1..])
  }

  /**
   * `String.prototype.split(' ')`: the pieces between single spaces; the empty
   * string gives one empty piece.
   */
  function Split(s: string): (r: seq<string>)
    ensures |r| >= 1
  {
    if s == [] then [""]
    else
      var rest := Split(s[1..]);
      if s[0] == ' ' then [""] + rest else [[s[0]] + rest[0]] + rest[1..]
  }

  /** A piece without spaces splits to itself. */
  lemma {:induction false} SplitWord(t: string)
    requires ' ' !in t
    ensures Split(t) == [t]
  {
    if t != [] {
      SplitWord(t[1..]);
      assert [t[0]] + t[1..] == t;
    }
  }

  /** Splitting `t + " " + rest` peels off `t` when `t` holds no space. */
  lemma {:induction false} SplitCons(t: string, rest: string)
    requires ' ' !in t
    ensures Split(t + " " + rest) == [t] + Split(rest)
  {
    if t == [] {
      assert t + " " + rest == [' '] + rest;
      assert (t + " " + rest)[1..] == rest;
    } else {
      assert (t + " " + rest)[1..] == t[1..] + " " + rest;
      SplitCons(t[1..], rest);
      assert [t[0]] + t[1..] == t;
    }
  }

  /** Splitting a join of space-free tokens gives the tokens back. */
  lemma {:induction false} SplitJoin(toks: seq<string>)
    requires |toks| >= 1
    requires forall i :: 0 <= i < |toks| ==> ' ' !in toks[i]
    ensures Split(Join(toks)) == toks
  {
    if |toks| == 1 {
      SplitWord(toks[0]);
    } else {
      SplitJoin(toks[1..]);
      SplitCons(toks[0], Join(toks[1..]));
      assert [toks[0]] + toks[1..] == toks;
    }
  }

  /** A token is a face letter with at most one modifier, so it holds no space. */
  lemma TokenShape(t: string)
    requires IsToken(t)
    ensures 1 <= |t| <= 2 && ' ' !in t
    ensures t[0] in FaceLetters
  {
    Constants.ModifiersExact();
    assert t == [t[0]] + t[1..];
  }

  /**
   * What a token does to the cube: it names a face the move engine knows, and
   * turns it once with no modifier, three times with a prime and twice with a `2`.
   */
  lemma TokenTurns(t: string)
    requires IsToken(t)
    ensures CubeMoves.FaceOf(t[0]).Some?
    ensures t[1..] == "" ==> CubeMoves.Turns(t) == 1
    ensures t[1..] == "'" ==> CubeMoves.Turns(t) == 3
    ensures t[1..] == "2" ==> CubeMoves.Turns(t) == 2
  {
    Constants.ModifiersExact();
    assert t == [t[0]] + t[1..];
  }
}
