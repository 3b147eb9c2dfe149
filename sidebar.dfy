/** `formatKey`: the short label the sidebar shows for a navigation hotkey's key code. */
module Sidebar {
  import opened Wrappers

  /** `p` occurs in `s` at position `i`. */
  predicate OccursAt(s: string, p: string, i: nat)
  {
    i + |p| <= |s| && s[i..i + |p|] == p
  }

  /** The first position at which `p` occurs in `s`, if any (`indexOf`). */
  function IndexOf(s: string, p: string): (k: Option<nat>)
    ensures k.Some? ==> OccursAt(s, p, k.value) && forall j :: 0 <= j < k.value ==> !OccursAt(s, p, j)
    ensures k.None? ==> forall j :: 0 <= j <= |s| ==> !OccursAt(s, p, j)
    decreases |s|
  {
    if |p| > |s| then None
    else if s[..|p|] == p then Some(0)
    else match IndexOf(s[1..], p)
      case None =>
        assert forall j :: 1 <= j <= |s| ==> (OccursAt(s, p, j) <==> OccursAt(s[1..], p, j - 1));
        None
      case Some(j) =>
        assert forall i :: 1 <= i <= |s| ==> (OccursAt(s, p, i) <==> OccursAt(s[1..], p, i - 1));
        Some(j + 1)
  }

  /** `s.replace(p, '')` with a string pattern: only the first occurrence goes. */
  function RemoveFirst(s: string, p: string): (r: string)
  {
    match IndexOf(s, p)
    case None => s
    case Some(i) => s[..i] + s[i + |p|..]
  }

  /** Putting the pattern back where it was removed restores the input. */
  lemma RemoveFirstRestores(s: string, p: string)
    ensures IndexOf(s, p).Some? ==>
      var i := IndexOf(s, p).value;
      |RemoveFirst(s, p)| == |s| - |p| && RemoveFirst(s, p)[..i] + p + RemoveFirst(s, p)[i..] == s
    ensures IndexOf(s, p).None? ==> RemoveFirst(s, p) == s
  {
    if IndexOf(s, p).Some? {
      var i := IndexOf(s, p).value;
      var r := RemoveFirst(s, p);
      assert r[..i] == s[..i];
      assert r[i..] == s[i + |p|..];
      assert s == s[..i] + s[i..i + |p|] + s[i + |p|..];
    }
  }

  /** `formatKey`: a missing or empty code shows nothing; otherwise `Digit`, then `Key`, is dropped once. */
  function FormatKey(code: Option<string>): (r: string)
    ensures code.None? ==> r == ""
    ensures code.Some? ==> |r| <= |code.value|
  {
    if code.None? || code.value == "" then ""
    else RemoveFirst(RemoveFirst(code.value, "Digit"), "Key")
  }

  /** Letter and digit keys show their character; other codes are left alone. */
  lemma FormatKeyExamples()
    ensures FormatKey(Some("KeyI")) == "I"
    ensures FormatKey(Some("Digit1")) == "1"
    ensures FormatKey(Some("Space")) == "Space"
  {
    assert "KeyI"[..3] == "Key";
    assert "Digit1"[..5] == "Digit";
    assert "Space"[..3] != "Key" && "Space"[1..][..3] != "Key" && "Space"[2..][..3] != "Key";
    assert "Space"[..5] != "Digit";
  }

  /** A code containing neither `Digit` nor `Key` is shown as it is. */
  lemma FormatKeyPlain(code: string)
    requires forall j :: 0 <= j <= |code| ==> !OccursAt(code, "Digit", j) && !OccursAt(code, "Key", j)
    ensures FormatKey(Some(code)) == code
  {
  }

  /** An occurrence past a prefix `a` is an occurrence in the rest. */
  lemma OccursPastPrefix(a: string, x: string, p: string, j: nat)
    requires |a| <= j
    ensures OccursAt(a + x, p, j) <==> OccursAt(x, p, j - |a|)
  {
    if j + |p| <= |a + x| {
      assert (a + x)[j..j + |p|] == x[j - |a|..j - |a| + |p|];
    }
  }

  /** `p` does not occur in `a + x` when it is not in `x` and no early position of `a + x` starts with `p[0]`. */
  lemma NotInPrefixed(a: string, x: string, p: string)
    requires |p| >= 1
    requires forall j :: 0 <= j < |a| ==> (a + x)[j] != p[0] || j + |p| > |a + x|
    requires forall j :: 0 <= j <= |x| ==> !OccursAt(x, p, j)
    ensures IndexOf(a + x, p).None?
  {
    forall j | 0 <= j <= |a + x| ensures !OccursAt(a + x, p, j) {
      if j >= |a| {
        OccursPastPrefix(a, x, p, j);
      }
    }
  }

  /**
   * The labels the sidebar is meant to show: `KeyX` and `DigitX` both show `X`
   * whenever `X` itself contains neither `Digit` nor `Key`.
   */
  lemma FormatKeyStripsPrefix(x: string)
    requires forall j :: 0 <= j <= |x| ==> !OccursAt(x, "Digit", j) && !OccursAt(x, "Key", j)
    ensures FormatKey(Some("Key" + x)) == x
    ensures FormatKey(Some("Digit" + x)) == x
  {
    var k, d := "Key" + x, "Digit" + x;
    NotInPrefixed("Key", x, "Digit");
    assert k[..3] == "Key";
    assert k[3..] == x;
    assert d[..5] == "Digit";
    assert d[5..] == x;
    assert IndexOf(x, "Key").None?;
  }

  /** Only the first `Key` goes: `KeyKey` shows as `Key`. */
  lemma OnlyFirstOccurrence()
    ensures FormatKey(Some("KeyKey")) == "Key"
  {
    assert "KeyKey"[..3] == "Key";
    assert "KeyKey"[..5][0] != 'D' && "KeyKey"[1..][..5][0] != 'D';
    assert "KeyKey"[..3] + "KeyKey"[6..] == "Key";
  }
}
