/**
 * `formatTime`: a duration in milliseconds shown as `m:ss.cc`, or as `s.cc`
 * under a minute, with the hours dropped. A reader for that text is given
 * beside it, and the two are proved to agree.
 */
module Helpers {
  import opened Wrappers

  /** What the formatter may be handed: whole milliseconds, `Infinity` or `null`. */
  datatype TimeInput = Ms(ms: nat) | Infinity | Null

  predicate IsDigit(c: char) { '0' <= c <= '9' }

  predicate AllDigits(s: string) { forall i :: 0 <= i < |s| ==> IsDigit(s[i]) }

  function DigitChar(d: nat): (c: char)
    requires d < 10
    ensures IsDigit(c) && c as int - '0' as int == d
  {
    (('0' as int) + d) as char
  }

  /** The decimal numeral of `n`, as a template literal prints it: no leading zeros. */
  function NatToString(n: nat): (s: string)
    ensures |s| >= 1 && AllDigits(s)
    ensures n < 10 <==> |s| == 1
    ensures 10 <= n < 100 ==> |s| == 2
    ensures n > 0 ==> s[0] != '0'
    decreases n
  {
    if n < 10 then [DigitChar(n)] else NatToString(n / 10) + [DigitChar(n % 10)]
  }

  /** The number a string of decimal digits stands for. */
  function DecimalValue(s: string): nat
    requires AllDigits(s)
  {
    if s == [] then 0 else DecimalValue(s[..|s| - 1]) * 10 + (s[|s| - 1] as int - '0' as int)
  }

  lemma {:induction false} DecimalRoundTrip(n: nat)
    ensures DecimalValue(NatToString(n)) == n
    decreases n
  {
    if n >= 10 {
      var s := NatToString(n);
      assert s[..|s| - 1] == NatToString(n / 10);
      DecimalRoundTrip(n / 10);
    }
  }

  /** A leading `0` never changes the value of a numeral. */
  lemma {:induction false} LeadingZero(s: string)
    requires AllDigits(s)
    ensures AllDigits("0" + s) && DecimalValue("0" + s) == DecimalValue(s)
    decreases |s|
  {
    if s != [] {
      var t := "0" + s;
      assert t[..|t| - 1] == "0" + s[..|s| - 1];
      LeadingZero(s[..|s| - 1]);
    }
  }

  /** `n` as two digits, zero-padded below ten. */
  function TwoDigits(n: nat): (s: string)
    requires n < 100
    ensures |s| == 2 && AllDigits(s)
  {
    if n < 10 then "0" + NatToString(n) else NatToString(n)
  }

  lemma TwoDigitsValue(n: nat)
    requires n < 100
    ensures DecimalValue(TwoDigits(n)) == n
  {
    DecimalRoundTrip(n);
    if n < 10 { LeadingZero(NatToString(n)); }
  }

  /** The centiseconds, seconds and minutes fields of a duration. */
  function Centis(t: nat): nat { (t % 1000) / 10 }
  function Seconds(t: nat): nat { (t / 1000) % 60 }
  function Minutes(t: nat): nat { (t / 60000) % 60 }

  /**
   * `formatTime`. `Infinity` and `null` show `0.00`. Otherwise a `m:` prefix
   * appears only when the minutes (taken mod 60) are positive, the seconds are
   * zero-padded only after such a prefix, and the centiseconds always take two
   * digits after a `.`.
   */
  function FormatTime(t: TimeInput): (r: string)
    ensures |r| >= 4 && r[|r| - 3] == '.' && AllDigits(r[|r| - 2..])
    ensures AllDigits(r[..|r| - 3]) || (t.Ms? && Minutes(t.ms) > 0)
    ensures !t.Ms? ==> r == "0.00"
    ensures t.Ms? && Minutes(t.ms) == 0 ==> |r| == 4 || r[0] != '0'
    ensures t.Ms? && Minutes(t.ms) > 0 ==>
      |r| >= 7 && r[0] != '0' && r[|r| - 6] == ':' &&
      AllDigits(r[..|r| - 6]) && AllDigits(r[|r| - 5..|r| - 3])
  {
    match t
    case Infinity => "0.00"
    case Null => "0.00"
    case Ms(time) =>
      var milliseconds := Centis(time);
      var seconds := Seconds(time);
      var minutes := Minutes(time);
      var mStr := if minutes > 0 then NatToString(minutes) + ":" else "";
      var sStr := if minutes > 0 && seconds < 10 then "0" + NatToString(seconds) + "." else NatToString(seconds) + ".";
      var msStr := TwoDigits(milliseconds);
      assert (mStr + sStr + msStr)[|mStr + sStr + msStr| - 2..] == msStr;
      assert (mStr + sStr + msStr)[..|mStr + sStr + msStr| - 3] == mStr + sStr[..|sStr| - 1];
      mStr + sStr + msStr
  }

  /** The position of the first `:` in `s`, if any. */
  function FirstColon(s: string): (k: Option<nat>)
    ensures k.None? <==> ':' !in s
    ensures k.Some? ==> k.value < |s| && s[k.value] == ':' && ':' !in s[..k.value]
  {
    if s == [] then None
    else if s[0] == ':' then Some(0)
    else match FirstColon(s[1..])
      case None => None
      case Some(j) => assert s[..j + 1] == [s[0]] + s[1..][..j]; Some(j + 1)
  }

  /**
   * Reads a clock display back into centiseconds: `s.cc` or `m:ss.cc`, with
   * decimal digits in every field; anything else is not a clock display.
   */
  function ParseClock(r: string): (v: Option<nat>)
  {
    if |r| < 4 || r[|r| - 3] != '.' || !AllDigits(r[|r| - 2..]) then None
    else
      var head, cc := r[..|r| - 3], DecimalValue(r[|r| - 2..]);
      match FirstColon(head)
      case None =>
        if AllDigits(head) then Some(DecimalValue(head) * 100 + cc) else None
      case Some(k) =>
        var mm, ss := head[..k], head[k + 1..];
        if |mm| >= 1 && AllDigits(mm) && |ss| == 2 && AllDigits(ss)
        then Some((DecimalValue(mm) * 60 + DecimalValue(ss)) * 100 + cc)
        else None
  }

  /** The clock fields recombine to the duration modulo one hour, in centiseconds. */
  lemma ClockArithmetic(t: nat)
    ensures (Minutes(t) * 60 + Seconds(t)) * 100 + Centis(t) == (t % 3600000) / 10
  {
    var a, b := t / 1000, t % 1000;
    HourPart(t);
    MinutePart(t);
    SplitHour(a);
    DropTens(a % 3600, b);
  }

  lemma HourPart(t: nat)
    ensures t % 3600000 == 1000 * ((t / 1000) % 3600) + t % 1000
  {
    var a, b := t / 1000, t % 1000;
    var q, m := a / 3600, a % 3600;
    assert t == 3600000 * q + (1000 * m + b);
  }

  lemma MinutePart(t: nat)
    ensures t / 60000 == (t / 1000) / 60
  {
    var a, b := t / 1000, t % 1000;
    var p, s := a / 60, a % 60;
    assert t == 60000 * p + (1000 * s + b);
  }

  lemma SplitHour(a: nat)
    ensures a % 3600 == 60 * ((a / 60) % 60) + a % 60
  {
    var p := a / 60;
    assert a == 3600 * (p / 60) + (60 * (p % 60) + a % 60);
  }

  lemma DropTens(m: nat, b: nat)
    requires b < 1000
    ensures (1000 * m + b) / 10 == 100 * m + b / 10
  {
    assert 1000 * m + b == 10 * (100 * m + b / 10) + b % 10;
  }

  /**
   * Reading back what `formatTime` shows gives the duration, modulo an hour,
   * truncated to centiseconds; `Infinity` and `null` read as zero.
   */
  lemma FormatTimeReadsBack(t: TimeInput)
    ensures ParseClock(FormatTime(t)) == Some(if t.Ms? then (t.ms % 3600000) / 10 else 0)
  {
    if t.Ms? {
      ClockArithmetic(t.ms);
      if Minutes(t.ms) > 0 {
        ReadsBackWithMinutes(t.ms);
      } else {
        ReadsBackUnderMinute(t.ms);
      }
    } else {
      assert FormatTime(t) == "0.00";
      ReadsBackZero();
    }
  }

  lemma ReadsBackZero()
    ensures ParseClock("0.00") == Some(0)
  {
    var r := "0.00";
    assert r[..1] == "0" && r[2..] == "00";
    assert "00"[..1] == "0" && "0"[..0] == "";
    assert DecimalValue("0") == 0 && DecimalValue("00") == 0;
    assert FirstColon("0") == None;
  }

  lemma ReadsBackWithMinutes(time: nat)
    requires Minutes(time) > 0
    ensures ParseClock(FormatTime(Ms(time))) ==
      Some((Minutes(time) * 60 + Seconds(time)) * 100 + Centis(time))
  {
    var r := FormatTime(Ms(time));
    var cs, seconds, minutes := Centis(time), Seconds(time), Minutes(time);
    var msStr := TwoDigits(cs);
    TwoDigitsValue(cs);
    var mStr := NatToString(minutes);
    var sDigits := TwoDigits(seconds);
    assert r == mStr + ":" + sDigits + "." + msStr;
    assert r[|r| - 2..] == msStr;
    var head := r[..|r| - 3];
    assert head == mStr + ":" + sDigits;
    assert FirstColon(head) == Some(|mStr|) by {
      assert head[|mStr|] == ':';
      assert head[..|mStr|] == mStr;
    }
    assert head[..|mStr|] == mStr && head[|mStr| + 1..] == sDigits;
    DecimalRoundTrip(minutes);
    TwoDigitsValue(seconds);
  }

  lemma ReadsBackUnderMinute(time: nat)
    requires Minutes(time) == 0
    ensures ParseClock(FormatTime(Ms(time))) == Some(Seconds(time) * 100 + Centis(time))
  {
    var r := FormatTime(Ms(time));
    var cs, seconds := Centis(time), Seconds(time);
    var msStr := TwoDigits(cs);
    TwoDigitsValue(cs);
    DecimalRoundTrip(seconds);
    var sDigits := NatToString(seconds);
    assert r == sDigits + "." + msStr;
    assert r[|r| - 2..] == msStr;
    var head := r[..|r| - 3];
    assert head == sDigits;
  }

  /**
   * Each field of the display reads as the value it stands for: the minutes
   * before `:`, the seconds (always below 60) after it or alone under a
   * minute, and the centiseconds after `.`.
   */
  lemma FormatTimeFields(t: nat)
    ensures var r := FormatTime(Ms(t));
      DecimalValue(r[|r| - 2..]) == Centis(t) < 100
    ensures var r := FormatTime(Ms(t));
      Minutes(t) == 0 ==> DecimalValue(r[..|r| - 3]) == Seconds(t) < 60
    ensures var r := FormatTime(Ms(t));
      Minutes(t) > 0 ==>
        DecimalValue(r[..|r| - 6]) == Minutes(t) < 60 && DecimalValue(r[|r| - 5..|r| - 3]) == Seconds(t) < 60
  {
    if Minutes(t) > 0 {
      FieldsWithMinutes(t);
    } else {
      FieldsUnderMinute(t);
    }
  }

  lemma FieldsWithMinutes(t: nat)
    requires Minutes(t) > 0
    ensures var r := FormatTime(Ms(t));
      DecimalValue(r[|r| - 2..]) == Centis(t) &&
      DecimalValue(r[..|r| - 6]) == Minutes(t) && DecimalValue(r[|r| - 5..|r| - 3]) == Seconds(t)
  {
    var r := FormatTime(Ms(t));
    var msStr, mStr, sDigits := TwoDigits(Centis(t)), NatToString(Minutes(t)), TwoDigits(Seconds(t));
    assert r == mStr + ":" + sDigits + "." + msStr;
    assert |r| - 6 == |mStr|;
    assert r[|r| - 2..] == msStr;
    assert r[..|mStr|] == mStr;
    assert r[|r| - 5..|r| - 3] == sDigits;
    TwoDigitsValue(Centis(t));
    DecimalRoundTrip(Minutes(t));
    TwoDigitsValue(Seconds(t));
  }

  lemma FieldsUnderMinute(t: nat)
    requires Minutes(t) == 0
    ensures var r := FormatTime(Ms(t));
      DecimalValue(r[|r| - 2..]) == Centis(t) && DecimalValue(r[..|r| - 3]) == Seconds(t)
  {
    var r := FormatTime(Ms(t));
    var msStr, sDigits := TwoDigits(Centis(t)), NatToString(Seconds(t));
    assert r == sDigits + "." + msStr;
    assert |r| - 3 == |sDigits|;
    assert r[|r| - 2..] == msStr;
    assert r[..|sDigits|] == sDigits;
    TwoDigitsValue(Centis(t));
    DecimalRoundTrip(Seconds(t));
  }

  /** The `m:` prefix is there exactly when the minutes field is positive. */
  lemma MinutesPrefix(t: nat)
    ensures ':' in FormatTime(Ms(t)) <==> Minutes(t) > 0
  {
    var r := FormatTime(Ms(t));
    if Minutes(t) > 0 {
      assert r[|NatToString(Minutes(t))|] == ':';
    } else {
      assert r[..|r| - 3] == NatToString(Seconds(t));
      assert r == r[..|r| - 3] + r[|r| - 3..];
      assert r[|r| - 3..] == "." + TwoDigits(Centis(t));
    }
  }
}
