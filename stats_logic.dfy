/**
 * `calculateStats`: the best single over the solves that have a numeric time
 * and no DNF/DNS penalty, and the number of solves dated today or later.
 */
module StatsLogic {
  import opened Wrappers

  /** A stored solve's time: a number of milliseconds, or something that is not a number. */
  datatype SolveTime = Num(ms: int) | NotNumber

  /** A stored solve. The date is a timestamp, or none when it does not parse as a date. */
  datatype Solve = Solve(time: SolveTime, penalty: Option<string>, date: Option<int>)

  /** A best single: a time, or `Infinity` when there is none. */
  datatype Best = Finite(ms: int) | Infinity

  datatype Stats = Stats(bestSingle: Best, todayCount: nat)

  /** A solve that competes for the best single. */
  predicate Counts(s: Solve)
  {
    s.time.Num? && s.penalty != Some("DNF") && s.penalty != Some("DNS")
  }

  /** The times of the competing solves, in order (`filter` then `map`). */
  function ValidTimes(solves: seq<Solve>): (ts: seq<int>)
    ensures |ts| <= |solves|
    ensures forall t :: t in ts <==> exists i :: 0 <= i < |solves| && Counts(solves[i]) && solves[i].time.ms == t
  {
    if solves == [] then []
    else
      var rest := ValidTimes(solves[..|solves| - 1]);
      var last := solves[|solves| - 1];
      assert forall i :: 0 <= i < |solves| - 1 ==> solves[..|solves| - 1][i] == solves[i];
      if Counts(last) then rest + [last.time.ms] else rest
  }

  /** `Math.min` over a list: `Infinity` for none, else the least element. */
  function MinOf(ts: seq<int>): (b: Best)
    ensures b.Infinity? <==> ts == []
    ensures b.Finite? ==> b.ms in ts && forall t :: t in ts ==> b.ms <= t
  {
    if ts == [] then Infinity
    else match MinOf(ts[1..])
      case Infinity => Finite(ts[0])
      case Finite(m) => assert ts == [ts[0]] + ts[1..]; Finite(if ts[0] <= m then ts[0] else m)
  }

  /** Solves dated at or after `startOfToday`; undated solves never count. */
  function CountToday(solves: seq<Solve>, startOfToday: int): (n: nat)
    ensures n <= |solves|
  {
    if solves == [] then 0
    else
      (if solves[0].date.Some? && solves[0].date.value >= startOfToday then 1 else 0)
      + CountToday(solves[1..], startOfToday)
  }

  /**
   * `calculateStats`. A missing or empty list gives `Infinity` and 0;
   * the start of today is passed in as a timestamp.
   */
  function CalculateStats(solves: Option<seq<Solve>>, startOfToday: int): (r: Stats)
    ensures solves.None? || solves.value == [] ==> r == Stats(Infinity, 0)
    ensures solves.Some? ==> r.todayCount <= |solves.value|
    ensures r.bestSingle.Finite? <==> solves.Some? && exists i :: 0 <= i < |solves.value| && Counts(solves.value[i])
  {
    if solves.None? || solves.value == [] then Stats(Infinity, 0)
    else
      var validSolves := ValidTimes(solves.value);
      var bestSingle := if |validSolves| > 0 then MinOf(validSolves) else Infinity;
      assert |validSolves| > 0 <==> exists i :: 0 <= i < |solves.value| && Counts(solves.value[i]) by {
        if exists i :: 0 <= i < |solves.value| && Counts(solves.value[i]) {
          var i :| 0 <= i < |solves.value| && Counts(solves.value[i]);
          assert solves.value[i].time.ms in validSolves;
        }
        if |validSolves| > 0 {
          assert validSolves[0] in validSolves;
        }
      }
      Stats(bestSingle, CountToday(solves.value, startOfToday))
  }

  /** The best single is no slower than any competing solve, and is one of them. */
  lemma BestSingleIsLeast(solves: seq<Solve>, startOfToday: int)
    requires exists i :: 0 <= i < |solves| && Counts(solves[i])
    ensures var b := CalculateStats(Some(solves), startOfToday).bestSingle;
      b.Finite? &&
      (forall i :: 0 <= i < |solves| && Counts(solves[i]) ==> b.ms <= solves[i].time.ms) &&
      (exists i :: 0 <= i < |solves| && Counts(solves[i]) && solves[i].time.ms == b.ms)
  {
    var ts := ValidTimes(solves);
    forall i | 0 <= i < |solves| && Counts(solves[i]) ensures solves[i].time.ms in ts {
    }
  }

  /** Logging a DNF or DNS solve never changes the best single. */
  lemma PenaltyKeepsBest(solves: seq<Solve>, s: Solve, startOfToday: int, today: int)
    requires s.penalty == Some("DNF") || s.penalty == Some("DNS")
    ensures CalculateStats(Some(solves + [s]), today).bestSingle ==
            CalculateStats(Some(solves), startOfToday).bestSingle
  {
    var all := solves + [s];
    assert all[..|all| - 1] == solves;
    assert ValidTimes(all) == ValidTimes(solves);
  }

  lemma {:induction false} CountTodayAppend(a: seq<Solve>, b: seq<Solve>, startOfToday: int)
    ensures CountToday(a + b, startOfToday) == CountToday(a, startOfToday) + CountToday(b, startOfToday)
  {
    if a != [] {
      assert (a + b)[1..] == a[1..] + b;
      CountTodayAppend(a[1..], b, startOfToday);
    } else {
      assert a + b == b;
    }
  }

  /** Logging a solve dated today raises the count by one; an older one leaves it. */
  lemma TodayCountAppend(solves: seq<Solve>, s: Solve, startOfToday: int)
    ensures CalculateStats(Some(solves + [s]), startOfToday).todayCount ==
            CalculateStats(Some(solves), startOfToday).todayCount +
            (if s.date.Some? && s.date.value >= startOfToday then 1 else 0)
  {
    CountTodayAppend(solves, [s], startOfToday);
  }
}
