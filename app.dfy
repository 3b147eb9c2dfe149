/**
 * The solve timer: a state machine over six statuses driven by presses and
 * releases of two hotkeys, a hold-expiry callback and sampling ticks. The
 * clock, the animation-frame sampler and the hold timeout are explicit: every
 * event carries the current time `now`, `sampling` says which sampler (if any)
 * is scheduled, and `holdPending` says whether a hold timeout is armed.
 */
module App {
  import CubeState
  import M = CubeMoves
  import Constants
  import Scramble
  import CubeLogic

  datatype Status = Idle | Inspecting | Holding | Ready | Running | Finished

  /** The recorded penalty: none, or did-not-start after overrunning inspection. */
  datatype Penalty = NoPenalty | DNS

  /** The animation-frame loop currently scheduled, if any. */
  datatype Sampler = Stopped | SolveClock | InspectionClock

  /** Inspection lasts 15 seconds ... */
  const InspectionMs: int := 15000
  /** ... and overrunning it by more than 2 seconds is a DNS. */
  const GraceMs: int := 2000

  /** The user's timer settings that the key handlers consult. */
  datatype Config = Config(useInspection: bool, inspectionHotkey: string, timerHotkey: string)

  /** Everything the key handlers, the hold timeout and the samplers read and write. */
  datatype TimerState = TimerState(
    status: Status,
    penalty: Penalty,
    time: int,
    inspectionTime: int,
    startTime: int,
    inspectionStart: int,
    holdPending: bool,
    sampling: Sampler)

  /** The state at start-up: idle, zero time, a full inspection budget, nothing scheduled. */
  const Initial := TimerState(Idle, NoPenalty, 0, InspectionMs, 0, 0, false, Stopped)

  // ---------------------------------------------------------------------------
  // The helpers the handlers call
  // ---------------------------------------------------------------------------

  /** `startInspection`: a fresh 15-second countdown anchored at `now`. */
  function AfterStartInspection(s: TimerState, now: int): (r: TimerState)
    ensures r.status == Inspecting && r.sampling == InspectionClock
  {
    s.(status := Inspecting, inspectionTime := InspectionMs, penalty := NoPenalty,
       inspectionStart := now, sampling := InspectionClock)
  }

  /** `cancelInspection`: back to idle with the countdown reset and its sampler cancelled. */
  function AfterCancelInspection(s: TimerState): (r: TimerState)
    ensures r.status == Idle && r.sampling == Stopped
  {
    s.(sampling := Stopped, status := Idle, inspectionTime := InspectionMs)
  }

  /** `startSolve`: running from zero, measured from the anchor `now`. */
  function AfterStartSolve(s: TimerState, now: int): (r: TimerState)
    ensures r.status == Running && r.sampling == SolveClock
  {
    s.(status := Running, penalty := NoPenalty, time := 0, startTime := now, sampling := SolveClock)
  }

  /** `stopSolve`: the solve sampler is cancelled and the status is finished. */
  function AfterStopSolve(s: TimerState): (r: TimerState)
    ensures r.status == Finished && r.sampling == Stopped
  {
    s.(sampling := Stopped, status := Finished)
  }

  /** Pressing the timer key: holding, with a hold timeout armed. */
  function ArmHold(s: TimerState): (r: TimerState)
    ensures r.status == Holding && r.holdPending
  {
    s.(status := Holding, holdPending := true)
  }

  /** The timer part of `handleNewScramble`: idle and no penalty. */
  function AfterNewScramble(s: TimerState): (r: TimerState)
    ensures r.status == Idle && r.penalty == NoPenalty
  {
    s.(status := Idle, penalty := NoPenalty)
  }

  // ---------------------------------------------------------------------------
  // The events
  // ---------------------------------------------------------------------------

  /**
   * `handleKeyDown`. With inspection on, the inspection hotkey starts or
   * cancels inspection and never reaches the timer branch. The timer hotkey
   * stops a running solve, and otherwise starts holding from idle (only with
   * inspection off), inspecting or finished.
   */
  function OnKeyDown(s: TimerState, cfg: Config, code: string, now: int): (r: TimerState)
  {
    if cfg.useInspection && code == cfg.inspectionHotkey then
      if s.status == Idle then AfterStartInspection(s, now)
      else if s.status == Inspecting then AfterCancelInspection(s)
      else s
    else if code == cfg.timerHotkey then
      if s.status == Running then AfterStopSolve(s)
      else if s.status == Idle && !cfg.useInspection then ArmHold(s)
      else if s.status == Inspecting then ArmHold(s)
      else if s.status == Finished then ArmHold(s)
      else s
    else s
  }

  /**
   * `handleKeyUp`, timer part. Releasing the timer hotkey when ready starts the
   * solve (cancelling any sampler first); when holding it disarms the hold and
   * returns to inspecting (inspection on and not past the grace) or idle; when
   * finished it asks for a new scramble.
   */
  function OnKeyUp(s: TimerState, cfg: Config, code: string, now: int): (r: TimerState)
  {
    if code != cfg.timerHotkey then s
    else if s.status == Ready then AfterStartSolve(s.(sampling := Stopped), now)
    else if s.status == Holding then
      var t := s.(holdPending := false);
      if cfg.useInspection && s.inspectionTime > -GraceMs then t.(status := Inspecting)
      else t.(status := Idle)
    else if s.status == Finished then AfterNewScramble(s)
    else s
  }

  /** The hold timeout fires: ready, whatever the status is by then. */
  function OnHoldExpired(s: TimerState): (r: TimerState)
  {
    if s.holdPending then s.(status := Ready, holdPending := false) else s
  }

  /**
   * An animation frame. The solve sampler shows the time since the anchor; the
   * inspection sampler shows the time left, and once that is below minus the
   * grace it stops itself, finishing the attempt with a DNS.
   */
  function OnTick(s: TimerState, now: int): (r: TimerState)
  {
    match s.sampling
    case Stopped => s
    case SolveClock => s.(time := now - s.startTime)
    case InspectionClock =>
      var remaining := InspectionMs - (now - s.inspectionStart);
      if remaining < -GraceMs then
        s.(inspectionTime := remaining, sampling := Stopped, status := Finished, penalty := DNS)
      else s.(inspectionTime := remaining)
  }

  datatype Event = KeyDown(code: string, at: int) | KeyUp(code: string, at: int) | HoldExpired | Tick(at: int)

  function Step(s: TimerState, cfg: Config, e: Event): TimerState
  {
    match e
    case KeyDown(code, now) => OnKeyDown(s, cfg, code, now)
    case KeyUp(code, now) => OnKeyUp(s, cfg, code, now)
    case HoldExpired => OnHoldExpired(s)
    case Tick(now) => OnTick(s, now)
  }

  /** The state after a sequence of events, in order. */
  function Run(s: TimerState, cfg: Config, es: seq<Event>): TimerState
    decreases |es|
  {
    if es == [] then s else Run(Step(s, cfg, es[0]), cfg, es[1..])
  }

  // ---------------------------------------------------------------------------
  // Properties
  // ---------------------------------------------------------------------------

  /**
   * The solve sampler runs exactly while the status is running, and no hold
   * timeout is pending once the timer is ready or running.
   */
  predicate Consistent(s: TimerState)
  {
    (s.sampling == SolveClock <==> s.status == Running) &&
    (s.status == Ready || s.status == Running ==> !s.holdPending)
  }

  lemma StepPreservesConsistent(s: TimerState, cfg: Config, e: Event)
    requires Consistent(s)
    ensures Consistent(Step(s, cfg, e))
  {
  }

  lemma {:induction false} RunPreservesConsistent(s: TimerState, cfg: Config, es: seq<Event>)
    requires Consistent(s)
    ensures Consistent(Run(s, cfg, es))
    decreases |es|
  {
    if es != [] {
      StepPreservesConsistent(s, cfg, es[0]);
      RunPreservesConsistent(Step(s, cfg, es[0]), cfg, es[1..]);
    }
  }

  /** With inspection on, the inspection hotkey only toggles idle and inspecting. */
  lemma InspectionHotkeyOnlyToggles(s: TimerState, cfg: Config, now: int)
    requires cfg.useInspection
    ensures s.status == Idle ==>
      OnKeyDown(s, cfg, cfg.inspectionHotkey, now) ==
      s.(status := Inspecting, inspectionTime := 15000, penalty := NoPenalty,
         inspectionStart := now, sampling := InspectionClock)
    ensures s.status == Inspecting ==>
      OnKeyDown(s, cfg, cfg.inspectionHotkey, now) ==
      s.(status := Idle, inspectionTime := 15000, sampling := Stopped)
    ensures s.status != Idle && s.status != Inspecting ==>
      OnKeyDown(s, cfg, cfg.inspectionHotkey, now) == s
  {
  }

  /**
   * The timer hotkey press: running stops, idle (inspection off), inspecting
   * and finished start holding; every other press changes nothing.
   */
  lemma TimerHotkeyPress(s: TimerState, cfg: Config, now: int)
    requires !(cfg.useInspection && cfg.timerHotkey == cfg.inspectionHotkey)
    ensures var r := OnKeyDown(s, cfg, cfg.timerHotkey, now);
      if s.status == Running then r == s.(status := Finished, sampling := Stopped)
      else if s.status == Inspecting || s.status == Finished || (s.status == Idle && !cfg.useInspection)
      then r == s.(status := Holding, holdPending := true)
      else r == s
  {
  }

  /**
   * Releasing the timer hotkey: from ready the solve starts at `now` from zero
   * with every other sampler cancelled; from holding the hold is disarmed and
   * the timer goes back to inspecting exactly when inspection is on and the
   * countdown is not past the grace, else to idle; from finished a new
   * scramble resets to idle without penalty; otherwise nothing changes.
   */
  lemma TimerHotkeyRelease(s: TimerState, cfg: Config, now: int)
    ensures var r := OnKeyUp(s, cfg, cfg.timerHotkey, now);
      if s.status == Ready then
        r.status == Running && r.time == 0 && r.startTime == now && r.sampling == SolveClock && r.penalty == NoPenalty
      else if s.status == Holding then
        !r.holdPending && r.sampling == s.sampling &&
        (r.status == Inspecting <==> cfg.useInspection && s.inspectionTime > -2000) &&
        (r.status != Inspecting ==> r.status == Idle)
      else if s.status == Finished then r == s.(status := Idle, penalty := NoPenalty)
      else r == s
    ensures forall code :: code != cfg.timerHotkey ==> OnKeyUp(s, cfg, code, now) == s
  {
  }

  /** The hold timeout makes the timer ready from any status, even a finished DNS. */
  lemma HoldExpiryIgnoresStatus(s: TimerState)
    requires s.holdPending
    ensures OnHoldExpired(s).status == Ready && !OnHoldExpired(s).holdPending
    ensures OnHoldExpired(s).penalty == s.penalty
  {
  }

  /** Only a release while holding disarms the hold timeout. */
  lemma OnlyReleaseDisarms(s: TimerState, cfg: Config, e: Event)
    requires s.holdPending && !e.HoldExpired?
    requires !Step(s, cfg, e).holdPending
    ensures e.KeyUp? && e.code == cfg.timerHotkey && s.status == Holding
  {
  }

  /**
   * An inspection tick shows `15000 - elapsed`; it ends the attempt with a DNS
   * exactly when that is below -2000, i.e. after more than 17 seconds.
   */
  lemma DnsThreshold(s: TimerState, now: int)
    requires s.sampling == InspectionClock
    ensures OnTick(s, now).inspectionTime == 15000 - (now - s.inspectionStart)
    ensures OnTick(s, now).status == Finished && OnTick(s, now).penalty == DNS && OnTick(s, now).sampling == Stopped
        <==> now - s.inspectionStart > 17000
    ensures now - s.inspectionStart <= 17000 ==> OnTick(s, now).status == s.status
  {
  }

  /** Once finished, no event other than leaving the status changes the recorded time. */
  lemma TimeFrozenWhenFinished(s: TimerState, cfg: Config, e: Event)
    requires Consistent(s) && s.status == Finished
    ensures Step(s, cfg, e).time == s.time
  {
  }

  /**
   * While the solve runs, each tick shows the time since the anchor set when
   * the key was released, however many ticks came before.
   */
  lemma {:induction false} RunningTicksMeasureFromAnchor(s: TimerState, cfg: Config, times: seq<int>)
    requires s.sampling == SolveClock && |times| >= 1
    ensures Run(s, cfg, Ticks(times)).time == times[|times| - 1] - s.startTime
    ensures Run(s, cfg, Ticks(times)).startTime == s.startTime
    decreases |times|
  {
    if |times| > 1 {
      var t := OnTick(s, times[0]);
      assert Ticks(times)[1..] == Ticks(times[1..]);
      RunningTicksMeasureFromAnchor(t, cfg, times[1..]);
    }
  }

  /** One tick event per time. */
  function Ticks(times: seq<int>): (es: seq<Event>)
    ensures |es| == |times| && forall i :: 0 <= i < |times| ==> es[i] == Tick(times[i])
  {
    if times == [] then [] else [Tick(times[0])] + Ticks(times[1..])
  }

  /**
   * A whole solve without inspection: press at 1000, hold expires, release at
   * 2000, a frame at 3234, press at 3500 to stop. The recorded time is 1234
   * and stays so on later frames.
   */
  lemma SolveScenario()
    ensures var cfg := Config(false, "KeyI", "Space");
      var r := Run(Initial, cfg, [KeyDown("Space", 1000), HoldExpired, KeyUp("Space", 2000),
                                  Tick(3234), KeyDown("Space", 3500), Tick(4000)]);
      r.status == Finished && r.time == 1234 && r.penalty == NoPenalty
  {
  }

  /**
   * Inspection started at 0 and never released: the frame at 17000 still
   * shows -2000, the frame at 17001 ends the attempt with a DNS.
   */
  lemma DnsScenario()
    ensures var cfg := Config(true, "KeyI", "Space");
      var r := Run(Initial, cfg, [KeyDown("KeyI", 0), Tick(17000)]);
      r.status == Inspecting && r.inspectionTime == -2000
    ensures var cfg := Config(true, "KeyI", "Space");
      var r := Run(Initial, cfg, [KeyDown("KeyI", 0), Tick(17000), Tick(17001)]);
      r.status == Finished && r.penalty == DNS && r.sampling == Stopped
  {
  }

  /**
   * Letting go of the timer hotkey while holding, once the countdown reads -2000
   * or less, sends the timer back to idle but leaves the inspection sampler
   * running; its next frame past 17 seconds records a DNS from idle.
   */
  lemma ReleaseAtGraceKeepsSampler(s: TimerState, cfg: Config, now: int, later: int)
    requires cfg.useInspection && s.status == Holding && s.sampling == InspectionClock
    requires s.inspectionTime <= -GraceMs && later - s.inspectionStart > 17000
    ensures var r := OnKeyUp(s, cfg, cfg.timerHotkey, now);
      r.status == Idle && r.sampling == InspectionClock &&
      OnTick(r, later).status == Finished && OnTick(r, later).penalty == DNS
  {
  }

  /**
   * The same path from the start: inspection at 0, a frame at 17000 showing
   * -2000, a press and a release at 17000, then the frame at 17001.
   */
  lemma ReleaseAtGraceScenario()
    ensures var cfg := Config(true, "KeyI", "Space");
      var r := Run(Initial, cfg, [KeyDown("KeyI", 0), Tick(17000), KeyDown("Space", 17000), KeyUp("Space", 17000)]);
      r.status == Idle && r.sampling == InspectionClock && r.inspectionTime == -2000
    ensures var cfg := Config(true, "KeyI", "Space");
      var r := Run(Initial, cfg, [KeyDown("KeyI", 0), Tick(17000), KeyDown("Space", 17000), KeyUp("Space", 17000), Tick(17001)]);
      r.status == Finished && r.penalty == DNS
  {
  }

  /**
   * A new scramble asked for while the solve runs (the refresh button stays
   * clickable while hidden) goes idle without stopping the solve sampler, so
   * frames go on updating the shown time in idle.
   */
  lemma NewScrambleMidSolve(s: TimerState, now: int)
    requires Consistent(s) && s.status == Running
    ensures !Consistent(AfterNewScramble(s))
    ensures AfterNewScramble(s).status == Idle && AfterNewScramble(s).sampling == SolveClock
    ensures OnTick(AfterNewScramble(s), now).time == now - s.startTime
  {
  }

  // ---------------------------------------------------------------------------
  // The component's state, updated in place by the handlers
  // ---------------------------------------------------------------------------

  class Timer {
    var config: Config
    var status: Status
    var penalty: Penalty
    var time: int
    var inspectionTime: int
    var startTime: int
    var inspectionStart: int
    var holdPending: bool
    var sampling: Sampler
    var scramble: string
    var cube: CubeLogic.Cube

    ghost predicate Valid()
      reads this, cube
    {
      cube.Valid()
    }

    /** The timer fields as one value. */
    function State(): (s: TimerState)
      reads this
    {
      TimerState(status, penalty, time, inspectionTime, startTime, inspectionStart, holdPending, sampling)
    }

    /** Start-up: the initial timer state, then a first scramble. */
    constructor (cfg: Config)
      ensures Valid() && config == cfg && State() == AfterNewScramble(Initial)
      ensures Scramble.ValidScramble(Scramble.Split(scramble)) && |Scramble.Split(scramble)| == 20
      ensures cube.Contents() == M.FoldMoves(Constants.StdSolved, Scramble.Split(scramble))
    {
      config := cfg;
      status, penalty, time, inspectionTime := Idle, NoPenalty, 0, InspectionMs;
      startTime, inspectionStart, holdPending, sampling := 0, 0, false, Stopped;
      scramble := "Generating...";
      Constants.StdSolvedShape();
      cube := new CubeLogic.Cube(Constants.StdSolved);
      new;
      NewScramble();
    }

    /**
     * `handleNewScramble`: a 20-move scramble, the cube it leaves when applied
     * move by move to a copy of the solved cube, status idle and no penalty.
     */
    method NewScramble()
      modifies this
      ensures Valid() && config == old(config)
      ensures State() == AfterNewScramble(old(State()))
      ensures Scramble.ValidScramble(Scramble.Split(scramble)) && |Scramble.Split(scramble)| == 20
      ensures cube.Contents() == M.FoldMoves(Constants.StdSolved, Scramble.Split(scramble))
      ensures forall x :: x in Constants.Palette ==> CubeState.ColourCount(cube.Contents(), x) == 9
    {
      var movesString := CubeLogic.GenerateRandomMoves(20);
      Constants.StdSolvedShape();
      var state := new CubeLogic.Cube(Constants.StdSolved);
      var moves := Scramble.Split(movesString);
      for i := 0 to |moves|
        modifies {}
        invariant state.Valid()
        invariant state.Contents() == M.FoldMoves(Constants.StdSolved, moves[..i])
      {
        M.FoldMovesPrefix(Constants.StdSolved, moves, i);
        state := CubeLogic.ApplyMove(state, moves[i]);
      }
      assert moves[..|moves|] == moves;
      scramble := movesString;
      cube := state;
      status := Idle;
      penalty := NoPenalty;
      M.ScrambledColourCounts(moves);
    }

    method StartSolve(now: int)
      modifies this
      ensures State() == AfterStartSolve(old(State()), now)
      ensures unchanged(this`config, this`scramble, this`cube)
    {
      status := Running;
      penalty := NoPenalty;
      time := 0;
      startTime := now;
      sampling := SolveClock;
    }

    method StopSolve()
      modifies this
      ensures State() == AfterStopSolve(old(State()))
      ensures unchanged(this`config, this`scramble, this`cube)
    {
      sampling := Stopped;
      status := Finished;
    }

    method StartInspection(now: int)
      modifies this
      ensures State() == AfterStartInspection(old(State()), now)
      ensures unchanged(this`config, this`scramble, this`cube)
    {
      status := Inspecting;
      inspectionTime := InspectionMs;
      penalty := NoPenalty;
      inspectionStart := now;
      sampling := InspectionClock;
    }

    method CancelInspection()
      modifies this
      ensures State() == AfterCancelInspection(old(State()))
      ensures unchanged(this`config, this`scramble, this`cube)
    {
      sampling := Stopped;
      status := Idle;
      inspectionTime := InspectionMs;
    }

    /** `handleKeyDown` for the key `code` pressed at `now`. */
    method KeyDown(code: string, now: int)
      modifies this
      ensures State() == OnKeyDown(old(State()), config, code, now)
      ensures unchanged(this`config, this`scramble, this`cube)
    {
      if config.useInspection && code == config.inspectionHotkey {
        if status == Idle {
          StartInspection(now);
        } else if status == Inspecting {
          CancelInspection();
        }
        return;
      }
      if code == config.timerHotkey {
        if status == Running {
          StopSolve();
        } else if status == Idle && !config.useInspection {
          status := Holding;
          holdPending := true;
        } else if status == Inspecting {
          status := Holding;
          holdPending := true;
        } else if status == Finished {
          status := Holding;
          holdPending := true;
        }
      }
    }

    /**
     * `handleKeyUp` for the key `code` released at `now`; a release while
     * finished also replaces the scramble and the cube.
     */
    method KeyUp(code: string, now: int)
      requires Valid()
      modifies this
      ensures Valid() && config == old(config)
      ensures State() == OnKeyUp(old(State()), config, code, now)
      ensures !(code == config.timerHotkey && old(status) == Finished) ==>
        unchanged(this`scramble, this`cube)
      ensures code == config.timerHotkey && old(status) == Finished ==>
        Scramble.ValidScramble(Scramble.Split(scramble)) && |Scramble.Split(scramble)| == 20 &&
        cube.Contents() == M.FoldMoves(Constants.StdSolved, Scramble.Split(scramble)) &&
        forall x :: x in Constants.Palette ==> CubeState.ColourCount(cube.Contents(), x) == 9
    {
      if code == config.timerHotkey {
        if status == Ready {
          if sampling != Stopped {
            sampling := Stopped;
          }
          StartSolve(now);
        } else if status == Holding {
          holdPending := false;
          if config.useInspection && inspectionTime > -GraceMs {
            status := Inspecting;
          } else {
            status := Idle;
          }
        } else if status == Finished {
          NewScramble();
        }
      }
    }

    /** The hold timeout's callback. */
    method HoldExpired()
      modifies this
      ensures State() == OnHoldExpired(old(State()))
      ensures unchanged(this`config, this`scramble, this`cube)
    {
      if holdPending {
        holdPending := false;
        status := Ready;
      }
    }

    /** One animation frame at `now`, run by whichever sampler is scheduled. */
    method Tick(now: int)
      modifies this
      ensures State() == OnTick(old(State()), now)
      ensures unchanged(this`config, this`scramble, this`cube)
    {
      match sampling
      case Stopped =>
      case SolveClock =>
        time := now - startTime;
      case InspectionClock =>
        var elapsed := now - inspectionStart;
        var remaining := InspectionMs - elapsed;
        inspectionTime := remaining;
        if remaining < -GraceMs {
          sampling := Stopped;
          status := Finished;
          penalty := DNS;
        }
    }
  }
}
