/**
 * The companion's progression: the wallet is debited to dispense food,
 * feeding adds experience and at most one level, and a level-up that grows
 * the cube runs through the evolution phases before it is shown. Name
 * editing and reset complete the component's state changes.
 */
module Cublet {
  import opened CubletUtils

  /** The persisted companion record. */
  datatype CubletData = CubletData(name: string, level: nat, xp: nat, totalFed: nat)

  datatype Phase = Idle | ReadyToSolve | Solving | ReadyToUpgrade

  const Fresh := CubletData("Cubie", 0, 0, 0)

  /**
   * Experience needed to leave `level`: 100 times the ceiling of 1.2 times
   * `level + 1`, computed in integers.
   */
  function XpRequired(level: nat): (req: nat)
    ensures req >= 200 && req % 100 == 0
    ensures 5 * (req / 100) >= 6 * (level + 1) > 5 * (req / 100 - 1)
  {
    XpBaseReq * ((6 * (level + 1) + 4) / 5)
  }

  /**
   * The `setCubletData` updater of a feeding: `multiplier` portions of
   * experience; reaching the requirement spends it and gains one level,
   * never more; the multiplier is added to the total fed; the name is kept.
   */
  function Fed(prev: CubletData, multiplier: nat, xpRequired: nat): (r: CubletData)
    ensures r.name == prev.name
    ensures r.totalFed == prev.totalFed + multiplier
    ensures r.level == prev.level || r.level == prev.level + 1
    ensures r.level == prev.level + 1 <==> prev.xp + XpPerFeed * multiplier >= xpRequired
    ensures r.xp + (r.level - prev.level) * xpRequired == prev.xp + XpPerFeed * multiplier
  {
    var xpGained := XpPerFeed * multiplier;
    var newXp := prev.xp + xpGained;
    if newXp >= xpRequired then
      prev.(xp := newXp - xpRequired, level := prev.level + 1, totalFed := prev.totalFed + multiplier)
    else
      prev.(xp := newXp, totalFed := prev.totalFed + multiplier)
  }

  /**
   * One feeding gains at most one level, even when the experience left over
   * already meets the next requirement.
   */
  lemma OneLevelPerFeed()
    ensures var r := Fed(Fresh, 10, XpRequired(0));
      r.level == 1 && r.xp >= XpRequired(1)
  {
  }

  /**
   * The characters `String.prototype.trim` removes: the ECMAScript white
   * space (tab, vertical tab, form feed, the space separators and the
   * byte-order mark) and the line terminators.
   */
  predicate IsSpace(c: char)
  {
    ('\t' <= c <= '\r') || c == ' ' || c == '\U{00A0}' || c == '\U{1680}' ||
    ('\U{2000}' <= c <= '\U{200A}') || c == '\U{2028}' || c == '\U{2029}' ||
    c == '\U{202F}' || c == '\U{205F}' || c == '\U{3000}' || c == '\U{FEFF}'
  }

  /** Every character of `s` is whitespace. */
  predicate AllSpace(s: string)
  {
    forall k :: 0 <= k < |s| ==> IsSpace(s[k])
  }

  function TrimStart(s: string): (r: string)
    ensures |r| <= |s| && r == s[|s| - |r|..]
    ensures r == [] || !IsSpace(r[0])
    ensures AllSpace(s[..|s| - |r|])
  {
    if s != [] && IsSpace(s[0]) then
      var r := TrimStart(s[1..]);
      assert s[..|s| - |r|] == [s[0]] + s[1..][..|s| - 1 - |r|];
      r
    else s
  }

  function TrimEnd(s: string): (r: string)
    ensures |r| <= |s| && r == s[..|r|]
    ensures r == [] || !IsSpace(r[|r| - 1])
    ensures AllSpace(s[|r|..])
  {
    if s != [] && IsSpace(s[|s| - 1]) then
      var r := TrimEnd(s[..|s| - 1]);
      assert s[|r|..] == s[..|s| - 1][|r|..] + [s[|s| - 1]];
      r
    else s
  }

  /** `trim`: the input without leading and trailing whitespace, and nothing else removed. */
  function Trim(s: string): (r: string)
    ensures r == [] || (!IsSpace(r[0]) && !IsSpace(r[|r| - 1]))
    ensures exists i, j :: 0 <= i <= j <= |s| && r == s[i..j] && AllSpace(s[..i]) && AllSpace(s[j..])
  {
    var t := TrimStart(s);
    var r := TrimEnd(t);
    SpaceAround(s, t, r);
    r
  }

  /** Cutting a whitespace prefix from `s` and then a whitespace suffix leaves a slice of `s`. */
  lemma SpaceAround(s: string, t: string, r: string)
    requires |t| <= |s| && t == s[|s| - |t|..] && AllSpace(s[..|s| - |t|])
    requires |r| <= |t| && r == t[..|r|] && AllSpace(t[|r|..])
    ensures r == [] || r[0] == t[0]
    ensures exists i, j :: 0 <= i <= j <= |s| && r == s[i..j] && AllSpace(s[..i]) && AllSpace(s[j..])
  {
    var i, j := |s| - |t|, |s| - |t| + |r|;
    assert r == s[i..j] by {
      assert r == s[i..][..|r|];
    }
    assert s[j..] == t[|r|..];
  }

  lemma TrimStartKeeps(s: string)
    requires s == [] || !IsSpace(s[0])
    ensures TrimStart(s) == s
  {
  }

  lemma TrimEndKeeps(s: string)
    requires s == [] || !IsSpace(s[|s| - 1])
    ensures TrimEnd(s) == s
  {
  }

  /** Trimming twice is trimming once. */
  lemma TrimIdempotent(s: string)
    ensures Trim(Trim(s)) == Trim(s)
  {
    var r := Trim(s);
    TrimStartKeeps(r);
    TrimEndKeeps(r);
  }

  /** A name with no surrounding whitespace is its own trim. */
  lemma TrimKeepsClean(s: string)
    requires s != [] && !IsSpace(s[0]) && !IsSpace(s[|s| - 1])
    ensures Trim(s) == s
  {
    TrimStartKeeps(s);
    TrimEndKeeps(s);
  }

  /** The companion page's state; `walletCubes` is the shared wallet's balance. */
  class Companion {
    var data: CubletData
    var visualLevel: int
    var phase: Phase
    var hasFoodItem: bool
    var feedMultiplier: nat
    var walletCubes: int
    var isEditingName: bool
    var tempName: string
    /** The 2.5-second "solving" timeout is armed and has not fired yet. */
    var solveTimerPending: bool

    /** The wallet is never overdrawn and the multiplier is one of the offered amounts. */
    ghost predicate Valid()
      reads this
    {
      walletCubes >= 0 && feedMultiplier in {1, 5, 10}
    }

    /** The page as loaded with the stored record `stored` and a wallet of `cubes`. */
    constructor (stored: CubletData, cubes: int)
      requires cubes >= 0
      ensures Valid() && data == stored && visualLevel == stored.level && phase == Idle
      ensures !hasFoodItem && feedMultiplier == 1 && walletCubes == cubes
      ensures !isEditingName && tempName == "" && !solveTimerPending
    {
      data := stored;
      visualLevel := stored.level;
      phase := Idle;
      hasFoodItem := false;
      feedMultiplier := 1;
      walletCubes := cubes;
      isEditingName := false;
      tempName := "";
      solveTimerPending := false;
    }

    /** `xpRequired`, from the level on record when the page was rendered. */
    function XpNeeded(): (req: nat)
      reads this
      ensures req >= 200
    {
      XpRequired(data.level)
    }

    /**
     * `handleMainAction`. Idle: dispense food if the wallet covers
     * `FEED_COST * multiplier` and none is out, debiting exactly that.
     * Ready-to-solve: start solving and arm the 2.5-second timeout.
     * Ready-to-upgrade: show the next level and go idle. Solving: nothing.
     */
    method HandleMainAction()
      requires Valid()
      modifies this
      ensures Valid()
      ensures old(phase) == Idle ==>
        var cost := FeedCost * old(feedMultiplier);
        if old(walletCubes) < cost || old(hasFoodItem) then
          walletCubes == old(walletCubes) && hasFoodItem == old(hasFoodItem)
        else
          walletCubes == old(walletCubes) - cost && hasFoodItem
      ensures old(phase) == Idle ==> phase == Idle && visualLevel == old(visualLevel)
      ensures old(phase) == ReadyToSolve ==> phase == Solving && solveTimerPending
      ensures old(phase) == ReadyToUpgrade ==> phase == Idle && visualLevel == old(visualLevel) + 1
      ensures old(phase) == Solving ==> phase == Solving
      ensures old(phase) != Idle ==> walletCubes == old(walletCubes) && hasFoodItem == old(hasFoodItem)
      ensures old(phase) != ReadyToSolve ==> solveTimerPending == old(solveTimerPending)
      ensures old(phase) != ReadyToUpgrade ==> visualLevel == old(visualLevel)
      ensures data == old(data) && feedMultiplier == old(feedMultiplier)
      ensures isEditingName == old(isEditingName) && tempName == old(tempName)
    {
      if phase == Idle {
        var totalCost := FeedCost * feedMultiplier;
        if walletCubes < totalCost {
          return;
        }
        if hasFoodItem {
          return;
        }
        walletCubes := walletCubes - totalCost;
        hasFoodItem := true;
        return;
      }
      if phase == ReadyToSolve {
        phase := Solving;
        solveTimerPending := true;
        return;
      }
      if phase == ReadyToUpgrade {
        visualLevel := visualLevel + 1;
        phase := Idle;
        return;
      }
    }

    /** The "solving" timeout fires: ready to upgrade, whatever the phase is by then. */
    method SolveTimerFired()
      requires Valid()
      modifies this
      ensures Valid()
      ensures old(solveTimerPending) ==> phase == ReadyToUpgrade && !solveTimerPending
      ensures !old(solveTimerPending) ==> phase == old(phase) && !solveTimerPending
      ensures data == old(data) && visualLevel == old(visualLevel) && walletCubes == old(walletCubes)
      ensures hasFoodItem == old(hasFoodItem) && feedMultiplier == old(feedMultiplier)
      ensures isEditingName == old(isEditingName) && tempName == old(tempName)
    {
      if solveTimerPending {
        solveTimerPending := false;
        phase := ReadyToUpgrade;
      }
    }

    /**
     * `consumeFood`: the food is eaten and the record updated by `Fed`. A
     * level-up into a bigger stage waits in ready-to-solve with the old level
     * shown; otherwise the new level is shown at once.
     */
    method ConsumeFood()
      requires Valid()
      modifies this
      ensures Valid() && !hasFoodItem
      ensures data == Fed(old(data), old(feedMultiplier), XpRequired(old(data.level)))
      ensures var grows := data.level > old(data.level) &&
                           GetCubletStage(data.level).size > GetCubletStage(old(data.level)).size;
        if grows then phase == ReadyToSolve && visualLevel == old(visualLevel)
        else phase == old(phase) && visualLevel == data.level
      ensures walletCubes == old(walletCubes) && feedMultiplier == old(feedMultiplier)
      ensures solveTimerPending == old(solveTimerPending)
      ensures isEditingName == old(isEditingName) && tempName == old(tempName)
    {
      hasFoodItem := false;
      var xpRequired := XpNeeded();
      var prev := data;
      var xpGained := XpPerFeed * feedMultiplier;
      var newXp := prev.xp + xpGained;
      var newLevel := prev.level;
      if newXp >= xpRequired {
        newXp := newXp - xpRequired;
        newLevel := newLevel + 1;
        var oldStage := GetCubletStage(prev.level);
        var newStage := GetCubletStage(newLevel);
        if newStage.size > oldStage.size {
          phase := ReadyToSolve;
        } else {
          visualLevel := newLevel;
        }
      } else {
        visualLevel := newLevel;
      }
      data := prev.(xp := newXp, level := newLevel, totalFed := prev.totalFed + feedMultiplier);
    }

    /** `startEditing`: the edit box starts from the current name. */
    method StartEditing()
      modifies this`tempName, this`isEditingName
      ensures tempName == data.name && isEditingName
    {
      tempName := data.name;
      isEditingName := true;
    }

    /** Typing into the edit box. */
    method SetTempName(text: string)
      modifies this`tempName
      ensures tempName == text
    {
      tempName := text;
    }

    /** The cancel button: editing ends and the name is kept. */
    method CancelEditing()
      modifies this`isEditingName
      ensures !isEditingName
    {
      isEditingName := false;
    }

    /** `saveName`: a non-blank entry becomes the name, trimmed; editing always ends. */
    method SaveName()
      modifies this`data, this`isEditingName
      ensures !isEditingName
      ensures Trim(tempName) != "" ==> data == old(data).(name := Trim(tempName))
      ensures Trim(tempName) == "" ==> data == old(data)
    {
      if Trim(tempName) != "" {
        data := data.(name := Trim(tempName));
      }
      isEditingName := false;
    }

    /** The multiplier buttons, offered while idle. */
    method SetFeedMultiplier(amount: nat)
      requires amount in {1, 5, 10}
      modifies this`feedMultiplier
      ensures feedMultiplier == amount
    {
      feedMultiplier := amount;
    }

    /**
     * `handleReset`: once confirmed, a fresh "Cubie" at level 0, nothing
     * shown above level 0, phase idle and 100 cubes in the wallet.
     * Unconfirmed, nothing changes.
     */
    method HandleReset(confirmed: bool)
      requires Valid()
      modifies this`data, this`visualLevel, this`phase, this`walletCubes
      ensures Valid()
      ensures confirmed ==> data == Fresh && visualLevel == 0 && phase == Idle && walletCubes == 100
      ensures !confirmed ==> data == old(data) && visualLevel == old(visualLevel) &&
                             phase == old(phase) && walletCubes == old(walletCubes)
    {
      if confirmed {
        data := CubletData("Cubie", 0, 0, 0);
        visualLevel := 0;
        phase := Idle;
        walletCubes := 100;
      }
    }
  }
}
