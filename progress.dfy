/** The progress tracker of one play session: the life count, score and time
    carried from level to level, the goal countdown of the level being played,
    the outcome of the last attempt and the choice of the level that comes next.

    The first half of the module holds the rules as functions of plain values;
    the class Session holds the session state, which the tracker's entry points
    update in place, and its methods are proved against those functions. */
module Progress {
  import opened Levels

  datatype Mode = Normal | Challenge

  /** Outcome of the last attempt at a level; Unset until the attempt ends. */
  datatype Status = Unset | Goal | Fall | Time

  /** What the session has gained so far: lives, cumulative score and time. */
  datatype Record = Record(balls: int, score: int, times: int)

  /** What a replay file supplies when it is loaded. */
  datatype ReplayHeader = ReplayHeader(goal: int, mode: Mode, balls: int, score: int, times: int)

  /** The rank that means "not in the high-score table". */
  const RankLast := 3

  const InitialBalls := 2

  function Max0(x: int): nat
  {
    if x < 0 then 0 else x
  }

  /*--------------------------------------------------------------------------
   * Reward balls
   *------------------------------------------------------------------------*/

  /** A score value that earns an extra ball: a positive multiple of 100. */
  function RewardBall(s: int): (r: bool)
    ensures r <==> s > 0 && s / 100 * 100 == s
    ensures r ==> s >= 100
  {
    s > 0 && s % 100 == 0
  }

  /** How many of the score values score+1, ..., score+coins earn a ball. */
  function RewardsIn(score: int, coins: int): nat
    decreases coins
  {
    if coins <= 0 then 0
    else RewardsIn(score, coins - 1) + (if RewardBall(score + coins) then 1 else 0)
  }

  /** Passing from score x - 1 to score x earns a ball exactly when the number of
      positive multiples of 100 up to the score goes up. */
  lemma RewardBallCrossing(x: int)
    ensures Max0(x) / 100 - Max0(x - 1) / 100 == if RewardBall(x) then 1 else 0
  {
    if x >= 1 {
      var q, r := (x - 1) / 100, (x - 1) % 100;
      assert x - 1 == 100 * q + r && 0 <= r < 100;
      if r == 99 {
        assert x == 100 * (q + 1) + 0;
      } else {
        assert x == 100 * q + (r + 1) && 0 <= r + 1 < 100;
      }
    }
  }

  /** The balls granted for a goal are the positive multiples of 100 in the
      half-open range (score, score + coins]. */
  lemma {:induction false} RewardsInClosedForm(score: int, coins: int)
    requires coins >= 0
    ensures RewardsIn(score, coins) == Max0(score + coins) / 100 - Max0(score) / 100
    decreases coins
  {
    if coins > 0 {
      RewardsInClosedForm(score, coins - 1);
      RewardBallCrossing(score + coins);
    }
  }

  /*--------------------------------------------------------------------------
   * Goal countdown
   *------------------------------------------------------------------------*/

  /** The goal after one simulation step, given the initial goal and the coins
      collected so far. */
  function StepGoal(goal: int, goalI: int, coins: int): int
  {
    if goal > 0 then (if goalI - coins <= 0 then 0 else goalI - coins) else goal
  }

  /** The step at which the goal is met and the exit unlocks. */
  predicate GoalReached(goal: int, goalI: int, coins: int)
  {
    goal > 0 && goalI - coins <= 0
  }

  /** A step never drives the goal below zero, leaves a met (or absent) goal
      alone, and otherwise sets it to what is still missing. */
  lemma StepGoalEffect(goal: int, goalI: int, coins: int)
    ensures goal >= 0 ==> StepGoal(goal, goalI, coins) >= 0
    ensures goal <= 0 ==> StepGoal(goal, goalI, coins) == goal
    ensures goal > 0 ==> StepGoal(goal, goalI, coins) == Max0(goalI - coins)
    ensures GoalReached(goal, goalI, coins) <==> goal > 0 && StepGoal(goal, goalI, coins) == 0
  {
  }

  /** Stepping twice on the same coin count is stepping once. */
  lemma StepGoalIdempotent(goal: int, goalI: int, coins: int)
    ensures StepGoal(StepGoal(goal, goalI, coins), goalI, coins) == StepGoal(goal, goalI, coins)
    ensures !GoalReached(StepGoal(goal, goalI, coins), goalI, coins)
  {
  }

  /** While the coin count only grows, the goal only shrinks, and it always equals
      the part of the initial goal not yet collected. */
  lemma StepGoalTracksCoins(goal: int, goalI: int, coins: int, coins': int)
    requires 0 <= coins <= coins'
    requires goal == Max0(goalI - coins)
    ensures StepGoal(goal, goalI, coins') == Max0(goalI - coins')
    ensures StepGoal(goal, goalI, coins') <= goal
  {
  }

  /*--------------------------------------------------------------------------
   * Starting a level
   *------------------------------------------------------------------------*/

  /** Whether a level may be started: it exists and is unlocked, or cheats are on. */
  predicate PlayAllowed(ls: seq<Level>, l: Option<nat>, cheat: bool)
  {
    l.Some? && l.value < |ls| && (ls[l.value].unlocked || cheat)
  }

  /** Whether the level imposes its goal: only outside Challenge mode, on a level
      already completed and with goal locking off; and always when the goal is 0. */
  predicate GoalEnabled(mode: Mode, completed: bool, goalsLocked: bool, goal: int)
  {
    (mode != Challenge && completed && !goalsLocked) || goal == 0
  }

  /** The policy spelled out case by case: goal 0 is always enabled, any other
      goal only for a completed Normal-mode level with goal locking off. */
  lemma GoalEnabledPolicy(mode: Mode, completed: bool, goalsLocked: bool, goal: int)
    ensures goal == 0 ==> GoalEnabled(mode, completed, goalsLocked, goal)
    ensures goal != 0 ==>
      (GoalEnabled(mode, completed, goalsLocked, goal) <==> mode == Normal && completed && !goalsLocked)
  {
  }

  /*--------------------------------------------------------------------------
   * Settling a level
   *------------------------------------------------------------------------*/

  /** The time recorded for an attempt: the clock itself on a level without a
      time limit, otherwise the time that was left. */
  function LevelTimer(l: Level, clock: int): int
  {
    if l.time == 0 then clock else l.time - clock
  }

  /** The walk that picks the next level after a goal. */
  function GoalWalk(mode: Mode): Walk
  {
    if mode == Challenge then BonusChain else LockedBonus
  }

  /** The effect of a goal on the level chain: the new chain, the next level, the
      number of bonus levels unlocked and whether the chain asks for high scores
      to be stored. */
  datatype GoalSettlement = GoalSettlement(levels: seq<Level>, next: Option<nat>, bonus: nat, dirty: bool)

  /** The goal outcome on level `lvl`: mark it completed; walk the successors
      (unlocking every bonus level passed in Challenge mode); unlock the level the
      walk stops at. */
  function SettleGoal(ls: seq<Level>, lvl: nat, mode: Mode): (o: GoalSettlement)
    requires lvl < |ls|
    ensures |o.levels| == |ls|
    ensures o.next.Some? ==> lvl < o.next.value < |ls|
  {
    var base := ls[lvl := ls[lvl].(completed := true)];
    var k := Seek(base, lvl + 1, GoalWalk(mode));
    var walked := if mode == Challenge then OpenRange(base, lvl + 1, k) else base;
    var gained := if mode == Challenge then Unopened(base, lvl + 1, k) else 0;
    GoalSettlement(
      if k < |ls| then walked[k := walked[k].(unlocked := true)] else walked,
      if k < |ls| then Some(k) else None,
      gained,
      !ls[lvl].completed || gained > 0 || k < |ls|)
  }

  /** Where the walk after a goal ended: the index of the next level, or the
      length of the chain when there is none. */
  function WalkEnd(ls: seq<Level>, o: GoalSettlement): nat
  {
    if o.next.Some? then o.next.value else |ls|
  }

  /** Challenge mode: every bonus level in a row after the finished one is
      unlocked, the bonus count grows by the number of them that were locked,
      and the next level is the first non-bonus successor, unlocked. */
  lemma ChallengeGoalSettlement(ls: seq<Level>, lvl: nat)
    requires lvl < |ls|
    ensures var o := SettleGoal(ls, lvl, Challenge); var e := WalkEnd(ls, o);
      && lvl < e <= |ls|
      && (e < |ls| ==> !ls[e].bonus && o.levels[e].unlocked)
      && (forall i :: lvl < i < e ==> ls[i].bonus && o.levels[i].unlocked)
      && o.bonus == Unopened(ls, lvl + 1, e)
  {
    var o := SettleGoal(ls, lvl, Challenge);
    var base := ls[lvl := ls[lvl].(completed := true)];
    var k := Seek(base, lvl + 1, BonusChain);
    assert WalkEnd(ls, o) == k;
    UnopenedAgree(base, ls, lvl + 1, k);
  }

  /** Normal mode: only bonus levels that are still locked are passed, none of
      them is unlocked, the next level is the first successor that is not such a
      level, unlocked, and the bonus count does not move. */
  lemma NormalGoalSettlement(ls: seq<Level>, lvl: nat)
    requires lvl < |ls|
    ensures var o := SettleGoal(ls, lvl, Normal); var e := WalkEnd(ls, o);
      && lvl < e <= |ls|
      && (e < |ls| ==> (!ls[e].bonus || ls[e].unlocked) && o.levels[e].unlocked)
      && (forall i :: lvl < i < e ==> ls[i].bonus && !ls[i].unlocked && !o.levels[i].unlocked)
      && o.bonus == 0
  {
    var o := SettleGoal(ls, lvl, Normal);
    var base := ls[lvl := ls[lvl].(completed := true)];
    var k := Seek(base, lvl + 1, LockedBonus);
    assert WalkEnd(ls, o) == k;
    assert forall i :: lvl < i < k ==> base[i] == ls[i] && o.levels[i] == base[i];
  }

  /** A goal marks the finished level completed, only ever unlocks levels between
      it and the end of the walk, and changes nothing else. */
  lemma GoalSettlementFrame(ls: seq<Level>, lvl: nat, mode: Mode)
    requires lvl < |ls|
    ensures var o := SettleGoal(ls, lvl, mode); var e := WalkEnd(ls, o);
      && o.levels[lvl] == ls[lvl].(completed := true)
      && (forall i :: 0 <= i < |ls| && (i < lvl || e < i) ==> o.levels[i] == ls[i])
      && (forall i :: lvl < i <= e && i < |ls| ==> o.levels[i] == ls[i].(unlocked := o.levels[i].unlocked))
      && (forall i :: 0 <= i < |ls| && ls[i].unlocked ==> o.levels[i].unlocked)
  {
  }

  /** Apart from the level's own score update, a goal asks for high scores to be
      stored exactly when the level chain changed or there is a next level (which
      is unlocked again even if it already was). */
  lemma GoalStoresExactlyOnChange(ls: seq<Level>, lvl: nat, mode: Mode)
    requires lvl < |ls|
    ensures var o := SettleGoal(ls, lvl, mode);
      o.dirty <==> o.levels != ls || o.next.Some?
  {
    var o := SettleGoal(ls, lvl, mode);
    var base := ls[lvl := ls[lvl].(completed := true)];
    var k := Seek(base, lvl + 1, GoalWalk(mode));
    if !ls[lvl].completed {
      assert o.levels[lvl] != ls[lvl];
    }
    if mode == Challenge {
      OpenRangeChanges(base, lvl + 1, k);
      if o.bonus > 0 {
        UnopenedZero(base, lvl + 1, k);
        var i :| lvl + 1 <= i < k && !base[i].unlocked;
        assert o.levels[i] != ls[i];
      }
    }
    if ls[lvl].completed && o.bonus == 0 && k == |ls| {
      assert base == ls;
    }
  }

  /** Scoring the goal of a Challenge level again, on the chain the first goal
      left behind (as a retry does), unlocks nothing new, counts no bonus level a
      second time and picks the same next level. */
  lemma ChallengeGoalRepeatGainsNothing(ls: seq<Level>, lvl: nat)
    requires lvl < |ls|
    ensures var o := SettleGoal(ls, lvl, Challenge);
      var o' := SettleGoal(o.levels, lvl, Challenge);
      && o'.levels == o.levels && o'.next == o.next && o'.bonus == 0
      && (o'.dirty <==> o.next.Some?)
  {
    var o := SettleGoal(ls, lvl, Challenge);
    var base := ls[lvl := ls[lvl].(completed := true)];
    var k := Seek(base, lvl + 1, BonusChain);
    var walked := OpenRange(base, lvl + 1, k);
    assert o.levels[lvl := o.levels[lvl].(completed := true)] == o.levels;
    var k' := Seek(o.levels, lvl + 1, BonusChain);
    assert forall i :: 0 <= i < |ls| ==> o.levels[i].bonus == base[i].bonus;
    assert k' == k;
    OpenRangeLeavesNoneLocked(base, lvl + 1, k);
    UnopenedAgree(walked, o.levels, lvl + 1, k);
    OpenRangeChanges(o.levels, lvl + 1, k);
  }

  /** A goal in Challenge mode on a level followed by three locked bonus levels
      and a normal level unlocks all four, counts three bonus levels and makes the
      normal level the next one. */
  lemma ChallengeThroughThreeBonusLevels()
    ensures var locked, bonus := Level(false, false, false, 10, 0), Level(false, false, true, 10, 0);
      var ls := [Level(true, false, false, 10, 0), bonus, bonus, bonus, locked];
      var o := SettleGoal(ls, 0, Challenge);
      && o.bonus == 3 && o.next == Some(4)
      && (forall i :: 0 <= i < 5 ==> o.levels[i].unlocked)
      && o.levels[0].completed && o.dirty
  {
    var locked, bonus := Level(false, false, false, 10, 0), Level(false, false, true, 10, 0);
    var ls := [Level(true, false, false, 10, 0), bonus, bonus, bonus, locked];
    ChallengeGoalSettlement(ls, 0);
    assert Unopened(ls, 1, 2) == 1;
    assert Unopened(ls, 1, 3) == 2;
    assert Unopened(ls, 1, 4) == 3;
  }

  /*--------------------------------------------------------------------------
   * The loops of settling a level
   *------------------------------------------------------------------------*/

  /** The reward loop of a goal: one more ball for every score value
      score+1, ..., score+coins that earns one. */
  method AddRewardBalls(balls: int, score: int, coins: int) returns (b: int)
    ensures b == balls + RewardsIn(score, coins)
    ensures coins >= 0 ==> b == balls + Max0(score + coins) / 100 - Max0(score) / 100
  {
    b := balls;
    var i := score + 1;
    while i <= score + coins
      invariant score + 1 <= i && i - score - 1 <= Max0(coins)
      invariant b == balls + RewardsIn(score, i - score - 1)
      decreases score + coins - i
    {
      if RewardBall(i) {
        b := b + 1;
      }
      i := i + 1;
    }
    if coins >= 0 {
      RewardsInClosedForm(score, coins);
    }
  }

  /** Follow the successor chain from index `from` until walk `w` stops. */
  method WalkTo(ls: seq<Level>, from: nat, w: Walk) returns (k: nat)
    requires from <= |ls|
    ensures from <= k <= |ls|
    ensures k < |ls| ==> Stops(w, ls[k])
    ensures forall j :: from <= j < k ==> !Stops(w, ls[j])
  {
    k := from;
    while k < |ls| && !Stops(w, ls[k])
      invariant from <= k <= |ls|
      invariant forall j :: from <= j < k ==> !Stops(w, ls[j])
    {
      k := k + 1;
    }
  }

  /** The Challenge-mode walk after a goal: pass every bonus level from index
      `from` on, unlocking those still locked; `gained` counts them. */
  method UnlockBonusChain(ls: seq<Level>, from: nat) returns (r: seq<Level>, k: nat, gained: nat)
    requires from <= |ls|
    ensures k == Seek(ls, from, BonusChain)
    ensures r == OpenRange(ls, from, k)
    ensures gained == Unopened(ls, from, k)
  {
    r, k, gained := ls, from, 0;
    while k < |r| && r[k].bonus
      invariant from <= k <= |ls| == |r|
      invariant r == OpenRange(ls, from, k)
      invariant forall j :: from <= j < k ==> !Stops(BonusChain, ls[j])
      invariant gained == Unopened(ls, from, k)
    {
      if !r[k].unlocked {
        r := r[k := r[k].(unlocked := true)];
        gained := gained + 1;
      }
      assert r == OpenRange(ls, from, k + 1);
      k := k + 1;
    }
  }

  /** The level-chain part of a goal on level `lvl`, as progress_stat performs it:
      mark the level completed, walk the successors, unlock the level the walk
      stops at. `dirty` tells whether any of these steps asked for high scores to
      be stored. */
  method SettleChain(ls: seq<Level>, lvl: nat, mode: Mode)
    returns (r: seq<Level>, next: Option<nat>, gained: nat, dirty: bool)
    requires lvl < |ls|
    ensures var o := SettleGoal(ls, lvl, mode);
      r == o.levels && next == o.next && gained == o.bonus && dirty == o.dirty
  {
    r := ls;
    dirty := false;
    if !r[lvl].completed {
      r := r[lvl := r[lvl].(completed := true)];
      dirty := true;
    } else {
      assert ls[lvl].(completed := true) == ls[lvl];
      assert r == ls[lvl := ls[lvl].(completed := true)];
    }
    ghost var base := r;

    // Compute the next level.
    var k: nat;
    if mode == Challenge {
      r, k, gained := UnlockBonusChain(r, lvl + 1);
      dirty := dirty || gained > 0;
    } else {
      k := WalkTo(r, lvl + 1, LockedBonus);
      gained := 0;
    }
    assert k == Seek(base, lvl + 1, GoalWalk(mode));

    // Unlock the next level, if there is one.
    if k < |r| {
      next := Some(k);
      r := r[k := r[k].(unlocked := true)];
      dirty := true;
    } else {
      next := None;
    }
  }

  /*--------------------------------------------------------------------------
   * The session
   *------------------------------------------------------------------------*/

  /** The state of one play session. The fields are the module-level variables
      of the tracker, plus the chain of levels of the set being played, whose
      flags the tracker updates; `flushes` counts the times high scores were
      stored and `goalSignals` the times the simulation was told the goal was met. */
  class Session {
    var levels: seq<Level>

    var replay: bool
    var mode: Mode
    var level: Option<nat>
    var next: Option<nat>
    var done: bool
    var bonus: int

    var curr: Record
    var prev: Record

    // Set ranks.
    var scoreRank: int
    var timesRank: int

    // Level attempt.
    var status: Status
    var coins: int
    var timer: int
    var goal: int       // current goal
    var goalI: int      // initial goal
    var goalE: bool     // goal enabled
    var sameGoalE: bool // keep goalE on the next start
    var timeRank: int
    var goalRank: int
    var coinRank: int

    ghost var flushes: nat
    ghost var goalSignals: nat

    /** The level and the next level, when present, are levels of the set. */
    ghost predicate Valid()
      reads this
    {
      && (level.Some? ==> level.value < |levels|)
      && (next.Some? ==> next.value < |levels|)
    }

    /** The state a level is in right after it was started. */
    ghost predicate Begun(lvl: nat)
      reads this
    {
      && lvl < |levels|
      && level == Some(lvl) && next == None && status == Unset && coins == 0 && timer == 0
      && goal == levels[lvl].goal && goalI == levels[lvl].goal
      && prev == curr
      && timeRank == RankLast && goalRank == RankLast && coinRank == RankLast
    }

    /** The effect of starting level `l`: refused, nothing changes; allowed,
        the level is begun, and the goal-enabled flag is kept when a restart asked
        for it and set by the policy otherwise. */
    twostate predicate Started(l: Option<nat>, cheat: bool, goalsLocked: bool, initOk: bool, ok: bool)
      reads this
    {
      if PlayAllowed(levels, l, cheat) then
        && ok == initOk
        && Begun(l.value)
        && goalE == (if old(sameGoalE) then old(goalE)
                     else GoalEnabled(mode, levels[l.value].completed, goalsLocked, levels[l.value].goal))
        && !sameGoalE
        && !LvlHigh()
      else
        && !ok
        && unchanged(this)
    }

    /** The state of a fresh program: every variable at its static initial value. */
    constructor (ls: seq<Level>)
      ensures Valid()
      ensures levels == ls && mode == Normal && !replay && !done && bonus == 0
      ensures level == None && next == None
      ensures curr == Record(0, 0, 0) && prev == curr
      ensures scoreRank == RankLast && timesRank == RankLast
      ensures status == Unset && coins == 0 && timer == 0 && goal == 0 && goalI == 0
      ensures !goalE && !sameGoalE
      ensures timeRank == RankLast && goalRank == RankLast && coinRank == RankLast
      ensures flushes == 0 && goalSignals == 0
    {
      levels := ls;
      replay, mode := false, Normal;
      level, next := None, None;
      done, bonus := false, 0;
      curr := Record(0, 0, 0);
      prev := curr;
      scoreRank, timesRank := RankLast, RankLast;
      status, coins, timer := Unset, 0, 0;
      goal, goalI := 0, 0;
      goalE, sameGoalE := false, false;
      timeRank, goalRank, coinRank := RankLast, RankLast, RankLast;
      flushes, goalSignals := 0, 0;
    }

    /** Start a new session in mode `m`. */
    method Init(m: Mode)
      requires Valid()
      modifies this`mode, this`bonus, this`replay, this`curr, this`prev,
               this`scoreRank, this`timesRank, this`done
      ensures Valid()
      ensures mode == m && bonus == 0 && !replay && !done
      ensures curr == Record(InitialBalls, 0, 0) && prev == curr
      ensures scoreRank == RankLast && timesRank == RankLast
      ensures !Dead() && !SetHigh()
    {
      mode := m;
      bonus := 0;
      replay := false;
      curr := Record(InitialBalls, 0, 0);
      prev := curr;
      scoreRank, timesRank := RankLast, RankLast;
      done := false;
    }

    /** Start level `l`. `cheat` and `goalsLocked` are the configuration's cheat
        and goal-locking options, `initOk` whether the level's simulation and
        replay recording could be set up. */
    method Play(l: Option<nat>, cheat: bool, goalsLocked: bool, initOk: bool) returns (ok: bool)
      requires Valid()
      modifies this`level, this`next, this`status, this`coins, this`timer, this`goal, this`goalI,
               this`goalE, this`sameGoalE, this`prev, this`timeRank, this`goalRank, this`coinRank
      ensures Valid()
      ensures Started(l, cheat, goalsLocked, initOk, ok)
    {
      if PlayAllowed(levels, l, cheat) {
        level := l;
        next := None;
        status := Unset;
        coins := 0;
        timer := 0;
        goal := levels[l.value].goal;
        goalI := goal;
        if sameGoalE {
          sameGoalE := false;
        } else {
          goalE := GoalEnabled(mode, levels[l.value].completed, goalsLocked, goal);
        }
        prev := curr;
        timeRank, goalRank, coinRank := RankLast, RankLast, RankLast;
        ok := initOk;
      } else {
        ok := false;
      }
    }

    /** One simulation step of the goal countdown; `coinsNow` is the number of
        coins collected so far in this attempt. */
    method Step(coinsNow: int)
      requires Valid()
      modifies this`goal, this`goalSignals
      ensures Valid()
      ensures goal == StepGoal(old(goal), goalI, coinsNow)
      ensures goalSignals == old(goalSignals) + (if GoalReached(old(goal), goalI, coinsNow) && !replay then 1 else 0)
    {
      if goal > 0 {
        goal := goalI - coinsNow;
        if goal <= 0 {
          if !replay {
            goalSignals := goalSignals + 1;
          }
          goal := 0;
        }
      }
    }

    /** Settle the attempt at the current level with outcome `s`. `coinsNow` and
        `clock` are the simulation's coin count and clock; `scoreDirty` and the
        three ranks are what the level's high-score update reported. */
    method Stat(s: Status, coinsNow: int, clock: int, scoreDirty: bool,
                newTimeRank: int, newGoalRank: int, newCoinRank: int)
      requires Valid() && level.Some?
      modifies this`status, this`coins, this`timer, this`curr, this`timeRank, this`goalRank,
               this`coinRank, this`levels, this`next, this`done, this`bonus, this`flushes
      ensures Valid()
      ensures status == s && coins == coinsNow && timer == LevelTimer(old(levels)[level.value], clock)
      ensures s == Goal ==>
        var o := SettleGoal(old(levels), level.value, mode);
        && curr == Record(old(curr.balls) + RewardsIn(old(curr.score), coinsNow),
                          old(curr.score) + coinsNow, old(curr.times) + timer)
        && timeRank == newTimeRank && coinRank == newCoinRank
        && goalRank == (if goal == 0 then newGoalRank else old(goalRank))
        && levels == o.levels && next == o.next && bonus == old(bonus) + o.bonus
        && done == (if o.next.None? then mode == Challenge else old(done))
        && flushes == old(flushes) + (if scoreDirty || o.dirty then 1 else 0)
      ensures s == Fall || s == Time ==>
        && curr == Record(old(curr.balls) - 1, old(curr.score), old(curr.times) + timer)
        && next == Successor(old(levels), level.value, Locked)
        && levels == old(levels) && bonus == old(bonus) && done == old(done) && flushes == old(flushes)
        && timeRank == old(timeRank) && goalRank == old(goalRank) && coinRank == old(coinRank)
      ensures s == Unset ==>
        && curr == old(curr) && next == old(next) && levels == old(levels) && bonus == old(bonus)
        && done == old(done) && flushes == old(flushes)
        && timeRank == old(timeRank) && goalRank == old(goalRank) && coinRank == old(coinRank)
      // What the menus may offer afterwards.
      ensures s == Goal && old(goalRank) == RankLast ==>
        (LvlHigh() <==> newTimeRank < RankLast || (goal == 0 && newGoalRank < RankLast) || newCoinRank < RankLast)
      ensures s != Goal ==> (LvlHigh() <==> old(LvlHigh()))
      ensures s == Goal ==> (NextAvail() <==> next.Some?)
      ensures s == Goal && mode == Normal ==> (Last() <==> next.None?) && (next.None? ==> !IsDone())
      ensures s == Goal && mode == Challenge ==> (next.None? ==> IsDone()) && (SameAvail() <==> !Dead())
      ensures (s == Fall || s == Time) && mode == Challenge ==> !NextAvail() && (SameAvail() <==> curr.balls >= 0)
      ensures (s == Fall || s == Time) && mode == Normal ==> (NextAvail() <==> next.Some?) && SameAvail()
    {
      status := s;
      coins := coinsNow;
      timer := LevelTimer(levels[level.value], clock);
      var dirty := false;
      match s {
        case Goal =>
          dirty := SettleGoalOutcome(scoreDirty, newTimeRank, newGoalRank, newCoinRank);
        case Fall | Time =>
          SettleMiss();
        case Unset =>
      }
      if dirty {
        flushes := flushes + 1;
      }
    }

    /** The goal branch of Stat, with `coins` and `timer` already taken; returns
        whether high scores must be stored. */
    method SettleGoalOutcome(scoreDirty: bool, newTimeRank: int, newGoalRank: int, newCoinRank: int)
      returns (dirty: bool)
      requires Valid() && level.Some?
      modifies this`curr, this`timeRank, this`goalRank, this`coinRank, this`levels, this`next,
               this`done, this`bonus
      ensures Valid()
      ensures curr == Record(old(curr.balls) + RewardsIn(old(curr.score), coins),
                             old(curr.score) + coins, old(curr.times) + timer)
      ensures timeRank == newTimeRank && coinRank == newCoinRank
      ensures goalRank == (if goal == 0 then newGoalRank else old(goalRank))
      ensures var o := SettleGoal(old(levels), level.value, mode);
        && levels == o.levels && next == o.next && bonus == old(bonus) + o.bonus
        && done == (if o.next.None? then mode == Challenge else old(done))
        && dirty == (scoreDirty || o.dirty)
    {
      var balls := AddRewardBalls(curr.balls, curr.score, coins);
      curr := Record(balls, curr.score + coins, curr.times + timer);

      dirty := scoreDirty;
      timeRank := newTimeRank;
      if goal == 0 {
        goalRank := newGoalRank;
      }
      coinRank := newCoinRank;

      var chainDirty := AdvanceChain();
      dirty := dirty || chainDirty;
    }

    /** Complete the current level, pick and unlock the next one, or, at the end
        of a Challenge set, mark the session done. */
    method AdvanceChain() returns (dirty: bool)
      requires Valid() && level.Some?
      modifies this`levels, this`next, this`done, this`bonus
      ensures Valid()
      ensures var o := SettleGoal(old(levels), level.value, mode);
        && levels == o.levels && next == o.next && bonus == old(bonus) + o.bonus
        && done == (if o.next.None? then mode == Challenge else old(done))
        && dirty == o.dirty
    {
      var walked, n, gained;
      walked, n, gained, dirty := SettleChain(levels, level.value, mode);
      levels, next, bonus := walked, n, bonus + gained;
      if n.None? {
        done := mode == Challenge;
      }
    }

    /** The fall and time-out branch of Stat: the next level is the first
        unlocked successor, a ball is lost and the time is added. */
    method SettleMiss()
      requires Valid() && level.Some?
      modifies this`curr, this`next
      ensures Valid()
      ensures curr == Record(old(curr.balls) - 1, old(curr.score), old(curr.times) + timer)
      ensures next == Successor(levels, level.value, Locked)
    {
      var k := WalkTo(levels, level.value + 1, Locked);
      next := if k < |levels| then Some(k) else None;
      curr := curr.(times := curr.times + timer, balls := curr.balls - 1);
    }

    /** Stop recording the current attempt (the recorder is not modelled). */
    method Stop()
    {
    }

    /** Close a finished session: store the set's score and time records.
        `setDirty` and the two ranks are what the set's high-score update reported. */
    method Exit(setDirty: bool, newScoreRank: int, newTimesRank: int)
      requires Valid() && done
      modifies this`scoreRank, this`timesRank, this`flushes
      ensures Valid()
      ensures scoreRank == newScoreRank && timesRank == newTimesRank
      ensures flushes == old(flushes) + (if setDirty then 1 else 0)
      ensures SetHigh() <==> newScoreRank < RankLast || newTimesRank < RankLast
    {
      scoreRank, timesRank := newScoreRank, newTimesRank;
      if setDirty {
        flushes := flushes + 1;
      }
    }

    /** Load a replay; `loaded` is what the replay file supplied, None when it
        could not be read. */
    method Replay(loaded: Option<ReplayHeader>) returns (ok: bool)
      requires Valid()
      modifies this`goal, this`goalI, this`mode, this`curr, this`replay
      ensures Valid()
      ensures ok == loaded.Some?
      ensures !ok ==> unchanged(this)
      ensures ok ==>
        && goal == loaded.value.goal && goalI == goal && mode == loaded.value.mode
        && curr == Record(loaded.value.balls, loaded.value.score, loaded.value.times)
        && replay
    {
      match loaded {
        case Some(h) =>
          goal, mode := h.goal, h.mode;
          curr := Record(h.balls, h.score, h.times);
          goalI := goal;
          replay := true;
          ok := true;
        case None =>
          ok := false;
      }
    }

    /** Move on to the next level. */
    method Next(cheat: bool, goalsLocked: bool, initOk: bool) returns (ok: bool)
      requires Valid()
      modifies this`level, this`next, this`status, this`coins, this`timer, this`goal, this`goalI,
               this`goalE, this`sameGoalE, this`prev, this`timeRank, this`goalRank, this`coinRank
      ensures Valid()
      ensures Started(old(next), cheat, goalsLocked, initOk, ok)
    {
      Stop();
      ok := Play(next, cheat, goalsLocked, initOk);
    }

    /** Play the current level again: after a goal the progress it earned is
        given back, and the goal-enabled flag is kept as it is. */
    method Same(cheat: bool, goalsLocked: bool, initOk: bool) returns (ok: bool)
      requires Valid()
      modifies this`curr, this`level, this`next, this`status, this`coins, this`timer, this`goal,
               this`goalI, this`goalE, this`sameGoalE, this`prev, this`timeRank, this`goalRank, this`coinRank
      ensures Valid()
      ensures curr == if old(status) == Goal then old(prev) else old(curr)
      ensures goalE == old(goalE)
      ensures PlayAllowed(levels, old(level), cheat) ==> ok == initOk && Begun(old(level).value) && !sameGoalE
      ensures !PlayAllowed(levels, old(level), cheat) ==>
        && !ok && sameGoalE
        && level == old(level) && next == old(next) && status == old(status) && prev == old(prev)
        && coins == old(coins) && timer == old(timer) && goal == old(goal) && goalI == old(goalI)
        && timeRank == old(timeRank) && goalRank == old(goalRank) && coinRank == old(coinRank)
    {
      Stop();
      if status == Goal {
        curr := prev;
      }
      sameGoalE := true;
      ok := Play(level, cheat, goalsLocked, initOk);
    }

    /*------------------------------------------------------------------------
     * Queries
     *----------------------------------------------------------------------*/

    /** Whether the menus offer the next level. */
    function NextAvail(): (r: bool)
      reads this
      requires Valid()
      ensures next.None? ==> !r
      ensures next.Some? && mode == Challenge ==> (r <==> status == Goal)
      ensures next.Some? && mode == Normal ==> (r <==> levels[next.value].unlocked)
    {
      match next
      case None => false
      case Some(n) => if mode == Challenge then status == Goal else levels[n].unlocked
    }

    /** Whether the menus offer to play the level again. */
    function SameAvail(): (r: bool)
      reads this
      ensures status == Unset ==> (r <==> mode == Normal)
      ensures status != Unset ==> (r <==> !Dead())
    {
      match status
      case Unset => mode != Challenge
      case _ => if mode == Challenge then !Dead() else true
    }

    /** Whether a Challenge run is lost. */
    function Dead(): (r: bool)
      reads this
      ensures r <==> mode == Challenge && curr.balls < 0
    {
      if mode == Challenge then curr.balls < 0 else false
    }

    /** Whether a Challenge run has reached the end of its set. */
    function IsDone(): bool
      reads this
    {
      done
    }

    /** Whether the last level of a Normal-mode set was just finished. */
    function Last(): (r: bool)
      reads this
      requires Valid()
      ensures r <==> mode == Normal && status == Goal && next.None?
      ensures r ==> !NextAvail()
    {
      mode != Challenge && status == Goal && next.None?
    }

    /** Whether the last attempt entered one of the level's high-score tables. */
    function LvlHigh(): (r: bool)
      reads this
      ensures r <==> timeRank < RankLast || goalRank < RankLast || coinRank < RankLast
    {
      timeRank < RankLast || goalRank < RankLast || coinRank < RankLast
    }

    /** Whether the session entered one of the set's high-score tables. */
    function SetHigh(): (r: bool)
      reads this
      ensures r <==> scoreRank < RankLast || timesRank < RankLast
    {
      scoreRank < RankLast || timesRank < RankLast
    }
  }
}
