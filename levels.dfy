/** The chain of levels of one set, as the level store hands it to the
    progress tracker. A level is identified by its index; the successor of the
    level at index i (its `next` link) is the level at index i + 1, and the
    chain ends after the last index. Only the flags and limits the tracker
    reads or changes are kept. */
module Levels {

  datatype Option<T> = None | Some(value: T)

  /** One level of a set: whether it is unlocked (level_opened), whether it has been
      finished at least once ("completed"), whether it is a bonus level, its
      configured goal (coins needed to open the exit) and its time limit (0 means
      no limit). */
  datatype Level = Level(unlocked: bool, completed: bool, bonus: bool, goal: nat, time: nat)

  /** The three walks along the successor chain that settling a level performs. */
  datatype Walk =
    | BonusChain   // Challenge mode after a goal: pass every bonus level
    | LockedBonus  // Normal mode after a goal: pass bonus levels that are still locked
    | Locked       // after a fall or a time-out: pass levels that are still locked

  /** Whether walk `w` stops at level `l` (the negation of its loop condition). */
  predicate Stops(w: Walk, l: Level)
  {
    match w
    case BonusChain => !l.bonus
    case LockedBonus => !l.bonus || l.unlocked
    case Locked => l.unlocked
  }

  /** The index at which walk `w`, started at index `from`, stops; |ls| when it
      runs off the end of the chain (the null `next` of the source). */
  function Seek(ls: seq<Level>, from: nat, w: Walk): (k: nat)
    requires from <= |ls|
    ensures from <= k <= |ls|
    ensures k < |ls| ==> Stops(w, ls[k])
    ensures forall i :: from <= i < k ==> !Stops(w, ls[i])
    decreases |ls| - from
  {
    if from == |ls| || Stops(w, ls[from]) then from else Seek(ls, from + 1, w)
  }

  /** The level that walk `w` lands on when it starts at the successor of `lvl`,
      or None when no successor makes it stop. */
  function Successor(ls: seq<Level>, lvl: nat, w: Walk): (n: Option<nat>)
    requires lvl < |ls|
    ensures n.Some? ==> lvl < n.value < |ls| && Stops(w, ls[n.value])
    ensures forall i :: lvl < i < |ls| && (n.None? || i < n.value) ==> !Stops(w, ls[i])
  {
    var k := Seek(ls, lvl + 1, w);
    if k < |ls| then Some(k) else None
  }

  /** `ls` with every level whose index lies in [from, to) unlocked. */
  function OpenRange(ls: seq<Level>, from: nat, to: nat): seq<Level>
  {
    seq(|ls|, i requires 0 <= i < |ls| => if from <= i < to then ls[i].(unlocked := true) else ls[i])
  }

  /** The number of locked levels whose index lies in [from, to). */
  function Unopened(ls: seq<Level>, from: nat, to: nat): (c: nat)
    requires from <= to <= |ls|
    ensures c <= to - from
  {
    if from == to then 0 else Unopened(ls, from, to - 1) + (if ls[to - 1].unlocked then 0 else 1)
  }

  /** No level of [from, to) is locked exactly when the count of locked ones is zero. */
  lemma {:induction false} UnopenedZero(ls: seq<Level>, from: nat, to: nat)
    requires from <= to <= |ls|
    ensures Unopened(ls, from, to) == 0 <==> (forall i :: from <= i < to ==> ls[i].unlocked)
  {
    if from < to {
      UnopenedZero(ls, from, to - 1);
    }
  }

  /** The count of locked levels only looks at the levels it counts. */
  lemma {:induction false} UnopenedAgree(a: seq<Level>, b: seq<Level>, from: nat, to: nat)
    requires from <= to <= |a| && to <= |b|
    requires forall i :: from <= i < to ==> a[i].unlocked == b[i].unlocked
    ensures Unopened(a, from, to) == Unopened(b, from, to)
  {
    if from < to {
      UnopenedAgree(a, b, from, to - 1);
    }
  }

  /** Unlocking a range changes the chain exactly when the range held a locked level. */
  lemma OpenRangeChanges(ls: seq<Level>, from: nat, to: nat)
    requires from <= to <= |ls|
    ensures OpenRange(ls, from, to) == ls <==> Unopened(ls, from, to) == 0
  {
    UnopenedZero(ls, from, to);
  }

  /** After a range is unlocked, no level in it is locked any more. */
  lemma OpenRangeLeavesNoneLocked(ls: seq<Level>, from: nat, to: nat)
    requires from <= to <= |ls|
    ensures Unopened(OpenRange(ls, from, to), from, to) == 0
  {
    UnopenedZero(OpenRange(ls, from, to), from, to);
  }
}
