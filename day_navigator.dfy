/**
 * The row of seven day buttons: which days are completed, which one is current,
 * which ones are locked, and the guarded click that moves the current day.
 */
module DayNavigator {
  import opened Store

  /** The days of a cycle, in the order the buttons are drawn. */
  const Days: seq<int> := [1, 2, 3, 4, 5, 6, 7]

  /** `Math.max(0, ...completedDays)`: the largest completed day, or 0. */
  function MaxCompleted(completed: seq<int>): (m: int)
    ensures m >= 0
    ensures forall i :: 0 <= i < |completed| ==> completed[i] <= m
    ensures m == 0 || m in completed
    decreases |completed|
  {
    if completed == [] then 0
    else
      var rest := MaxCompleted(completed[1..]);
      if completed[0] > rest then completed[0] else rest
  }

  /** `isCompleted`. */
  predicate IsCompleted(day: int, completed: seq<int>) {
    day in completed
  }

  /** `isCurrent`. */
  predicate IsCurrent(day: int, currentDay: int) {
    currentDay == day
  }

  /** `isLocked`: beyond the day after the furthest completed one, except day 1. */
  predicate IsLocked(day: int, completed: seq<int>) {
    day > MaxCompleted(completed) + 1 && day != 1
  }

  /** What one button shows. */
  datatype DayButton = DayButton(day: int, completed: bool, current: bool, locked: bool)

  /** The buttons of the navigator, one per day, in order. */
  function Buttons(currentDay: int, completed: seq<int>): (r: seq<DayButton>)
    ensures |r| == |Days|
  {
    seq(|Days|, i requires 0 <= i < |Days| =>
      var d := Days[i];
      DayButton(d, IsCompleted(d, completed), IsCurrent(d, currentDay), IsLocked(d, completed)))
  }

  /** Day 1 is never locked, and with nothing completed every other day is. */
  lemma OnlyDayOneOpenAtStart(day: int)
    requires day in Days
    ensures !IsLocked(1, [])
    ensures IsLocked(day, []) <==> day != 1
  {
  }

  /** A day of the cycle is open exactly up to the day after the furthest completed one. */
  lemma OpenDaysArePrefix(completed: seq<int>, day: int)
    requires 1 <= day <= 7
    ensures !IsLocked(day, completed) <==> day <= MaxCompleted(completed) + 1
  {
  }

  /** If a later day is open, every earlier day of the cycle is open too. */
  lemma OpenBelowOpen(completed: seq<int>, earlier: int, later: int)
    requires 1 <= earlier <= later
    requires !IsLocked(later, completed)
    ensures !IsLocked(earlier, completed)
  {
  }

  /** Completing days never locks a day: more completed days open at least as much. */
  lemma MoreCompletedNeverLocks(completed: seq<int>, more: seq<int>, day: int)
    requires forall c :: c in completed ==> c in more
    ensures IsLocked(day, more) ==> IsLocked(day, completed)
  {
    var m := MaxCompleted(completed);
    if m != 0 {
      var k :| 0 <= k < |more| && more[k] == m;
      assert m <= MaxCompleted(more);
    }
  }

  /** A completed day is never drawn locked. */
  lemma CompletedIsOpen(completed: seq<int>, day: int)
    requires IsCompleted(day, completed)
    ensures !IsLocked(day, completed)
  {
    var k :| 0 <= k < |completed| && completed[k] == day;
  }

  /** With only day 3 completed, days 1 to 4 are open and 5 to 7 locked; day 2 opens although day 1 is not done. */
  lemma ThirdDayCompletedOpensFour(day: int)
    requires day in Days
    ensures IsLocked(day, [3]) <==> day >= 5
    ensures !IsLocked(2, [3]) && !IsCompleted(1, [3])
  {
    assert MaxCompleted([3]) == 3;
  }

  /** Exactly one button is current when the current day is a day of the cycle. */
  lemma OneCurrentButton(currentDay: int, completed: seq<int>, i: int, j: int)
    requires 0 <= i < j < |Days|
    ensures !(Buttons(currentDay, completed)[i].current && Buttons(currentDay, completed)[j].current)
    ensures currentDay in Days ==> Buttons(currentDay, completed)[currentDay - 1].current
  {
  }

  /** The button click: a locked day is ignored, an open day becomes the current day. */
  method ClickDay(store: ProgressStore, day: int)
    modifies store
    ensures store.currentDay == if IsLocked(day, old(store.completedDays)) then old(store.currentDay) else day
    ensures unchanged(store`completedDays, store`currentVerse, store`history, store`isLoading)
    ensures unchanged(store`unlockedAchievements, store`lastUnlockedAchievement)
    ensures old(store.Valid()) ==> store.Valid()
  {
    if !IsLocked(day, store.completedDays) {
      store.SetCurrentDay(day);
    }
  }
}
