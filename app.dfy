/**
 * The application shell: loading a new verse into the store, the "recall"
 * button that shows a random memorised verse, the first load on start-up and
 * the toast announcing an unlocked achievement.
 */
module App {
  import opened Prelude
  import opened Store

  /**
   * The shell's own state: the verse shown by the recall modal and the
   * achievements announced so far, in order. The store is shared.
   */
  class Shell {
    const store: ProgressStore
    var recallVerse: Option<Verse>
    var toasts: seq<AchievementId>

    /** The shell as first rendered: no recall verse, no toast. */
    constructor (store: ProgressStore)
      ensures this.store == store
      ensures recallVerse == None && toasts == []
    {
      this.store := store;
      recallVerse := None;
      toasts := [];
    }

    /** The part of `loadNewVerse` before its `await`: the loading flag goes up. */
    method StartLoading()
      modifies store
      ensures store.isLoading
      ensures unchanged(store`currentDay, store`completedDays, store`currentVerse, store`history)
      ensures unchanged(store`unlockedAchievements, store`lastUnlockedAchievement)
      ensures old(store.Valid()) ==> store.Valid()
    {
      store.SetLoading(true);
    }

    /**
     * The part of `loadNewVerse` after its `await`. On success the store takes the
     * verse and restarts the cycle at day 1; a rejection is only logged. The
     * loading flag comes down either way.
     */
    method FinishLoading(fetched: Result<Option<Verse>>)
      modifies store
      ensures !store.isLoading
      ensures fetched.Success? ==>
                store.currentVerse == fetched.value && store.currentDay == 1 && store.completedDays == []
      ensures fetched.Failure? ==> unchanged(store`currentVerse, store`currentDay, store`completedDays)
      ensures unchanged(store`history, store`unlockedAchievements, store`lastUnlockedAchievement)
      ensures old(store.Valid()) ==> store.Valid()
    {
      if fetched.Success? {
        store.SetVerse(fetched.value);
        store.ResetProgress();
      }
      store.SetLoading(false);
    }

    /**
     * `loadNewVerse`, with `fetched` what `generateVerse` settles on. The history
     * is mapped to an exclusion list, but `generateVerse` takes no argument, so
     * nothing is excluded and the history plays no part.
     */
    method LoadNewVerse(fetched: Result<Option<Verse>>)
      modifies store
      ensures !store.isLoading
      ensures fetched.Success? ==>
                store.currentVerse == fetched.value && store.currentDay == 1 && store.completedDays == []
      ensures fetched.Failure? ==> unchanged(store`currentVerse, store`currentDay, store`completedDays)
      ensures unchanged(store`history, store`unlockedAchievements, store`lastUnlockedAchievement)
      ensures old(store.Valid()) ==> store.Valid()
    {
      StartLoading();
      FinishLoading(fetched);
    }

    /** `handleRecall`: nothing on an empty history; otherwise the entry at the index drawn. */
    method HandleRecall(index: nat)
      requires |store.history| > 0 ==> index < |store.history|
      modifies this`recallVerse
      ensures |store.history| == 0 ==> recallVerse == old(recallVerse)
      ensures |store.history| > 0 ==> recallVerse == Some(store.history[index])
      ensures recallVerse != old(recallVerse) ==> recallVerse.Some? && recallVerse.value in store.history
    {
      if |store.history| > 0 {
        recallVerse := Some(store.history[index]);
      }
    }

    /** The start-up effect: a verse is loaded only when the store holds none. */
    method Mount(fetched: Result<Option<Verse>>)
      modifies store
      ensures old(store.currentVerse).Some? ==> unchanged(store)
      ensures old(store.currentVerse).None? && fetched.Success? ==>
                store.currentVerse == fetched.value && store.currentDay == 1 && store.completedDays == []
      ensures unchanged(store`history, store`unlockedAchievements, store`lastUnlockedAchievement)
      ensures !store.isLoading || old(store.currentVerse).Some?
      ensures old(store.Valid()) ==> store.Valid()
    {
      if store.currentVerse.None? {
        LoadNewVerse(fetched);
      }
    }

    /** The toast effect: a pending achievement is announced once and then cleared. */
    method AnnounceAchievement()
      modifies this`toasts, store
      ensures toasts == old(toasts) + (if old(store.lastUnlockedAchievement).Some? then [old(store.lastUnlockedAchievement).value] else [])
      ensures store.lastUnlockedAchievement == None
      ensures unchanged(store`currentDay, store`completedDays, store`currentVerse, store`history)
      ensures unchanged(store`isLoading, store`unlockedAchievements)
      ensures old(store.Valid()) ==> store.Valid()
    {
      var pending := store.lastUnlockedAchievement;
      if pending.Some? {
        toasts := toasts + [pending.value];
        store.ClearLastUnlockedAchievement();
      }
    }
  }

  /** The effect runs again when the pending achievement changes; a second run announces nothing more. */
  method AnnounceTwice(shell: Shell)
    modifies shell, shell.store
    ensures shell.toasts == old(shell.toasts) +
      (if old(shell.store.lastUnlockedAchievement).Some? then [old(shell.store.lastUnlockedAchievement).value] else [])
  {
    shell.AnnounceAchievement();
    shell.AnnounceAchievement();
  }

  /**
   * A first start with a fresh store: a verse arrives, the cycle starts at day 1
   * with no day done, nothing is loading and the history is empty.
   */
  method FirstStart(verse: Verse) returns (store: ProgressStore)
    ensures store.currentVerse == Some(verse) && store.currentDay == 1
    ensures store.completedDays == [] && !store.isLoading && store.history == [] && store.Valid()
  {
    store := new ProgressStore();
    var shell := new Shell(store);
    shell.Mount(Success(Some(verse)));
    assert store.currentVerse == Some(verse) && store.currentDay == 1;
    assert store.completedDays == [] && !store.isLoading && store.history == [];
    assert store.Valid();
    shell.Mount(Success(None));
    assert store.currentVerse == Some(verse);
  }
}
