/**
 * The persisted progress store of the memorisation app (`useStore`): which day of
 * the seven-day cycle is active, which days are done, the verse being memorised,
 * the history of memorised verses and the achievements they earned.
 */
module Store {
  import opened Prelude

  /** A verse of the curriculum. `isFallback` and `notes` are optional fields. */
  datatype Verse = Verse(
    reference: string,
    text: string,
    explanation: string,
    bookContext: string,
    keywords: seq<string>,
    emojiText: string,
    scrambled: seq<string>,
    fakeReferences: seq<string>,
    isFallback: Option<bool>,
    notes: Option<string>)

  /** The four achievements of the catalogue. */
  datatype AchievementId = FirstVerse | FiveVerses | TenVerses | TwentyFiveVerses {
    /** The catalogue key of the achievement. */
    function Key(): string {
      match this
      case FirstVerse => "1_verse"
      case FiveVerses => "5_verses"
      case TenVerses => "10_verses"
      case TwentyFiveVerses => "25_verses"
    }

    /** How many memorised verses the achievement needs. */
    function Threshold(): nat {
      match this
      case FirstVerse => 1
      case FiveVerses => 5
      case TenVerses => 10
      case TwentyFiveVerses => 25
    }
  }

  /** The achievements in the order the store checks them: ascending threshold. */
  const Ladder: seq<AchievementId> := [FirstVerse, FiveVerses, TenVerses, TwentyFiveVerses]

  // ---------------------------------------------------------------- achievements

  /** The ids of `ids`, in order, that `n` verses reach and that are not in `have`. */
  function Reached(ids: seq<AchievementId>, n: nat, have: seq<AchievementId>): seq<AchievementId>
    decreases |ids|
  {
    if ids == [] then []
    else if ids[0].Threshold() <= n && ids[0] !in have then [ids[0]] + Reached(ids[1..], n, have)
    else Reached(ids[1..], n, have)
  }

  /** The achievements `n` memorised verses earn, in ladder order. */
  function Earned(n: nat): seq<AchievementId> {
    Reached(Ladder, n, [])
  }

  /** `n` verses earn exactly the ids whose threshold is at most `n`. */
  lemma EarnedExactly(n: nat)
    ensures forall id :: id in Earned(n) <==> id.Threshold() <= n
  {
    MissingByRung(n, []);
  }

  /** The achievements a history of `n` verses newly unlocks when `have` are already unlocked. */
  function Missing(n: nat, have: seq<AchievementId>): seq<AchievementId> {
    Reached(Ladder, n, have)
  }

  /** The last element of a list, if any. */
  function LastOf(ids: seq<AchievementId>): (r: Option<AchievementId>)
    ensures r == None <==> ids == []
    ensures r.Some? ==> r.value == ids[|ids| - 1]
  {
    if ids == [] then None else Some(ids[|ids| - 1])
  }

  /** The locals of `addToHistory`: the growing achievement list and the last id pushed. */
  datatype Unlocking = Unlocking(unlocked: seq<AchievementId>, last: Option<AchievementId>)

  /** One `checkAchievement(count, id)` call, with `len` the length of the new history. */
  function CheckAchievement(acc: Unlocking, len: nat, count: nat, id: AchievementId): Unlocking {
    if len >= count && id !in acc.unlocked then Unlocking(acc.unlocked + [id], Some(id)) else acc
  }

  /** The four `checkAchievement` calls of `addToHistory`, in their order. */
  function EvaluateLadder(len: nat, have: seq<AchievementId>): Unlocking {
    var acc := Unlocking(have, None);
    var acc := CheckAchievement(acc, len, 1, FirstVerse);
    var acc := CheckAchievement(acc, len, 5, FiveVerses);
    var acc := CheckAchievement(acc, len, 10, TenVerses);
    CheckAchievement(acc, len, 25, TwentyFiveVerses)
  }

  /** `[id]` when `n` verses reach `id` and `have` lacks it, otherwise nothing. */
  function NewlyReached(id: AchievementId, n: nat, have: seq<AchievementId>): seq<AchievementId> {
    if id.Threshold() <= n && id !in have then [id] else []
  }

  /** `Reached` takes the ids one at a time. */
  lemma ReachedCons(id: AchievementId, rest: seq<AchievementId>, n: nat, have: seq<AchievementId>)
    ensures Reached([id] + rest, n, have) == NewlyReached(id, n, have) + Reached(rest, n, have)
  {
    assert ([id] + rest)[1..] == rest;
  }

  /** The missing ids, checked one rung of the ladder at a time. */
  lemma MissingByRung(n: nat, have: seq<AchievementId>)
    ensures Missing(n, have) == NewlyReached(FirstVerse, n, have) + NewlyReached(FiveVerses, n, have)
                               + NewlyReached(TenVerses, n, have) + NewlyReached(TwentyFiveVerses, n, have)
  {
    var l3: seq<AchievementId> := [TwentyFiveVerses];
    var l2 := [TenVerses] + l3;
    var l1 := [FiveVerses] + l2;
    assert Ladder == [FirstVerse] + l1;
    var m1, m2, m3, m4 := NewlyReached(FirstVerse, n, have), NewlyReached(FiveVerses, n, have),
                          NewlyReached(TenVerses, n, have), NewlyReached(TwentyFiveVerses, n, have);
    assert l3 == [TwentyFiveVerses] + [];
    ReachedCons(TwentyFiveVerses, [], n, have);
    assert Reached(l3, n, have) == m4;
    ReachedCons(TenVerses, l3, n, have);
    ReachedCons(FiveVerses, l2, n, have);
    ReachedCons(FirstVerse, l1, n, have);
    assert m1 + (m2 + (m3 + m4)) == m1 + m2 + m3 + m4;
  }

  /** One check appends `id` exactly when it is newly reached, whatever was appended before it. */
  lemma CheckAchievementStep(have: seq<AchievementId>, before: seq<AchievementId>, len: nat, id: AchievementId)
    requires id !in before
    ensures CheckAchievement(Unlocking(have + before, LastOf(before)), len, id.Threshold(), id)
         == Unlocking(have + (before + NewlyReached(id, len, have)), LastOf(before + NewlyReached(id, len, have)))
  {
    assert id in have + before <==> id in have;
    assert have + before + NewlyReached(id, len, have) == have + (before + NewlyReached(id, len, have));
  }

  /**
   * The four checks append exactly the reached and not yet unlocked ids, in
   * ascending threshold order, and leave `last` at the last of them (none: null).
   */
  lemma EvaluateLadderAppendsMissing(len: nat, have: seq<AchievementId>)
    ensures EvaluateLadder(len, have).unlocked == have + Missing(len, have)
    ensures EvaluateLadder(len, have).last == LastOf(Missing(len, have))
  {
    MissingByRung(len, have);
    var m1 := NewlyReached(FirstVerse, len, have);
    var m2 := NewlyReached(FiveVerses, len, have);
    var m3 := NewlyReached(TenVerses, len, have);
    var m4 := NewlyReached(TwentyFiveVerses, len, have);
    var a1 := CheckAchievement(Unlocking(have, None), len, 1, FirstVerse);
    assert a1 == Unlocking(have + m1, LastOf(m1)) by {
      assert have + [] == have && [] + m1 == m1;
      CheckAchievementStep(have, [], len, FirstVerse);
    }
    var a2 := CheckAchievement(a1, len, 5, FiveVerses);
    assert a2 == Unlocking(have + (m1 + m2), LastOf(m1 + m2)) by {
      CheckAchievementStep(have, m1, len, FiveVerses);
    }
    var a3 := CheckAchievement(a2, len, 10, TenVerses);
    assert a3 == Unlocking(have + (m1 + m2 + m3), LastOf(m1 + m2 + m3)) by {
      CheckAchievementStep(have, m1 + m2, len, TenVerses);
    }
    CheckAchievementStep(have, m1 + m2 + m3, len, TwentyFiveVerses);
  }

  /** Unlocking never removes an achievement: the old list is a prefix of the new one. */
  lemma EvaluateLadderOnlyGrows(len: nat, have: seq<AchievementId>)
    ensures have <= EvaluateLadder(len, have).unlocked
    ensures forall id :: id in have ==> id in EvaluateLadder(len, have).unlocked
  {
    EvaluateLadderAppendsMissing(len, have);
  }

  /** From a consistent list, one more verse unlocks exactly what the new length earns. */
  lemma EarnedStep(n: nat)
    ensures Earned(n) + Missing(n + 1, Earned(n)) == Earned(n + 1)
  {
    assert Ladder[1..][1..][1..][1..] == [];
  }

  /** From a consistent list, one more verse unlocks at most one id, and one exactly at 1, 5, 10 and 25. */
  lemma AtMostOneUnlockPerVerse(n: nat)
    ensures |Missing(n + 1, Earned(n))| <= 1
    ensures Missing(n + 1, Earned(n)) != [] <==> n + 1 in {1, 5, 10, 25}
  {
    assert Ladder[1..][1..][1..][1..] == [];
  }

  /** The first verse memorised unlocks the first achievement and nothing else. */
  lemma OneVerseEarnsFirst()
    ensures Missing(1, []) == [FirstVerse]
  {
    MissingByRung(1, []);
    assert NewlyReached(FirstVerse, 1, []) == [FirstVerse];
    assert NewlyReached(FiveVerses, 1, []) == [];
    assert NewlyReached(TenVerses, 1, []) == [];
    assert NewlyReached(TwentyFiveVerses, 1, []) == [];
  }

  /** When several thresholds are crossed at once, the highest one is reported. */
  lemma HighestCrossedIsReported()
    ensures EvaluateLadder(5, []).unlocked == [FirstVerse, FiveVerses]
    ensures EvaluateLadder(5, []).last == Some(FiveVerses)
  {
  }

  // ---------------------------------------------------------------- history

  /** Some verse of `h` has reference `r` (`history.some(v => v.reference === r)`). */
  predicate HasReference(h: seq<Verse>, r: string) {
    exists i :: 0 <= i < |h| && h[i].reference == r
  }

  /** No two verses of `h` share a reference. */
  predicate DistinctReferences(h: seq<Verse>) {
    forall i, j :: 0 <= i < j < |h| ==> h[i].reference != h[j].reference
  }

  /** `history.map(v => v.reference === r ? { ...v, notes } : v)`. */
  function WithNotes(h: seq<Verse>, r: string, notes: string): (h': seq<Verse>)
    ensures |h'| == |h|
  {
    seq(|h|, i requires 0 <= i < |h| => if h[i].reference == r then h[i].(notes := Some(notes)) else h[i])
  }

  /** Editing notes keeps every reference in place, so it keeps references distinct. */
  lemma WithNotesKeepsReferences(h: seq<Verse>, r: string, notes: string)
    ensures forall i :: 0 <= i < |h| ==> WithNotes(h, r, notes)[i].reference == h[i].reference
    ensures DistinctReferences(h) ==> DistinctReferences(WithNotes(h, r, notes))
  {
  }

  /** Editing notes of an absent reference changes nothing. */
  lemma WithNotesAbsentIsNoOp(h: seq<Verse>, r: string, notes: string)
    requires !HasReference(h, r)
    ensures WithNotes(h, r, notes) == h
  {
  }

  /** Exactly the entries with reference `r` change, and only in their notes. */
  lemma WithNotesChangesOnlyMatches(h: seq<Verse>, r: string, notes: string, i: nat)
    requires i < |h|
    ensures h[i].reference == r ==> WithNotes(h, r, notes)[i] == h[i].(notes := Some(notes))
    ensures h[i].reference != r ==> WithNotes(h, r, notes)[i] == h[i]
  {
  }

  /**
   * Prepending a verse with a new reference keeps references distinct, and the
   * ids the longer history newly unlocks complete the list the old one earned.
   */
  lemma PrependKeepsValid(h: seq<Verse>, v: Verse)
    requires DistinctReferences(h) && !HasReference(h, v.reference)
    ensures DistinctReferences([v] + h)
    ensures Earned(|h|) + Missing(|[v] + h|, Earned(|h|)) == Earned(|[v] + h|)
  {
    EarnedStep(|h|);
    var h' := [v] + h;
    forall i, j | 0 <= i < j < |h'|
      ensures h'[i].reference != h'[j].reference
    {
      assert h'[j] == h[j - 1];
      if i > 0 {
        assert h'[i] == h[i - 1];
      }
    }
  }

  // ---------------------------------------------------------------- the store

  /** The store's state and its actions; each action replaces the fields it names. */
  class ProgressStore {
    var currentDay: int
    var completedDays: seq<int>
    var currentVerse: Option<Verse>
    var history: seq<Verse>
    var isLoading: bool
    var unlockedAchievements: seq<AchievementId>
    var lastUnlockedAchievement: Option<AchievementId>

    /**
     * What the actions maintain from the initial state: references in the history
     * are distinct, the unlocked list is exactly what the history length earns,
     * and no day is recorded twice as completed.
     */
    ghost predicate Valid()
      reads this
    {
      && DistinctReferences(history)
      && unlockedAchievements == Earned(|history|)
      && (forall i, j :: 0 <= i < j < |completedDays| ==> completedDays[i] != completedDays[j])
    }

    /** The initial state of a first run. */
    constructor ()
      ensures Valid()
      ensures currentDay == 1 && completedDays == [] && currentVerse == None && history == []
      ensures !isLoading && unlockedAchievements == [] && lastUnlockedAchievement == None
    {
      currentDay := 1;
      completedDays := [];
      currentVerse := None;
      history := [];
      isLoading := false;
      unlockedAchievements := [];
      lastUnlockedAchievement := None;
    }

    /** `setCurrentDay`: unconditional; gating is the navigator's business. */
    method SetCurrentDay(day: int)
      modifies this
      ensures currentDay == day
      ensures unchanged(this`completedDays, this`currentVerse, this`history, this`isLoading)
      ensures unchanged(this`unlockedAchievements, this`lastUnlockedAchievement)
      ensures old(Valid()) ==> Valid()
    {
      currentDay := day;
    }

    /** `completeDay`: records `day` once; never moves `currentDay`. */
    method CompleteDay(day: int)
      modifies this
      ensures day in completedDays
      ensures completedDays == if day in old(completedDays) then old(completedDays) else old(completedDays) + [day]
      ensures unchanged(this`currentDay, this`currentVerse, this`history, this`isLoading)
      ensures unchanged(this`unlockedAchievements, this`lastUnlockedAchievement)
      ensures old(Valid()) ==> Valid()
    {
      if day !in completedDays {
        completedDays := completedDays + [day];
      }
    }

    /**
     * `setVerse`. The source types its argument as a verse, but an `undefined`
     * produced upstream reaches it unchanged; `None` models that value.
     */
    method SetVerse(verse: Option<Verse>)
      modifies this
      ensures currentVerse == verse
      ensures unchanged(this`currentDay, this`completedDays, this`history, this`isLoading)
      ensures unchanged(this`unlockedAchievements, this`lastUnlockedAchievement)
      ensures old(Valid()) ==> Valid()
    {
      currentVerse := verse;
    }

    /**
     * `addToHistory`: a verse whose reference is already in the history leaves the
     * whole state as it is. Otherwise the verse is prepended, the achievements the
     * new length reaches are appended in ascending threshold order, and the
     * pending toast is overwritten with the last of them, or null when none unlocks.
     */
    method AddToHistory(verse: Verse)
      modifies this
      ensures old(HasReference(history, verse.reference)) ==> unchanged(this)
      ensures !old(HasReference(history, verse.reference)) ==>
        && history == [verse] + old(history)
        && unlockedAchievements == old(unlockedAchievements) + Missing(|history|, old(unlockedAchievements))
        && lastUnlockedAchievement == LastOf(Missing(|history|, old(unlockedAchievements)))
      ensures unchanged(this`currentDay, this`completedDays, this`currentVerse, this`isLoading)
      ensures old(Valid()) ==> Valid()
    {
      var known := HasReference(history, verse.reference);
      if known {
        return;
      }
      var newHistory := [verse] + history;
      var acc := Unlocking(unlockedAchievements, None);
      acc := CheckAchievement(acc, |newHistory|, 1, FirstVerse);
      acc := CheckAchievement(acc, |newHistory|, 5, FiveVerses);
      acc := CheckAchievement(acc, |newHistory|, 10, TenVerses);
      acc := CheckAchievement(acc, |newHistory|, 25, TwentyFiveVerses);
      assert acc == EvaluateLadder(|newHistory|, unlockedAchievements);
      EvaluateLadderAppendsMissing(|newHistory|, unlockedAchievements);
      if Valid() {
        PrependKeepsValid(history, verse);
      }
      history := newHistory;
      unlockedAchievements := acc.unlocked;
      lastUnlockedAchievement := acc.last;
    }

    /** `setLoading`. */
    method SetLoading(loading: bool)
      modifies this
      ensures isLoading == loading
      ensures unchanged(this`currentDay, this`completedDays, this`currentVerse, this`history)
      ensures unchanged(this`unlockedAchievements, this`lastUnlockedAchievement)
      ensures old(Valid()) ==> Valid()
    {
      isLoading := loading;
    }

    /** `resetProgress`: back to day 1 with no day completed; history and achievements stay. */
    method ResetProgress()
      modifies this
      ensures currentDay == 1 && completedDays == []
      ensures unchanged(this`currentVerse, this`history, this`isLoading)
      ensures unchanged(this`unlockedAchievements, this`lastUnlockedAchievement)
      ensures old(Valid()) ==> Valid()
    {
      currentDay := 1;
      completedDays := [];
    }

    /** `updateNotes`: the notes of every entry with reference `reference` become `notes`. */
    method UpdateNotes(reference: string, notes: string)
      modifies this
      ensures history == WithNotes(old(history), reference, notes)
      ensures !old(HasReference(history, reference)) ==> history == old(history)
      ensures unchanged(this`currentDay, this`completedDays, this`currentVerse, this`isLoading)
      ensures unchanged(this`unlockedAchievements, this`lastUnlockedAchievement)
      ensures old(Valid()) ==> Valid()
    {
      WithNotesKeepsReferences(history, reference, notes);
      if !HasReference(history, reference) {
        WithNotesAbsentIsNoOp(history, reference, notes);
      }
      history := WithNotes(history, reference, notes);
    }

    /** `clearLastUnlockedAchievement`: the pending toast becomes null. */
    method ClearLastUnlockedAchievement()
      modifies this
      ensures lastUnlockedAchievement == None
      ensures unchanged(this`currentDay, this`completedDays, this`currentVerse, this`history)
      ensures unchanged(this`isLoading, this`unlockedAchievements)
      ensures old(Valid()) ==> Valid()
    {
      lastUnlockedAchievement := None;
    }
  }

  /** Completing the same day twice leaves the completed days as one call does. */
  method CompleteDayTwice(s: ProgressStore, day: int)
    modifies s
    ensures s.completedDays == if day in old(s.completedDays) then old(s.completedDays) else old(s.completedDays) + [day]
    ensures s.currentDay == old(s.currentDay)
  {
    s.CompleteDay(day);
    s.CompleteDay(day);
  }

  /** Adding the same verse twice changes the history, achievements and pending toast only once. */
  method AddToHistoryTwice(s: ProgressStore, verse: Verse)
    modifies s
    ensures !old(HasReference(s.history, verse.reference)) ==> s.history == [verse] + old(s.history)
    ensures old(HasReference(s.history, verse.reference)) ==> s.history == old(s.history)
    ensures !old(HasReference(s.history, verse.reference)) ==>
      && s.unlockedAchievements == old(s.unlockedAchievements) + Missing(|s.history|, old(s.unlockedAchievements))
      && s.lastUnlockedAchievement == LastOf(Missing(|s.history|, old(s.unlockedAchievements)))
    ensures old(HasReference(s.history, verse.reference)) ==>
      s.unlockedAchievements == old(s.unlockedAchievements) && s.lastUnlockedAchievement == old(s.lastUnlockedAchievement)
  {
    s.AddToHistory(verse);
    ghost var once := s.history;
    ghost var unlockedOnce := s.unlockedAchievements;
    assert HasReference(s.history, verse.reference) by {
      if !old(HasReference(s.history, verse.reference)) {
        assert s.history[0].reference == verse.reference;
      }
    }
    s.AddToHistory(verse);
    assert s.history == once && s.unlockedAchievements == unlockedOnce;
  }

  /** The end of a first cycle: one memorised verse earns the first achievement and reports it. */
  method FirstCycleEarnsFirstAchievement(verse: Verse) returns (s: ProgressStore)
    ensures s.history == [verse] && s.unlockedAchievements == [FirstVerse] && s.lastUnlockedAchievement == None
    ensures s.currentDay == 1 && s.completedDays == [] && s.Valid()
  {
    s := new ProgressStore();
    s.CompleteDay(7);
    OneVerseEarnsFirst();
    s.AddToHistory(verse);
    assert |s.history| == 1;
    assert s.unlockedAchievements == [FirstVerse];
    assert s.lastUnlockedAchievement == Some(FirstVerse);
    s.ResetProgress();
    assert s.currentDay == 1 && s.completedDays == [];
    s.ClearLastUnlockedAchievement();
    assert s.unlockedAchievements == [FirstVerse] && s.lastUnlockedAchievement == None;
  }
}
