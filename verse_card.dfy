/**
 * The verse card: which activity the current day shows, the state it resets
 * when the day or the verse changes, the options of the day-3 reference quiz,
 * completion of a day, and the day-7 button that files the verse in the history
 * and asks the shell for a new one.
 */
module VerseCard {
  import opened Prelude
  import opened Store
  import opened App

  /** The activity of each day of the cycle. */
  datatype DayActivity =
    | ReadAndListen    // day 1
    | Explanation      // day 2
    | FillInBlanks     // day 3
    | Emojis           // day 4
    | Scramble         // day 5
    | FirstLetter      // day 6
    | FinalChallenge   // day 7
  {
    /** The day the activity belongs to. */
    function Day(): int {
      match this
      case ReadAndListen => 1
      case Explanation => 2
      case FillInBlanks => 3
      case Emojis => 4
      case Scramble => 5
      case FirstLetter => 6
      case FinalChallenge => 7
    }
  }

  /** The `switch` of `renderContent`: days 1 to 7 have an activity, any other day none. */
  function ActivityFor(day: int): (r: Option<DayActivity>)
    ensures r.Some? <==> 1 <= day <= 7
    ensures r.Some? ==> r.value.Day() == day
  {
    match day
    case 1 => Some(ReadAndListen)
    case 2 => Some(Explanation)
    case 3 => Some(FillInBlanks)
    case 4 => Some(Emojis)
    case 5 => Some(Scramble)
    case 6 => Some(FirstLetter)
    case 7 => Some(FinalChallenge)
    case _ => None
  }

  /** Every activity is shown on its own day, so distinct days show distinct activities. */
  lemma ActivityForDay(a: DayActivity, d1: int, d2: int)
    ensures ActivityFor(a.Day()) == Some(a)
    ensures ActivityFor(d1).Some? && ActivityFor(d1) == ActivityFor(d2) ==> d1 == d2
  {
  }

  /** What the card shows: nothing without a verse, otherwise the day's activity. */
  function Rendered(day: int, verse: Option<Verse>): (r: Option<DayActivity>)
    ensures r.Some? <==> verse.Some? && 1 <= day <= 7
  {
    if verse.None? then None else ActivityFor(day)
  }

  /** The unshuffled day-3 options: the true reference first, then the fake ones. */
  function ReferenceOptions(v: Verse): (r: seq<string>)
    ensures |r| == 1 + |v.fakeReferences|
    ensures v.reference in r
    ensures forall f :: f in v.fakeReferences ==> f in r
  {
    [v.reference] + v.fakeReferences
  }

  /** A shuffle of the options still offers the true reference, and exactly the options there were. */
  lemma ShuffledOptionsOfferReference(v: Verse, shuffled: seq<string>)
    requires multiset(shuffled) == multiset(ReferenceOptions(v))
    ensures v.reference in shuffled
    ensures |shuffled| == 1 + |v.fakeReferences|
    ensures forall o :: o in shuffled <==> o == v.reference || o in v.fakeReferences
  {
    assert v.reference in multiset(ReferenceOptions(v));
    forall o
      ensures o in shuffled <==> o == v.reference || o in v.fakeReferences
    {
      assert o in shuffled <==> o in multiset(shuffled);
      assert o in ReferenceOptions(v) <==> o in multiset(ReferenceOptions(v));
    }
    assert |multiset(shuffled)| == |multiset(ReferenceOptions(v))|;
  }

  /**
   * The card's local state. `scrambledWords`, `selectedWords`, `userInput`,
   * `showHint` and `referenceSolved` are reset here although the day activities
   * keep their own copies.
   */
  class Card {
    /** The shell whose `loadNewVerse` is the card's `onNewVerse`. */
    const app: Shell
    var userInput: string
    var scrambledWords: seq<string>
    var selectedWords: seq<string>
    var showHint: bool
    var isCorrect: bool
    var error: Option<string>
    var referenceSolved: bool
    var referenceOptions: seq<string>
    var isSpeaking: bool

    /** The card as first rendered, every field at its initial value. */
    constructor (app: Shell)
      ensures this.app == app
      ensures userInput == [] && scrambledWords == [] && selectedWords == [] && referenceOptions == []
      ensures !showHint && !isCorrect && error == None && !referenceSolved && !isSpeaking
    {
      this.app := app;
      userInput := [];
      scrambledWords := [];
      selectedWords := [];
      showHint := false;
      isCorrect := false;
      error := None;
      referenceSolved := false;
      referenceOptions := [];
      isSpeaking := false;
    }

    /** The verse-change condition under which the day-3 quiz is given new options. */
    predicate QuizDay()
      reads this, app, app.store
    {
      app.store.currentVerse.Some? && app.store.currentDay == 3
    }

    /**
     * The effect run when the current day or verse changes. `shuffled` is the
     * order `sort(() => Math.random() - 0.5)` happens to leave the options in.
     */
    method ResetForDay(shuffled: seq<string>)
      requires QuizDay() ==> multiset(shuffled) == multiset(ReferenceOptions(app.store.currentVerse.value))
      modifies this
      ensures userInput == [] && selectedWords == []
      ensures !showHint && !isCorrect && error == None && !referenceSolved && !isSpeaking
      ensures referenceOptions == if QuizDay() then shuffled else old(referenceOptions)
      ensures scrambledWords ==
                if app.store.currentVerse.Some? && app.store.currentDay == 5 then [] else old(scrambledWords)
    {
      userInput := [];
      selectedWords := [];
      showHint := false;
      isCorrect := false;
      error := None;
      referenceSolved := false;
      isSpeaking := false;
      if app.store.currentVerse.Some? {
        if app.store.currentDay == 3 {
          referenceOptions := shuffled;
        } else if app.store.currentDay == 5 {
          scrambledWords := [];
        }
      }
    }

    /**
     * `handleComplete`, offered by every activity: the success overlay shows and
     * the current day is recorded as done. The 1.5-second delay before the
     * store is told is collapsed.
     */
    method HandleComplete()
      requires app.store.currentVerse.Some?
      modifies this`isCorrect, app.store
      ensures isCorrect
      ensures app.store.completedDays ==
                if app.store.currentDay in old(app.store.completedDays) then old(app.store.completedDays)
                else old(app.store.completedDays) + [app.store.currentDay]
      ensures app.store.currentDay == old(app.store.currentDay)
      ensures unchanged(app.store`currentVerse, app.store`history, app.store`isLoading)
      ensures unchanged(app.store`unlockedAchievements, app.store`lastUnlockedAchievement)
      ensures old(app.store.Valid()) ==> app.store.Valid()
    {
      isCorrect := true;
      app.store.CompleteDay(app.store.currentDay);
    }

    /** The "new verse" button exists while the overlay shows on day 7. */
    predicate OffersNewVerse()
      reads this, app, app.store
    {
      app.store.currentVerse.Some? && isCorrect && app.store.currentDay == 7
    }

    /**
     * The day-7 button: the overlay closes, the verse goes into the history
     * (unless its reference is already there) and a new verse is loaded, `fetched`
     * being what the load settles on.
     */
    method StartNewVerse(fetched: Result<Option<Verse>>)
      requires OffersNewVerse()
      modifies this`isCorrect, app.store
      ensures !isCorrect
      ensures var v := old(app.store.currentVerse.value);
        app.store.history == if HasReference(old(app.store.history), v.reference) then old(app.store.history)
                             else [v] + old(app.store.history)
      ensures var v := old(app.store.currentVerse.value);
        HasReference(old(app.store.history), v.reference) ==>
          app.store.unlockedAchievements == old(app.store.unlockedAchievements)
          && app.store.lastUnlockedAchievement == old(app.store.lastUnlockedAchievement)
      ensures var v := old(app.store.currentVerse.value);
        !HasReference(old(app.store.history), v.reference) ==>
          var added := Missing(|app.store.history|, old(app.store.unlockedAchievements));
          app.store.unlockedAchievements == old(app.store.unlockedAchievements) + added
          && app.store.lastUnlockedAchievement == LastOf(added)
      ensures fetched.Success? ==>
                app.store.currentVerse == fetched.value && app.store.currentDay == 1 && app.store.completedDays == []
      ensures fetched.Failure? ==>
                app.store.currentVerse == old(app.store.currentVerse) && app.store.currentDay == 7
                && app.store.completedDays == old(app.store.completedDays)
      ensures !app.store.isLoading
      ensures old(app.store.Valid()) ==> app.store.Valid()
    {
      var verse := app.store.currentVerse.value;
      isCorrect := false;
      app.store.AddToHistory(verse);
      app.LoadNewVerse(fetched);
    }
  }

  /**
   * A full cycle's last step on a fresh store: the verse earns the first
   * achievement, and the new verse starts again at day 1 with no day done.
   */
  method SeventhDayFilesVerse(verse: Verse, next: Verse) returns (store: ProgressStore)
    ensures store.history == [verse]
    ensures store.unlockedAchievements == [FirstVerse] && store.lastUnlockedAchievement == Some(FirstVerse)
    ensures store.currentVerse == Some(next) && store.currentDay == 1 && store.completedDays == []
  {
    store := new ProgressStore();
    var shell := new Shell(store);
    store.SetVerse(Some(verse));
    store.SetCurrentDay(7);
    var card := new Card(shell);
    card.HandleComplete();
    assert store.completedDays == [7];
    card.StartNewVerse(Success(Some(next)));
    assert store.history == [verse];
    assert store.unlockedAchievements == [FirstVerse] && store.lastUnlockedAchievement == Some(FirstVerse);
    assert store.currentVerse == Some(next) && store.currentDay == 1 && store.completedDays == [];
    assert !card.isCorrect;
  }
}
