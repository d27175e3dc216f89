/**
 * Day 3: first a quiz asking which of the offered references is the verse's,
 * then the verse text with its keywords blanked out, with a hint that shows them.
 */
module Day3Activity {
  import opened Prelude
  import opened Text

  /** The message a wrong choice shows until its timer clears it. */
  const WrongReferenceMessage: string := "Ops! Essa não é a referência correta. Tente outra!"

  /** What a blanked keyword shows while the hint is off. */
  const Blank: string := "____"

  /** The word with `[.,;!?]` removed, the form compared against the keywords. */
  function CleanWord(word: string): string {
    RemoveChars(word, Punctuation)
  }

  /** `verse.keywords.some(k => k.toLowerCase() === cleanWord.toLowerCase())`. */
  predicate IsKeyword(word: string, keywords: seq<string>) {
    exists i :: 0 <= i < |keywords| && Lower(keywords[i]) == Lower(CleanWord(word))
  }

  /** What the fill-in stage shows for one word. */
  function DisplayWord(word: string, keywords: seq<string>, showHint: bool): (r: string)
    ensures r == word || r == Blank
    ensures r == Blank && r != word ==> IsKeyword(word, keywords) && !showHint
  {
    if IsKeyword(word, keywords) then (if showHint then word else Blank) else word
  }

  /** The fill-in stage: one shown word per space-separated word of the text, in order. */
  function FillIn(text: string, keywords: seq<string>, showHint: bool): (r: seq<string>)
    ensures |r| == |Split(text, ' ')|
  {
    var words := Split(text, ' ');
    seq(|words|, i requires 0 <= i < |words| => DisplayWord(words[i], keywords, showHint))
  }

  /** With the hint off, a word is blanked exactly when it is a keyword (or is itself the blank). */
  lemma BlankedIffKeyword(text: string, keywords: seq<string>, i: int)
    requires 0 <= i < |Split(text, ' ')|
    ensures var word := Split(text, ' ')[i];
      FillIn(text, keywords, false)[i] == Blank <==> IsKeyword(word, keywords) || word == Blank
    ensures var word := Split(text, ' ')[i];
      !IsKeyword(word, keywords) ==> FillIn(text, keywords, false)[i] == word
  {
  }

  /** With the hint on, every word is shown as written, so the shown words join back to the text. */
  lemma HintShowsText(text: string, keywords: seq<string>)
    ensures FillIn(text, keywords, true) == Split(text, ' ')
    ensures Join(FillIn(text, keywords, true), ' ') == text
  {
    JoinSplit(text, ' ');
  }

  /** The two renderings differ only at keywords. */
  lemma HintChangesOnlyKeywords(text: string, keywords: seq<string>, i: int)
    requires 0 <= i < |Split(text, ' ')|
    requires FillIn(text, keywords, false)[i] != FillIn(text, keywords, true)[i]
    ensures IsKeyword(Split(text, ' ')[i], keywords)
  {
  }

  /** The shown words of a text made of space-free words, one per word. */
  lemma FillInOfWords(words: seq<string>, keywords: seq<string>, showHint: bool)
    requires |words| >= 1
    requires forall i :: 0 <= i < |words| ==> ' ' !in words[i]
    ensures Split(Join(words, ' '), ' ') == words
    ensures FillIn(Join(words, ' '), keywords, showHint)
      == seq(|words|, i requires 0 <= i < |words| => DisplayWord(words[i], keywords, showHint))
  {
    SplitJoin(words, ' ');
  }

  /** Removing punctuation commutes with lower-casing, since no punctuation mark is a letter. */
  lemma {:induction false} CleanWordLower(word: string)
    ensures CleanWord(Lower(word)) == Lower(CleanWord(word))
    decreases |word|
  {
    if word != [] {
      var c, rest := word[0], word[1..];
      CleanWordLower(rest);
      assert word == [c] + rest;
      LowerCons(c, rest);
      if c in Punctuation {
        CleanWordCons(LowerChar(c), Lower(rest));
        CleanWordCons(c, rest);
      } else {
        CleanWordCons(LowerChar(c), Lower(rest));
        CleanWordCons(c, rest);
        LowerCons(c, CleanWord(rest));
      }
    }
  }

  /** Lower-casing character by character. */
  lemma LowerCons(c: char, rest: string)
    ensures Lower([c] + rest) == [LowerChar(c)] + Lower(rest)
    ensures c in Punctuation <==> LowerChar(c) in Punctuation
  {
  }

  /** Cleaning character by character. */
  lemma CleanWordCons(c: char, rest: string)
    ensures CleanWord([c] + rest) == if c in Punctuation then CleanWord(rest) else [c] + CleanWord(rest)
  {
    assert ([c] + rest)[1..] == rest;
  }

  /** Keyword matching ignores the case of the word. */
  lemma IsKeywordIgnoresCase(word: string, keywords: seq<string>)
    ensures IsKeyword(Lower(word), keywords) <==> IsKeyword(word, keywords)
  {
    CleanWordLower(word);
    LowerIdempotent(CleanWord(word));
  }

  /** Keyword matching ignores punctuation after the word. */
  lemma IsKeywordIgnoresTrailingPunctuation(word: string, mark: char, keywords: seq<string>)
    requires mark in Punctuation
    ensures IsKeyword(word + [mark], keywords) <==> IsKeyword(word, keywords)
  {
    RemoveCharsAppend(word, [mark], Punctuation);
    assert RemoveChars([mark], Punctuation) == [];
    assert CleanWord(word + [mark]) == CleanWord(word);
  }

  /**
   * The component's state. The quiz buttons exist only while the reference is
   * unsolved, and the hint button and completion only once it is solved.
   */
  class ReferenceQuiz {
    /** The verse's true reference. */
    const reference: string
    /** The options offered, built by the verse card. */
    const options: seq<string>
    var referenceSolved: bool
    var error: Option<string>
    var showHint: bool

    /** A fresh component: unsolved, no error, hint off. */
    constructor (reference: string, options: seq<string>)
      ensures this.reference == reference && this.options == options
      ensures !referenceSolved && error == None && !showHint
    {
      this.reference := reference;
      this.options := options;
      referenceSolved := false;
      error := None;
      showHint := false;
    }

    /** A click on an option: solved exactly when the option is the reference, otherwise the error shows. */
    method Choose(option: string)
      requires !referenceSolved
      requires option in options
      modifies this`referenceSolved, this`error
      ensures referenceSolved <==> option == reference
      ensures error == if option == reference then old(error) else Some(WrongReferenceMessage)
    {
      if option == reference {
        referenceSolved := true;
      } else {
        error := Some(WrongReferenceMessage);
      }
    }

    /** The two-second timer after a wrong choice. */
    method ClearError()
      modifies this`error
      ensures error == None
    {
      error := None;
    }

    /** The hint button of the fill-in stage. */
    method ToggleHint()
      requires referenceSolved
      modifies this`showHint
      ensures showHint == !old(showHint)
    {
      showHint := !showHint;
    }

    /** Completion is offered only in the fill-in stage. */
    predicate CanComplete()
      reads this
    {
      referenceSolved
    }
  }

  /** Toggling the hint twice restores it, and the stage stays completable. */
  method ToggleHintTwice(quiz: ReferenceQuiz)
    requires quiz.referenceSolved
    modifies quiz
    ensures quiz.showHint == old(quiz.showHint)
    ensures quiz.CanComplete()
  {
    quiz.ToggleHint();
    quiz.ToggleHint();
  }
}
