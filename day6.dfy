/**
 * Day 6, "first letter": the verse text and its reference shown one token per
 * word, each token the word's first character followed by `_` when the word is
 * longer. Completion is a plain acknowledgement and carries no logic.
 */
module Day6Activity {
  import opened Text

  /** `w.match(/[.,;!?]$/)?.[0] || ''`: the last character of the word when it is punctuation. */
  function TrailingPunctuation(w: string): (r: string)
    ensures |r| <= 1
    ensures r != [] <==> (w != [] && w[|w| - 1] in Punctuation)
    ensures r != [] ==> r[0] == w[|w| - 1]
  {
    if w != [] && w[|w| - 1] in Punctuation then [w[|w| - 1]] else ""
  }

  /**
   * The text token exactly as the component builds it. On an empty word (two
   * spaces in a row, or a leading or trailing space) `w[0]` is `undefined`, and
   * string concatenation spells that out.
   */
  function MaskWordAsWritten(w: string): string {
    (if w == [] then "undefined" else [w[0]]) + (if |w| > 1 then "_" else "") + TrailingPunctuation(w)
  }

  /** The text tokens of a list of words, as written. */
  function MaskWordsAsWritten(words: seq<string>): (r: seq<string>)
    ensures |r| == |words|
  {
    seq(|words|, i requires 0 <= i < |words| => MaskWordAsWritten(words[i]))
  }

  /** The masked text exactly as the component builds it. */
  function FirstLettersAsWritten(text: string): string {
    Join(MaskWordsAsWritten(Split(text, ' ')), ' ')
  }

  /**
   * The text token: the first character, `_` when more characters follow, and the
   * word's trailing punctuation re-appended; an empty word gives an empty token.
   */
  function MaskWord(w: string): (r: string)
    ensures r == [] <==> w == []
    ensures w != [] ==> r[0] == w[0]
    ensures |w| > 1 ==> |r| >= 2 && r[1] == '_'
    ensures w != [] ==> r[|r| - 1] == if w[|w| - 1] in Punctuation then w[|w| - 1] else if |w| > 1 then '_' else w[0]
    ensures w != [] ==> |r| == 1 + (if |w| > 1 then 1 else 0) + |TrailingPunctuation(w)|
    ensures ' ' !in w ==> ' ' !in r
  {
    if w == [] then "" else [w[0]] + (if |w| > 1 then "_" else "") + TrailingPunctuation(w)
  }

  /** The masked tokens of a list of words. */
  function MaskWords(words: seq<string>): (r: seq<string>)
    ensures |r| == |words|
  {
    seq(|words|, i requires 0 <= i < |words| => MaskWord(words[i]))
  }

  /** `text.split(' ').map(...).join(' ')`. */
  function FirstLetters(text: string): string {
    Join(MaskWords(Split(text, ' ')), ' ')
  }

  /** The masked text splits back into one token per word of the text, in order. */
  lemma FirstLettersTokens(text: string)
    ensures Split(FirstLetters(text), ' ') == MaskWords(Split(text, ' '))
    ensures |Split(FirstLetters(text), ' ')| == |Split(text, ' ')|
  {
    var tokens := MaskWords(Split(text, ' '));
    SplitJoin(tokens, ' ');
  }

  /**
   * The reference token exactly as the component builds it; an empty word shows
   * `undefined`, as in the text line.
   */
  function MaskReferenceWordAsWritten(w: string): string {
    (if w == [] then "undefined" else [w[0]]) + (if |w| > 1 then "_" else "")
  }

  /** The reference tokens of a list of words, as written. */
  function MaskReferenceWordsAsWritten(words: seq<string>): (r: seq<string>)
    ensures |r| == |words|
  {
    seq(|words|, i requires 0 <= i < |words| => MaskReferenceWordAsWritten(words[i]))
  }

  /** The masked reference exactly as the component builds it. */
  function ReferenceFirstLettersAsWritten(reference: string): string {
    Join(MaskReferenceWordsAsWritten(Split(reference, ' ')), ' ')
  }

  /**
   * A reference token: the first character and `_` when more follow; punctuation
   * is not re-appended, and an empty word gives an empty token.
   */
  function MaskReferenceWord(w: string): (r: string)
    ensures r == [] <==> w == []
    ensures |w| == 1 ==> r == w
    ensures |w| > 1 ==> r == [w[0], '_']
  {
    if w == [] then "" else [w[0]] + (if |w| > 1 then "_" else "")
  }

  /** The reference tokens of a list of words. */
  function MaskReferenceWords(words: seq<string>): (r: seq<string>)
    ensures |r| == |words|
  {
    seq(|words|, i requires 0 <= i < |words| => MaskReferenceWord(words[i]))
  }

  /** `reference.split(' ').map(...).join(' ')`. */
  function ReferenceFirstLetters(reference: string): string {
    Join(MaskReferenceWords(Split(reference, ' ')), ' ')
  }

  /** Masking a text made of space-free words masks each word and keeps the spaces between them. */
  lemma FirstLettersOfWords(words: seq<string>)
    requires |words| >= 1
    requires forall i :: 0 <= i < |words| ==> ' ' !in words[i]
    ensures FirstLetters(Join(words, ' ')) == Join(MaskWords(words), ' ')
    ensures FirstLettersAsWritten(Join(words, ' ')) == Join(MaskWordsAsWritten(words), ' ')
    ensures ReferenceFirstLetters(Join(words, ' ')) == Join(MaskReferenceWords(words), ' ')
    ensures ReferenceFirstLettersAsWritten(Join(words, ' ')) == Join(MaskReferenceWordsAsWritten(words), ' ')
  {
    SplitJoin(words, ' ');
  }

  /** The example texts below, as joins of their words. */
  lemma ExampleTexts()
    ensures Join(["Deus", "amou."], ' ') == "Deus amou."
    ensures Join(["João", "3:16"], ' ') == "João 3:16"
    ensures Join(["Deus", "", "amou"], ' ') == "Deus  amou"
  {
  }

  /** The words of the example text masked one by one. */
  lemma ExampleTextMasked()
    ensures Join(MaskWords(["Deus", "amou."]), ' ') == "D_ a_."
  {
    assert MaskWord("Deus") == "D_" && MaskWord("amou.") == "a_.";
    var m := MaskWords(["Deus", "amou."]);
    assert m == ["D_", "a_."];
  }

  /** The words of the example reference masked one by one. */
  lemma ExampleReferenceMasked()
    ensures Join(MaskReferenceWords(["João", "3:16"]), ' ') == "J_ 3_"
  {
    var m := MaskReferenceWords(["João", "3:16"]);
    assert m[0] == "J_" && m[1] == "3_";
    assert m == ["J_", "3_"];
  }

  /** The words of a text with a doubled space, masked as written. */
  lemma ExampleDoubleSpaceAsWritten()
    ensures Join(MaskWordsAsWritten(["Deus", "", "amou"]), ' ') == "D_ undefined a_"
  {
    assert MaskWordAsWritten("Deus") == "D_" && MaskWordAsWritten("amou") == "a_";
    var w := MaskWordsAsWritten(["Deus", "", "amou"]);
    assert w[0] == "D_" && w[1] == "undefined" && w[2] == "a_";
    assert w == ["D_", "undefined", "a_"];
    assert Join(["undefined", "a_"], ' ') == "undefined a_";
  }

  /** The words of a text with a doubled space, masked with the empty word kept empty. */
  lemma ExampleDoubleSpaceCorrected()
    ensures Join(MaskWords(["Deus", "", "amou"]), ' ') == "D_  a_"
  {
    assert MaskWord("Deus") == "D_" && MaskWord("amou") == "a_";
    var m := MaskWords(["Deus", "", "amou"]);
    assert m[0] == "D_" && m[1] == "" && m[2] == "a_";
    assert m == ["D_", "", "a_"];
  }

  /** The words of a reference with a doubled space, masked as written and with the empty word kept empty. */
  lemma ExampleReferenceDoubleSpace()
    ensures Join(["Jo", "", "3"], ' ') == "Jo  3"
    ensures Join(MaskReferenceWordsAsWritten(["Jo", "", "3"]), ' ') == "J_ undefined 3"
    ensures Join(MaskReferenceWords(["Jo", "", "3"]), ' ') == "J_  3"
  {
    var w := MaskReferenceWordsAsWritten(["Jo", "", "3"]);
    assert w[0] == "J_" && w[1] == "undefined" && w[2] == "3";
    assert w == ["J_", "undefined", "3"];
    assert Join(["undefined", "3"], ' ') == "undefined 3";
    var m := MaskReferenceWords(["Jo", "", "3"]);
    assert m[0] == "J_" && m[1] == "" && m[2] == "3";
    assert m == ["J_", "", "3"];
  }

  /** A worked example: punctuation stays on the text, the reference keeps only first characters. */
  lemma FirstLettersExample()
    ensures FirstLetters("Deus amou.") == "D_ a_."
    ensures ReferenceFirstLetters("João 3:16") == "J_ 3_"
  {
    ExampleTexts();
    FirstLettersOfWords(["Deus", "amou."]);
    FirstLettersOfWords(["João", "3:16"]);
    ExampleTextMasked();
    ExampleReferenceMasked();
  }

  /** A word that is a lone punctuation mark shows the mark twice. */
  lemma LonePunctuationDoubles()
    ensures MaskWord("!") == "!!"
  {
  }

  /** Two spaces in a row make the component show the word "undefined"; the corrected token is empty. */
  lemma EmptyWordShowsUndefined()
    ensures FirstLettersAsWritten("Deus  amou") == "D_ undefined a_"
    ensures FirstLetters("Deus  amou") == "D_  a_"
  {
    ExampleTexts();
    FirstLettersOfWords(["Deus", "", "amou"]);
    ExampleDoubleSpaceAsWritten();
    ExampleDoubleSpaceCorrected();
  }

  /** The reference line has the same defect: "Jo  3" shows "J_ undefined 3" where "J_  3" is meant. */
  lemma EmptyReferenceWordShowsUndefined()
    ensures ReferenceFirstLettersAsWritten("Jo  3") == "J_ undefined 3"
    ensures ReferenceFirstLetters("Jo  3") == "J_  3"
  {
    ExampleReferenceDoubleSpace();
    FirstLettersOfWords(["Jo", "", "3"]);
  }
}
