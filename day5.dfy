/**
 * Day 5, "put it in order": the words of the verse and the pieces of its
 * reference are shuffled into one pool; the user moves tokens between the pool
 * and the answer line, and the answer is checked against the verse on
 * normalised strings.
 */
module Day5Activity {
  import opened Prelude
  import opened Text
  import opened Store

  /** The message a wrong arrangement shows. */
  const WrongOrderMessage: string :=
    "Ops! A ordem não está correta. Verifique o texto e a referência (Livro Capítulo : Versículo)!"

  // ---------------------------------------------------------------- tokens

  /** `s.lastIndexOf(c)`: the last position holding `c`, or -1. */
  function LastIndexOf(s: string, c: char): (r: int)
    ensures -1 <= r < |s|
    ensures r == -1 <==> c !in s
    ensures r >= 0 ==> s[r] == c && c !in s[r + 1..]
    decreases |s|
  {
    if s == [] then -1
    else if s[|s| - 1] == c then |s| - 1
    else
      assert s == s[..|s| - 1] + [s[|s| - 1]];
      LastIndexOf(s[..|s| - 1], c)
  }

  /**
   * The reference as puzzle tokens: when it has exactly one `:` and a space
   * before it, `[book, chapter, ":", verse]` split at the last space before the
   * colon; otherwise the whole reference as one token.
   */
  function ReferenceTokens(reference: string): seq<string> {
    var parts := Split(reference, ':');
    if |parts| == 2 then
      var bookChapter, verseNum := parts[0], parts[1];
      var lastSpace := LastIndexOf(bookChapter, ' ');
      if lastSpace != -1 then [bookChapter[..lastSpace], bookChapter[lastSpace + 1..], ":", verseNum]
      else [reference]
    else [reference]
  }

  /**
   * The reference splits into four tokens exactly when it has one colon with a
   * space before it; the four tokens rebuild it, with the colon as a token of its
   * own and the chapter free of spaces. Otherwise it stays whole.
   */
  lemma ReferenceTokensSplit(reference: string)
    ensures var r := ReferenceTokens(reference);
            (|r| == 1 || |r| == 4) && (|r| == 1 ==> r == [reference])
    ensures var r := ReferenceTokens(reference);
            |r| == 4 <==> |Split(reference, ':')| == 2 && ' ' in Split(reference, ':')[0]
    ensures var r := ReferenceTokens(reference);
            |r| == 4 ==> r[2] == ":" && reference == r[0] + " " + r[1] + ":" + r[3]
    ensures var r := ReferenceTokens(reference);
            |r| == 4 ==> ':' !in r[0] && ':' !in r[1] && ' ' !in r[1] && ':' !in r[3]
  {
    var parts := Split(reference, ':');
    var r := ReferenceTokens(reference);
    if |parts| == 2 && LastIndexOf(parts[0], ' ') != -1 {
      var bookChapter, verseNum := parts[0], parts[1];
      var k := LastIndexOf(bookChapter, ' ');
      assert r == [bookChapter[..k], bookChapter[k + 1..], ":", verseNum];
      JoinSplit(reference, ':');
      assert Join(parts, ':') == bookChapter + [':'] + Join(parts[1..], ':');
      assert reference == bookChapter + ":" + verseNum;
      CutAround(bookChapter, k);
      assert reference == bookChapter[..k] + " " + bookChapter[k + 1..] + ":" + verseNum;
    } else {
      assert r == [reference];
    }
  }

  /** Cutting a string around position `k` keeps the characters on either side, and nothing else. */
  lemma CutAround(s: string, k: int)
    requires 0 <= k < |s|
    ensures s == s[..k] + [s[k]] + s[k + 1..]
    ensures forall c :: c !in s ==> c !in s[..k] && c !in s[k + 1..]
  {
    assert forall i :: 0 <= i < k ==> s[..k][i] == s[i];
    assert forall i :: k + 1 <= i < |s| ==> s[k + 1..][i - k - 1] == s[i];
  }

  /** A reference without a colon stays one token. */
  lemma ReferenceWithoutColon(reference: string)
    requires ':' !in reference
    ensures ReferenceTokens(reference) == [reference]
  {
    SplitWithoutSeparator(reference, ':');
  }

  /** Every token of the puzzle: the words of the text, then the reference tokens. */
  function Tokens(verse: Verse): seq<string> {
    Split(verse.text, ' ') + ReferenceTokens(verse.reference)
  }

  /** A shuffle of the puzzle's tokens (`sort(() => Math.random() - 0.5)` yields some permutation). */
  predicate IsScrambleOf(shuffled: seq<string>, verse: Verse) {
    multiset(shuffled) == multiset(Tokens(verse))
  }

  // ---------------------------------------------------------------- the check

  /** The length of the leading white-space run of `s`. */
  function SpaceRun(s: string): (k: nat)
    ensures k <= |s|
    ensures k < |s| ==> !IsSpace(s[k])
    decreases |s|
  {
    if s != [] && IsSpace(s[0]) then 1 + SpaceRun(s[1..]) else 0
  }

  /** Every character of the leading run is white space. */
  lemma {:induction false} SpaceRunIsSpace(s: string, i: nat)
    requires i < SpaceRun(s)
    ensures IsSpace(s[i])
    decreases |s|
  {
    if i > 0 {
      SpaceRunIsSpace(s[1..], i - 1);
    }
  }

  /** A leading run of white space is counted whole. */
  lemma {:induction false} SpaceRunOfSpaces(a: string, b: string)
    requires IsBlank(a)
    ensures SpaceRun(a + b) == |a| + SpaceRun(b)
    decreases |a|
  {
    if a == [] {
      assert a + b == b;
    } else {
      assert (a + b)[0] == a[0] && IsSpace(a[0]);
      assert (a + b)[1..] == a[1..] + b;
      assert IsBlank(a[1..]) by {
        forall i | 0 <= i < |a[1..]|
          ensures IsSpace(a[1..][i])
        {
          assert a[1..][i] == a[i + 1];
        }
      }
      SpaceRunOfSpaces(a[1..], b);
    }
  }

  /**
   * The length of the match of `/\s+:\s+/` at the head of `s`: a run of white
   * space, a colon and another run of white space, each run taken whole; 0 when
   * no match starts there.
   */
  function MatchAtHead(s: string): (n: nat)
    ensures n <= |s|
  {
    var k := SpaceRun(s);
    if 0 < k < |s| && s[k] == ':' && SpaceRun(s[k + 1..]) > 0 then k + 1 + SpaceRun(s[k + 1..]) else 0
  }

  /**
   * `s.replace(/\s+:\s+/g, ':')`: scanning left to right, a run of white space,
   * a colon and another run of white space become a single colon.
   */
  function CollapseSpacedColons(s: string): (r: string)
    ensures |r| <= |s|
    decreases |s|
  {
    if s == [] then []
    else if MatchAtHead(s) > 0 then [':'] + CollapseSpacedColons(s[MatchAtHead(s)..])
    else [s[0]] + CollapseSpacedColons(s[1..])
  }

  /**
   * The match at the head: white space, a colon and white space, with nothing
   * but white space on either side of the colon, become one colon and the scan
   * resumes after the second run.
   */
  lemma CollapseSpacedColonRun(before: string, after: string, t: string)
    requires before != [] && IsBlank(before) && after != [] && IsBlank(after)
    requires t == [] || !IsSpace(t[0])
    ensures CollapseSpacedColons(before + ":" + after + t) == ":" + CollapseSpacedColons(t)
  {
    var s := SpacedColonShape(before, after, t);
    CollapseMatchAtHead(s);
  }

  /** Where the runs and the colon of `before + ":" + after + t` lie. */
  lemma SpacedColonShape(before: string, after: string, t: string) returns (s: string)
    requires before != [] && IsBlank(before) && after != [] && IsBlank(after)
    requires t == [] || !IsSpace(t[0])
    ensures s == before + ":" + after + t
    ensures |before| < |s| && SpaceRun(s) == |before| && s[|before|] == ':'
    ensures SpaceRun(s[|before| + 1..]) == |after| && s[|before| + 1 + |after|..] == t
    ensures MatchAtHead(s) == |before| + 1 + |after|
  {
    var rest := [':'] + (after + t);
    s := before + rest;
    assert before + ":" + after + t == s;
    assert SpaceRun(rest) == 0 by { assert rest[0] == ':'; }
    SpaceRunOfSpaces(before, rest);
    assert SpaceRun(t) == 0;
    SpaceRunOfSpaces(after, t);
    assert s[|before| + 1..] == after + t;
    assert (after + t)[|after|..] == t;
  }

  /** Where a match starts at the head, it becomes one colon and the scan resumes after it. */
  lemma CollapseMatchAtHead(s: string)
    requires s != [] && MatchAtHead(s) > 0
    ensures CollapseSpacedColons(s) == [':'] + CollapseSpacedColons(s[MatchAtHead(s)..])
  {
  }

  /** No colon of `s` has white space right before it. */
  predicate NoSpaceBeforeColon(s: string) {
    forall i :: 0 < i < |s| ==> !SpaceThenColon(s, i)
  }

  /** Position `i` of `s` holds a colon right after white space. */
  predicate SpaceThenColon(s: string, i: int) {
    0 < i < |s| && s[i] == ':' && IsSpace(s[i - 1])
  }

  /** Dropping the first character keeps colons away from white space. */
  lemma NoSpaceBeforeColonOfTail(s: string)
    requires s != [] && NoSpaceBeforeColon(s)
    ensures NoSpaceBeforeColon(s[1..])
    ensures |s| > 1 && !IsSpace(s[|s| - 1]) ==> !IsSpace(s[1..][|s| - 2])
  {
    var tail := s[1..];
    forall i | 0 < i < |tail|
      ensures !SpaceThenColon(tail, i)
    {
      if SpaceThenColon(tail, i) {
        assert SpaceThenColon(s, i + 1);
      }
    }
  }

  /** Nothing collapses in a string where no colon follows white space. */
  lemma {:induction false} CollapseIdentity(s: string)
    requires NoSpaceBeforeColon(s)
    ensures CollapseSpacedColons(s) == s
    decreases |s|
  {
    if s != [] {
      var k := SpaceRun(s);
      if 0 < k < |s| {
        SpaceRunIsSpace(s, k - 1);
        assert !SpaceThenColon(s, k);
      }
      NoSpaceBeforeColonOfTail(s);
      CollapseIdentity(s[1..]);
    }
  }

  /** Collapsing `x + " : " + v` joins the colon to both sides when nothing else collapses. */
  lemma CollapseAcrossSpacedColon(x: string, v: string)
    requires x != [] && !IsSpace(x[|x| - 1]) && NoSpaceBeforeColon(x)
    requires ':' !in v && (v == [] || !IsSpace(v[0]))
    ensures CollapseSpacedColons(x + " : " + v) == x + ":" + v
  {
    var y := " : " + v;
    assert x + " : " + v == x + y;
    CollapseKeepsPrefix(x, y);
    CollapseColonHead(v);
  }

  /** A prefix that ends in a non-space and has no colon after white space passes through unchanged. */
  lemma {:induction false} CollapseKeepsPrefix(x: string, y: string)
    requires x != [] && !IsSpace(x[|x| - 1]) && NoSpaceBeforeColon(x)
    ensures CollapseSpacedColons(x + y) == x + CollapseSpacedColons(y)
    decreases |x|
  {
    CollapseKeepsHead(x, y);
    var tail := x[1..];
    if |x| == 1 {
      assert x == [x[0]] && tail + y == y;
    } else {
      NoSpaceBeforeColonOfTail(x);
      assert tail[|tail| - 1] == x[|x| - 1];
      CollapseKeepsPrefix(tail, y);
      ConsTail(x, CollapseSpacedColons(y));
    }
  }

  /** No match starts at the head of `x + y` when `x` keeps colons away from white space and ends in a non-space. */
  lemma CollapseKeepsHead(x: string, y: string)
    requires x != [] && !IsSpace(x[|x| - 1]) && NoSpaceBeforeColon(x)
    ensures CollapseSpacedColons(x + y) == [x[0]] + CollapseSpacedColons(x[1..] + y)
  {
    var s := x + y;
    assert s[1..] == x[1..] + y;
    var k := SpaceRun(s);
    SpaceRunStopsInside(x, y);
    if 0 < k {
      SpaceRunIsSpace(s, k - 1);
      assert IsSpace(x[k - 1]) && s[k] == x[k];
      assert !SpaceThenColon(x, k);
    }
    CollapseNoMatchAtHead(s);
  }

  /** A string is its head followed by its tail. */
  lemma ConsTail(x: string, y: string)
    requires x != []
    ensures [x[0]] + (x[1..] + y) == x + y
  {
    assert x == [x[0]] + x[1..];
  }

  /** Where no match starts at the head, the head character is kept. */
  lemma CollapseNoMatchAtHead(s: string)
    requires s != []
    requires var k := SpaceRun(s); k == 0 || k == |s| || s[k] != ':'
    ensures MatchAtHead(s) == 0
    ensures CollapseSpacedColons(s) == [s[0]] + CollapseSpacedColons(s[1..])
  {
  }

  /** `" : " + v` collapses to `":" + v` when `v` has no colon and does not start with white space. */
  lemma CollapseColonHead(v: string)
    requires ':' !in v && (v == [] || !IsSpace(v[0]))
    ensures CollapseSpacedColons(" : " + v) == ":" + v
  {
    assert " " + ":" + " " + v == " : " + v;
    CollapseSpacedColonRun(" ", " ", v);
    CollapseWithoutColon(v);
  }

  /** A string without a colon is left unchanged. */
  lemma CollapseWithoutColon(s: string)
    requires ':' !in s
    ensures CollapseSpacedColons(s) == s
  {
    assert NoSpaceBeforeColon(s) by {
      forall i | 0 < i < |s|
        ensures !SpaceThenColon(s, i)
      {
        assert s[i] in s;
      }
    }
    CollapseIdentity(s);
  }

  /** A white-space run starting in `x`, which ends in a non-space, stops inside `x`. */
  lemma {:induction false} SpaceRunStopsInside(x: string, y: string)
    requires x != [] && !IsSpace(x[|x| - 1])
    ensures SpaceRun(x + y) < |x|
    ensures SpaceRun(x + y) == SpaceRun(x)
    decreases |x|
  {
    if IsSpace(x[0]) {
      assert (x + y)[1..] == x[1..] + y;
      SpaceRunStopsInside(x[1..], y);
    }
  }

  /** The answer line normalised: joined with spaces, spaced colons collapsed, punctuation removed, lower-cased. */
  function NormalizeSelection(selected: seq<string>): string {
    Lower(RemoveChars(CollapseSpacedColons(Join(selected, ' ')), Punctuation))
  }

  /** The verse normalised: text, a space and the reference, punctuation removed, lower-cased. */
  function NormalizeVerse(verse: Verse): string {
    Lower(RemoveChars(verse.text + " " + verse.reference, Punctuation))
  }

  /** The "Verificar" predicate. */
  predicate ArrangementCorrect(selected: seq<string>, verse: Verse) {
    NormalizeSelection(selected) == NormalizeVerse(verse)
  }

  /**
   * Putting every token back in its original order passes the check, for a
   * reference shaped `Book Chapter:Verse` and a text in which no colon follows
   * white space.
   */
  lemma InOrderPasses(verse: Verse, book: string, chapter: string, verseNum: string)
    requires verse.reference == book + " " + chapter + ":" + verseNum
    requires ':' !in book && ':' !in verseNum
    requires chapter != [] && ':' !in chapter && ' ' !in chapter && !IsSpace(chapter[|chapter| - 1])
    requires verseNum == [] || !IsSpace(verseNum[0])
    requires NoSpaceBeforeColon(verse.text)
    ensures ReferenceTokens(verse.reference) == [book, chapter, ":", verseNum]
    ensures ArrangementCorrect(Tokens(verse), verse)
  {
    var text := verse.text;
    ReferenceTokensOfShape(book, chapter, verseNum);
    var x := text + " " + book + " " + chapter;
    InOrderJoined(text, book, chapter, verseNum);
    CollapseAcrossSpacedColon(x, verseNum);
  }

  /** The in-order answer line is `x + " : " + verse`, where `x` keeps colons away from white space. */
  lemma InOrderJoined(text: string, book: string, chapter: string, verseNum: string)
    requires ':' !in book && chapter != [] && ':' !in chapter && !IsSpace(chapter[|chapter| - 1])
    requires NoSpaceBeforeColon(text)
    ensures var x := text + " " + book + " " + chapter;
      && x != [] && !IsSpace(x[|x| - 1]) && NoSpaceBeforeColon(x)
      && Join(Split(text, ' ') + [book, chapter, ":", verseNum], ' ') == x + " : " + verseNum
      && x + ":" + verseNum == text + " " + (book + " " + chapter + ":" + verseNum)
  {
    var x := text + " " + book + " " + chapter;
    JoinInOrder(text, book, chapter, verseNum);
    NoSpaceBeforeColonOfPrefix(text, book, chapter);
    assert x[|x| - 1] == chapter[|chapter| - 1];
  }

  /** The example verse: its reference gives four tokens, and the in-order answer passes. */
  lemma ExampleInOrderPasses(verse: Verse)
    requires verse.text == "Deus amou o mundo" && verse.reference == "João 3:16"
    ensures ReferenceTokens(verse.reference) == ["João", "3", ":", "16"]
    ensures ArrangementCorrect(Tokens(verse), verse)
  {
    assert verse.reference == "João" + " " + "3" + ":" + "16";
    assert NoSpaceBeforeColon(verse.text);
    InOrderPasses(verse, "João", "3", "16");
  }

  /** The first character of a join is that of its first piece. */
  lemma JoinHead(parts: seq<string>, sep: char)
    requires |parts| >= 1 && parts[0] != []
    ensures Join(parts, sep) != [] && Join(parts, sep)[0] == parts[0][0]
  {
  }

  /** Removing punctuation and lower-casing keep a leading character that is not punctuation, lower-cased. */
  lemma CleanedHead(s: string)
    requires s != [] && s[0] !in Punctuation
    ensures Lower(RemoveChars(s, Punctuation)) != []
    ensures Lower(RemoveChars(s, Punctuation))[0] == LowerChar(s[0])
  {
  }

  /** An answer line starting with a letter that differs, ignoring case, from the verse's first letter fails. */
  lemma FirstLetterDecides(selected: seq<string>, verse: Verse)
    requires |selected| >= 1 && selected[0] != [] && verse.text != []
    requires !IsSpace(selected[0][0]) && selected[0][0] !in Punctuation && verse.text[0] !in Punctuation
    requires LowerChar(selected[0][0]) != LowerChar(verse.text[0])
    ensures !ArrangementCorrect(selected, verse)
  {
    var joined := Join(selected, ' ');
    JoinHead(selected, ' ');
    CollapseNoMatchAtHead(joined);
    CleanedHead(CollapseSpacedColons(joined));
    CleanedHead(verse.text + " " + verse.reference);
  }

  /**
   * The check is about order, not only content: swapping the first two words of
   * the text, when they start with letters that differ ignoring case, keeps every
   * token in play and fails the check.
   */
  lemma SwappedWordsFail(verse: Verse, w1: string, w2: string, rest: seq<string>, answer: seq<string>)
    requires Split(verse.text, ' ') == [w1, w2] + rest
    requires answer == [w2, w1] + rest + ReferenceTokens(verse.reference)
    requires w1 != [] && w2 != [] && !IsSpace(w2[0])
    requires w1[0] !in Punctuation && w2[0] !in Punctuation
    requires LowerChar(w1[0]) != LowerChar(w2[0])
    ensures IsScrambleOf(answer, verse)
    ensures !ArrangementCorrect(answer, verse)
  {
    var refTokens := ReferenceTokens(verse.reference);
    assert Tokens(verse) == [w1, w2] + rest + refTokens;
    assert multiset([w2, w1]) == multiset([w1, w2]);
    JoinSplit(verse.text, ' ');
    JoinHead([w1, w2] + rest, ' ');
    FirstLetterDecides(answer, verse);
  }

  /** On the example verse, swapping "Deus" and "amou" fails the check. */
  lemma ExampleSwappedFails(verse: Verse, answer: seq<string>)
    requires verse.text == "Deus amou o mundo" && verse.reference == "João 3:16"
    requires answer == ["amou", "Deus", "o", "mundo", "João", "3", ":", "16"]
    ensures IsScrambleOf(answer, verse) && !ArrangementCorrect(answer, verse)
  {
    ExampleWords(verse.text);
    ExampleInOrderPasses(verse);
    ExampleSwappedAnswer(answer);
    SwappedWordsFail(verse, "Deus", "amou", ["o", "mundo"], answer);
  }

  /** The words of the example text. */
  lemma ExampleWords(text: string)
    requires text == "Deus amou o mundo"
    ensures Split(text, ' ') == ["Deus", "amou"] + ["o", "mundo"]
  {
    var words := ["Deus", "amou", "o", "mundo"];
    assert Join(words, ' ') == text;
    SplitJoin(words, ' ');
  }

  /** The swapped answer: the first two words exchanged, then the rest in order. */
  lemma ExampleSwappedAnswer(answer: seq<string>)
    requires answer == ["amou", "Deus", "o", "mundo", "João", "3", ":", "16"]
    ensures answer == ["amou", "Deus"] + ["o", "mundo"] + ["João", "3", ":", "16"]
  {
  }

  /** A reference shaped `Book Chapter:Verse` splits into exactly those four tokens. */
  lemma ReferenceTokensOfShape(book: string, chapter: string, verseNum: string)
    requires ':' !in book && ':' !in verseNum
    requires ':' !in chapter && ' ' !in chapter
    ensures ReferenceTokens(book + " " + chapter + ":" + verseNum) == [book, chapter, ":", verseNum]
  {
    var reference := book + " " + chapter + ":" + verseNum;
    var bookChapter := book + " " + chapter;
    assert reference == bookChapter + [':'] + verseNum;
    assert ':' !in bookChapter by {
      assert forall i :: 0 <= i < |bookChapter| ==> bookChapter[i] == (if i < |book| then book[i] else if i == |book| then ' ' else chapter[i - |book| - 1]);
    }
    SplitJoin([bookChapter, verseNum], ':');
    assert Split(reference, ':') == [bookChapter, verseNum];
    var ls := LastIndexOf(bookChapter, ' ');
    assert bookChapter[|book|] == ' ';
    assert bookChapter[|book| + 1..] == chapter;
    assert ls == |book|;
    assert bookChapter[..|book|] == book;
  }

  /** The tokens in their original order, joined with spaces. */
  lemma JoinInOrder(text: string, book: string, chapter: string, verseNum: string)
    ensures Join(Split(text, ' ') + [book, chapter, ":", verseNum], ' ')
      == text + " " + book + " " + chapter + " : " + verseNum
  {
    var refTokens := [book, chapter, ":", verseNum];
    JoinSplit(text, ' ');
    JoinAppend(Split(text, ' '), refTokens, ' ');
    assert refTokens[1..] == [chapter, ":", verseNum];
    assert refTokens[1..][1..] == [":", verseNum];
    assert refTokens[1..][1..][1..] == [verseNum];
    assert Join([":", verseNum], ' ') == ":" + " " + verseNum;
    assert Join([chapter, ":", verseNum], ' ') == chapter + " " + ":" + " " + verseNum;
    assert Join(refTokens, ' ') == book + " " + chapter + " " + ":" + " " + verseNum;
  }

  /** The text, the book and the chapter joined by spaces keep every colon away from white space. */
  lemma NoSpaceBeforeColonOfPrefix(text: string, book: string, chapter: string)
    requires NoSpaceBeforeColon(text) && ':' !in book && ':' !in chapter
    ensures NoSpaceBeforeColon(text + " " + book + " " + chapter)
  {
    var x := text + " " + book + " " + chapter;
    forall i | 0 < i < |x|
      ensures !SpaceThenColon(x, i)
    {
      if SpaceThenColon(x, i) && i < |text| {
        assert SpaceThenColon(text, i);
      }
    }
  }

  /** Dropping entry `idx`, keeping the others in order (`filter((_, i) => i !== idx)`). */
  function Without(s: seq<string>, idx: nat): (r: seq<string>)
    requires idx < |s|
    ensures |r| == |s| - 1
    ensures forall j :: 0 <= j < |r| ==> r[j] == if j < idx then s[j] else s[j + 1]
    ensures multiset(r) + multiset{s[idx]} == multiset(s)
  {
    assert s == s[..idx] + [s[idx]] + s[idx + 1..];
    s[..idx] + s[idx + 1..]
  }

  // ---------------------------------------------------------------- the component

  /** The component's state: the answer line, the pool and the error message. */
  class Puzzle {
    /** The verse being ordered. */
    const verse: Verse
    var selectedWords: seq<string>
    var scrambledWords: seq<string>
    var error: Option<string>

    /** Every token is in exactly one of the two lists. */
    ghost predicate Valid()
      reads this
    {
      multiset(selectedWords + scrambledWords) == multiset(Tokens(verse))
    }

    /** Mounting, or a new verse: a fresh scramble, an empty answer line, no error. */
    constructor (verse: Verse, shuffled: seq<string>)
      requires IsScrambleOf(shuffled, verse)
      ensures this.verse == verse
      ensures scrambledWords == shuffled && selectedWords == [] && error == None
      ensures Valid()
    {
      this.verse := verse;
      scrambledWords := shuffled;
      selectedWords := [];
      error := None;
    }

    /** A click on pool token `idx`: it leaves the pool and goes to the end of the answer line. */
    method Select(idx: nat)
      requires idx < |scrambledWords|
      modifies this
      ensures scrambledWords == Without(old(scrambledWords), idx)
      ensures selectedWords == old(selectedWords) + [old(scrambledWords)[idx]]
      ensures error == None
      ensures old(Valid()) ==> Valid()
    {
      var word := scrambledWords[idx];
      scrambledWords := Without(scrambledWords, idx);
      selectedWords := selectedWords + [word];
      error := None;
    }

    /** A click on answer token `idx`: it leaves the answer line and goes to the end of the pool. */
    method Deselect(idx: nat)
      requires idx < |selectedWords|
      modifies this
      ensures selectedWords == Without(old(selectedWords), idx)
      ensures scrambledWords == old(scrambledWords) + [old(selectedWords)[idx]]
      ensures error == None
      ensures old(Valid()) ==> Valid()
    {
      var word := selectedWords[idx];
      selectedWords := Without(selectedWords, idx);
      scrambledWords := scrambledWords + [word];
      error := None;
    }

    /** "Reiniciar": a fresh scramble and an empty answer line. */
    method Reset(shuffled: seq<string>)
      requires IsScrambleOf(shuffled, verse)
      modifies this
      ensures scrambledWords == shuffled && selectedWords == [] && error == None
      ensures Valid()
    {
      scrambledWords := shuffled;
      selectedWords := [];
      error := None;
    }

    /** "Verificar": completes exactly when the arrangement is correct; otherwise only the error changes. */
    method Check() returns (completed: bool)
      modifies this`error
      ensures completed <==> ArrangementCorrect(selectedWords, verse)
      ensures error == if completed then old(error) else Some(WrongOrderMessage)
    {
      completed := NormalizeSelection(selectedWords) == NormalizeVerse(verse);
      if !completed {
        error := Some(WrongOrderMessage);
      }
    }
  }

  /** Selecting and then deselecting the same token keeps every token in play. */
  method SelectThenDeselect(puzzle: Puzzle, idx: nat)
    requires idx < |puzzle.scrambledWords|
    requires puzzle.Valid()
    modifies puzzle
    ensures puzzle.Valid()
    ensures puzzle.selectedWords == old(puzzle.selectedWords)
    ensures multiset(puzzle.scrambledWords) == multiset(old(puzzle.scrambledWords))
  {
    puzzle.Select(idx);
    var last := |puzzle.selectedWords| - 1;
    puzzle.Deselect(last);
    assert puzzle.selectedWords == Without(old(puzzle.selectedWords) + [old(puzzle.scrambledWords)[idx]], last);
    assert puzzle.selectedWords == old(puzzle.selectedWords);
  }
}
