/**
 * The verse search: a remote lookup whose rows are renamed into verses and, when
 * the lookup fails, a filter over the offline collection that ignores case and
 * accents and keeps at most 30 verses. Typing searches after a pause; Enter
 * searches at once.
 */
module SearchModal {
  import opened Prelude
  import opened Text
  import opened Store

  // ---------------------------------------------------------------- remote rows

  /** A row of the remote verse table, with its column names. */
  datatype DbRow = DbRow(
    reference: string,
    text: string,
    explanation: string,
    book_context: string,
    keywords: seq<string>,
    emoji_text: string,
    scrambled: seq<string>,
    fake_references: seq<string>)

  /** `mapDbVerse`: the three snake-case columns renamed, the rest copied; no notes, no fallback flag. */
  function MapDbVerse(row: DbRow): (v: Verse)
    ensures v.notes == None && v.isFallback == None
  {
    Verse(row.reference, row.text, row.explanation, row.book_context, row.keywords,
          row.emoji_text, row.scrambled, row.fake_references, None, None)
  }

  /** The row a verse would be stored as. */
  function ToDbRow(v: Verse): DbRow {
    DbRow(v.reference, v.text, v.explanation, v.bookContext, v.keywords, v.emojiText, v.scrambled, v.fakeReferences)
  }

  /** Mapping loses nothing of a row, and a verse without notes or flag survives the trip through a row. */
  lemma MapDbVerseRoundTrip(row: DbRow, v: Verse)
    ensures ToDbRow(MapDbVerse(row)) == row
    ensures v.notes == None && v.isFallback == None ==> MapDbVerse(ToDbRow(v)) == v
  {
  }

  /** `data.map(mapDbVerse)`. */
  function MapRows(rows: seq<DbRow>): (r: seq<Verse>)
    ensures |r| == |rows|
  {
    seq(|rows|, i requires 0 <= i < |rows| => MapDbVerse(rows[i]))
  }

  // ---------------------------------------------------------------- normalisation

  /** A combining diacritical mark, U+0300 to U+036F: the range the search strips. */
  predicate IsMark(c: char) {
    '\U{300}' <= c <= '\U{36F}'
  }

  /** Grave, acute, circumflex and diaeresis. */
  const FourMarks: seq<char> := ['\U{300}', '\U{301}', '\U{302}', '\U{308}']
  /** The same with the tilde before the diaeresis. */
  const FiveMarks: seq<char> := ['\U{300}', '\U{301}', '\U{302}', '\U{303}', '\U{308}']
  /** The same with the ring above at the end. */
  const SixMarks: seq<char> := ['\U{300}', '\U{301}', '\U{302}', '\U{303}', '\U{308}', '\U{30A}']

  /**
   * The canonical decomposition (NFD) of one character, for the precomposed
   * lower-case Latin-1 letters: a base letter and a combining mark. Every other
   * character is left alone.
   */
  function Decompose(c: char): (r: seq<char>)
    ensures |r| == 1 || |r| == 2
    ensures |r| == 1 ==> r[0] == c
    ensures |r| == 2 ==> 'a' <= r[0] <= 'z' && IsMark(r[1])
  {
    if '\U{E0}' <= c <= '\U{E5}' then ['a', SixMarks[c as int - 0xE0]]
    else if c == '\U{E7}' then ['c', '\U{327}']
    else if '\U{E8}' <= c <= '\U{EB}' then ['e', FourMarks[c as int - 0xE8]]
    else if '\U{EC}' <= c <= '\U{EF}' then ['i', FourMarks[c as int - 0xEC]]
    else if c == '\U{F1}' then ['n', '\U{303}']
    else if '\U{F2}' <= c <= '\U{F6}' then ['o', FiveMarks[c as int - 0xF2]]
    else if '\U{F9}' <= c <= '\U{FC}' then ['u', FourMarks[c as int - 0xF9]]
    else if c == '\U{FD}' then ['y', '\U{301}']
    else if c == '\U{FF}' then ['y', '\U{308}']
    else [c]
  }

  /** `s.normalize('NFD')`, character by character. */
  function Nfd(s: string): (r: string)
    ensures |r| >= |s|
    decreases |s|
  {
    if s == [] then [] else Decompose(s[0]) + Nfd(s[1..])
  }

  /** `s.replace(/[̀-ͯ]/g, '')`. */
  function StripMarks(s: string): (r: string)
    ensures |r| <= |s|
    ensures forall i :: 0 <= i < |r| ==> !IsMark(r[i])
    decreases |s|
  {
    if s == [] then [] else (if IsMark(s[0]) then [] else [s[0]]) + StripMarks(s[1..])
  }

  /** `normalizeText`: lower case, decomposed, marks removed. */
  function Normalize(s: string): (r: string)
    ensures forall i :: 0 <= i < |r| ==> !IsMark(r[i])
  {
    StripMarks(Nfd(Lower(s)))
  }

  /** Lower-casing distributes over concatenation. */
  lemma LowerAppend(a: string, b: string)
    ensures Lower(a + b) == Lower(a) + Lower(b)
  {
  }

  /** Decomposition distributes over concatenation. */
  lemma {:induction false} NfdAppend(a: string, b: string)
    ensures Nfd(a + b) == Nfd(a) + Nfd(b)
    decreases |a|
  {
    if a == [] {
      assert a + b == b;
    } else {
      assert (a + b)[1..] == a[1..] + b;
      NfdAppend(a[1..], b);
    }
  }

  /** Stripping marks distributes over concatenation. */
  lemma {:induction false} StripMarksAppend(a: string, b: string)
    ensures StripMarks(a + b) == StripMarks(a) + StripMarks(b)
    decreases |a|
  {
    if a == [] {
      assert a + b == b;
    } else {
      assert (a + b)[1..] == a[1..] + b;
      StripMarksAppend(a[1..], b);
    }
  }

  /** Normalisation works character by character. */
  lemma NormalizeAppend(a: string, b: string)
    ensures Normalize(a + b) == Normalize(a) + Normalize(b)
  {
    LowerAppend(a, b);
    NfdAppend(Lower(a), Lower(b));
    StripMarksAppend(Nfd(Lower(a)), Nfd(Lower(b)));
  }

  /** One character normalises to at most one character, which normalises to itself. */
  lemma NormalizeChar(c: char)
    ensures |Normalize([c])| <= 1
    ensures |Normalize([c])| == 1 ==> Normalize(Normalize([c])) == Normalize([c])
  {
    var l := LowerChar(c);
    var d := Decompose(l);
    NormalizeOne(c);
    if |d| == 2 {
      StripMarksOne(d[0]);
      StripMarksOne(d[1]);
      StripMarksAppend([d[0]], [d[1]]);
      assert d == [d[0]] + [d[1]];
      NormalizeBase(d[0]);
    } else {
      StripMarksOne(l);
      if !IsMark(l) {
        NormalizeBase(l);
      }
    }
  }

  /** The normal form of one character: its lower case, decomposed, marks removed. */
  lemma NormalizeOne(c: char)
    ensures Normalize([c]) == StripMarks(Decompose(LowerChar(c)))
  {
    assert Lower([c]) == [LowerChar(c)];
    assert Nfd([LowerChar(c)]) == Decompose(LowerChar(c)) + Nfd([]);
    assert Decompose(LowerChar(c)) + [] == Decompose(LowerChar(c));
  }

  /** Removing marks from one character. */
  lemma StripMarksOne(x: char)
    ensures StripMarks([x]) == if IsMark(x) then [] else [x]
  {
    assert StripMarks([x]) == (if IsMark(x) then [] else [x]) + StripMarks([]);
  }

  /** A character that lower-casing, decomposition and mark removal all keep is its own normal form. */
  lemma NormalizeBase(x: char)
    requires LowerChar(x) == x && Decompose(x) == [x] && !IsMark(x)
    ensures Normalize([x]) == [x]
  {
    NormalizeOne(x);
    StripMarksOne(x);
  }

  /** Normalising twice is normalising once. */
  lemma {:induction false} NormalizeIdempotent(s: string)
    ensures Normalize(Normalize(s)) == Normalize(s)
    decreases |s|
  {
    if s == [] {
      assert Normalize(s) == [];
    } else {
      var c, rest := s[0], s[1..];
      assert s == [c] + rest;
      NormalizeAppend([c], rest);
      NormalizeAppend(Normalize([c]), Normalize(rest));
      NormalizeChar(c);
      if |Normalize([c])| == 0 {
        assert Normalize([c]) + Normalize(rest) == Normalize(rest);
        assert Normalize(Normalize([c])) == [];
      }
      NormalizeIdempotent(rest);
    }
  }

  /** Normalisation ignores case. */
  lemma NormalizeIgnoresCase(s: string)
    ensures Normalize(Lower(s)) == Normalize(s)
  {
    LowerIdempotent(s);
  }

  /** One accented letter: "Ã" and "ã" both normalise to "a". */
  lemma NormalizeAccentedLetter()
    ensures Normalize("Ã") == "a" && Normalize("ã") == "a"
  {
    assert Lower("Ã") == "ã" && Lower("ã") == "ã";
    assert Nfd("ã") == ['a', '\U{303}'] + Nfd([]);
    assert StripMarks(['a', '\U{303}']) == ['a'] + StripMarks(['\U{303}']);
    assert StripMarks(['\U{303}']) == [] + StripMarks([]);
  }

  /** An ASCII letter normalises to its lower-case form. */
  lemma NormalizeAsciiLetter(c: char)
    requires 'A' <= c <= 'Z' || 'a' <= c <= 'z'
    ensures Normalize([c]) == [LowerChar(c)]
  {
    var l := LowerChar(c);
    assert Lower([c]) == [l];
    assert Nfd([l]) == [l] + Nfd([]);
    assert StripMarks([l]) == [l] + StripMarks([]);
  }

  // ---------------------------------------------------------------- offline filter

  /** The most verses the offline search returns. */
  const MaxOfflineResults: nat := 30

  /** The offline match of one verse against a normalised term: its reference or its text contains it. */
  predicate Matches(v: Verse, term: string) {
    Contains(Normalize(v.reference), term) || Contains(Normalize(v.text), term)
  }

  /** `offlineVerses.filter(...)`: the matching verses, in collection order. */
  function Matching(corpus: seq<Verse>, term: string): seq<Verse>
    decreases |corpus|
  {
    if corpus == [] then []
    else (if Matches(corpus[0], term) then [corpus[0]] else []) + Matching(corpus[1..], term)
  }

  /** The filter keeps exactly the verses of the collection that match, and no more of them than there are. */
  lemma {:induction false} MatchingMembers(corpus: seq<Verse>, term: string)
    ensures |Matching(corpus, term)| <= |corpus|
    ensures forall v :: v in Matching(corpus, term) <==> v in corpus && Matches(v, term)
    decreases |corpus|
  {
    if corpus != [] {
      MatchingMembers(corpus[1..], term);
      assert corpus == [corpus[0]] + corpus[1..];
    }
  }

  /** Filtering keeps the collection's order: a concatenation filters piecewise. */
  lemma {:induction false} MatchingAppend(a: seq<Verse>, b: seq<Verse>, term: string)
    ensures Matching(a + b, term) == Matching(a, term) + Matching(b, term)
    decreases |a|
  {
    if a == [] {
      assert a + b == b;
    } else {
      assert (a + b)[1..] == a[1..] + b;
      MatchingAppend(a[1..], b, term);
    }
  }

  /** The offline results for a trimmed term: the first 30 matches of its normalised form. */
  function OfflineResults(corpus: seq<Verse>, term: string): (r: seq<Verse>)
    ensures |r| == if |Matching(corpus, Normalize(term))| < MaxOfflineResults
                   then |Matching(corpus, Normalize(term))| else MaxOfflineResults
    ensures r == Matching(corpus, Normalize(term))[..|r|]
  {
    var m := Matching(corpus, Normalize(term));
    if |m| <= MaxOfflineResults then m else m[..MaxOfflineResults]
  }

  // ---------------------------------------------------------------- the component

  /** The modal's state. `pending` is the search the 400 ms debounce timer will run, if one is set. */
  class Search {
    var query: string
    var results: seq<Verse>
    var isSearching: bool
    var hasSearched: bool
    var isOffline: bool
    var pending: Option<string>

    /** The modal as first mounted. */
    constructor ()
      ensures query == [] && results == [] && pending == None
      ensures !isSearching && !hasSearched && !isOffline
    {
      query := [];
      results := [];
      isSearching := false;
      hasSearched := false;
      isOffline := false;
      pending := None;
    }

    /** The effect run when the modal opens: the query, the results and the searched flag are reset. */
    method Open()
      modifies this`query, this`results, this`hasSearched
      ensures query == [] && results == [] && !hasSearched
    {
      query := [];
      results := [];
      hasSearched := false;
    }

    /**
     * `performSearch`: a blank term clears the results without a lookup;
     * otherwise `remote` is what the lookup returns (a failure standing for an
     * error or missing data), and on failure the offline collection is filtered.
     */
    method PerformSearch(searchTerm: string, remote: Result<seq<DbRow>>, corpus: seq<Verse>)
      modifies this`results, this`hasSearched, this`isSearching, this`isOffline
      ensures IsBlank(searchTerm) ==> results == [] && !hasSearched
      ensures IsBlank(searchTerm) ==> isSearching == old(isSearching) && isOffline == old(isOffline)
      ensures !IsBlank(searchTerm) ==> hasSearched && !isSearching
      ensures !IsBlank(searchTerm) && remote.Success? ==> !isOffline && results == MapRows(remote.value)
      ensures !IsBlank(searchTerm) && remote.Failure? ==> isOffline && results == OfflineResults(corpus, Trim(searchTerm))
    {
      var term := Trim(searchTerm);
      if term == [] {
        results := [];
        hasSearched := false;
        return;
      }
      isSearching := true;
      hasSearched := true;
      if remote.Success? {
        isOffline := false;
        results := MapRows(remote.value);
      } else {
        isOffline := true;
        results := OfflineResults(corpus, term);
      }
      isSearching := false;
    }

    /** Typing: the query changes and the debounce timer is restarted with it. */
    method Type(value: string)
      modifies this`query, this`pending
      ensures query == value && pending == Some(value)
    {
      query := value;
      pending := Some(value);
    }

    /** The debounce timer firing: the value typed last is searched. */
    method FireDebounce(remote: Result<seq<DbRow>>, corpus: seq<Verse>)
      requires pending.Some?
      modifies this`pending, this`results, this`hasSearched, this`isSearching, this`isOffline
      ensures pending == None
      ensures !IsBlank(old(pending).value) ==> hasSearched && !isSearching
      ensures !IsBlank(old(pending).value) && remote.Success? ==> !isOffline && results == MapRows(remote.value)
      ensures !IsBlank(old(pending).value) && remote.Failure? ==>
                isOffline && results == OfflineResults(corpus, Trim(old(pending).value))
      ensures IsBlank(old(pending).value) ==> results == [] && !hasSearched
    {
      var value := pending.value;
      pending := None;
      PerformSearch(value, remote, corpus);
    }

    /** A key press in the box: Enter cancels the timer and searches the query now; Escape asks to close. */
    method KeyDown(key: string, remote: Result<seq<DbRow>>, corpus: seq<Verse>) returns (close: bool)
      modifies this`pending, this`results, this`hasSearched, this`isSearching, this`isOffline
      ensures close <==> key == "Escape"
      ensures key == "Enter" ==> pending == None
      ensures key == "Enter" && IsBlank(query) ==> results == [] && !hasSearched
      ensures key == "Enter" && !IsBlank(query) ==> hasSearched && !isSearching
      ensures key == "Enter" && !IsBlank(query) && remote.Success? ==> !isOffline && results == MapRows(remote.value)
      ensures key == "Enter" && !IsBlank(query) && remote.Failure? ==>
                isOffline && results == OfflineResults(corpus, Trim(query))
      ensures key != "Enter" ==> unchanged(this)
    {
      if key == "Enter" {
        pending := None;
        PerformSearch(query, remote, corpus);
      }
      close := key == "Escape";
    }
  }
}
