/**
 * The JavaScript string built-ins the application uses, over `seq<char>`:
 * `split` and `join` on one character, `trim`, `includes`, `toLowerCase`,
 * and the global `replace` with a character class or a fixed pattern.
 */
module Text {

  /** JavaScript's WhiteSpace and LineTerminator characters: what `trim` strips and `\s` matches. */
  predicate IsSpace(c: char) {
    || c == ' ' || c == '\t' || c == '\n' || c == '\r' || c == '\U{B}' || c == '\U{C}'
    || c == '\U{A0}' || c == '\U{1680}' || ('\U{2000}' <= c <= '\U{200A}')
    || c == '\U{2028}' || c == '\U{2029}' || c == '\U{202F}' || c == '\U{205F}'
    || c == '\U{3000}' || c == '\U{FEFF}'
  }

  /** Every character is white space (vacuously true of the empty string). */
  predicate IsBlank(s: string) {
    forall i :: 0 <= i < |s| ==> IsSpace(s[i])
  }

  /** The character class `[.,;!?]` the activities strip or keep. */
  const Punctuation: set<char> := {'.', ',', ';', '!', '?'}

  // ---------------------------------------------------------------- split / join

  /** `s.split(sep)`: the pieces between separators; never empty, `"".split(sep) == [""]`. */
  function Split(s: string, sep: char): (r: seq<string>)
    ensures |r| >= 1
    ensures forall i :: 0 <= i < |r| ==> sep !in r[i]
    decreases |s|
  {
    if s == [] then [""]
    else
      var rest := Split(s[1..], sep);
      if s[0] == sep then [""] + rest
      else [[s[0]] + rest[0]] + rest[1..]
  }

  /** `parts.join(sep)`. */
  function Join(parts: seq<string>, sep: char): string
    decreases |parts|
  {
    if |parts| == 0 then ""
    else if |parts| == 1 then parts[0]
    else parts[0] + [sep] + Join(parts[1..], sep)
  }

  /** Joining the pieces of a split gives back the original string. */
  lemma {:induction false} JoinSplit(s: string, sep: char)
    ensures Join(Split(s, sep), sep) == s
    decreases |s|
  {
    if s != [] {
      var rest := Split(s[1..], sep);
      JoinSplit(s[1..], sep);
      if s[0] == sep {
        assert Split(s, sep) == [""] + rest;
        assert ([""] + rest)[1..] == rest;
        assert s == [sep] + s[1..];
      } else {
        var r := [[s[0]] + rest[0]] + rest[1..];
        assert Split(s, sep) == r;
        if |rest| == 1 {
          assert s == [s[0]] + rest[0];
        } else {
          assert r[1..] == rest[1..];
          assert Join(rest, sep) == rest[0] + [sep] + Join(rest[1..], sep);
          assert s == [s[0]] + rest[0] + [sep] + Join(rest[1..], sep);
        }
      }
    }
  }

  /** A string free of the separator splits into itself alone. */
  lemma {:induction false} SplitWithoutSeparator(a: string, sep: char)
    requires sep !in a
    ensures Split(a, sep) == [a]
    decreases |a|
  {
    if a != [] {
      SplitWithoutSeparator(a[1..], sep);
      assert a == [a[0]] + a[1..];
    }
  }

  /** Splitting `a + sep + b`, with `a` free of the separator, yields `a` and then the pieces of `b`. */
  lemma {:induction false} SplitAtSeparator(a: string, b: string, sep: char)
    requires sep !in a
    ensures Split(a + [sep] + b, sep) == [a] + Split(b, sep)
    decreases |a|
  {
    var s := a + [sep] + b;
    if a == [] {
      assert s[1..] == b;
    } else {
      assert s[1..] == a[1..] + [sep] + b;
      SplitAtSeparator(a[1..], b, sep);
      assert a == [a[0]] + a[1..];
    }
  }

  /** Splitting a join of separator-free pieces gives back the pieces. */
  lemma {:induction false} SplitJoin(parts: seq<string>, sep: char)
    requires |parts| >= 1
    requires forall i :: 0 <= i < |parts| ==> sep !in parts[i]
    ensures Split(Join(parts, sep), sep) == parts
    decreases |parts|
  {
    if |parts| == 1 {
      SplitWithoutSeparator(parts[0], sep);
    } else {
      SplitJoin(parts[1..], sep);
      SplitAtSeparator(parts[0], Join(parts[1..], sep), sep);
      assert parts == [parts[0]] + parts[1..];
    }
  }

  /** Joining two non-empty lists puts one separator between their joins. */
  lemma {:induction false} JoinAppend(a: seq<string>, b: seq<string>, sep: char)
    requires |a| >= 1 && |b| >= 1
    ensures Join(a + b, sep) == Join(a, sep) + [sep] + Join(b, sep)
    decreases |a|
  {
    if |a| == 1 {
      assert (a + b)[1..] == b;
    } else {
      JoinAppend(a[1..], b, sep);
      assert (a + b)[1..] == a[1..] + b;
    }
  }

  // ---------------------------------------------------------------- trim

  /** Leading white space removed. */
  function TrimStart(s: string): (r: string)
    ensures |r| <= |s| && r == s[|s| - |r|..]
    ensures forall i :: 0 <= i < |s| - |r| ==> IsSpace(s[i])
    ensures r != [] ==> !IsSpace(r[0])
    decreases |s|
  {
    if s != [] && IsSpace(s[0]) then TrimStart(s[1..]) else s
  }

  /** Trailing white space removed. */
  function TrimEnd(s: string): (r: string)
    ensures |r| <= |s| && r == s[..|r|]
    ensures forall i :: |r| <= i < |s| ==> IsSpace(s[i])
    ensures r != [] ==> !IsSpace(r[|r| - 1])
    decreases |s|
  {
    if s != [] && IsSpace(s[|s| - 1]) then TrimEnd(s[..|s| - 1]) else s
  }

  /** `s.trim()`: empty exactly for blank strings, and otherwise bounded by non-space characters. */
  function Trim(s: string): (r: string)
    ensures r == [] <==> IsBlank(s)
    ensures r != [] ==> !IsSpace(r[0]) && !IsSpace(r[|r| - 1])
    ensures |r| <= |s|
  {
    var t := TrimStart(s);
    assert IsBlank(s) <== t == [] by {
      if t == [] {
        assert forall i :: 0 <= i < |s| ==> IsSpace(s[i]);
      }
    }
    assert t != [] ==> !IsSpace(t[0]) ==> TrimEnd(t) != [];
    TrimEnd(t)
  }

  /**
   * `trim` cuts only white space: the result is the piece of `s` starting at `k`,
   * everything before it and everything after it being white space.
   */
  lemma TrimCutsOnlySpace(s: string) returns (k: nat)
    ensures k + |Trim(s)| <= |s| && Trim(s) == s[k..k + |Trim(s)|]
    ensures forall i :: 0 <= i < k ==> IsSpace(s[i])
    ensures forall i :: k + |Trim(s)| <= i < |s| ==> IsSpace(s[i])
  {
    var t := TrimStart(s);
    k := |s| - |t|;
    var r := TrimEnd(t);
    assert Trim(s) == r;
    SliceOfSuffix(s, k, t, r);
  }

  /** A prefix `r` of the suffix `t == s[k..]` is the slice of `s` at `k`, and what `t` has past `r` lies past it in `s`. */
  lemma SliceOfSuffix(s: string, k: nat, t: string, r: string)
    requires k <= |s| && t == s[k..] && |r| <= |t| && r == t[..|r|]
    requires forall i :: |r| <= i < |t| ==> IsSpace(t[i])
    ensures k + |r| <= |s| && r == s[k..k + |r|]
    ensures forall i :: k + |r| <= i < |s| ==> IsSpace(s[i])
  {
    forall i | k + |r| <= i < |s|
      ensures IsSpace(s[i])
    {
      assert s[i] == t[i - k];
    }
  }

  // ---------------------------------------------------------------- includes

  /** `s.includes(sub)`. */
  predicate Contains(s: string, sub: string)
    decreases |s|
  {
    sub <= s || (s != [] && Contains(s[1..], sub))
  }

  /** `sub` occurs in `s` starting at offset `i`. */
  predicate OccursAt(s: string, sub: string, i: int) {
    0 <= i <= |s| - |sub| && sub == s[i..i + |sub|]
  }

  /** `includes` holds exactly when `sub` occurs at some offset of `s`. */
  lemma {:induction false} ContainsIffInfix(s: string, sub: string)
    ensures Contains(s, sub) <==> exists i :: OccursAt(s, sub, i)
    decreases |s|
  {
    if sub <= s {
      assert OccursAt(s, sub, 0);
    } else if s == [] {
    } else {
      ContainsIffInfix(s[1..], sub);
      if Contains(s[1..], sub) {
        var i :| OccursAt(s[1..], sub, i);
        assert OccursAt(s, sub, i + 1);
      }
      if exists i :: OccursAt(s, sub, i) {
        var i :| OccursAt(s, sub, i);
        assert i != 0;
        assert OccursAt(s[1..], sub, i - 1);
      }
    }
  }

  // ---------------------------------------------------------------- toLowerCase

  /** `toLowerCase` on one character, for ASCII and the Latin-1 letters (U+00C0 to U+00DE, except U+00D7). */
  function LowerChar(c: char): char {
    if 'A' <= c <= 'Z' || ('\U{C0}' <= c <= '\U{DE}' && c != '\U{D7}') then (c as int + 32) as char else c
  }

  /** `s.toLowerCase()` on the characters `LowerChar` covers. */
  function Lower(s: string): (r: string)
    ensures |r| == |s|
  {
    seq(|s|, i requires 0 <= i < |s| => LowerChar(s[i]))
  }

  /** Lower-casing twice is lower-casing once. */
  lemma LowerIdempotent(s: string)
    ensures Lower(Lower(s)) == Lower(s)
  {
  }

  // ---------------------------------------------------------------- replace(..., '')

  /** `s.replace(/[cs]/g, '')`: every character of the class removed. */
  function RemoveChars(s: string, cs: set<char>): (r: string)
    ensures |r| <= |s|
    ensures forall i :: 0 <= i < |r| ==> r[i] !in cs
    ensures (forall i :: 0 <= i < |s| ==> s[i] !in cs) ==> r == s
    decreases |s|
  {
    if s == [] then []
    else if s[0] in cs then RemoveChars(s[1..], cs)
    else [s[0]] + RemoveChars(s[1..], cs)
  }

  /** Removing a character class distributes over concatenation. */
  lemma {:induction false} RemoveCharsAppend(a: string, b: string, cs: set<char>)
    ensures RemoveChars(a + b, cs) == RemoveChars(a, cs) + RemoveChars(b, cs)
    decreases |a|
  {
    if a == [] {
      assert a + b == b;
    } else {
      assert (a + b)[1..] == a[1..] + b;
      RemoveCharsAppend(a[1..], b, cs);
      if a[0] in cs {
        assert RemoveChars(a + b, cs) == RemoveChars(a[1..] + b, cs);
        assert RemoveChars(a, cs) == RemoveChars(a[1..], cs);
      } else {
        assert RemoveChars(a + b, cs) == [a[0]] + RemoveChars(a[1..] + b, cs);
        assert RemoveChars(a, cs) == [a[0]] + RemoveChars(a[1..], cs);
      }
    }
  }

  /** One character on its own is kept exactly when it is outside the class; with `RemoveCharsAppend` this fixes the order. */
  lemma RemoveCharsSingle(c: char, cs: set<char>)
    ensures RemoveChars([c], cs) == if c in cs then [] else [c]
  {
    assert [c][1..] == [];
  }

  /** Every character outside the class is kept, as often as it occurs. */
  lemma {:induction false} RemoveCharsKeepsOthers(s: string, cs: set<char>, c: char)
    requires c !in cs
    ensures multiset(RemoveChars(s, cs))[c] == multiset(s)[c]
    decreases |s|
  {
    if s != [] {
      RemoveCharsKeepsOthers(s[1..], cs, c);
      assert s == [s[0]] + s[1..];
    }
  }

  /** `s.replace(/pat/g, '')` for a fixed, non-empty pattern: occurrences removed left to right. */
  function RemoveAll(s: string, pat: string): (r: string)
    requires pat != []
    ensures |r| <= |s|
    ensures !Contains(s, pat) ==> r == s
    decreases |s|
  {
    if s == [] then []
    else if pat <= s then RemoveAll(s[|pat|..], pat)
    else [s[0]] + RemoveAll(s[1..], pat)
  }

  /**
   * The scan of `replace` with the global flag: an occurrence at the front is
   * dropped whole and the scan resumes after it; otherwise the first character is
   * kept and the scan moves one character on.
   */
  lemma RemoveAllSteps(s: string, pat: string)
    requires pat != []
    ensures pat <= s ==> RemoveAll(s, pat) == RemoveAll(s[|pat|..], pat)
    ensures s != [] && !(pat <= s) ==> RemoveAll(s, pat) == [s[0]] + RemoveAll(s[1..], pat)
    ensures RemoveAll(pat + s, pat) == RemoveAll(s, pat)
  {
    assert pat <= pat + s && (pat + s)[|pat|..] == s;
  }

  /** An occurrence of `pat` starts at position `i` of `s`. */
  predicate StartsAt(s: string, pat: string, i: int) {
    0 <= i <= |s| && pat <= s[i..]
  }

  /** A prefix `a` in which no occurrence of `pat` starts is kept as it is. */
  lemma {:induction false} RemoveAllKeepsPrefix(a: string, b: string, pat: string)
    requires pat != []
    requires forall i :: 0 <= i < |a| ==> !StartsAt(a + b, pat, i)
    ensures RemoveAll(a + b, pat) == a + RemoveAll(b, pat)
    decreases |a|
  {
    if a == [] {
      assert a + b == b;
    } else {
      var s := a + b;
      assert !(pat <= s) by {
        assert !StartsAt(s, pat, 0);
        assert s[0..] == s;
      }
      RemoveAllSteps(s, pat);
      var t := a[1..] + b;
      assert s[1..] == t;
      forall i | 0 <= i < |a[1..]|
        ensures !StartsAt(t, pat, i)
      {
        assert !StartsAt(s, pat, i + 1);
        assert t[i..] == s[i + 1..];
      }
      RemoveAllKeepsPrefix(a[1..], b, pat);
      assert a == [a[0]] + a[1..];
    }
  }

  /**
   * The first occurrence of `pat`, after a prefix `a` where none starts, is
   * dropped whole and the scan goes on after it.
   */
  lemma RemoveAllDropsFirst(a: string, b: string, pat: string)
    requires pat != []
    requires forall i :: 0 <= i < |a| ==> !StartsAt(a + pat + b, pat, i)
    ensures RemoveAll(a + pat + b, pat) == a + RemoveAll(b, pat)
  {
    assert a + pat + b == a + (pat + b);
    RemoveAllKeepsPrefix(a, pat + b, pat);
    RemoveAllSteps(b, pat);
  }
}
