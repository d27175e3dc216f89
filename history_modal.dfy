/**
 * The history modal's note editor: one entry of the history is expanded at a
 * time, its saved note is loaded into the text box, and saving writes the box
 * back into the store.
 */
module HistoryModal {
  import opened Prelude
  import opened Store

  /** `history.find(v => v.reference === r)`: the first entry with that reference. */
  function Find(h: seq<Verse>, r: string): (v: Option<Verse>)
    ensures v.None? <==> !HasReference(h, r)
    ensures v.Some? ==> v.value.reference == r
    ensures v.Some? ==> exists i :: 0 <= i < |h| && h[i] == v.value && forall j :: 0 <= j < i ==> h[j].reference != r
    decreases |h|
  {
    if h == [] then None
    else if h[0].reference == r then Some(h[0])
    else
      var v := Find(h[1..], r);
      assert v.Some? ==> exists i :: 0 < i < |h| && h[i] == v.value && forall j :: 0 <= j < i ==> h[j].reference != r by {
        if v.Some? {
          var i :| 0 <= i < |h[1..]| && h[1..][i] == v.value && forall j :: 0 <= j < i ==> h[1..][j].reference != r;
          assert h[i + 1] == v.value;
          assert forall j :: 0 <= j < i + 1 ==> h[j].reference != r by {
            forall j | 0 <= j < i + 1
              ensures h[j].reference != r
            {
              if j > 0 {
                assert h[j] == h[1..][j - 1];
              }
            }
          }
        }
      }
      assert HasReference(h, r) ==> HasReference(h[1..], r) by {
        if HasReference(h, r) {
          var i :| 0 <= i < |h| && h[i].reference == r;
          assert h[1..][i - 1] == h[i];
        }
      }
      v
  }

  /** `verse?.notes || ''`: the saved note of the first entry with reference `r`, or the empty string. */
  function NoteOf(h: seq<Verse>, r: string): (n: string)
    ensures !HasReference(h, r) ==> n == []
    ensures n != [] ==> exists i :: 0 <= i < |h| && h[i].reference == r && h[i].notes == Some(n)
    ensures forall i :: 0 <= i < |h| && h[i].reference == r && (forall j :: 0 <= j < i ==> h[j].reference != r)
              ==> n == h[i].notes.GetOr("")
  {
    var v := Find(h, r);
    assert forall i :: 0 <= i < |h| && h[i].reference == r && (forall j :: 0 <= j < i ==> h[j].reference != r)
             ==> v == Some(h[i]) by {
      forall i | 0 <= i < |h| && h[i].reference == r && (forall j :: 0 <= j < i ==> h[j].reference != r)
        ensures v == Some(h[i])
      {
        var k :| 0 <= k < |h| && h[k] == v.value && forall j :: 0 <= j < k ==> h[j].reference != r;
        assert !(k < i) && !(i < k);
      }
    }
    if v.Some? && v.value.notes.Some? then v.value.notes.value else ""
  }

  /** JavaScript truthiness of the expanded reference: neither null nor the empty string. */
  predicate IsExpanded(expanded: Option<string>) {
    expanded.Some? && expanded.value != []
  }

  /** Saving notes under a reference present in the history makes them that reference's note. */
  lemma {:induction false} NoteOfWithNotes(h: seq<Verse>, r: string, notes: string)
    requires HasReference(h, r)
    ensures NoteOf(WithNotes(h, r, notes), r) == notes
    decreases |h|
  {
    var h' := WithNotes(h, r, notes);
    if h[0].reference == r {
      assert h'[0] == h[0].(notes := Some(notes));
    } else {
      assert h'[0] == h[0];
      assert h'[1..] == WithNotes(h[1..], r, notes);
      var i :| 0 <= i < |h| && h[i].reference == r;
      assert h[1..][i - 1].reference == r;
      NoteOfWithNotes(h[1..], r, notes);
    }
  }

  /** The modal's own state; the history belongs to the store. */
  class Editor {
    const store: ProgressStore
    var expandedVerse: Option<string>
    var note: string

    /** Nothing expanded, an empty text box. */
    constructor (store: ProgressStore)
      ensures this.store == store
      ensures expandedVerse == None && note == []
    {
      this.store := store;
      expandedVerse := None;
      note := [];
    }

    /** The effect run when the expanded entry or the history changes: the box shows the saved note. */
    method LoadNote()
      modifies this`note
      ensures note == if IsExpanded(expandedVerse) then NoteOf(store.history, expandedVerse.value) else []
    {
      if IsExpanded(expandedVerse) {
        note := NoteOf(store.history, expandedVerse.value);
      } else {
        note := [];
      }
    }

    /**
     * A click on the header of the entry with reference `reference`: it collapses
     * when it was the expanded one and is expanded otherwise; the effect then
     * reloads the box.
     */
    method ClickHeader(reference: string)
      modifies this`expandedVerse, this`note
      ensures expandedVerse == if old(expandedVerse) == Some(reference) then None else Some(reference)
      ensures old(expandedVerse) == Some(reference) ==> note == []
      ensures old(expandedVerse) != Some(reference) && reference != [] ==> note == NoteOf(store.history, reference)
    {
      expandedVerse := if expandedVerse == Some(reference) then None else Some(reference);
      LoadNote();
    }

    /** Typing in the text box. */
    method EditNote(text: string)
      modifies this`note
      ensures note == text
    {
      note := text;
    }

    /**
     * `handleSaveNote`: with an entry expanded, the box is written into every
     * entry with that reference, and the effect, run because the history is a
     * new list, reads the saved note back. With nothing expanded nothing happens.
     */
    method SaveNote()
      modifies this`note, store
      ensures !IsExpanded(expandedVerse) ==> unchanged(store) && note == old(note)
      ensures IsExpanded(expandedVerse) ==> store.history == WithNotes(old(store.history), expandedVerse.value, old(note))
      ensures IsExpanded(expandedVerse) && HasReference(old(store.history), expandedVerse.value) ==> note == old(note)
      ensures IsExpanded(expandedVerse) && !HasReference(old(store.history), expandedVerse.value) ==> note == []
      ensures unchanged(store`currentDay, store`completedDays, store`currentVerse, store`isLoading)
      ensures unchanged(store`unlockedAchievements, store`lastUnlockedAchievement)
      ensures old(store.Valid()) ==> store.Valid()
    {
      if IsExpanded(expandedVerse) {
        var saved := note;
        store.UpdateNotes(expandedVerse.value, note);
        LoadNote();
        if HasReference(old(store.history), expandedVerse.value) {
          NoteOfWithNotes(old(store.history), expandedVerse.value, saved);
        }
      }
    }
  }

  /** Clicking the same header twice collapses the entry again and empties the box. */
  method ClickTwice(editor: Editor, reference: string)
    requires editor.expandedVerse != Some(reference)
    modifies editor
    ensures editor.expandedVerse == None && editor.note == []
  {
    editor.ClickHeader(reference);
    editor.ClickHeader(reference);
  }
}
