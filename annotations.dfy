// Annotations and footnotes of the project editor
// (GUI/windows/project_editor/annotations.py): recording the selected text
// with a note on the current scene, listing a scene's records, and mapping a
// clicked row back to the record whose text range it selects. The text
// editor's selection and the input dialog's answer are parameters; the
// highlight colour and the message boxes are not modelled.

module Annotations {
  import opened Json
  import opened Scenes
  import opened ProjectEditor

  /** Which of a scene's two lists a record belongs to. */
  datatype NoteKind = Annotation | Footnote

  /** The text cursor's selection: the selected text and its start and end positions. */
  datatype Selection = Selection(text: string, start: nat, end: nat)

  /** A list entry together with the list it came from. */
  datatype Entry = Entry(kind: NoteKind, note: Note)

  /** How an add request ends. */
  datatype AddOutcome =
    | NoSelection   // the "No Selection" information box
    | Dismissed     // the dialog was cancelled or the note left empty
    | Added         // one record appended and the list refreshed
    | NotAdded      // indices out of range, or the lookup raised

  /** The guards of the three handlers hold and `chapters[c]["scenes"]` exists, with a scene at `s`. */
  predicate HasScene(chapters: seq<Chapter>, c: int, s: int)
  {
    0 <= c < |chapters| && 0 <= s && chapters[c].scenes.Some? && s < |chapters[c].scenes.value|
  }

  function SceneAt(chapters: seq<Chapter>, c: int, s: int): Scene
    requires HasScene(chapters, c, s)
  {
    chapters[c].scenes.value[s]
  }

  /** `scene.get("annotations", [])` or `scene.get("footnotes", [])`; a bare string has neither. */
  function NotesOf(scene: Scene, kind: NoteKind): seq<Note>
  {
    if scene.Plain? then []
    else if kind == Annotation then scene.annotations.GetOr([])
    else scene.footnotes.GetOr([])
  }

  /**
   * The scene with `n` appended to its `kind` list, the list created when the
   * key is absent; `None` for a bare string, where the key assignment raises.
   */
  function Appended(scene: Scene, kind: NoteKind, n: Note): (r: Option<Scene>)
    ensures r.Some? <==> scene.Record?
    ensures r.Some? ==> r.value.Record?
    ensures r.Some? ==> NotesOf(r.value, kind) == NotesOf(scene, kind) + [n]
    ensures r.Some? ==> forall k :: k != kind ==> NotesOf(r.value, k) == NotesOf(scene, k)
    ensures r.Some? ==> r.value.title == scene.title && r.value.content == scene.content
                        && r.value.versions == scene.versions
  {
    if scene.Plain? then None
    else if kind == Annotation then Some(scene.(annotations := Some(scene.annotations.GetOr([]) + [n])))
    else Some(scene.(footnotes := Some(scene.footnotes.GetOr([]) + [n])))
  }

  /** Every entry of the list is a `{text, note, start, end}` record. */
  predicate AllRecords(notes: seq<Note>)
  {
    forall i :: 0 <= i < |notes| ==> notes[i].Note?
  }

  function Prefix(kind: NoteKind): string
  {
    if kind == Annotation then "[A] " else "[F] "
  }

  /** The row `f"{prefix}{text}: {note}"` of one record. */
  function Row(kind: NoteKind, n: Note): string
    requires n.Note?
  {
    Prefix(kind) + n.text + ": " + n.note
  }

  /**
   * The rows added for one list: one per record, up to the first bare string
   * (where `ann['text']` raises and the refresh stops).
   */
  function NoteRows(kind: NoteKind, notes: seq<Note>): (rows: seq<string>)
    ensures |rows| <= |notes|
    ensures forall i :: 0 <= i < |rows| ==> notes[i].Note? && rows[i] == Row(kind, notes[i])
    ensures |rows| < |notes| ==> notes[|rows|].NoteText?
  {
    if notes == [] || notes[0].NoteText? then []
    else [Row(kind, notes[0])] + NoteRows(kind, notes[1..])
  }

  /** The rows listed for a scene: its annotations, then (if the loop got that far) its footnotes. */
  function SceneRows(scene: Scene): seq<string>
  {
    if scene.Plain? then []
    else
      var anns := NotesOf(scene, Annotation);
      NoteRows(Annotation, anns) + (if AllRecords(anns) then NoteRows(Footnote, NotesOf(scene, Footnote)) else [])
  }

  /**
   * The rows `refresh_annotation_list` leaves: none unless the current
   * scene exists and is a dictionary (a bare string raises on `get`).
   */
  function ListRows(chapters: seq<Chapter>, c: int, s: int): seq<string>
  {
    if HasScene(chapters, c, s) then SceneRows(SceneAt(chapters, c, s)) else []
  }

  /**
   * Row `idx` of the annotations followed by the footnotes: the entry at
   * that position of the joined list, labelled with the list it is in.
   */
  function EntryAt(anns: seq<Note>, fns: seq<Note>, idx: int): (r: Option<Entry>)
    ensures r.Some? <==> 0 <= idx < |anns| + |fns|
    ensures r.Some? ==> r.value.note == (anns + fns)[idx]
    ensures r.Some? ==> (r.value.kind == Annotation <==> idx < |anns|)
  {
    if 0 <= idx < |anns| then Some(Entry(Annotation, anns[idx]))
    else if |anns| <= idx < |anns| + |fns| then Some(Entry(Footnote, fns[idx - |anns|]))
    else None
  }

  /**
   * `on_annotation_clicked`: the `(start, end)` range selected for a click
   * on row `idx`; `None` when the indices or the row are out of range, the
   * scene is a bare string, or the entry is a bare string (each of which
   * raises or returns before selecting).
   */
  function ClickRange(chapters: seq<Chapter>, c: int, s: int, idx: int): (r: Option<(int, int)>)
    ensures r.Some? ==> HasScene(chapters, c, s) && SceneAt(chapters, c, s).Record?
  {
    if !HasScene(chapters, c, s) || SceneAt(chapters, c, s).Plain? then None
    else
      var scene := SceneAt(chapters, c, s);
      var e := EntryAt(NotesOf(scene, Annotation), NotesOf(scene, Footnote), idx);
      if e.None? || e.value.note.NoteText? then None
      else Some((e.value.note.start, e.value.note.end))
  }

  /** With only records in both lists, the refresh lists every one of them. */
  lemma RowsCountRecords(scene: Scene)
    requires scene.Record? && AllRecords(NotesOf(scene, Annotation)) && AllRecords(NotesOf(scene, Footnote))
    ensures |SceneRows(scene)| == |NotesOf(scene, Annotation)| + |NotesOf(scene, Footnote)|
  {
  }

  /**
   * Every listed row maps back, on a click, to the record the row shows:
   * the click selects that record's range and the row carries its text.
   */
  lemma ClickSelectsListedNote(chapters: seq<Chapter>, c: int, s: int, idx: int)
    requires 0 <= idx < |ListRows(chapters, c, s)|
    ensures HasScene(chapters, c, s)
    ensures var scene := SceneAt(chapters, c, s);
            var e := EntryAt(NotesOf(scene, Annotation), NotesOf(scene, Footnote), idx);
            && e.Some? && e.value.note.Note?
            && ListRows(chapters, c, s)[idx] == Row(e.value.kind, e.value.note)
            && ClickRange(chapters, c, s, idx) == Some((e.value.note.start, e.value.note.end))
  {
    var scene := SceneAt(chapters, c, s);
    var anns, fns := NotesOf(scene, Annotation), NotesOf(scene, Footnote);
    if idx >= |NoteRows(Annotation, anns)| {
      assert AllRecords(anns);
      assert |NoteRows(Annotation, anns)| == |anns|;
    }
  }

  /** Appending a record to a list of records adds its row at the end. */
  lemma {:induction false} NoteRowsAppend(kind: NoteKind, notes: seq<Note>, n: Note)
    requires AllRecords(notes) && n.Note?
    ensures NoteRows(kind, notes + [n]) == NoteRows(kind, notes) + [Row(kind, n)]
  {
    if notes != [] {
      assert (notes + [n])[1..] == notes[1..] + [n];
      NoteRowsAppend(kind, notes[1..], n);
    }
  }

  /**
   * With only records in both lists, adding one record lists exactly one
   * more row: after the annotations for an annotation, at the end for a
   * footnote.
   */
  lemma AddedNoteListed(scene: Scene, kind: NoteKind, n: Note)
    requires scene.Record? && n.Note?
    requires AllRecords(NotesOf(scene, Annotation)) && AllRecords(NotesOf(scene, Footnote))
    ensures var rows, k := SceneRows(scene), |NotesOf(scene, Annotation)|;
            kind == Annotation ==> k <= |rows| && SceneRows(Appended(scene, kind, n).value) == rows[..k] + [Row(kind, n)] + rows[k..]
    ensures kind == Footnote ==> SceneRows(Appended(scene, kind, n).value) == SceneRows(scene) + [Row(kind, n)]
  {
    var anns, fns := NotesOf(scene, Annotation), NotesOf(scene, Footnote);
    var after := Appended(scene, kind, n).value;
    var front, back := NoteRows(Annotation, anns), NoteRows(Footnote, fns);
    assert |front| == |anns|;
    assert SceneRows(scene) == front + back;
    if kind == Annotation {
      AddedAnnotationRows(scene, after, n);
      assert (front + back)[..|anns|] == front && (front + back)[|anns|..] == back;
    } else {
      AddedFootnoteRows(scene, after, n);
    }
  }

  lemma AddedAnnotationRows(scene: Scene, after: Scene, n: Note)
    requires scene.Record? && after.Record? && n.Note?
    requires AllRecords(NotesOf(scene, Annotation)) && AllRecords(NotesOf(scene, Footnote))
    requires NotesOf(after, Annotation) == NotesOf(scene, Annotation) + [n]
    requires NotesOf(after, Footnote) == NotesOf(scene, Footnote)
    ensures SceneRows(after) == NoteRows(Annotation, NotesOf(scene, Annotation)) + [Row(Annotation, n)]
                                + NoteRows(Footnote, NotesOf(scene, Footnote))
  {
    var anns := NotesOf(scene, Annotation);
    NoteRowsAppend(Annotation, anns, n);
    assert AllRecords(anns + [n]);
  }

  lemma AddedFootnoteRows(scene: Scene, after: Scene, n: Note)
    requires scene.Record? && after.Record? && n.Note?
    requires AllRecords(NotesOf(scene, Annotation)) && AllRecords(NotesOf(scene, Footnote))
    requires NotesOf(after, Annotation) == NotesOf(scene, Annotation)
    requires NotesOf(after, Footnote) == NotesOf(scene, Footnote) + [n]
    ensures SceneRows(after) == SceneRows(scene) + [Row(Footnote, n)]
  {
    var anns, fns := NotesOf(scene, Annotation), NotesOf(scene, Footnote);
    NoteRowsAppend(Footnote, fns, n);
    assert SceneRows(after) == NoteRows(Annotation, anns) + (NoteRows(Footnote, fns) + [Row(Footnote, n)]);
  }

  /** The annotation list widget: the texts of its rows. */
  class AnnotationList {
    var items: seq<string>

    constructor ()
      ensures items == []
    {
      items := [];
    }

    /** Adds one row per record of `notes`, stopping at the first bare string. */
    method AddRows(kind: NoteKind, notes: seq<Note>) returns (complete: bool)
      modifies this
      ensures items == old(items) + NoteRows(kind, notes)
      ensures complete == AllRecords(notes)
    {
      ghost var before := items;
      var i := 0;
      while i < |notes|
        invariant 0 <= i <= |notes| && forall k :: 0 <= k < i ==> notes[k].Note?
        invariant items == before + NoteRows(kind, notes[..i])
      {
        if notes[i].NoteText? {
          NoteRowsStop(kind, notes, i);
          return false;
        }
        var row := Row(kind, notes[i]);
        NoteRowsGrow(kind, notes, i, before, items);
        items := items + [row];
        i := i + 1;
      }
      assert notes[..i] == notes;
      return true;
    }

    /** `refresh_annotation_list`: the list is cleared, then refilled from the current scene. */
    method Refresh(chapters: seq<Chapter>, c: int, s: int)
      modifies this
      ensures items == ListRows(chapters, c, s)
    {
      items := [];
      // a chapter without `scenes` raises: the list stays empty
      if c >= 0 && s >= 0 && c < |chapters| && chapters[c].scenes.Some? {
        var scenes := chapters[c].scenes.value;
        if s < |scenes| {
          var scene := scenes[s];
          // a bare-string scene raises on `get`: the list stays empty
          if scene.Record? {
            AddSceneRows(NotesOf(scene, Annotation), NotesOf(scene, Footnote));
          }
        }
      }
    }

    /** The refill for one scene: its annotations, then its footnotes if every annotation was a record. */
    method AddSceneRows(anns: seq<Note>, fns: seq<Note>)
      modifies this
      ensures items == old(items) + NoteRows(Annotation, anns) + (if AllRecords(anns) then NoteRows(Footnote, fns) else [])
    {
      var complete := AddRows(Annotation, anns);
      if complete {
        complete := AddRows(Footnote, fns);
      }
    }
  }

  /** The rows of a record prefix extend by the next record. */
  lemma {:induction false} NoteRowsExtend(kind: NoteKind, notes: seq<Note>, i: nat)
    requires i < |notes| && forall k :: 0 <= k <= i ==> notes[k].Note?
    ensures NoteRows(kind, notes[..i + 1]) == NoteRows(kind, notes[..i]) + [Row(kind, notes[i])]
  {
    if i > 0 {
      assert notes[..i + 1][1..] == notes[1..][..i];
      assert notes[..i][1..] == notes[1..][..i - 1];
      NoteRowsExtend(kind, notes[1..], i - 1);
    }
  }

  /** Appending record `i`'s row to a list holding the rows of the records before it. */
  lemma NoteRowsGrow(kind: NoteKind, notes: seq<Note>, i: nat, before: seq<string>, items: seq<string>)
    requires i < |notes| && forall k :: 0 <= k <= i ==> notes[k].Note?
    requires items == before + NoteRows(kind, notes[..i])
    ensures items + [Row(kind, notes[i])] == before + NoteRows(kind, notes[..i + 1])
  {
    NoteRowsExtend(kind, notes, i);
  }

  /** The rows stop at the first bare string. */
  lemma {:induction false} NoteRowsStop(kind: NoteKind, notes: seq<Note>, i: nat)
    requires i < |notes| && (forall k :: 0 <= k < i ==> notes[k].Note?) && notes[i].NoteText?
    ensures NoteRows(kind, notes) == NoteRows(kind, notes[..i])
  {
    if i > 0 {
      assert notes[..i][1..] == notes[1..][..i - 1];
      NoteRowsStop(kind, notes[1..], i - 1);
    }
  }

  /**
   * The scene once the highlight has been applied and the note recorded:
   * the highlight's edit first (a bare string becomes a dictionary), then
   * the appended record. This always succeeds on an existing scene, string
   * or dictionary: the record is the newest of its list, no earlier record
   * of either list is lost, and the scene holds the editor's HTML under its
   * row's title.
   */
  function Annotated(s: Scene, shown: string, html: string, kind: NoteKind, n: Note): (r: Scene)
    ensures NotesOf(r, kind) == NotesOf(s, kind) + [n]
    ensures forall k :: k != kind ==> NotesOf(r, k) == NotesOf(s, k)
    ensures r.Record? && r.content == Some(html) && r.title == Some(shown)
  {
    Appended(Edited(s, shown, html), kind, n).value
  }

  /**
   * `add_annotation` (`kind == Annotation`) and `add_footnote` (`kind ==
   * Footnote`) with the cursor's `selection`, the dialog's answer
   * `(note, ok)` and the editor's HTML `html` once the selection is
   * highlighted. With a selection and a confirmed non-empty note, the
   * highlight's `mergeCharFormat` emits `textChanged`, which runs
   * `_on_text_changed` on the current scene; then, when that scene exists,
   * exactly one `{text, note, start, end}` record is appended to its list
   * and the annotation list is refreshed. Otherwise nothing changes.
   */
  method AddNote(kind: NoteKind, w: ProjectEditorWindow, list: AnnotationList,
                 selection: Option<Selection>, note: string, ok: bool, html: string) returns (r: AddOutcome)
    requires w.Valid()
    modifies w, list
    ensures w.chapterItems == old(w.chapterItems) && w.chapterRow == old(w.chapterRow)
    ensures w.sceneItems == old(w.sceneItems) && w.sceneRow == old(w.sceneRow)
    ensures r == NoSelection <==> selection.None?
    ensures r == Dismissed <==> selection.Some? && (!ok || note == "")
    ensures r == Added <==>
              && selection.Some? && ok && note != ""
              && HasScene(old(w.chapters), w.chapterRow, w.sceneRow)
    ensures r == Added ==>
              var c, s, sel := w.chapterRow, w.sceneRow, selection.value;
              var scenes := old(w.chapters)[c].scenes.value;
              && w.chapters == WithScenes(old(w.chapters), c,
                   scenes[s := Annotated(scenes[s], w.sceneItems[s], html, kind, Note(sel.text, note, sel.start, sel.end))])
              && list.items == ListRows(w.chapters, c, s)
    ensures r != Added ==> w.chapters == old(w.chapters) && list.items == old(list.items)
  {
    if selection.None? {
      return NoSelection;
    }
    if !ok || note == "" {
      return Dismissed;
    }
    var sel := selection.value;
    var cidx, sidx := w.chapterRow, w.sceneRow;
    var record := Note(sel.text, note, sel.start, sel.end);
    ghost var before := w.chapters;
    w.TextChanged(html);
    if cidx >= 0 && sidx >= 0 && cidx < |w.chapters| {
      if w.chapters[cidx].scenes.None? {
        return NotAdded;
      }
      var scenes := w.chapters[cidx].scenes.value;
      if sidx < |scenes| {
        ghost var original := before[cidx].scenes.value;
        assert scenes == original[sidx := Edited(original[sidx], w.sceneItems[sidx], html)];
        // the highlight's edit has made the scene a dictionary, so the lookup cannot raise
        var scene := Appended(scenes[sidx], kind, record).value;
        assert scenes[sidx := scene] == original[sidx := Annotated(original[sidx], w.sceneItems[sidx], html, kind, record)];
        w.chapters := WithScenes(w.chapters, cidx, scenes[sidx := scene]);
        list.Refresh(w.chapters, cidx, sidx);
        return Added;
      }
    }
    return NotAdded;
  }
}
