// The older annotation list helpers of GUI/windows/utils_ui.py: a summary
// list with one placeholder row when there is nothing to show, each entry
// shown as a label and its first 40 characters, and a click reporting the
// entry's kind and value to the editor.

module UtilsUi {
  import opened Json
  import opened Text
  import opened Scenes
  import opened Annotations

  const Placeholder := "(No annotations or footnotes)"

  function Label(kind: NoteKind): string
  {
    if kind == Annotation then "[Annotation] " else "[Footnote] "
  }

  /** Every entry of the list is a bare string. */
  predicate AllTexts(notes: seq<Note>)
  {
    forall i :: 0 <= i < |notes| ==> notes[i].NoteText?
  }

  /**
   * The rows added for one list: the label and the entry's first 40
   * characters per bare string, up to the first dictionary (which cannot be
   * sliced, so the refresh stops there).
   */
  function TextRows(kind: NoteKind, notes: seq<Note>): (rows: seq<string>)
    ensures |rows| <= |notes|
    ensures forall i :: 0 <= i < |rows| ==> notes[i].NoteText? && rows[i] == Label(kind) + Truncate(notes[i].s, 40)
    ensures |rows| < |notes| ==> notes[|rows|].Note?
  {
    if notes == [] || notes[0].Note? then []
    else [Label(kind) + Truncate(notes[0].s, 40)] + TextRows(kind, notes[1..])
  }

  /**
   * The cases in which the refresh shows the placeholder: invalid indices, a
   * scene index past the end, or a scene with neither annotations nor
   * footnotes (a bare-string scene has none).
   */
  predicate NothingToList(chapters: seq<Chapter>, c: int, s: int)
  {
    || c < 0 || s < 0 || c >= |chapters|
    || (chapters[c].scenes.Some?
        && (|| s >= |chapters[c].scenes.value|
            || (NotesOf(chapters[c].scenes.value[s], Annotation) == []
                && NotesOf(chapters[c].scenes.value[s], Footnote) == [])))
  }

  /**
   * The rows `refresh_annotation_list` leaves. A chapter without `scenes`
   * raises after the list is cleared, leaving it empty.
   */
  function SummaryRows(chapters: seq<Chapter>, c: int, s: int): (rows: seq<string>)
    ensures 0 <= c < |chapters| && s >= 0 && chapters[c].scenes.None? ==> rows == []
    ensures HasScene(chapters, c, s) && !NothingToList(chapters, c, s) ==>
              var scene := SceneAt(chapters, c, s);
              var anns, fns := NotesOf(scene, Annotation), NotesOf(scene, Footnote);
              && |rows| <= |anns| + |fns|
              && (AllTexts(anns) && AllTexts(fns) ==> |rows| == |anns| + |fns|)
  {
    if c < 0 || s < 0 || c >= |chapters| then [Placeholder]
    else if chapters[c].scenes.None? then []
    else if s >= |chapters[c].scenes.value| then [Placeholder]
    else
      var scene := chapters[c].scenes.value[s];
      var anns, fns := NotesOf(scene, Annotation), NotesOf(scene, Footnote);
      if anns == [] && fns == [] then [Placeholder]
      else TextRows(Annotation, anns) + (if AllTexts(anns) then TextRows(Footnote, fns) else [])
  }

  /** The dictionary `{"type": ..., "text": entry}` handed to `show_annotation_details`. */
  function Detail(e: Entry): (v: Value)
    ensures v.Obj? && v.fields.Keys == {"type", "text"} && v.fields["text"] == NoteValue(e.note)
    ensures v.fields["type"] == Str(if e.kind == Annotation then "annotation" else "footnote")
  {
    Obj(map["type" := Str(if e.kind == Annotation then "annotation" else "footnote"),
            "text" := NoteValue(e.note)])
  }

  /**
   * `on_annotation_clicked`: the details shown for a click on row `idx`;
   * `None` for invalid indices, a chapter without `scenes` (which raises)
   * or a row outside the annotations followed by the footnotes.
   */
  function ClickDetail(chapters: seq<Chapter>, c: int, s: int, idx: int): (r: Option<Value>)
    ensures r.Some? <==>
              && HasScene(chapters, c, s)
              && 0 <= idx < |NotesOf(SceneAt(chapters, c, s), Annotation)| + |NotesOf(SceneAt(chapters, c, s), Footnote)|
  {
    if !HasScene(chapters, c, s) then None
    else
      var scene := SceneAt(chapters, c, s);
      var e := EntryAt(NotesOf(scene, Annotation), NotesOf(scene, Footnote), idx);
      if e.Some? then Some(Detail(e.value)) else None
  }

  /** The refresh shows exactly the placeholder row precisely in the placeholder cases. */
  lemma SummaryPlaceholder(chapters: seq<Chapter>, c: int, s: int)
    ensures SummaryRows(chapters, c, s) == [Placeholder] <==> NothingToList(chapters, c, s)
  {
    if !NothingToList(chapters, c, s) {
      SummaryRowsLabelled(chapters, c, s);
      assert Placeholder[0] == '(';
    }
  }

  /** Outside the placeholder cases the first row, if any, starts with an entry's label. */
  lemma SummaryRowsLabelled(chapters: seq<Chapter>, c: int, s: int)
    requires !NothingToList(chapters, c, s)
    ensures var rows := SummaryRows(chapters, c, s);
            rows != [] ==> rows[0] != [] && rows[0][0] == '['
  {
    if chapters[c].scenes.Some? {
      var scene := chapters[c].scenes.value[s];
      var anns, fns := NotesOf(scene, Annotation), NotesOf(scene, Footnote);
      var front := TextRows(Annotation, anns);
      if front != [] {
        assert (Label(Annotation) + Truncate(anns[0].s, 40))[0] == '[';
      } else if AllTexts(anns) && fns != [] && fns[0].NoteText? {
        assert (Label(Footnote) + Truncate(fns[0].s, 40))[0] == '[';
      }
    }
  }

  /**
   * Outside the placeholder cases, row `idx` of the summary is the entry a
   * click on it reports: the row's label names the entry's kind and the row
   * shows the entry's first 40 characters.
   */
  lemma SummaryClickAgree(chapters: seq<Chapter>, c: int, s: int, idx: int)
    requires !NothingToList(chapters, c, s) && 0 <= idx < |SummaryRows(chapters, c, s)|
    ensures HasScene(chapters, c, s)
    ensures var scene := SceneAt(chapters, c, s);
            var e := EntryAt(NotesOf(scene, Annotation), NotesOf(scene, Footnote), idx);
            && e.Some? && e.value.note.NoteText?
            && SummaryRows(chapters, c, s)[idx] == Label(e.value.kind) + Truncate(e.value.note.s, 40)
            && ClickDetail(chapters, c, s, idx) == Some(Detail(e.value))
  {
    var scene := SceneAt(chapters, c, s);
    var anns := NotesOf(scene, Annotation);
    if idx >= |TextRows(Annotation, anns)| {
      assert AllTexts(anns);
      assert |TextRows(Annotation, anns)| == |anns|;
    }
  }

  /** With only bare strings in both lists, the summary has one row per entry. */
  lemma SummaryCountTexts(chapters: seq<Chapter>, c: int, s: int)
    requires !NothingToList(chapters, c, s)
    requires HasScene(chapters, c, s)
    requires AllTexts(NotesOf(SceneAt(chapters, c, s), Annotation)) && AllTexts(NotesOf(SceneAt(chapters, c, s), Footnote))
    ensures |SummaryRows(chapters, c, s)| == |NotesOf(SceneAt(chapters, c, s), Annotation)| + |NotesOf(SceneAt(chapters, c, s), Footnote)|
  {
  }

  /** Adds one row per bare string of `notes`, stopping at the first dictionary. */
  method AddTextRows(list: AnnotationList, kind: NoteKind, notes: seq<Note>) returns (complete: bool)
    modifies list
    ensures list.items == old(list.items) + TextRows(kind, notes)
    ensures complete == AllTexts(notes)
  {
    ghost var before := list.items;
    var i := 0;
    while i < |notes|
      invariant 0 <= i <= |notes| && forall k :: 0 <= k < i ==> notes[k].NoteText?
      invariant list.items == before + TextRows(kind, notes[..i])
    {
      if notes[i].Note? {
        TextRowsStop(kind, notes, i);
        return false;
      }
      var row := Label(kind) + Truncate(notes[i].s, 40);
      TextRowsGrow(kind, notes, i, before, list.items);
      list.items := list.items + [row];
      i := i + 1;
    }
    assert notes[..i] == notes;
    return true;
  }

  /** `refresh_annotation_list`: the list is cleared, then refilled from the current scene. */
  method RefreshSummary(list: AnnotationList, chapters: seq<Chapter>, c: int, s: int)
    modifies list
    ensures list.items == SummaryRows(chapters, c, s)
  {
    list.items := [];
    if c < 0 || s < 0 || c >= |chapters| {
      list.items := list.items + [Placeholder];
      return;
    }
    if chapters[c].scenes.None? {
      return;
    }
    var scenes := chapters[c].scenes.value;
    if s >= |scenes| {
      list.items := list.items + [Placeholder];
      return;
    }
    var scene := scenes[s];
    var anns, fns := NotesOf(scene, Annotation), NotesOf(scene, Footnote);
    if anns == [] && fns == [] {
      list.items := list.items + [Placeholder];
      return;
    }
    var complete := AddTextRows(list, Annotation, anns);
    if complete {
      complete := AddTextRows(list, Footnote, fns);
    }
  }

  /** The rows of a bare-string prefix extend by the next entry. */
  lemma {:induction false} TextRowsExtend(kind: NoteKind, notes: seq<Note>, i: nat)
    requires i < |notes| && forall k :: 0 <= k <= i ==> notes[k].NoteText?
    ensures TextRows(kind, notes[..i + 1]) == TextRows(kind, notes[..i]) + [Label(kind) + Truncate(notes[i].s, 40)]
  {
    if i > 0 {
      assert notes[..i + 1][1..] == notes[1..][..i];
      assert notes[..i][1..] == notes[1..][..i - 1];
      TextRowsExtend(kind, notes[1..], i - 1);
    }
  }

  /** Appending entry `i`'s row to a list holding the rows of the entries before it. */
  lemma TextRowsGrow(kind: NoteKind, notes: seq<Note>, i: nat, before: seq<string>, items: seq<string>)
    requires i < |notes| && forall k :: 0 <= k <= i ==> notes[k].NoteText?
    requires items == before + TextRows(kind, notes[..i])
    ensures items + [Label(kind) + Truncate(notes[i].s, 40)] == before + TextRows(kind, notes[..i + 1])
  {
    TextRowsExtend(kind, notes, i);
  }

  /** The rows stop at the first dictionary. */
  lemma {:induction false} TextRowsStop(kind: NoteKind, notes: seq<Note>, i: nat)
    requires i < |notes| && (forall k :: 0 <= k < i ==> notes[k].NoteText?) && notes[i].Note?
    ensures TextRows(kind, notes) == TextRows(kind, notes[..i])
  {
    if i > 0 {
      assert notes[..i][1..] == notes[1..][..i - 1];
      TextRowsStop(kind, notes[1..], i - 1);
    }
  }
}
