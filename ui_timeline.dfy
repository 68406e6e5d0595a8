// The list-based timeline tab of GUI/windows/ui_timeline.py: one list row per
// scene, reordered by Qt's internal drag and drop; after a move the scenes
// are rebuilt from the rows' texts, and a double-click asks the parent editor
// to edit the scene at that row. The scene list is the one the
// `get_scenes`/`set_scenes` callbacks read and replace.

module UiTimeline {
  import opened Json
  import opened Scenes

  /**
   * The row texts `refresh` leaves: one `TimelineCard` per scene, whose text
   * and `title` are both the scene's shown title, up to the first dictionary
   * without `title` (where the loop raises).
   */
  function RowTitles(scenes: seq<Scene>): (rows: seq<string>)
    ensures |rows| <= |scenes|
    ensures forall i :: 0 <= i < |rows| ==> Titled(scenes[i]) && rows[i] == ShownTitle(scenes[i])
    ensures |rows| < |scenes| ==> !Titled(scenes[|rows|])
  {
    if scenes == [] || !Titled(scenes[0]) then []
    else [ShownTitle(scenes[0])] + RowTitles(scenes[1..])
  }

  /** The row texts as the values the rebuild compares scenes with. */
  function RowValues(rows: seq<string>): (titles: seq<Value>)
    ensures |titles| == |rows| && forall i :: 0 <= i < |rows| ==> titles[i] == Str(rows[i])
  {
    seq(|rows|, i requires 0 <= i < |rows| => Str(rows[i]))
  }

  /**
   * With distinct titles, a refresh followed by a reorder signal with the rows
   * untouched gives back the same scene list.
   */
  lemma RefreshReorderRoundTrip(scenes: seq<Scene>)
    requires DistinctTitles(scenes)
    ensures Reorder(RowValues(RowTitles(scenes)), scenes) == Some(scenes)
  {
    assert RowValues(RowTitles(scenes)) == PickedTitles(scenes, Identity(|scenes|));
    ReorderOwnTitles(scenes);
  }

  /** `_on_edit`: the row handed to the parent's `edit_scene`, if any. */
  function EditTarget(row: int, sceneCount: nat, parentEdits: bool): (r: Option<nat>)
    ensures r.Some? <==> 0 <= row < sceneCount && parentEdits
    ensures r.Some? ==> r.value == row && r.value < sceneCount
  {
    if 0 <= row < sceneCount && parentEdits then Some(row) else None
  }

  class TimelineTab {
    /** The texts of the list's rows, top to bottom. */
    var rows: seq<string>
    /** The scene list the callbacks read and replace. */
    var scenes: seq<Scene>

    /** `__init__`: the list is filled by `refresh`. */
    constructor (scenes: seq<Scene>)
      ensures this.scenes == scenes && rows == RowTitles(scenes)
    {
      this.scenes := scenes;
      rows := RowTitles(scenes);
    }

    /** `refresh`: the list is cleared and one row is added per scene. */
    method Refresh()
      modifies this
      ensures rows == RowTitles(scenes) && scenes == old(scenes)
    {
      rows := [];
      var i := 0;
      while i < |scenes|
        invariant 0 <= i <= |scenes| && AllTitled(scenes[..i])
        invariant rows == RowTitles(scenes[..i]) && scenes == old(scenes)
      {
        if !Titled(scenes[i]) {
          RowTitlesUntitled(scenes, i);
          return;
        }
        RowTitlesExtend(scenes, i);
        rows := rows + [ShownTitle(scenes[i])];
        i := i + 1;
      }
      assert scenes[..i] == scenes;
    }

    /**
     * `_on_reorder`: the scenes become the rebuild from the rows' texts in
     * list order; a lookup that raises leaves them as they were.
     */
    method OnReorder()
      modifies this
      ensures rows == old(rows)
      ensures var r := Reorder(RowValues(rows), old(scenes));
              scenes == (if r.Some? then r.value else old(scenes))
    {
      var r := RebuildScenes(RowValues(rows), scenes);
      if r.Some? {
        scenes := r.value;
      }
    }
  }

  /** The rows of a titled prefix extend by the next titled scene. */
  lemma {:induction false} RowTitlesExtend(scenes: seq<Scene>, i: nat)
    requires i < |scenes| && AllTitled(scenes[..i + 1])
    ensures RowTitles(scenes[..i + 1]) == RowTitles(scenes[..i]) + [ShownTitle(scenes[i])]
  {
    if i > 0 {
      assert scenes[..i + 1][1..] == scenes[1..][..i];
      assert scenes[..i][1..] == scenes[1..][..i - 1];
      RowTitlesExtend(scenes[1..], i - 1);
    }
  }

  /** The rows stop at the first scene without a title. */
  lemma {:induction false} RowTitlesUntitled(scenes: seq<Scene>, i: nat)
    requires i < |scenes| && AllTitled(scenes[..i]) && !Titled(scenes[i])
    ensures RowTitles(scenes) == RowTitles(scenes[..i])
  {
    if i > 0 {
      assert scenes[..i][1..] == scenes[1..][..i - 1];
      RowTitlesUntitled(scenes[1..], i - 1);
    }
  }
}
