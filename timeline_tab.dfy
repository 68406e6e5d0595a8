// The Story Planning tab (GUI/windows/project_editor/timeline_tab.py): a
// timeline board filled from the current chapter's scenes, and the reverse
// direction that puts the scenes in the order of the board's cards. The
// `get_scenes`/`set_scenes` callbacks stand for the current chapter's scene
// list, held here as `scenes`.

module TimelineTab {
  import opened Json
  import opened Scenes
  import opened TimelineBoard

  /**
   * The cards `sync_scenes_to_timeline` leaves: one per scene, titled with
   * the scene's shown title, up to the first dictionary without `title`
   * (where `scene["title"]` raises and the loop stops).
   */
  function SceneCards(scenes: seq<Scene>): (cards: seq<TimelineCard>)
    ensures |cards| <= |scenes|
    ensures forall i :: 0 <= i < |cards| ==> Titled(scenes[i]) && cards[i] == TimelineCard(Str(ShownTitle(scenes[i])))
    ensures |cards| < |scenes| ==> !Titled(scenes[|cards|])
  {
    if scenes == [] || !Titled(scenes[0]) then []
    else [TimelineCard(Str(ShownTitle(scenes[0])))] + SceneCards(scenes[1..])
  }

  /** With every scene titled, there is one card per scene and the cards carry the scenes' titles in order. */
  lemma SceneCardsTitles(scenes: seq<Scene>)
    requires AllTitled(scenes)
    ensures Titles(SceneCards(scenes)) == PickedTitles(scenes, Identity(|scenes|))
  {
  }

  /**
   * With distinct titles, filling the board from the scenes and reading it
   * straight back returns the same scene list.
   */
  lemma SyncRoundTrip(scenes: seq<Scene>)
    requires DistinctTitles(scenes)
    ensures Reorder(Titles(SceneCards(scenes)), scenes) == Some(scenes)
  {
    SceneCardsTitles(scenes);
    ReorderOwnTitles(scenes);
  }

  /** With distinct titles, swapping two cards on the board swaps the two scenes. */
  lemma SyncSwapped(scenes: seq<Scene>, i: nat, j: nat)
    requires DistinctTitles(scenes) && i < |scenes| && j < |scenes|
    ensures var cards := SceneCards(scenes);
            Reorder(Titles(cards[i := cards[j]][j := cards[i]]), scenes)
              == Some(scenes[i := scenes[j]][j := scenes[i]])
  {
    var cards := SceneCards(scenes);
    SceneCardsTitles(scenes);
    TitlesSwapped(cards, i, j);
    ReorderSwapped(scenes, i, j);
  }

  /** Exchanging two cards exchanges their titles. */
  lemma TitlesSwapped(cards: seq<TimelineCard>, i: nat, j: nat)
    requires i < |cards| && j < |cards|
    ensures var titles := Titles(cards);
            Titles(cards[i := cards[j]][j := cards[i]]) == titles[i := titles[j]][j := titles[i]]
  {
    var titles := Titles(cards);
    var a, b := Titles(cards[i := cards[j]][j := cards[i]]), titles[i := titles[j]][j := titles[i]];
    forall k | 0 <= k < |cards| ensures a[k] == b[k] {
    }
  }

  class TimelineTab {
    const timeline: TimelineBoardWidget
    /** The scene list the callbacks read and replace. */
    var scenes: seq<Scene>

    constructor (scenes: seq<Scene>)
      ensures this.scenes == scenes && fresh(timeline) && timeline.cards == [] && timeline.emitted == []
    {
      this.scenes := scenes;
      timeline := new TimelineBoardWidget();
    }

    /** `sync_scenes_to_timeline`: the board is cleared, then one card is added per scene. */
    method SyncScenesToTimeline()
      modifies timeline
      ensures timeline.cards == SceneCards(scenes) && timeline.emitted == old(timeline.emitted)
    {
      timeline.cards := [];
      var i := 0;
      while i < |scenes|
        invariant 0 <= i <= |scenes| && AllTitled(scenes[..i])
        invariant timeline.cards == SceneCards(scenes[..i]) && timeline.emitted == old(timeline.emitted)
      {
        if !Titled(scenes[i]) {
          SceneCardsUntitled(scenes, i);
          return;
        }
        SceneCardsExtend(scenes, i);
        var raised := timeline.AddCard(Str(ShownTitle(scenes[i])));
        i := i + 1;
      }
      assert scenes[..i] == scenes;
    }

    /**
     * `sync_timeline_to_scenes`: the scenes become the rebuild from the
     * cards' titles; a lookup that raises leaves them as they were.
     */
    method SyncTimelineToScenes()
      modifies this
      ensures var r := Reorder(Titles(timeline.cards), old(scenes));
              scenes == (if r.Some? then r.value else old(scenes))
    {
      var r := RebuildScenes(Titles(timeline.cards), scenes);
      if r.Some? {
        scenes := r.value;
      }
    }
  }

  /** The cards of a titled prefix extend by the next titled scene. */
  lemma {:induction false} SceneCardsExtend(scenes: seq<Scene>, i: nat)
    requires i < |scenes| && AllTitled(scenes[..i + 1])
    ensures SceneCards(scenes[..i + 1]) == SceneCards(scenes[..i]) + [TimelineCard(Str(ShownTitle(scenes[i])))]
  {
    if i > 0 {
      assert scenes[..i + 1][1..] == scenes[1..][..i];
      assert scenes[..i][1..] == scenes[1..][..i - 1];
      SceneCardsExtend(scenes[1..], i - 1);
    }
  }

  /** The cards stop at the first scene without a title. */
  lemma {:induction false} SceneCardsUntitled(scenes: seq<Scene>, i: nat)
    requires i < |scenes| && AllTitled(scenes[..i]) && !Titled(scenes[i])
    ensures SceneCards(scenes) == SceneCards(scenes[..i])
  {
    if i > 0 {
      assert scenes[..i][1..] == scenes[1..][..i - 1];
      SceneCardsUntitled(scenes[1..], i - 1);
    }
  }
}
