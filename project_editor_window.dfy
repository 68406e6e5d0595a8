// The project editor window (GUI/windows/project_editor_window.py): the
// chapters of one project with their scenes, the chapter and scene list
// widgets (item texts and current rows), scene text editing with a version
// history, navigation, adding and deleting chapters and scenes, the link
// targets offered to the Kanban board, and putting the scenes of the current
// chapter in the order of a timeline's cards. Dialog answers and the editor's
// text are the methods' parameters.

module ProjectEditor {
  import opened Json
  import opened Text
  import opened Lists
  import opened Scenes

  /** The `project` argument of the constructor. */
  datatype ProjectArg =
    | NoProject
    | NotADict
    | ProjectDict(chapters: Option<seq<Chapter>>)

  // ---------------------------------------------------------------------------
  // Link targets for the Kanban board

  /** What a link names: chapter `c`, or scene `s` of chapter `c`. */
  datatype Key = ChapterKey(c: nat) | SceneKey(c: nat, s: nat)

  /**
   * A link target `{"id", "type", "title"}`, plus `"chapter"` (the chapter's
   * title) for a scene; its `id` and `type` follow from what it names.
   */
  datatype Link = Link(key: Key, title: string, chapter: Option<string>)
  {
    function Id(): string
    {
      KeyId(key)
    }

    function Type(): string
    {
      if key.ChapterKey? then "chapter" else "scene"
    }
  }

  /** What follows the chapter number in a link id: nothing, or `:scene:` and the scene number. */
  function KeySuffix(k: Key): (x: string)
    ensures x == [] || x[0] == ':'
  {
    match k
    case ChapterKey(_) => ""
    case SceneKey(_, s) => ":scene:" + Decimal(s)
  }

  /** `f"chapter:{cidx}"` and `f"chapter:{cidx}:scene:{sidx}"`. */
  function KeyId(k: Key): string
  {
    "chapter:" + Decimal(k.c) + KeySuffix(k)
  }

  /** A run of digits ends where a `:` (or the end) starts. */
  lemma DigitsThenColon(a: string, x: string, b: string, y: string)
    requires AllDigits(a) && AllDigits(b) && a + x == b + y
    requires (x == [] || x[0] == ':') && (y == [] || y[0] == ':')
    ensures a == b && x == y
  {
    if |a| < |b| {
      DigitsBeforeColon(a, x, b, y);
      assert false;
    } else if |b| < |a| {
      DigitsBeforeColon(b, y, a, x);
      assert false;
    }
    assert a == (a + x)[..|a|] && b == (b + y)[..|b|];
    assert x == (a + x)[|a|..] && y == (b + y)[|b|..];
  }

  /** Where the shorter run of digits ends, the longer one still has a digit. */
  lemma DigitsBeforeColon(a: string, x: string, b: string, y: string)
    requires AllDigits(b) && |a| < |b| && |a + x| == |b + y|
    requires x == [] || x[0] == ':'
    ensures (a + x)[|a|] != (b + y)[|a|]
  {
    assert (a + x)[|a|] == x[0];
    assert (b + y)[|a|] == b[|a|];
  }

  lemma DropCommonPrefix(p: string, u: string, v: string)
    requires p + u == p + v
    ensures u == v
  {
    assert u == (p + u)[|p|..] && v == (p + v)[|p|..];
  }

  /** Equal ids have equal chapter numbers and equal suffixes. */
  lemma KeyIdParts(k1: Key, k2: Key)
    requires KeyId(k1) == KeyId(k2)
    ensures Decimal(k1.c) == Decimal(k2.c) && KeySuffix(k1) == KeySuffix(k2)
  {
    var d1, d2 := Decimal(k1.c), Decimal(k2.c);
    var x1, x2 := KeySuffix(k1), KeySuffix(k2);
    assert KeyId(k1) == "chapter:" + (d1 + x1);
    assert KeyId(k2) == "chapter:" + (d2 + x2);
    DropCommonPrefix("chapter:", d1 + x1, d2 + x2);
    DigitsThenColon(d1, x1, d2, x2);
  }

  /** Different keys have different ids. */
  lemma KeyIdInjective(k1: Key, k2: Key)
    requires KeyId(k1) == KeyId(k2)
    ensures k1 == k2
  {
    KeyIdParts(k1, k2);
    DecimalInjective(k1.c, k2.c);
    if k1.SceneKey? && k2.SceneKey? {
      DropCommonPrefix(":scene:", Decimal(k1.s), Decimal(k2.s));
      DecimalInjective(k1.s, k2.s);
    }
  }

  /** The scenes `chapter.get("scenes", [])` iterates. */
  function ChapterScenes(ch: Chapter): seq<Scene>
  {
    ch.scenes.GetOr([])
  }

  /** The chapter's links can be built: neither `chapter["title"]` nor a dictionary scene's `scene["title"]` raises. */
  predicate Linkable(ch: Chapter)
  {
    ch.title.Some? && AllTitled(ChapterScenes(ch))
  }

  /** The scene links of one chapter, built in scene order; `None` where a title lookup raises. */
  function SceneLinks(c: nat, chapterTitle: string, scenes: seq<Scene>): (r: Option<seq<Link>>)
    ensures r.Some? <==> AllTitled(scenes)
    ensures r.Some? ==> |r.value| == |scenes|
  {
    if scenes == [] then Some([])
    else
      var n := |scenes| - 1;
      var prev := SceneLinks(c, chapterTitle, scenes[..n]);
      assert forall s :: 0 <= s < n ==> scenes[..n][s] == scenes[s];
      if prev.Some? && Titled(scenes[n]) then
        Some(prev.value + [Link(SceneKey(c, n), ShownTitle(scenes[n]), Some(chapterTitle))])
      else None
  }

  /** Scene link `s` names scene `s` of chapter `c`, with the scene's title and the chapter's. */
  lemma {:induction false} SceneLinkAt(c: nat, chapterTitle: string, scenes: seq<Scene>, s: nat)
    requires AllTitled(scenes) && s < |scenes|
    ensures SceneLinks(c, chapterTitle, scenes).value[s]
              == Link(SceneKey(c, s), ShownTitle(scenes[s]), Some(chapterTitle))
  {
    var n := |scenes| - 1;
    if s < n {
      assert AllTitled(scenes[..n]) by {
        forall k | 0 <= k < n ensures Titled(scenes[..n][k]) {
          assert scenes[..n][k] == scenes[k];
        }
      }
      SceneLinkAt(c, chapterTitle, scenes[..n], s);
    }
  }

  /** Chapter `c`'s link followed by the links of its scenes. */
  function ChapterLinks(c: nat, ch: Chapter): (r: Option<seq<Link>>)
    ensures r.Some? <==> Linkable(ch)
    ensures r.Some? ==> |r.value| == 1 + |ChapterScenes(ch)|
  {
    if ch.title.None? then None
    else
      var scenes := SceneLinks(c, ch.title.value, ChapterScenes(ch));
      if scenes.Some? then Some([Link(ChapterKey(c), ch.title.value, None)] + scenes.value)
      else None
  }

  /** What `get_available_links` returns; `None` where it raises. */
  function AvailableLinks(chapters: seq<Chapter>): (r: Option<seq<Link>>)
    ensures r.Some? ==> |r.value| >= |chapters|
    ensures r.Some? && chapters != [] ==>
              chapters[0].title.Some? && r.value[0] == Link(ChapterKey(0), chapters[0].title.value, None)
  {
    if chapters == [] then Some([])
    else
      var n := |chapters| - 1;
      var prev := AvailableLinks(chapters[..n]);
      var last := ChapterLinks(n, chapters[n]);
      if prev.Some? && last.Some? then Some(prev.value + last.value) else None
  }

  /**
   * `get_available_links` raises exactly when some chapter has no `title`, or
   * has a dictionary scene without one.
   */
  lemma {:induction false} AvailableLinksDefined(chapters: seq<Chapter>)
    ensures AvailableLinks(chapters).Some? <==> forall c :: 0 <= c < |chapters| ==> Linkable(chapters[c])
  {
    if chapters != [] {
      var n := |chapters| - 1;
      var init := chapters[..n];
      AvailableLinksDefined(init);
      if AvailableLinks(chapters).Some? {
        forall c | 0 <= c < |chapters| ensures Linkable(chapters[c]) {
          if c < n {
            assert chapters[c] == init[c];
          }
        }
      } else if AvailableLinks(init).None? {
        var c :| 0 <= c < n && !Linkable(init[c]);
        assert chapters[c] == init[c];
      }
    }
  }

  /** The keys of chapter `c` with `m` scenes: the chapter, then its scenes in order. */
  function ChapterKeys(c: nat, m: nat): (keys: seq<Key>)
    ensures |keys| == m + 1 && keys[0] == ChapterKey(c)
    ensures forall s :: 0 <= s < m ==> keys[s + 1] == SceneKey(c, s)
    ensures forall k :: 0 <= k < |keys| ==> keys[k].c == c
    ensures forall i, j :: 0 <= i < j < |keys| ==> keys[i] != keys[j]
  {
    [ChapterKey(c)] + seq(m, s requires 0 <= s < m => SceneKey(c, s))
  }

  /** The keys of all chapters, chapter by chapter. */
  function LinkKeys(chapters: seq<Chapter>): (keys: seq<Key>)
    ensures forall i :: 0 <= i < |keys| ==> keys[i].c < |chapters|
  {
    if chapters == [] then []
    else
      var n := |chapters| - 1;
      LinkKeys(chapters[..n]) + ChapterKeys(n, |ChapterScenes(chapters[n])|)
  }

  /** No key is listed twice. */
  lemma {:induction false} LinkKeysDistinct(chapters: seq<Chapter>)
    ensures forall i, j :: 0 <= i < j < |LinkKeys(chapters)| ==> LinkKeys(chapters)[i] != LinkKeys(chapters)[j]
  {
    if chapters != [] {
      var n := |chapters| - 1;
      LinkKeysDistinct(chapters[..n]);
      var prev := LinkKeys(chapters[..n]);
      var last := ChapterKeys(n, |ChapterScenes(chapters[n])|);
      var keys := LinkKeys(chapters);
      assert keys == prev + last;
      forall i, j | 0 <= i < j < |keys| ensures keys[i] != keys[j] {
        if j < |prev| {
          assert keys[i] == prev[i] && keys[j] == prev[j];
          assert keys[i] != keys[j];
        } else if i < |prev| {
          assert keys[i] == prev[i] && prev[i].c < |chapters[..n]| == n;
          assert keys[j] == last[j - |prev|] && last[j - |prev|].c == n;
          assert keys[i].c != keys[j].c;
          assert keys[i] != keys[j];
        } else {
          var i', j' := i - |prev|, j - |prev|;
          assert keys[i] == last[i'] && keys[j] == last[j'];
          assert 0 <= i' < j' < |last|;
          assert last[i'] != last[j'];
          assert keys[i] != keys[j];
        }
      }
    }
  }

  /**
   * The links follow the keys: chapter `c`'s link, then the links of its
   * scenes in order, chapter after chapter.
   */
  lemma {:induction false} LinksFollowKeys(chapters: seq<Chapter>)
    requires AvailableLinks(chapters).Some?
    ensures var links := AvailableLinks(chapters).value;
            var keys := LinkKeys(chapters);
            |links| == |keys| && forall i :: 0 <= i < |links| ==> links[i].key == keys[i]
  {
    if chapters != [] {
      var n := |chapters| - 1;
      LinksFollowKeys(chapters[..n]);
      var prevLinks := AvailableLinks(chapters[..n]).value;
      var lastLinks := ChapterLinks(n, chapters[n]).value;
      var prevKeys := LinkKeys(chapters[..n]);
      var lastKeys := ChapterKeys(n, |ChapterScenes(chapters[n])|);
      var links := AvailableLinks(chapters).value;
      var keys := LinkKeys(chapters);
      assert links == prevLinks + lastLinks && keys == prevKeys + lastKeys;
      ChapterLinkKeys(n, chapters[n]);
      forall i | 0 <= i < |links|
        ensures links[i].key == keys[i]
      {
        if i < |prevLinks| {
          assert links[i] == prevLinks[i] && keys[i] == prevKeys[i];
        } else {
          assert links[i] == lastLinks[i - |prevLinks|] && keys[i] == lastKeys[i - |prevLinks|];
        }
      }
    }
  }

  /** One chapter's links carry its keys. */
  lemma ChapterLinkKeys(c: nat, ch: Chapter)
    requires Linkable(ch)
    ensures var links := ChapterLinks(c, ch).value;
            var keys := ChapterKeys(c, |ChapterScenes(ch)|);
            forall k :: 0 <= k < |links| ==> links[k].key == keys[k]
  {
    var links := ChapterLinks(c, ch).value;
    var keys := ChapterKeys(c, |ChapterScenes(ch)|);
    forall k | 0 <= k < |links| ensures links[k].key == keys[k] {
      if k > 0 {
        SceneLinkAt(c, ch.title.value, ChapterScenes(ch), k - 1);
      }
    }
  }

  /** Every link target `get_available_links` offers has its own id. */
  lemma LinkIdsDistinct(chapters: seq<Chapter>)
    requires AvailableLinks(chapters).Some?
    ensures var links := AvailableLinks(chapters).value;
            forall i, j :: 0 <= i < j < |links| ==> links[i].Id() != links[j].Id()
  {
    var links := AvailableLinks(chapters).value;
    var keys := LinkKeys(chapters);
    LinksFollowKeys(chapters);
    LinkKeysDistinct(chapters);
    forall i, j | 0 <= i < j < |links| ensures links[i].Id() != links[j].Id() {
      if links[i].Id() == links[j].Id() {
        KeyIdInjective(keys[i], keys[j]);
      }
    }
  }

  // ---------------------------------------------------------------------------
  // Scene rows, text edits and versions

  /** A scene's row in the scene list: `scene.get("title", "Untitled")`, or the string itself. */
  function RowText(s: Scene): string
  {
    if s.Plain? then s.text else s.title.GetOr("Untitled")
  }

  /** The rows `_on_chapter_selected` lists for chapter `idx`; none when it is out of range or has no `scenes`. */
  function ChapterRows(chapters: seq<Chapter>, idx: int): (rows: seq<string>)
    ensures 0 <= idx < |chapters| && chapters[idx].scenes.Some? ==>
              |rows| == |chapters[idx].scenes.value| &&
              forall i :: 0 <= i < |rows| ==> rows[i] == RowText(chapters[idx].scenes.value[i])
    ensures !(0 <= idx < |chapters| && chapters[idx].scenes.Some?) ==> rows == []
  {
    if 0 <= idx < |chapters| && chapters[idx].scenes.Some? then
      var scenes := chapters[idx].scenes.value;
      seq(|scenes|, i requires 0 <= i < |scenes| => RowText(scenes[i]))
    else []
  }

  /**
   * The scene after `_on_text_changed` with row text `shown` and editor text
   * `newContent`: a string scene first becomes `{"title", "content": ""}`;
   * a stored content that differs from the new one is appended to `versions`
   * (created if absent); then the title and the content are set.
   */
  function Edited(s: Scene, shown: string, newContent: string): (r: Scene)
    ensures r.Record? && r.title == Some(shown) && r.content == Some(newContent)
  {
    var d := if s.Plain? then NewScene(s.text) else s;
    var versions :=
      if d.content.Some? && d.content.value != newContent then Some(d.versions.GetOr([]) + [d.content.value])
      else d.versions;
    d.(title := Some(shown), content := Some(newContent), versions := versions)
  }

  /** A change that only sets the text the scene already has records no version. */
  lemma EditIdempotent(s: Scene, shown: string, newContent: string)
    ensures Edited(Edited(s, shown, newContent), shown, newContent) == Edited(s, shown, newContent)
  {
  }

  /** An edit keeps the old content as the newest version, and keeps the older ones before it. */
  lemma EditRecordsOldContent(s: Scene, shown: string, newContent: string)
    requires s.Record? && s.content.Some? && s.content.value != newContent
    ensures var e := Edited(s, shown, newContent);
            e.versions == Some(s.versions.GetOr([]) + [s.content.value])
            && e.annotations == s.annotations && e.footnotes == s.footnotes
  {
  }

  /**
   * Restoring version `v` as `show_version_history` evidently intends: its
   * content comes back and the entry leaves the history. This is the
   * effect with the editor's `setHtml` kept out of `_on_text_changed`, as
   * `_on_scene_selected` does with `_updating_text`.
   */
  function Restored(s: Scene, v: nat): (r: Scene)
    requires s.Record? && s.versions.Some? && v < |s.versions.value|
    ensures r.Record? && r.content == Some(s.versions.value[v])
    ensures r.versions.Some? && |r.versions.value| == |s.versions.value| - 1
    ensures r.title == s.title && r.annotations == s.annotations && r.footnotes == s.footnotes
  {
    s.(content := Some(s.versions.value[v]), versions := Some(RemoveAt(s.versions.value, v)))
  }

  /**
   * Restoring the newest version right after an edit that changed the text
   * gives back the previous content and the previous history.
   */
  lemma EditRestoreUndo(s: Scene, shown: string, newContent: string)
    requires s.Record? && s.content.Some? && s.content.value != newContent
    ensures var e := Edited(s, shown, newContent);
            var n := |s.versions.GetOr([])|;
            && e.versions.Some? && n < |e.versions.value|
            && Restored(e, n).content == s.content
            && Restored(e, n).versions == Some(s.versions.GetOr([]))
  {
    var e := Edited(s, shown, newContent);
    var old_ := s.versions.GetOr([]);
    assert e.versions.value == old_ + [s.content.value];
    var r := RemoveAt(e.versions.value, |old_|);
    assert |r| == |old_|;
    forall k | 0 <= k < |r| ensures r[k] == old_[k] {
    }
    assert r == old_;
  }

  /**
   * Restoring version `v` as written, where `html` is the editor's `toHtml()`
   * once `setHtml` has loaded the restored content: the content is set, then
   * `setHtml` runs `_on_text_changed`, which records that content as the
   * newest entry of the same version list and stores `html` with the row
   * text `shown` as title, and only then is entry `v` filtered out.
   */
  function RestoredAsWritten(s: Scene, v: nat, shown: string, html: string): (r: Scene)
    requires s.Record? && s.versions.Some? && v < |s.versions.value|
    ensures r.Record? && r.content == Some(html) && r.title == Some(shown)
    ensures r.annotations == s.annotations && r.footnotes == s.footnotes
  {
    var e := Edited(s.(content := Some(s.versions.value[v])), shown, html);
    e.(versions := Some(RemoveAt(e.versions.value, v)))
  }

  /**
   * As written, the restored version does not leave the history: it comes
   * back as the newest entry, behind the others in their order, whenever
   * the editor's HTML differs from it.
   */
  lemma RestoreKeepsVersion(s: Scene, v: nat, shown: string, html: string)
    requires s.Record? && s.versions.Some? && v < |s.versions.value|
    requires s.versions.value[v] != html
    ensures RestoredAsWritten(s, v, shown, html).versions == Some(RemoveAt(s.versions.value, v) + [s.versions.value[v]])
  {
    var vs := s.versions.value;
    var e := Edited(s.(content := Some(vs[v])), shown, html);
    assert e.versions.value == vs + [vs[v]];
    assert RemoveAt(vs + [vs[v]], v) == RemoveAt(vs, v) + [vs[v]] by {
      assert (vs + [vs[v]])[..v] == vs[..v];
      assert (vs + [vs[v]])[v + 1..] == vs[v + 1..] + [vs[v]];
    }
  }

  /**
   * A new scene edited once and restored to its only version: as written
   * the history still holds that version, where the intended restore
   * empties it.
   */
  lemma RestoreNewSceneAsWritten(title: string, shown: string, typed: string, html: string)
    requires typed != "" && html != ""
    ensures var e := Edited(NewScene(title), shown, typed);
            && e.versions == Some([""])
            && RestoredAsWritten(e, 0, shown, html).versions == Some([""])
            && Restored(e, 0).versions == Some([])
  {
    var e := Edited(NewScene(title), shown, typed);
    RestoreKeepsVersion(e, 0, shown, html);
  }

  // ---------------------------------------------------------------------------
  // Rows

  /**
   * `_navigate_to_scene`'s index for a list of `count > 0` scenes: −1 and
   * indices past the end go to the last scene, other negatives to the first.
   */
  function NavigateTarget(index: int, count: nat): (r: nat)
    requires count > 0
    ensures r < count
    ensures 0 <= index < count ==> r == index
    ensures (index == -1 || index >= count) ==> r == count - 1
    ensures index < -1 ==> r == 0
  {
    if index == -1 then count - 1
    else if index >= count then count - 1
    else if index < 0 then 0
    else index
  }

  /** A navigation target is settled: navigating to it again stays there. */
  lemma NavigateTargetSettled(index: int, count: nat)
    requires count > 0
    ensures NavigateTarget(NavigateTarget(index, count), count) == NavigateTarget(index, count)
  {
  }

  /**
   * The current row after `takeItem` removed it from a list now holding
   * `count` items: the item that moved up into its place, else the new last
   * one, else none (Qt's selection model).
   */
  function RowAfterTake(row: nat, count: nat): (r: int)
    ensures -1 <= r < count
    ensures r == -1 <==> count == 0
    ensures row < count ==> r == row
  {
    if row < count then row else count - 1
  }

  /** The chapter list with the scenes of chapter `c` replaced. */
  function WithScenes(chapters: seq<Chapter>, c: nat, scenes: seq<Scene>): (r: seq<Chapter>)
    requires c < |chapters|
    ensures |r| == |chapters| && r[c] == chapters[c].(scenes := Some(scenes))
    ensures forall k :: 0 <= k < |r| && k != c ==> r[k] == chapters[k]
  {
    chapters[c := chapters[c].(scenes := Some(scenes))]
  }

  /** What `show_version_history` ends with. */
  datatype VersionNotice = NoSceneSelected | NoVersions | Cancelled | VersionRestored | ErrorRaised

  class ProjectEditorWindow {
    /** `self.chapters`. */
    var chapters: seq<Chapter>
    /** The chapter list widget: its item texts and current row (−1 for none). */
    var chapterItems: seq<string>
    var chapterRow: int
    /** The scene list widget: its item texts and current row (−1 for none). */
    var sceneItems: seq<string>
    var sceneRow: int

    /** A list widget's current row is −1 or one of its items. */
    predicate Valid()
      reads this
    {
      -1 <= chapterRow < |chapterItems| && -1 <= sceneRow < |sceneItems|
    }

    /**
     * `__init__`: the chapters are `project["chapters"]` when the project is
     * a dictionary with that key, otherwise none. The chapter list starts
     * empty: the chapters passed in are not listed.
     */
    constructor (project: ProjectArg)
      ensures Valid()
      ensures project.ProjectDict? && project.chapters.Some? ==> chapters == project.chapters.value
      ensures !(project.ProjectDict? && project.chapters.Some?) ==> chapters == []
      ensures chapterItems == [] && chapterRow == -1 && sceneItems == [] && sceneRow == -1
    {
      if project.ProjectDict? && project.chapters.Some? {
        chapters := project.chapters.value;
      } else {
        chapters := [];
      }
      chapterItems, chapterRow := [], -1;
      sceneItems, sceneRow := [], -1;
    }

    /** `get_available_links`: a chapter link, then its scene links, chapter by chapter. */
    method GetAvailableLinks() returns (r: Option<seq<Link>>)
      ensures r == AvailableLinks(chapters)
    {
      var links: seq<Link> := [];
      var c := 0;
      while c < |chapters|
        invariant 0 <= c <= |chapters|
        invariant AvailableLinks(chapters[..c]) == Some(links)
      {
        var chapter := chapters[c];
        assert chapters[..c + 1][..c] == chapters[..c] && chapters[..c + 1][c] == chapter;
        if chapter.title.None? {
          AvailableLinksDefined(chapters);
          return None;
        }
        var chapterTitle := chapter.title.value;
        var before := links;
        links := links + [Link(ChapterKey(c), chapterTitle, None)];
        var scenes := ChapterScenes(chapter);
        var s := 0;
        while s < |scenes|
          invariant 0 <= s <= |scenes|
          invariant SceneLinks(c, chapterTitle, scenes[..s]).Some?
          invariant links == before + [Link(ChapterKey(c), chapterTitle, None)]
                               + SceneLinks(c, chapterTitle, scenes[..s]).value
        {
          var scene := scenes[s];
          assert scenes[..s + 1][..s] == scenes[..s];
          if !Titled(scene) {
            AvailableLinksDefined(chapters);
            return None;
          }
          links := links + [Link(SceneKey(c, s), ShownTitle(scene), Some(chapterTitle))];
          s := s + 1;
        }
        assert scenes[..s] == scenes;
        assert ChapterLinks(c, chapter).value == [Link(ChapterKey(c), chapterTitle, None)] + SceneLinks(c, chapterTitle, scenes).value;
        assert links == before + ChapterLinks(c, chapter).value;
        c := c + 1;
      }
      assert chapters[..c] == chapters;
      r := Some(links);
    }

    /** `_on_chapter_selected`: the scene list shows the current chapter's scenes, none selected. */
    method ChapterSelected()
      requires Valid()
      modifies this
      ensures Valid()
      ensures chapters == old(chapters) && chapterItems == old(chapterItems) && chapterRow == old(chapterRow)
      ensures sceneItems == ChapterRows(chapters, chapterRow) && sceneRow == -1
    {
      sceneItems := ChapterRows(chapters, chapterRow);
      sceneRow := -1;
    }

    /**
     * `_on_text_changed`: with a current chapter and scene that exist, the
     * scene becomes its edit with the row's text as title and `newContent`
     * as content; otherwise nothing changes.
     */
    method TextChanged(newContent: string)
      requires Valid()
      modifies this
      ensures Valid()
      ensures chapterItems == old(chapterItems) && chapterRow == old(chapterRow)
      ensures sceneItems == old(sceneItems) && sceneRow == old(sceneRow)
      ensures var c, s := chapterRow, sceneRow;
              if 0 <= c < |old(chapters)| && 0 <= s && old(chapters)[c].scenes.Some? && s < |old(chapters)[c].scenes.value| then
                var scenes := old(chapters)[c].scenes.value;
                chapters == WithScenes(old(chapters), c, scenes[s := Edited(scenes[s], sceneItems[s], newContent)])
              else chapters == old(chapters)
    {
      var cidx, sidx := chapterRow, sceneRow;
      if cidx >= 0 && sidx >= 0 && cidx < |chapters| {
        if chapters[cidx].scenes.None? {
          return;
        }
        var scenes := chapters[cidx].scenes.value;
        if sidx < |scenes| {
          var scene := Edited(scenes[sidx], sceneItems[sidx], newContent);
          chapters := WithScenes(chapters, cidx, scenes[sidx := scene]);
        }
      }
    }

    /**
     * `show_version_history` with the dialog's answer `choice` (an index into
     * the version list, `None` when cancelled) and the editor's HTML `html`
     * after `setHtml`: the version's content is set, the `textChanged` that
     * `setHtml` emits runs `_on_text_changed` on the same scene, and the
     * chosen entry is then filtered out of the (aliased) version list.
     */
    method ShowVersionHistory(choice: Option<nat>, html: string) returns (notice: VersionNotice)
      requires Valid()
      modifies this
      ensures Valid()
      ensures chapterItems == old(chapterItems) && chapterRow == old(chapterRow)
      ensures sceneItems == old(sceneItems) && sceneRow == old(sceneRow)
      ensures chapterRow < 0 || sceneRow < 0 ==> notice == NoSceneSelected
      ensures notice == VersionRestored <==>
                && 0 <= chapterRow < |old(chapters)| && 0 <= sceneRow
                && old(chapters)[chapterRow].scenes.Some?
                && sceneRow < |old(chapters)[chapterRow].scenes.value|
                && var scene := old(chapters)[chapterRow].scenes.value[sceneRow];
                   scene.Record? && scene.versions.Some? && choice.Some? && choice.value < |scene.versions.value|
      ensures notice == VersionRestored ==>
                var scenes := old(chapters)[chapterRow].scenes.value;
                chapters == WithScenes(old(chapters), chapterRow,
                              scenes[sceneRow := RestoredAsWritten(scenes[sceneRow], choice.value, sceneItems[sceneRow], html)])
      ensures notice != VersionRestored ==> chapters == old(chapters)
    {
      var cidx, sidx := chapterRow, sceneRow;
      if cidx < 0 || sidx < 0 {
        return NoSceneSelected;
      }
      if cidx >= |chapters| || chapters[cidx].scenes.None? {
        return ErrorRaised;
      }
      var scenes := chapters[cidx].scenes.value;
      if sidx >= |scenes| || scenes[sidx].Plain? {
        return ErrorRaised;
      }
      var scene := scenes[sidx];
      var versions := scene.versions.GetOr([]);
      if versions == [] {
        return NoVersions;
      }
      if choice.None? || choice.value >= |versions| {
        return Cancelled;
      }
      var v := choice.value;
      var loaded := scene.(content := Some(versions[v]));
      var mid := WithScenes(chapters, cidx, scenes[sidx := loaded]);
      chapters := mid;
      assert mid[cidx].scenes.value == scenes[sidx := loaded] && mid[cidx].scenes.value[sidx] == loaded;
      TextChanged(html);
      var edited := Edited(loaded, sceneItems[sidx], html);
      assert chapters == WithScenes(mid, cidx, scenes[sidx := loaded][sidx := edited]);
      assert scenes[sidx := loaded][sidx := edited] == scenes[sidx := edited];
      assert chapters == WithScenes(old(chapters), cidx, scenes[sidx := edited]);
      chapters := WithScenes(chapters, cidx, scenes[sidx := edited.(versions := Some(RemoveAt(edited.versions.value, v)))]);
      notice := VersionRestored;
    }

    /** `go_to_prev_chapter`: one row up, if there is one; the scene list follows the new chapter. */
    method GoToPrevChapter()
      requires Valid()
      modifies this
      ensures Valid() && chapters == old(chapters) && chapterItems == old(chapterItems)
      ensures old(chapterRow) > 0 ==>
                chapterRow == old(chapterRow) - 1 && sceneItems == ChapterRows(chapters, chapterRow) && sceneRow == -1
      ensures old(chapterRow) <= 0 ==>
                chapterRow == old(chapterRow) && sceneItems == old(sceneItems) && sceneRow == old(sceneRow)
    {
      var current := chapterRow;
      if current > 0 {
        chapterRow := current - 1;
        ChapterSelected();
      }
    }

    /** `go_to_next_chapter`: one row down, if there is one; the scene list follows the new chapter. */
    method GoToNextChapter()
      requires Valid()
      modifies this
      ensures Valid() && chapters == old(chapters) && chapterItems == old(chapterItems)
      ensures old(chapterRow) < |chapterItems| - 1 ==>
                chapterRow == old(chapterRow) + 1 && sceneItems == ChapterRows(chapters, chapterRow) && sceneRow == -1
      ensures old(chapterRow) >= |chapterItems| - 1 ==>
                chapterRow == old(chapterRow) && sceneItems == old(sceneItems) && sceneRow == old(sceneRow)
    {
      var current := chapterRow;
      if current < |chapterItems| - 1 {
        chapterRow := current + 1;
        ChapterSelected();
      }
    }

    /** `go_to_prev_scene`: one scene row up, if there is one. */
    method GoToPrevScene()
      requires Valid()
      modifies this
      ensures Valid() && chapters == old(chapters) && chapterItems == old(chapterItems) && chapterRow == old(chapterRow)
      ensures sceneItems == old(sceneItems)
      ensures sceneRow == if old(sceneRow) > 0 then old(sceneRow) - 1 else old(sceneRow)
    {
      var current := sceneRow;
      if current > 0 {
        sceneRow := current - 1;
      }
    }

    /** `go_to_next_scene`: one scene row down, if there is one. */
    method GoToNextScene()
      requires Valid()
      modifies this
      ensures Valid() && chapters == old(chapters) && chapterItems == old(chapterItems) && chapterRow == old(chapterRow)
      ensures sceneItems == old(sceneItems)
      ensures sceneRow == if old(sceneRow) < |sceneItems| - 1 then old(sceneRow) + 1 else old(sceneRow)
    {
      var current := sceneRow;
      if current < |sceneItems| - 1 {
        sceneRow := current + 1;
      }
    }

    /** `_navigate_to_scene`: with a chapter selected and scenes listed, selects the clamped index. */
    method NavigateToScene(index: int)
      requires Valid()
      modifies this
      ensures Valid() && chapters == old(chapters) && chapterItems == old(chapterItems) && chapterRow == old(chapterRow)
      ensures sceneItems == old(sceneItems)
      ensures chapterRow >= 0 && |sceneItems| > 0 ==> sceneRow == NavigateTarget(index, |sceneItems|)
      ensures chapterRow < 0 || |sceneItems| == 0 ==> sceneRow == old(sceneRow)
    {
      if chapterRow < 0 {
        return;
      }
      var count := |sceneItems|;
      if count == 0 {
        return;
      }
      sceneRow := NavigateTarget(index, count);
    }

    /** `_add_chapter`: an accepted, non-empty title adds an empty chapter at the end. */
    method AddChapter(title: string, ok: bool)
      requires Valid()
      modifies this
      ensures Valid() && chapterRow == old(chapterRow) && sceneItems == old(sceneItems) && sceneRow == old(sceneRow)
      ensures ok && title != "" ==>
                chapters == old(chapters) + [Chapter(Some(title), Some([]))] && chapterItems == old(chapterItems) + [title]
      ensures !(ok && title != "") ==> chapters == old(chapters) && chapterItems == old(chapterItems)
    {
      if ok && title != "" {
        chapters := chapters + [Chapter(Some(title), Some([]))];
        chapterItems := chapterItems + [title];
      }
    }

    /**
     * `_delete_chapter`: with a chapter selected whose title the question can
     * show, a Yes removes it and its row; the scene list is then empty.
     */
    method DeleteChapter(yes: bool)
      requires Valid()
      modifies this
      ensures Valid()
      ensures var idx := old(chapterRow);
              if 0 <= idx < |old(chapters)| && old(chapters)[idx].title.Some? && yes then
                && chapters == RemoveAt(old(chapters), idx)
                && chapterItems == RemoveAt(old(chapterItems), idx)
                && chapterRow == RowAfterTake(idx, |chapterItems|)
                && sceneItems == [] && sceneRow == -1
              else
                && chapters == old(chapters) && chapterItems == old(chapterItems) && chapterRow == old(chapterRow)
                && sceneItems == old(sceneItems) && sceneRow == old(sceneRow)
    {
      var idx := chapterRow;
      if idx < 0 || idx >= |chapters| || chapters[idx].title.None? {
        return;
      }
      if yes {
        chapters := RemoveAt(chapters, idx);
        chapterItems := RemoveAt(chapterItems, idx);
        chapterRow := RowAfterTake(idx, |chapterItems|);
        sceneItems, sceneRow := [], -1;
      }
    }

    /** `_add_scene`: with a chapter selected, an accepted, non-empty title appends a new scene to it. */
    method AddScene(title: string, ok: bool)
      requires Valid()
      modifies this
      ensures Valid() && chapterItems == old(chapterItems) && chapterRow == old(chapterRow) && sceneRow == old(sceneRow)
      ensures var idx := chapterRow;
              if 0 <= idx < |old(chapters)| && old(chapters)[idx].scenes.Some? && ok && title != "" then
                && chapters == WithScenes(old(chapters), idx, old(chapters)[idx].scenes.value + [NewScene(title)])
                && sceneItems == old(sceneItems) + [title]
              else chapters == old(chapters) && sceneItems == old(sceneItems)
    {
      var idx := chapterRow;
      if idx < 0 {
        return;
      }
      if ok && title != "" {
        if idx >= |chapters| || chapters[idx].scenes.None? {
          return;
        }
        chapters := WithScenes(chapters, idx, chapters[idx].scenes.value + [NewScene(title)]);
        sceneItems := sceneItems + [title];
      }
    }

    /** `_delete_scene`: with a scene selected that exists, a Yes removes it and its row. */
    method DeleteScene(yes: bool)
      requires Valid()
      modifies this
      ensures Valid() && chapterItems == old(chapterItems) && chapterRow == old(chapterRow)
      ensures var c, s := chapterRow, old(sceneRow);
              if 0 <= c < |old(chapters)| && 0 <= s && old(chapters)[c].scenes.Some? && s < |old(chapters)[c].scenes.value| && yes then
                && chapters == WithScenes(old(chapters), c, RemoveAt(old(chapters)[c].scenes.value, s))
                && sceneItems == RemoveAt(old(sceneItems), s)
                && sceneRow == RowAfterTake(s, |sceneItems|)
              else chapters == old(chapters) && sceneItems == old(sceneItems) && sceneRow == old(sceneRow)
    {
      var cidx, sidx := chapterRow, sceneRow;
      if cidx < 0 || sidx < 0 {
        return;
      }
      if cidx >= |chapters| || chapters[cidx].scenes.None? || sidx >= |chapters[cidx].scenes.value| {
        return;
      }
      if yes {
        chapters := WithScenes(chapters, cidx, RemoveAt(chapters[cidx].scenes.value, sidx));
        sceneItems := RemoveAt(sceneItems, sidx);
        sceneRow := RowAfterTake(sidx, |sceneItems|);
      }
    }

    /**
     * `_sync_timeline_to_scenes` with the timeline's card titles `titles`:
     * the current chapter's scenes become the rebuild by first match, and the
     * scene list is refilled; a lookup that raises changes nothing.
     */
    method SyncTimelineToScenes(titles: seq<Value>)
      requires Valid()
      modifies this
      ensures Valid() && chapterItems == old(chapterItems) && chapterRow == old(chapterRow)
      ensures var c := chapterRow;
              if 0 <= c < |old(chapters)| && old(chapters)[c].scenes.Some? && Reorder(titles, old(chapters)[c].scenes.value).Some? then
                && chapters == WithScenes(old(chapters), c, Reorder(titles, old(chapters)[c].scenes.value).value)
                && sceneItems == ChapterRows(chapters, c) && sceneRow == -1
              else chapters == old(chapters) && sceneItems == old(sceneItems) && sceneRow == old(sceneRow)
    {
      var cidx := chapterRow;
      if cidx < 0 || cidx >= |chapters| || chapters[cidx].scenes.None? {
        return;
      }
      var rebuilt := RebuildScenes(titles, chapters[cidx].scenes.value);
      if rebuilt.None? {
        return;
      }
      chapters := WithScenes(chapters, cidx, rebuilt.value);
      ChapterSelected();
    }
  }
}
