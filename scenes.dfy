// The project's chapters and scenes as the editor, the timeline tabs and the
// exporter see them (GUI/windows/project_editor_window.py,
// GUI/windows/project_editor/timeline_tab.py, GUI/windows/ui_timeline.py),
// and the one algorithm those three files share: rebuilding a scene list from
// an ordered list of titles by first match.

module Scenes {
  import opened Json

  /**
   * One entry of a scene's `annotations` or `footnotes` list: the
   * `{text, note, start, end}` record the editor appends, or a bare string
   * (the form the older list helper slices).
   */
  datatype Note =
    | Note(text: string, note: string, start: int, end: int)
    | NoteText(s: string)

  /**
   * A scene is either a legacy bare string or a dictionary; for a dictionary
   * each optional field is `None` when its key is absent. A version is the
   * `content` of a `{"content": ...}` entry.
   */
  datatype Scene =
    | Plain(text: string)
    | Record(title: Option<string>, content: Option<string>, versions: Option<seq<string>>,
             annotations: Option<seq<Note>>, footnotes: Option<seq<Note>>)

  /** A chapter dictionary; `None` when its `title` or `scenes` key is absent. */
  datatype Chapter = Chapter(title: Option<string>, scenes: Option<seq<Scene>>)

  /** A fresh scene dictionary `{"title": title, "content": ""}`. */
  function NewScene(title: string): (s: Scene)
    ensures s.Record? && s.title == Some(title) && s.content == Some("")
    ensures s.versions.None? && s.annotations.None? && s.footnotes.None?
  {
    Record(Some(title), Some(""), None, None, None)
  }

  /** `scene["title"] if isinstance(scene, dict) else str(scene)` does not raise. */
  predicate Titled(s: Scene)
  {
    s.Plain? || s.title.Some?
  }

  /** `scene["title"] if isinstance(scene, dict) else str(scene)`. */
  function ShownTitle(s: Scene): string
    requires Titled(s)
  {
    if s.Plain? then s.text else s.title.value
  }

  predicate AllTitled(scenes: seq<Scene>)
  {
    forall i :: 0 <= i < |scenes| ==> Titled(scenes[i])
  }

  /** Every scene has a title and no two scenes share one. */
  predicate DistinctTitles(scenes: seq<Scene>)
  {
    AllTitled(scenes) &&
    forall i, j :: 0 <= i < j < |scenes| ==> ShownTitle(scenes[i]) != ShownTitle(scenes[j])
  }

  function NoteValue(n: Note): Value
  {
    match n
    case Note(text, note, start, end) =>
      Obj(map["text" := Str(text), "note" := Str(note), "start" := Num(start), "end" := Num(end)])
    case NoteText(s) => Str(s)
  }

  function NotesValue(notes: seq<Note>): Value
  {
    Arr(seq(|notes|, i requires 0 <= i < |notes| => NoteValue(notes[i])))
  }

  function VersionsValue(versions: seq<string>): Value
  {
    Arr(seq(|versions|, i requires 0 <= i < |versions| => Obj(map["content" := Str(versions[i])])))
  }

  /** `key: value` added to `m` when the key is present. */
  function WithKey(m: map<string, Value>, key: string, v: Option<Value>): map<string, Value>
  {
    if v.Some? then m[key := v.value] else m
  }

  /** The scene as a JSON value: a string, or a dictionary with the keys it has. */
  function AsValue(s: Scene): (v: Value)
    ensures s.Plain? ==> v == Str(s.text)
    ensures s.Record? ==> v.Obj?
  {
    match s
    case Plain(text) => Str(text)
    case Record(title, content, versions, annotations, footnotes) =>
      var m := WithKey(map[], "title", if title.Some? then Some(Str(title.value)) else None);
      var m := WithKey(m, "content", if content.Some? then Some(Str(content.value)) else None);
      var m := WithKey(m, "versions", if versions.Some? then Some(VersionsValue(versions.value)) else None);
      var m := WithKey(m, "annotations", if annotations.Some? then Some(NotesValue(annotations.value)) else None);
      var m := WithKey(m, "footnotes", if footnotes.Some? then Some(NotesValue(footnotes.value)) else None);
      Obj(m)
  }

  // ---------------------------------------------------------------------------
  // Rebuilding the scene order from titles

  /**
   * The match test of the rebuild loops:
   * `(isinstance(scene, dict) and scene["title"] == title) or scene == title`,
   * for a scene whose title lookup does not raise.
   */
  predicate Matches(s: Scene, title: Value)
  {
    match s
    case Plain(text) => Str(text) == title
    case Record(t, _, _, _, _) => t.Some? && (Str(t.value) == title || (title.Obj? && AsValue(s) == title))
  }

  /** For a string title, a scene matches exactly when its shown title is that string. */
  lemma MatchesString(s: Scene, t: string)
    requires Titled(s)
    ensures Matches(s, Str(t)) <==> ShownTitle(s) == t
  {
  }

  /** What the inner `for scene in scenes` loop ends with. */
  datatype Search = Found(index: nat) | Missing | Raised

  /**
   * The scan for one title: the first matching scene, no match at all, or a
   * dictionary without `title` reached first (`scene["title"]` raises).
   */
  function FirstMatch(scenes: seq<Scene>, title: Value): (r: Search)
    ensures r.Found? ==> r.index < |scenes| && Matches(scenes[r.index], title)
    ensures r.Found? ==> forall j :: 0 <= j < r.index ==> !Matches(scenes[j], title)
    ensures r.Missing? ==> forall j :: 0 <= j < |scenes| ==> !Matches(scenes[j], title)
    ensures !r.Raised? ==> forall j :: 0 <= j < (if r.Found? then r.index else |scenes|) ==> Titled(scenes[j])
    ensures r.Raised? ==> !AllTitled(scenes)
  {
    if scenes == [] then Missing
    else if !Titled(scenes[0]) then Raised
    else if Matches(scenes[0], title) then Found(0)
    else
      match FirstMatch(scenes[1..], title)
      case Found(i) => Found(i + 1)
      case Missing => Missing
      case Raised => Raised
  }

  /**
   * The rebuilt list: for each title in order, the first scene that matches it;
   * titles without a match add nothing. `None` when a lookup raised, in which
   * case the caller never stores a result.
   */
  function Reorder(titles: seq<Value>, scenes: seq<Scene>): (r: Option<seq<Scene>>)
    ensures r.Some? ==> |r.value| <= |titles|
    ensures AllTitled(scenes) ==> r.Some?
  {
    if titles == [] then Some([])
    else
      var prev := Reorder(titles[..|titles| - 1], scenes);
      if prev.None? then None
      else
        match FirstMatch(scenes, titles[|titles| - 1])
        case Found(i) => Some(prev.value + [scenes[i]])
        case Missing => prev
        case Raised => None
  }

  /** Every scene of a rebuilt list is one of the original scenes. */
  lemma {:induction false} ReorderFromScenes(titles: seq<Value>, scenes: seq<Scene>)
    requires Reorder(titles, scenes).Some?
    ensures forall x :: x in Reorder(titles, scenes).value ==> x in scenes
  {
    if titles != [] {
      ReorderFromScenes(titles[..|titles| - 1], scenes);
    }
  }

  /** With distinct titles, the title of scene `k` finds scene `k`. */
  lemma FirstMatchDistinct(scenes: seq<Scene>, k: nat)
    requires DistinctTitles(scenes) && k < |scenes|
    ensures FirstMatch(scenes, Str(ShownTitle(scenes[k]))) == Found(k)
  {
    var t := ShownTitle(scenes[k]);
    MatchesString(scenes[k], t);
    var r := FirstMatch(scenes, Str(t));
    if r.Found? {
      MatchesString(scenes[r.index], t);
    }
  }

  /** The titles of the scenes picked by `order`, as the cards carry them. */
  function PickedTitles(scenes: seq<Scene>, order: seq<nat>): (titles: seq<Value>)
    requires AllTitled(scenes)
    requires forall k :: 0 <= k < |order| ==> order[k] < |scenes|
    ensures |titles| == |order|
  {
    seq(|order|, k requires 0 <= k < |order| => Str(ShownTitle(scenes[order[k]])))
  }

  /** The scenes picked by `order`. */
  function Picked(scenes: seq<Scene>, order: seq<nat>): (picked: seq<Scene>)
    requires forall k :: 0 <= k < |order| ==> order[k] < |scenes|
    ensures |picked| == |order|
  {
    seq(|order|, k requires 0 <= k < |order| => scenes[order[k]])
  }

  /**
   * With distinct titles, rebuilding from any arrangement of the scenes'
   * titles (reordered, repeated or with some left out) yields the scenes in
   * that arrangement.
   */
  lemma {:induction false} ReorderPicked(scenes: seq<Scene>, order: seq<nat>)
    requires DistinctTitles(scenes)
    requires forall k :: 0 <= k < |order| ==> order[k] < |scenes|
    ensures Reorder(PickedTitles(scenes, order), scenes) == Some(Picked(scenes, order))
  {
    if order != [] {
      var n := |order| - 1;
      var titles := PickedTitles(scenes, order);
      PickedPrefix(scenes, order);
      ReorderPicked(scenes, order[..n]);
      FirstMatchDistinct(scenes, order[n]);
    }
  }

  /** Picking by a prefix of `order` picks a prefix; the last pick comes last. */
  lemma PickedPrefix(scenes: seq<Scene>, order: seq<nat>)
    requires AllTitled(scenes) && order != []
    requires forall k :: 0 <= k < |order| ==> order[k] < |scenes|
    ensures var n := |order| - 1;
            && PickedTitles(scenes, order)[..n] == PickedTitles(scenes, order[..n])
            && PickedTitles(scenes, order)[n] == Str(ShownTitle(scenes[order[n]]))
            && Picked(scenes, order) == Picked(scenes, order[..n]) + [scenes[order[n]]]
  {
  }

  /** The identity arrangement `0, 1, …, n-1`. */
  function Identity(n: nat): (order: seq<nat>)
    ensures |order| == n && forall k :: 0 <= k < n ==> order[k] == k
  {
    seq(n, k requires 0 <= k < n => k)
  }

  /** With distinct titles, rebuilding from the scenes' own titles gives the scenes back. */
  lemma ReorderOwnTitles(scenes: seq<Scene>)
    requires DistinctTitles(scenes)
    ensures Reorder(PickedTitles(scenes, Identity(|scenes|)), scenes) == Some(scenes)
  {
    ReorderPicked(scenes, Identity(|scenes|));
    assert Picked(scenes, Identity(|scenes|)) == scenes;
  }

  /** The arrangement that exchanges positions `i` and `j`. */
  function Swapped(n: nat, i: nat, j: nat): (order: seq<nat>)
    requires i < n && j < n
    ensures |order| == n
    ensures forall k :: 0 <= k < n ==> order[k] == (if k == j then i else if k == i then j else k)
  {
    seq(n, k requires 0 <= k < n => if k == j then i else if k == i then j else k)
  }

  /** Picking by the exchanging arrangement exchanges two scenes. */
  lemma PickedSwapped(scenes: seq<Scene>, i: nat, j: nat)
    requires i < |scenes| && j < |scenes|
    ensures Picked(scenes, Swapped(|scenes|, i, j)) == scenes[i := scenes[j]][j := scenes[i]]
  {
    var a, b := Picked(scenes, Swapped(|scenes|, i, j)), scenes[i := scenes[j]][j := scenes[i]];
    forall k | 0 <= k < |scenes| ensures a[k] == b[k] {
    }
  }

  /** With distinct titles, swapping two titles swaps the two scenes. */
  lemma ReorderSwapped(scenes: seq<Scene>, i: nat, j: nat)
    requires DistinctTitles(scenes) && i < |scenes| && j < |scenes|
    ensures var titles := PickedTitles(scenes, Identity(|scenes|));
            Reorder(titles[i := titles[j]][j := titles[i]], scenes)
              == Some(scenes[i := scenes[j]][j := scenes[i]])
  {
    var order := Swapped(|scenes|, i, j);
    ReorderPicked(scenes, order);
    PickedSwapped(scenes, i, j);
    var titles := PickedTitles(scenes, Identity(|scenes|));
    var a, b := PickedTitles(scenes, order), titles[i := titles[j]][j := titles[i]];
    forall k | 0 <= k < |scenes| ensures a[k] == b[k] {
    }
    assert a == b;
  }

  /** Once a prefix of the titles raised, the whole rebuild has. */
  lemma {:induction false} ReorderRaisedStays(titles: seq<Value>, scenes: seq<Scene>, k: nat)
    requires k <= |titles| && Reorder(titles[..k], scenes).None?
    ensures Reorder(titles, scenes).None?
  {
    if k < |titles| {
      var n := |titles| - 1;
      assert titles[..n][..k] == titles[..k];
      ReorderRaisedStays(titles[..n], scenes, k);
    } else {
      assert titles[..k] == titles;
    }
  }

  /** The inner scan of the rebuild loops. */
  method FindScene(scenes: seq<Scene>, title: Value) returns (r: Search)
    ensures r == FirstMatch(scenes, title)
  {
    var j := 0;
    while j < |scenes|
      invariant 0 <= j <= |scenes|
      invariant forall k :: 0 <= k < j ==> Titled(scenes[k]) && !Matches(scenes[k], title)
    {
      if !Titled(scenes[j]) || Matches(scenes[j], title) {
        FirstMatchSkip(scenes, title, j);
        assert scenes[j..][0] == scenes[j];
        return if Titled(scenes[j]) then Found(j) else Raised;
      }
      j := j + 1;
    }
    FirstMatchSkip(scenes, title, j);
    return Missing;
  }

  /** Titled scenes that do not match are passed over: the scan goes on after them. */
  lemma {:induction false} FirstMatchSkip(scenes: seq<Scene>, title: Value, j: nat)
    requires j <= |scenes| && forall k :: 0 <= k < j ==> Titled(scenes[k]) && !Matches(scenes[k], title)
    ensures FirstMatch(scenes, title) ==
              match FirstMatch(scenes[j..], title)
              case Found(i) => Found(i + j)
              case other => other
  {
    if j > 0 {
      assert scenes[1..][j - 1..] == scenes[j..];
      FirstMatchSkip(scenes[1..], title, j - 1);
    }
  }

  /**
   * `new_scenes = []; for title in titles: for scene in scenes: ... append; break`:
   * the nested loops shared by the timeline tab, the list timeline and the
   * editor; `None` when a title lookup raised.
   */
  method RebuildScenes(titles: seq<Value>, scenes: seq<Scene>) returns (r: Option<seq<Scene>>)
    ensures r == Reorder(titles, scenes)
  {
    var newScenes: seq<Scene> := [];
    var k := 0;
    while k < |titles|
      invariant 0 <= k <= |titles|
      invariant Reorder(titles[..k], scenes) == Some(newScenes)
    {
      assert titles[..k + 1][..k] == titles[..k];
      var found := FindScene(scenes, titles[k]);
      match found {
        case Found(i) =>
          newScenes := newScenes + [scenes[i]];
        case Missing =>
        case Raised =>
          ReorderRaisedStays(titles, scenes, k + 1);
          return None;
      }
      k := k + 1;
    }
    assert titles[..k] == titles;
    return Some(newScenes);
  }
}
