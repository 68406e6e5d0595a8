// Kanban cards and the card details dialog (GUI/windows/kanban_models.py).

module KanbanModels {
  import opened Json
  import opened Text

  /** A card's metadata dictionary. */
  type Metadata = map<string, Value>

  /** The keys every card is given a default for, in the order they are filled in. */
  const DefaultKeys: seq<string> := ["id", "title", "notes", "tags", "color", "links"]

  /** The titles `QListWidgetItem(title)` accepts: a string, or `None` for an empty item. */
  predicate CardTitle(title: Value)
  {
    title.Str? || title.Null?
  }

  /** The text of the item made from an accepted title. */
  function TitleText(title: Value): string
  {
    if title.Str? then title.s else ""
  }

  /**
   * Metadata whose colour `QColor(...)` refuses with a TypeError: a non-empty
   * list or dictionary (an empty one is falsy, and no background is set).
   */
  predicate RejectedColor(m: Metadata)
  {
    "color" in m && (m["color"].Arr? || m["color"].Obj?) && Truthy(m["color"])
  }

  /** The metadata a card made from `title` alone receives; its `title` is the title as given. */
  function DefaultMetadata(title: Value, freshId: string): (m: Metadata)
    ensures m.Keys == set k | k in DefaultKeys
    ensures m["id"] == Str(freshId) && m["title"] == title
    ensures !RejectedColor(m)
  {
    map["id" := Str(freshId), "title" := title, "notes" := Str(""),
        "tags" := Arr([]), "color" := Null, "links" := Arr([])]
  }

  /**
   * The metadata of a card built from `title` and optional caller metadata:
   * falsy metadata is replaced by the defaults, otherwise every key the caller
   * supplied is kept and only the missing default keys are filled in.
   */
  function MergedMetadata(title: Value, metadata: Option<Metadata>, freshId: string): (m: Metadata)
    ensures forall k :: k in DefaultKeys ==> k in m
    ensures metadata.Some? ==> forall k :: k in metadata.value ==> k in m && m[k] == metadata.value[k]
    ensures forall k :: k in m ==> k in DefaultKeys || (metadata.Some? && k in metadata.value)
    ensures forall k :: k in DefaultKeys && (metadata.None? || k !in metadata.value) ==>
              m[k] == DefaultMetadata(title, freshId)[k]
    ensures RejectedColor(m) <==> metadata.Some? && RejectedColor(metadata.value)
  {
    if metadata.None? || metadata.value == map[] then DefaultMetadata(title, freshId)
    else DefaultMetadata(title, freshId) + metadata.value
  }

  /** Caller metadata that carries an id keeps it: the freshly drawn id is then irrelevant. */
  lemma MergedIgnoresFreshId(title: Value, metadata: Metadata, a: string, b: string)
    requires "id" in metadata
    ensures MergedMetadata(title, Some(metadata), a) == MergedMetadata(title, Some(metadata), b)
  {
    var da, db := DefaultMetadata(title, a), DefaultMetadata(title, b);
    var ma, mb := da + metadata, db + metadata;
    assert ma.Keys == mb.Keys;
    forall k | k in ma ensures ma[k] == mb[k] {
      if k != "id" && k !in metadata {
        assert da[k] == db[k];
      }
    }
  }

  /** A card: its displayed text and its metadata. */
  datatype KanbanCard = KanbanCard(text: string, metadata: Metadata)
  {
    /** `metadata[key] = v`, nothing else. */
    function With(key: string, v: Value): (c: KanbanCard)
      ensures c.text == text && key in c.metadata && c.metadata[key] == v
      ensures c.metadata.Keys == metadata.Keys + {key}
      ensures forall k :: k in metadata && k != key ==> c.metadata[k] == metadata[k]
    {
      KanbanCard(text, metadata[key := v])
    }

    /** `set_color`: the colour is stored by its name. */
    function SetColor(colorName: string): (c: KanbanCard)
      ensures c == With("color", Str(colorName))
    {
      With("color", Str(colorName))
    }

    function SetNotes(notes: string): (c: KanbanCard)
      ensures c == With("notes", Str(notes))
    {
      With("notes", Str(notes))
    }

    function SetTags(tags: seq<string>): (c: KanbanCard)
      ensures c == With("tags", StrArr(tags))
    {
      With("tags", StrArr(tags))
    }

    function SetLinks(links: seq<string>): (c: KanbanCard)
      ensures c == With("links", StrArr(links))
    {
      With("links", StrArr(links))
    }
  }

  /**
   * A card whose metadata has every default key and a list of links: what
   * loading a board always produces, and what survives a save and reload.
   */
  predicate WellFormed(card: KanbanCard)
  {
    (forall k :: k in DefaultKeys ==> k in card.metadata) && card.metadata["links"].Arr?
  }

  /** No card of `cards` carries a colour the card constructor refuses. */
  predicate Colourable(cards: seq<KanbanCard>)
  {
    forall c :: c in cards ==> !RejectedColor(c.metadata)
  }

  lemma SettersKeepWellFormed(card: KanbanCard, color: string, notes: string, tags: seq<string>, links: seq<string>)
    requires WellFormed(card)
    ensures WellFormed(card.SetColor(color)) && WellFormed(card.SetNotes(notes))
    ensures WellFormed(card.SetTags(tags)) && WellFormed(card.SetLinks(links))
  {
  }

  /** The longest length among `strs`. */
  function MaxLength(strs: seq<string>): (n: nat)
    ensures forall i :: 0 <= i < |strs| ==> |strs[i]| <= n
  {
    if strs == [] then 0
    else
      var rest := MaxLength(strs[1..]);
      if |strs[0]| > rest then |strs[0]| else rest
  }

  /** An id that differs from every id in `used`. */
  function FreshId(used: seq<string>): (id: string)
    ensures id !in used
  {
    Repeat('0', MaxLength(used) + 1)
  }

  /** The source of `uuid.uuid4()`: every id it issues differs from those issued before. */
  class UuidSource {
    var issued: seq<string>

    constructor ()
      ensures issued == []
    {
      issued := [];
    }

    method Next() returns (id: string)
      modifies this
      ensures id !in old(issued)
      ensures issued == old(issued) + [id]
    {
      id := FreshId(issued);
      issued := issued + [id];
    }
  }

  /**
   * `KanbanCard(title, metadata)`: the item constructor raises on a title that
   * is neither a string nor `None`, before any id is drawn; otherwise a fresh
   * id is drawn and the missing default keys are filled in, and the
   * constructor raises at its end when `QColor` refuses the merged colour.
   * `None` stands for the raise.
   */
  method NewKanbanCard(title: Value, metadata: Option<Metadata>, ids: UuidSource) returns (card: Option<KanbanCard>)
    modifies ids
    ensures !CardTitle(title) ==> card.None? && ids.issued == old(ids.issued)
    ensures CardTitle(title) ==> |ids.issued| == |old(ids.issued)| + 1 && ids.issued[..|old(ids.issued)|] == old(ids.issued)
    ensures CardTitle(title) ==>
              var m := MergedMetadata(title, metadata, ids.issued[|old(ids.issued)|]);
              card == if RejectedColor(m) then None else Some(KanbanCard(TitleText(title), m))
  {
    if !CardTitle(title) {
      return None;
    }
    var freshId := ids.Next();
    var merged := DefaultMetadata(title, freshId);
    if metadata.Some? && metadata.value != map[] {
      merged := FillDefaults(metadata.value, merged);
    }
    if RejectedColor(merged) {
      return None;
    }
    card := Some(KanbanCard(if title.Str? then title.s else "", merged));
  }

  /** The loop over the default keys: each key missing from `metadata` is copied from `defaults`. */
  method FillDefaults(metadata: Metadata, defaults: Metadata) returns (merged: Metadata)
    requires forall k :: k in DefaultKeys ==> k in defaults
    requires forall k :: k in defaults ==> k in DefaultKeys
    ensures merged == defaults + metadata
  {
    merged := metadata;
    var i := 0;
    while i < |DefaultKeys|
      invariant 0 <= i <= |DefaultKeys|
      invariant forall k :: k in merged <==> k in metadata || k in DefaultKeys[..i]
      invariant forall k :: k in merged ==> merged[k] == (defaults + metadata)[k]
    {
      var k := DefaultKeys[i];
      if k !in merged {
        merged := merged[k := defaults[k]];
      }
      i := i + 1;
    }
    assert DefaultKeys[..i] == DefaultKeys;
    assert merged.Keys == (defaults + metadata).Keys;
  }

  // ---------------------------------------------------------------------------
  // Card details dialog: tags

  /** A tag as `get_details` returns it: non-empty, no comma, no surrounding whitespace. */
  predicate CleanTag(t: string)
  {
    t != "" && ',' !in t && Stripped(t)
  }

  /** The tags field's initial text: `", ".join(tags)`. */
  function JoinTags(tags: seq<string>): string
  {
    Join(tags, ", ")
  }

  /** Stripped pieces, the empty ones dropped. */
  function CleanPieces(pieces: seq<string>): (tags: seq<string>)
    requires forall i :: 0 <= i < |pieces| ==> ',' !in pieces[i]
    ensures forall t :: t in tags ==> CleanTag(t)
    ensures |tags| <= |pieces|
  {
    if pieces == [] then []
    else
      var t := Strip(pieces[0]);
      (if t != "" then [t] else []) + CleanPieces(pieces[1..])
  }

  /** The tags `get_details` reads back from the tags field. */
  function ParseTags(text: string): (tags: seq<string>)
    ensures forall t :: t in tags ==> CleanTag(t)
  {
    CleanPieces(Split(text, ','))
  }

  /** Each string behind a space: the pieces `split(",")` cuts from a `", "`-joined list. */
  function Spaced(xs: seq<string>): (r: seq<string>)
    ensures |r| == |xs|
    ensures forall i :: 0 <= i < |xs| ==> r[i] == " " + xs[i]
  {
    if xs == [] then [] else [" " + xs[0]] + Spaced(xs[1..])
  }

  lemma {:induction false} SplitJoined(p: string, tags: seq<string>)
    requires tags != [] && ',' !in p
    requires forall t :: t in tags ==> ',' !in t
    ensures Split(p + JoinTags(tags), ',') == [p + tags[0]] + Spaced(tags[1..])
    decreases |tags|
  {
    if |tags| == 1 {
      SplitWithoutSeparator(p + tags[0], ',');
    } else {
      var rest := tags[1..];
      assert p + JoinTags(tags) == (p + tags[0]) + [','] + (" " + JoinTags(rest));
      SplitConcat(p + tags[0], ',', " " + JoinTags(rest));
      SplitWithoutSeparator(p + tags[0], ',');
      SplitJoined(" ", rest);
    }
  }

  lemma {:induction false} CleanSpaced(tags: seq<string>)
    requires forall t :: t in tags ==> CleanTag(t)
    ensures forall i :: 0 <= i < |Spaced(tags)| ==> ',' !in Spaced(tags)[i]
    ensures CleanPieces(Spaced(tags)) == tags
  {
    if tags != [] {
      var s := Spaced(tags);
      assert tags[0] in tags;
      StripLeadingSpace(tags[0]);
      StripStripped(tags[0]);
      assert s[1..] == Spaced(tags[1..]);
      CleanSpaced(tags[1..]);
    }
  }

  /** Opening the dialog and accepting it unchanged gives back the card's tags. */
  lemma ParseJoinTags(tags: seq<string>)
    requires forall t :: t in tags ==> CleanTag(t)
    ensures ParseTags(JoinTags(tags)) == tags
  {
    if tags == [] {
      assert Split("", ',') == [""];
    } else {
      var pieces := Split(JoinTags(tags), ',');
      SplitJoined("", tags);
      assert "" + JoinTags(tags) == JoinTags(tags);
      assert "" + tags[0] == tags[0];
      assert pieces == [tags[0]] + Spaced(tags[1..]);
      assert tags[0] in tags;
      assert CleanTag(tags[0]);
      StripStripped(tags[0]);
      CleanSpaced(tags[1..]);
      assert pieces[1..] == Spaced(tags[1..]);
      assert CleanPieces(pieces) == [tags[0]] + CleanPieces(pieces[1..]);
      assert tags == [tags[0]] + tags[1..];
    }
  }

  /** Reading the tags field is idempotent: its result reads back as itself. */
  lemma ParseTagsIdempotent(text: string)
    ensures ParseTags(JoinTags(ParseTags(text))) == ParseTags(text)
  {
    ParseJoinTags(ParseTags(text));
  }

  // ---------------------------------------------------------------------------
  // Card details dialog: links

  predicate Distinct(xs: seq<string>)
  {
    forall i, j :: 0 <= i < j < |xs| ==> xs[i] != xs[j]
  }

  /** Appends each non-empty id of `ids` that is not already present. */
  function AppendNew(acc: seq<string>, ids: seq<string>): (r: seq<string>)
    ensures |acc| <= |r| && r[..|acc|] == acc
    ensures Distinct(acc) ==> Distinct(r)
    ensures forall x :: x in r <==> x in acc || (x != "" && x in ids)
    decreases |ids|
  {
    if ids == [] then acc
    else if ids[0] != "" && ids[0] !in acc then AppendNew(acc + [ids[0]], ids[1..])
    else AppendNew(acc, ids[1..])
  }

  /** The `links` `get_details` returns: the quick navigation id first, then the other selected ids. */
  function CollectedLinks(quickNav: Option<string>, selected: seq<string>): (links: seq<string>)
    ensures quickNav.Some? && quickNav.value != "" ==> |links| > 0 && links[0] == quickNav.value
    ensures forall x :: x in links <==> x != "" && ((quickNav.Some? && x == quickNav.value) || x in selected)
    ensures Distinct(links)
  {
    AppendNew(if quickNav.Some? && quickNav.value != "" then [quickNav.value] else [], selected)
  }

  /** The link loop of `get_details`. */
  method CollectLinks(quickNav: Option<string>, selected: seq<string>) returns (links: seq<string>)
    ensures links == CollectedLinks(quickNav, selected)
  {
    links := [];
    if quickNav.Some? && quickNav.value != "" {
      links := [quickNav.value];
    }
    ghost var start := links;
    var i := 0;
    assert selected[i..] == selected;
    while i < |selected|
      invariant 0 <= i <= |selected|
      invariant AppendNew(links, selected[i..]) == AppendNew(start, selected)
    {
      assert selected[i..][1..] == selected[i + 1..];
      var id := selected[i];
      if id != "" && id !in links {
        links := links + [id];
      }
      i := i + 1;
    }
    assert selected[i..] == [];
  }

  /** A step of opening the dialog that either gives a value or raises. */
  datatype Raising<T> = Returns(value: T) | Raises

  /** A value that `in` on a dictionary cannot hash: a list or a dictionary (a TypeError). */
  predicate Unhashable(v: Value)
  {
    v.Arr? || v.Obj?
  }

  /**
   * The id preselected in the quick navigation list: the card's first link,
   * when it is truthy and offered. A truthy first link that is a list or a
   * dictionary makes the dictionary lookup raise.
   */
  function QuickNavPreselection(linksMeta: Option<Value>, available: seq<string>): (r: Raising<Option<string>>)
    ensures r.Raises? <==> linksMeta.Some? && linksMeta.value.Arr? && |linksMeta.value.items| > 0
                           && Truthy(linksMeta.value.items[0]) && Unhashable(linksMeta.value.items[0])
    ensures r.Returns? && r.value.Some? <==>
              linksMeta.Some? && linksMeta.value.Arr? && |linksMeta.value.items| > 0
              && linksMeta.value.items[0].Str? && linksMeta.value.items[0].s != ""
              && linksMeta.value.items[0].s in available
    ensures r.Returns? && r.value.Some? ==> r.value.value == linksMeta.value.items[0].s
  {
    match linksMeta
    case Some(Arr(items)) =>
      if |items| == 0 || !Truthy(items[0]) then Returns(None)
      else if Unhashable(items[0]) then Raises
      else if items[0].Str? && items[0].s in available then Returns(Some(items[0].s))
      else Returns(None)
    case _ => Returns(None)
  }

  /** Whether `id` is preselected in the "other links" list: the card links it. */
  predicate LinkPreselected(linksMeta: Option<Value>, id: string)
  {
    linksMeta.Some? && linksMeta.value.Arr? && Str(id) in linksMeta.value.items
  }

  /**
   * The loop over the card's links that selects the offered ones, in link
   * order; it raises at the first link that is a list or a dictionary.
   */
  function SelectLinks(items: seq<Value>, available: seq<string>): (r: Raising<seq<string>>)
    ensures r.Raises? <==> exists k :: 0 <= k < |items| && Unhashable(items[k])
    ensures r.Returns? ==> forall x :: x in r.value <==> x in available && Str(x) in items
  {
    if items == [] then Returns([])
    else
      match SelectLinks(items[1..], available)
      case Raises => Raises
      case Returns(rest) =>
        if Unhashable(items[0]) then Raises
        else if items[0].Str? && items[0].s in available then Returns([items[0].s] + rest)
        else Returns(rest)
  }

  /**
   * The ids of the "other links" list that are preselected: those the card
   * links; the dialog raises when any link is a list or a dictionary.
   */
  function PreselectedLinks(linksMeta: Option<Value>, available: seq<string>): (r: Raising<seq<string>>)
    ensures r.Raises? <==> linksMeta.Some? && linksMeta.value.Arr?
                           && exists k :: 0 <= k < |linksMeta.value.items| && Unhashable(linksMeta.value.items[k])
    ensures r.Returns? ==> forall x :: x in r.value <==> x in available && LinkPreselected(linksMeta, x)
  {
    match linksMeta
    case Some(Arr(items)) => SelectLinks(items, available)
    case _ => Returns([])
  }

  /**
   * Opening the dialog on a card whose links are all strings never raises,
   * and accepting it without touching the link lists keeps the card's links
   * (as a set, with the first one still first) when they are all offered.
   */
  lemma UnchangedDialogKeepsLinks(links: seq<string>, available: seq<string>)
    requires |links| > 0 && links[0] != ""
    requires forall x :: x in links ==> x != "" && x in available
    ensures QuickNavPreselection(Some(StrArr(links)), available) == Returns(Some(links[0]))
    ensures PreselectedLinks(Some(StrArr(links)), available).Returns?
    ensures var r := CollectedLinks(QuickNavPreselection(Some(StrArr(links)), available).value,
                                    PreselectedLinks(Some(StrArr(links)), available).value);
            r[0] == links[0] && forall x :: x in r <==> x in links
  {
    var meta := Some(StrArr(links));
    var items := StrArr(links).items;
    assert items[0] == Str(links[0]);
    assert links[0] in links;
    forall k | 0 <= k < |items| ensures !Unhashable(items[k]) {
      assert items[k] == Str(links[k]);
    }
    var selected := PreselectedLinks(meta, available).value;
    var r := CollectedLinks(Some(links[0]), selected);
    forall x ensures x in r <==> x in links {
      if x in links {
        var i :| 0 <= i < |links| && links[i] == x;
        assert items[i] == Str(x);
      }
      if x in selected {
        var i :| 0 <= i < |items| && items[i] == Str(x);
        assert links[i] == x;
      }
    }
  }

  /** What `get_details` returns. */
  datatype Details = Details(title: string, notes: string, tags: seq<string>, links: seq<string>, color: Value)

  method GetDetails(titleText: string, notesText: string, tagsText: string,
                    quickNav: Option<string>, selected: seq<string>, color: Value)
    returns (d: Details)
    ensures d.title == titleText && d.notes == notesText && d.color == color
    ensures d.tags == ParseTags(tagsText)
    ensures d.links == CollectedLinks(quickNav, selected)
  {
    var links := CollectLinks(quickNav, selected);
    d := Details(titleText, notesText, ParseTags(tagsText), links, color);
  }
}
