// Sending Kanban cards to the timeline board (GUI/windows/kanban_board2.py):
// the board's widget looks up its ancestors for one that owns a timeline
// board, and each converted card is handed to that board's `add_card` with
// its metadata dictionary as the title, unless a timeline card already
// carries its id. The bulk variants convert a whole column or the whole
// board and count the outcomes. The handlers are modelled as written (the
// timeline's label refuses the dictionary, so nothing is ever added); the
// conversion the code evidently intends is defined beside them.

module KanbanToTimeline {
  import opened Json
  import opened KanbanModels
  import opened KanbanBoard
  import opened TimelineBoard

  /** How many ancestors the lookup inspects (`for _ in range(5)`). */
  const MaxAncestors: nat := 5

  // ---------------------------------------------------------------------------
  // Finding the timeline

  /**
   * The widget's ancestors, nearest first; an entry holds the timeline board
   * of an ancestor that has a `timeline_widget` attribute. The chain ends
   * where `parent()` returns `None`.
   */
  type Ancestors = seq<Option<TimelineBoardWidget>>

  /** The timeline board of the first of the first five ancestors that has one. */
  function Reached(ancestors: Ancestors): (r: Option<TimelineBoardWidget>)
    ensures r.Some? ==> exists k :: 0 <= k < MaxAncestors && k < |ancestors| && ancestors[k] == r
    ensures r.None? <==> forall k :: 0 <= k < MaxAncestors && k < |ancestors| ==> ancestors[k].None?
  {
    ReachedWithin(ancestors, MaxAncestors)
  }

  function ReachedWithin(ancestors: Ancestors, budget: nat): (r: Option<TimelineBoardWidget>)
    ensures r.Some? ==> exists k :: 0 <= k < budget && k < |ancestors| && ancestors[k] == r
    ensures r.None? <==> forall k :: 0 <= k < budget && k < |ancestors| ==> ancestors[k].None?
  {
    if budget == 0 || ancestors == [] then None
    else if ancestors[0].Some? then ancestors[0]
    else
      var r := ReachedWithin(ancestors[1..], budget - 1);
      assert forall k :: 1 <= k < budget && k < |ancestors| ==> ancestors[k] == ancestors[1..][k - 1];
      r
  }

  /** The only object a conversion may change: the timeline board it finds. */
  function TimelineFrame(ancestors: Ancestors): set<TimelineBoardWidget>
  {
    var r := Reached(ancestors);
    if r.Some? then {r.value} else {}
  }

  /** The ancestor walk: at most five steps up, stopping at the first timeline owner. */
  method FindTimelineTab(ancestors: Ancestors) returns (tab: Option<TimelineBoardWidget>)
    ensures tab == Reached(ancestors)
  {
    var k := 0;
    while k < MaxAncestors && k < |ancestors|
      invariant 0 <= k <= MaxAncestors && k <= |ancestors|
      invariant ReachedWithin(ancestors[k..], MaxAncestors - k) == Reached(ancestors)
    {
      assert ancestors[k..][1..] == ancestors[k + 1..];
      if ancestors[k].Some? {
        return ancestors[k];
      }
      k := k + 1;
    }
    return None;
  }

  // ---------------------------------------------------------------------------
  // One conversion, as written

  /** `"ok"`, `"already"` or `"failed"`. */
  datatype Outcome = Ok | Already | Failed

  /**
   * The existing-ids test as written: `getattr(c, "metadata", {}).get("id")`
   * on the board's `TimelineCard`s, which have no `metadata` attribute, so
   * every card contributes `None`.
   */
  function IdsAsWritten(cards: seq<TimelineCard>): set<Value>
  {
    if cards == [] then {} else {Null}
  }

  /**
   * One conversion as written, on the cards of the timeline board found: a
   * card without an id fails (`metadata["id"]` raises and the error is
   * caught), an id among the existing ones is reported, and otherwise
   * `add_card(metadata)` is called with the metadata dictionary as the
   * title, which `QLabel` refuses, so the conversion fails with the row as
   * it was.
   */
  function ConvertAsWritten(cards: seq<TimelineCard>, card: KanbanCard): (r: (Outcome, seq<TimelineCard>))
    ensures |cards| <= |r.1| <= |cards| + 1 && r.1[..|cards|] == cards
    ensures r.0 == Ok <==> |r.1| == |cards| + 1
    ensures r.0 == Already ==> "id" in card.metadata && card.metadata["id"] == Null && cards != []
  {
    if "id" !in card.metadata then (Failed, cards)
    else if card.metadata["id"] in IdsAsWritten(cards) then (Already, cards)
    else if LabelText(Obj(card.metadata)) then (Ok, cards + [TimelineCard(Obj(card.metadata))])
    else (Failed, cards)
  }

  /**
   * As written, no conversion reaches the timeline: a card is reported as
   * already there exactly when its id is `None` and the timeline has cards,
   * and every other conversion fails.
   */
  lemma ConvertAsWrittenNeverAdds(cards: seq<TimelineCard>, card: KanbanCard)
    ensures ConvertAsWritten(cards, card).1 == cards
    ensures ConvertAsWritten(cards, card).0 != Ok
    ensures ConvertAsWritten(cards, card).0 == Already <==>
              "id" in card.metadata && card.metadata["id"] == Null && cards != []
  {
  }

  /**
   * A card with an id converted onto an empty timeline: as written the
   * conversion fails and the timeline stays empty, where the corrected
   * conversion puts the card, with its id, on the timeline.
   */
  lemma ConvertAsWrittenFails(card: KanbanCard)
    requires "id" in card.metadata
    ensures ConvertAsWritten([], card) == (Failed, [])
    ensures Convert([], card) == (Ok, [CardFor(card)])
    ensures card.metadata["id"] in TimelineIds(Convert([], card).1)
  {
    var none: seq<LinkedCard> := [];
    assert TimelineIds(none) == {};
    assert none + [CardFor(card)] == [CardFor(card)];
  }

  // ---------------------------------------------------------------------------
  // One conversion, corrected

  /**
   * The timeline card a conversion evidently means to create (the Kanban
   * conversion test reads `c.metadata["id"]` off the timeline's cards):
   * titled with the Kanban card's text and carrying its metadata.
   */
  datatype LinkedCard = LinkedCard(title: string, metadata: Metadata)

  predicate HasId(c: LinkedCard)
  {
    "id" in c.metadata
  }

  function IdOf(c: LinkedCard): Value
    requires HasId(c)
  {
    c.metadata["id"]
  }

  /** The ids carried by the timeline's cards. */
  function TimelineIds(cards: seq<LinkedCard>): set<Value>
  {
    set i | 0 <= i < |cards| && HasId(cards[i]) :: IdOf(cards[i])
  }

  /** No two timeline cards carry the same id. */
  predicate DistinctIds(cards: seq<LinkedCard>)
  {
    forall i, j :: 0 <= i < j < |cards| && HasId(cards[i]) && HasId(cards[j]) ==> IdOf(cards[i]) != IdOf(cards[j])
  }

  /** The timeline card a Kanban card becomes. */
  function CardFor(card: KanbanCard): LinkedCard
  {
    LinkedCard(card.text, card.metadata)
  }

  /**
   * One conversion with the existing ids read from the metadata the
   * timeline cards carry: a card without an id fails, a card whose id is
   * already there is reported and not added, any other card is appended.
   */
  function Convert(cards: seq<LinkedCard>, card: KanbanCard): (r: (Outcome, seq<LinkedCard>))
    ensures r.0 == Failed <==> "id" !in card.metadata
    ensures r.0 == Already <==> "id" in card.metadata && card.metadata["id"] in TimelineIds(cards)
    ensures r.0 == Ok ==> r.1 == cards + [CardFor(card)]
    ensures r.0 != Ok ==> r.1 == cards
    ensures "id" in card.metadata ==> card.metadata["id"] in TimelineIds(r.1)
  {
    if "id" !in card.metadata then (Failed, cards)
    else if card.metadata["id"] in TimelineIds(cards) then (Already, cards)
    else
      var added := cards + [CardFor(card)];
      assert HasId(added[|cards|]) && IdOf(added[|cards|]) == card.metadata["id"];
      (Ok, added)
  }

  /** Converting a card a second time reports it and adds nothing. */
  lemma ConvertTwice(cards: seq<LinkedCard>, card: KanbanCard)
    requires "id" in card.metadata
    ensures var once := Convert(cards, card);
            Convert(once.1, card) == (Already, once.1)
  {
  }

  /** Cards added by conversions keep the timeline's ids distinct. */
  lemma ConvertKeepsIdsDistinct(cards: seq<LinkedCard>, card: KanbanCard)
    requires DistinctIds(cards)
    ensures DistinctIds(Convert(cards, card).1)
  {
    var r := Convert(cards, card);
    if r.0 == Ok {
      var n := |cards|;
      forall i | 0 <= i < n && HasId(r.1[i]) ensures IdOf(r.1[i]) != IdOf(r.1[n]) {
        assert r.1[i] == cards[i];
        assert IdOf(cards[i]) in TimelineIds(cards);
      }
    }
  }

  /** Appending cards never loses an id. */
  lemma IdsGrow(cards: seq<LinkedCard>, more: seq<LinkedCard>)
    ensures TimelineIds(cards) <= TimelineIds(cards + more)
  {
    forall v | v in TimelineIds(cards) ensures v in TimelineIds(cards + more) {
      var i :| 0 <= i < |cards| && HasId(cards[i]) && IdOf(cards[i]) == v;
      assert (cards + more)[i] == cards[i];
    }
  }

  // ---------------------------------------------------------------------------
  // The conversion handlers

  /**
   * `convert_kanban_to_timeline_bulk`: the status of one conversion as
   * written. The found timeline board is the only object touched, and its
   * row does not change.
   */
  method ConvertBulk(ancestors: Ancestors, card: KanbanCard) returns (r: Outcome)
    modifies TimelineFrame(ancestors)
    ensures Reached(ancestors).None? ==> r == Failed
    ensures Reached(ancestors).Some? ==>
              var tw := Reached(ancestors).value;
              (r, tw.cards) == ConvertAsWritten(old(tw.cards), card) && tw.emitted == old(tw.emitted)
  {
    var tab := FindTimelineTab(ancestors);
    if tab.None? {
      return Failed;
    }
    var tw := tab.value;
    if "id" !in card.metadata {
      return Failed;
    }
    if card.metadata["id"] in IdsAsWritten(tw.cards) {
      return Already;
    }
    var raised := tw.AddCard(Obj(card.metadata));
    r := if raised then Failed else Ok;
  }

  /** What the single-card conversion shows the user. */
  datatype Notice = AlreadyExists | Converted | TimelineNotFound | ErrorLogged

  /**
   * `convert_kanban_to_timeline`: the same conversion, reported through a
   * message box; an exception (the missing id, or the label refusing the
   * metadata dictionary) is only logged.
   */
  method ConvertKanbanToTimeline(ancestors: Ancestors, card: KanbanCard) returns (notice: Notice)
    modifies TimelineFrame(ancestors)
    ensures Reached(ancestors).None? ==> notice == TimelineNotFound
    ensures Reached(ancestors).Some? ==>
              var tw := Reached(ancestors).value;
              var (outcome, cards) := ConvertAsWritten(old(tw.cards), card);
              && tw.cards == cards && tw.emitted == old(tw.emitted)
              && notice == (match outcome case Ok => Converted case Already => AlreadyExists case Failed => ErrorLogged)
  {
    var tab := FindTimelineTab(ancestors);
    if tab.None? {
      return TimelineNotFound;
    }
    var tw := tab.value;
    if "id" !in card.metadata {
      return ErrorLogged;
    }
    if card.metadata["id"] in IdsAsWritten(tw.cards) {
      return AlreadyExists;
    }
    var raised := tw.AddCard(Obj(card.metadata));
    notice := if raised then ErrorLogged else Converted;
  }

  // ---------------------------------------------------------------------------
  // Bulk conversion

  /** The three counters of the summary message. */
  datatype Tally = Tally(synced: nat, already: nat, failed: nat)
  {
    function Total(): nat
    {
      synced + already + failed
    }

    /** The counter an outcome increments. */
    function Count(o: Outcome): (t: Tally)
      ensures t.Total() == Total() + 1
    {
      match o
      case Ok => this.(synced := synced + 1)
      case Already => this.(already := already + 1)
      case Failed => this.(failed := failed + 1)
    }
  }

  /**
   * The tally of converting `queue` in order as written, onto a timeline
   * holding `cards` when one was `found`; the timeline never changes.
   */
  function SyncAsWritten(found: bool, cards: seq<TimelineCard>, queue: seq<KanbanCard>): (t: Tally)
    ensures t.Total() == |queue|
    ensures !found ==> t == Tally(0, 0, |queue|)
  {
    if queue == [] then Tally(0, 0, 0)
    else
      var o := if found then ConvertAsWritten(cards, queue[|queue| - 1]).0 else Failed;
      SyncAsWritten(found, cards, queue[..|queue| - 1]).Count(o)
  }

  /** The Kanban cards whose `id` is `None`. */
  function NullIds(queue: seq<KanbanCard>): (n: nat)
    ensures n <= |queue|
  {
    if queue == [] then 0
    else
      var card := queue[|queue| - 1];
      NullIds(queue[..|queue| - 1]) + (if "id" in card.metadata && card.metadata["id"] == Null then 1 else 0)
  }

  /**
   * As written, a sync never counts a card as synced: on a timeline that
   * has cards, the cards whose id is `None` count as already there, and
   * every other card counts as failed.
   */
  lemma {:induction false} SyncAsWrittenTally(cards: seq<TimelineCard>, queue: seq<KanbanCard>)
    requires cards != []
    ensures SyncAsWritten(true, cards, queue) == Tally(0, NullIds(queue), |queue| - NullIds(queue))
  {
    if queue != [] {
      var n := |queue| - 1;
      SyncAsWrittenTally(cards, queue[..n]);
      ConvertAsWrittenNeverAdds(cards, queue[n]);
    }
  }

  /** As written, a sync onto an empty timeline counts every card as failed. */
  lemma {:induction false} SyncAsWrittenEmpty(queue: seq<KanbanCard>)
    ensures SyncAsWritten(true, [], queue) == Tally(0, 0, |queue|)
  {
    if queue != [] {
      SyncAsWrittenEmpty(queue[..|queue| - 1]);
      ConvertAsWrittenNeverAdds([], queue[|queue| - 1]);
    }
  }

  /**
   * Converting `queue` in order with the corrected conversion: the tally and
   * the timeline cards afterwards. Without a timeline every card fails and
   * nothing is added.
   */
  function Sync(found: bool, cards: seq<LinkedCard>, queue: seq<KanbanCard>): (r: (Tally, seq<LinkedCard>))
    ensures r.0.Total() == |queue|
    ensures |r.1| == |cards| + r.0.synced && r.1[..|cards|] == cards
    ensures !found ==> r == (Tally(0, 0, |queue|), cards)
  {
    if queue == [] then (Tally(0, 0, 0), cards)
    else
      var (t, now) := Sync(found, cards, queue[..|queue| - 1]);
      var (o, after) := if found then Convert(now, queue[|queue| - 1]) else (Failed, now);
      (t.Count(o), after)
  }

  /** After a corrected sync with a timeline, every card that has an id is on the timeline. */
  lemma {:induction false} SyncCovers(cards: seq<LinkedCard>, queue: seq<KanbanCard>)
    ensures forall k :: 0 <= k < |queue| && "id" in queue[k].metadata ==>
              queue[k].metadata["id"] in TimelineIds(Sync(true, cards, queue).1)
  {
    if queue != [] {
      var n := |queue| - 1;
      SyncCovers(cards, queue[..n]);
      var now := Sync(true, cards, queue[..n]).1;
      var after := Sync(true, cards, queue).1;
      assert after == Convert(now, queue[n]).1;
      assert now == after[..|now|];
      IdsGrow(now, after[|now|..]);
      assert now + after[|now|..] == after;
    }
  }

  /** A corrected sync keeps the timeline's ids distinct. */
  lemma {:induction false} SyncKeepsIdsDistinct(found: bool, cards: seq<LinkedCard>, queue: seq<KanbanCard>)
    requires DistinctIds(cards)
    ensures DistinctIds(Sync(found, cards, queue).1)
  {
    if queue != [] && found {
      var n := |queue| - 1;
      SyncKeepsIdsDistinct(found, cards, queue[..n]);
      ConvertKeepsIdsDistinct(Sync(found, cards, queue[..n]).1, queue[n]);
    }
  }

  /** On a timeline that already holds every id of the queue, a corrected sync adds nothing. */
  lemma {:induction false} SyncCoveredAddsNothing(cards: seq<LinkedCard>, queue: seq<KanbanCard>)
    requires forall k :: 0 <= k < |queue| && "id" in queue[k].metadata ==> queue[k].metadata["id"] in TimelineIds(cards)
    ensures Sync(true, cards, queue).0.synced == 0 && Sync(true, cards, queue).1 == cards
  {
    if queue != [] {
      var n := |queue| - 1;
      SyncCoveredAddsNothing(cards, queue[..n]);
      assert queue[n] == queue[n];
    }
  }

  /** Syncing the same cards a second time adds nothing. */
  lemma SyncTwice(cards: seq<LinkedCard>, queue: seq<KanbanCard>)
    ensures var once := Sync(true, cards, queue).1;
            Sync(true, once, queue).0.synced == 0 && Sync(true, once, queue).1 == once
  {
    SyncCovers(cards, queue);
    SyncCoveredAddsNothing(Sync(true, cards, queue).1, queue);
  }

  /** A queue grown by one card is synced, as written, by one more conversion. */
  lemma SyncAsWrittenSnoc(found: bool, cards: seq<TimelineCard>, queue: seq<KanbanCard>, card: KanbanCard)
    ensures SyncAsWritten(found, cards, queue + [card])
              == SyncAsWritten(found, cards, queue).Count(if found then ConvertAsWritten(cards, card).0 else Failed)
  {
    assert (queue + [card])[..|queue|] == queue;
  }

  lemma {:induction false} FlattenAppend<T>(a: seq<seq<T>>, b: seq<seq<T>>)
    ensures Flatten(a + b) == Flatten(a) + Flatten(b)
  {
    if a == [] {
      assert a + b == b;
    } else {
      assert (a + b)[0] == a[0] && (a + b)[1..] == a[1..] + b;
      FlattenAppend(a[1..], b);
    }
  }

  /** Once a column is done, the queue is the flattening of the columns so far. */
  lemma QueueColumnDone<T>(columns: seq<seq<T>>, i: nat)
    requires i < |columns|
    ensures Flatten(columns[..i]) + columns[i] == Flatten(columns[..i + 1])
  {
    FlattenAppend(columns[..i], [columns[i]]);
    assert columns[..i + 1] == columns[..i] + [columns[i]];
    assert Flatten([columns[i]]) == columns[i] + Flatten([columns[i]][1..]);
  }

  /**
   * The loops of `sync_all_kanban_to_timeline` and
   * `sync_column_kanban_to_timeline`: the columns in order, each from its
   * first row to its last, one conversion per card, counted as written.
   */
  method SyncColumns(columns: seq<seq<KanbanCard>>, ancestors: Ancestors) returns (t: Tally)
    modifies TimelineFrame(ancestors)
    ensures t.Total() == |Flatten(columns)|
    ensures Reached(ancestors).None? ==> t == Tally(0, 0, |Flatten(columns)|)
    ensures Reached(ancestors).Some? ==>
              var tw := Reached(ancestors).value;
              && t == SyncAsWritten(true, old(tw.cards), Flatten(columns))
              && tw.cards == old(tw.cards) && tw.emitted == old(tw.emitted)
  {
    ghost var found := Reached(ancestors).Some?;
    ghost var start: seq<TimelineCard> := if found then Reached(ancestors).value.cards else [];
    t := Tally(0, 0, 0);
    var i := 0;
    while i < |columns|
      invariant 0 <= i <= |columns|
      invariant found ==> start == Reached(ancestors).value.cards && Reached(ancestors).value.emitted == old(Reached(ancestors).value.emitted)
      invariant t == SyncAsWritten(found, start, Flatten(columns[..i]))
    {
      t := SyncColumnCards(columns[i], ancestors, found, start, Flatten(columns[..i]), t);
      QueueColumnDone(columns, i);
      i := i + 1;
    }
    assert columns[..i] == columns;
  }

  /**
   * The inner loop: the cards of one column, from the first row to the last,
   * continuing the tally `t0` of the cards `done` before them.
   */
  method SyncColumnCards(cards: seq<KanbanCard>, ancestors: Ancestors, ghost found: bool, ghost start: seq<TimelineCard>,
                         ghost done: seq<KanbanCard>, t0: Tally) returns (t: Tally)
    requires found == Reached(ancestors).Some?
    requires found ==> start == Reached(ancestors).value.cards
    requires t0 == SyncAsWritten(found, start, done)
    modifies TimelineFrame(ancestors)
    ensures t == SyncAsWritten(found, start, done + cards)
    ensures found ==> start == Reached(ancestors).value.cards && Reached(ancestors).value.emitted == old(Reached(ancestors).value.emitted)
  {
    t := t0;
    var j := 0;
    assert done + cards[..j] == done;
    while j < |cards|
      invariant 0 <= j <= |cards|
      invariant found ==> start == Reached(ancestors).value.cards && Reached(ancestors).value.emitted == old(Reached(ancestors).value.emitted)
      invariant t == SyncAsWritten(found, start, done + cards[..j])
    {
      t := SyncCard(cards[j], ancestors, found, start, done + cards[..j], t);
      assert done + cards[..j + 1] == (done + cards[..j]) + [cards[j]];
      j := j + 1;
    }
    assert cards[..j] == cards;
  }

  /** One conversion of the inner loop, counted onto the tally `t0` of the cards `done` before it. */
  method SyncCard(card: KanbanCard, ancestors: Ancestors, ghost found: bool, ghost start: seq<TimelineCard>,
                  ghost done: seq<KanbanCard>, t0: Tally) returns (t: Tally)
    requires found == Reached(ancestors).Some?
    requires found ==> start == Reached(ancestors).value.cards
    requires t0 == SyncAsWritten(found, start, done)
    modifies TimelineFrame(ancestors)
    ensures t == SyncAsWritten(found, start, done + [card])
    ensures found ==> start == Reached(ancestors).value.cards && Reached(ancestors).value.emitted == old(Reached(ancestors).value.emitted)
  {
    var result := ConvertBulk(ancestors, card);
    ConvertAsWrittenNeverAdds(start, card);
    SyncAsWrittenSnoc(found, start, done, card);
    t := t0.Count(result);
  }

  /** `sync_all_kanban_to_timeline`: every card of every column of the board. */
  method SyncAllKanbanToTimeline(board: Board, ancestors: Ancestors) returns (t: Tally)
    modifies TimelineFrame(ancestors)
    ensures t.Total() == |Flatten(old(board.Cards()))|
    ensures Reached(ancestors).None? ==> t == Tally(0, 0, |Flatten(old(board.Cards()))|)
    ensures Reached(ancestors).Some? ==>
              var tw := Reached(ancestors).value;
              t == SyncAsWritten(true, old(tw.cards), Flatten(old(board.Cards()))) && tw.cards == old(tw.cards)
  {
    t := SyncColumns(board.Cards(), ancestors);
  }

  /** `sync_column_kanban_to_timeline`: every card of one column's list. */
  method SyncColumnKanbanToTimeline(list: CardList, ancestors: Ancestors) returns (t: Tally)
    modifies TimelineFrame(ancestors)
    ensures t.Total() == |old(list.cards)|
    ensures Reached(ancestors).None? ==> t == Tally(0, 0, |old(list.cards)|)
    ensures Reached(ancestors).Some? ==>
              var tw := Reached(ancestors).value;
              t == SyncAsWritten(true, old(tw.cards), old(list.cards)) && tw.cards == old(tw.cards)
  {
    var cards := list.cards;
    assert Flatten([cards]) == cards;
    t := SyncColumns([cards], ancestors);
  }
}
