// The horizontal storyboard of GUI/windows/timeline_board.py: a row of cards,
// each labelled with a title, that can be appended, removed by title and
// reordered by dragging one card onto a slot of the row. Every change of
// order is announced through the `orderChanged` signal with the new titles.

module TimelineBoard {
  import opened Json

  /**
   * A card and the title `add_card` was given. Only a string (or `None`)
   * gets this far: `TimelineCard.__init__` passes the title to `QLabel`,
   * whose constructor takes a text or a parent widget and raises
   * `TypeError` for anything else.
   */
  datatype TimelineCard = TimelineCard(title: Value)

  /** What `QLabel(title)` accepts: a string, or `None` (read as no parent). */
  predicate LabelText(title: Value)
  {
    title.Str? || title.Null?
  }

  /** `[c.title for c in cards]`. */
  function Titles(cards: seq<TimelineCard>): (r: seq<Value>)
    ensures |r| == |cards|
    ensures forall i :: 0 <= i < |cards| ==> r[i] == cards[i].title
  {
    seq(|cards|, i requires 0 <= i < |cards| => cards[i].title)
  }

  /** `next((i for i, c in enumerate(cards) if c.title == title), None)`. */
  function FirstWithTitle(cards: seq<TimelineCard>, title: Value): (r: Option<nat>)
    ensures r.Some? ==> r.value < |cards| && cards[r.value].title == title
    ensures r.Some? ==> forall j :: 0 <= j < r.value ==> cards[j].title != title
    ensures r.None? <==> forall j :: 0 <= j < |cards| ==> cards[j].title != title
  {
    if cards == [] then None
    else if cards[0].title == title then Some(0)
    else
      var rest := FirstWithTitle(cards[1..], title);
      if rest.Some? then Some(rest.value + 1) else None
  }

  /** The row after `remove_card(title)`: without its first card of that title. */
  function RemoveFirst(cards: seq<TimelineCard>, title: Value): seq<TimelineCard>
  {
    var i := FirstWithTitle(cards, title);
    if i.Some? then cards[..i.value] + cards[i.value + 1..] else cards
  }

  /**
   * Removing a title takes away exactly one card of that title when there is
   * one (later duplicates stay), and nothing when there is none; the other
   * cards keep their order.
   */
  lemma RemoveFirstTakesOne(cards: seq<TimelineCard>, title: Value)
    ensures multiset(RemoveFirst(cards, title)) == multiset(cards) - multiset{TimelineCard(title)}
    ensures (exists j :: 0 <= j < |cards| && cards[j].title == title) ==> |RemoveFirst(cards, title)| == |cards| - 1
    ensures (forall j :: 0 <= j < |cards| ==> cards[j].title != title) ==> RemoveFirst(cards, title) == cards
  {
    var i := FirstWithTitle(cards, title);
    if i.Some? {
      RemoveAtIndex(cards, i.value);
    } else {
      assert TimelineCard(title) !in multiset(cards);
    }
  }

  /** Taking out the card at `k` takes exactly that card out of the row's multiset. */
  lemma RemoveAtIndex(cards: seq<TimelineCard>, k: nat)
    requires k < |cards|
    ensures multiset(cards[..k] + cards[k + 1..]) == multiset(cards) - multiset{cards[k]}
    ensures |cards[..k] + cards[k + 1..]| == |cards| - 1
  {
    assert cards == cards[..k] + [cards[k]] + cards[k + 1..];
  }

  /** `cards.pop(source)` followed by `cards.insert(index, card)`; `insert` past the end appends. */
  function PopInsert(cards: seq<TimelineCard>, source: nat, index: nat): (r: seq<TimelineCard>)
    requires source < |cards|
    ensures |r| == |cards| && multiset(r) == multiset(cards)
    ensures r[if index < |cards| then index else |cards| - 1] == cards[source]
  {
    var rest := cards[..source] + cards[source + 1..];
    var at := if index <= |rest| then index else |rest|;
    assert cards == cards[..source] + [cards[source]] + cards[source + 1..];
    assert rest == rest[..at] + rest[at..];
    assert multiset(cards) == multiset(rest) + multiset{cards[source]};
    rest[..at] + [cards[source]] + rest[at..]
  }

  /**
   * Where the dragged card belongs when it is dropped on `slot`: the gap
   * before card `slot` of the row as it was (`slot == |cards|` is the end).
   * The cards left of the gap stay left of it and the cards right of it stay
   * right of it.
   */
  function MovedToSlot(cards: seq<TimelineCard>, source: nat, slot: nat): seq<TimelineCard>
    requires source < |cards| && slot <= |cards|
  {
    if slot <= source then cards[..slot] + [cards[source]] + cards[slot..source] + cards[source + 1..]
    else cards[..source] + cards[source + 1..slot] + [cards[source]] + cards[slot..]
  }

  /** The `dropEvent` reorder as written: the slot index is used after the pop. */
  function DropAsWritten(cards: seq<TimelineCard>, title: Value, slot: nat): (r: seq<TimelineCard>)
    requires slot <= |cards|
    ensures |r| == |cards| && multiset(r) == multiset(cards)
    ensures FirstWithTitle(cards, title).None? ==> r == cards
    ensures var source := FirstWithTitle(cards, title);
            source.Some? && slot != source.value ==> r[if slot < |cards| then slot else |cards| - 1] == cards[source.value]
  {
    var source := FirstWithTitle(cards, title);
    if source.Some? && slot != source.value then PopInsert(cards, source.value, slot) else cards
  }

  /**
   * Dropping the first of three cards into the gap between the second and
   * the third puts it after the third instead: the result differs from the
   * intended order whenever the first and the third card differ.
   */
  lemma DropAsWrittenOvershoots(a: TimelineCard, b: TimelineCard, c: TimelineCard)
    ensures DropAsWritten([a, b, c], a.title, 2) == [b, c, a]
    ensures MovedToSlot([a, b, c], 0, 2) == [b, a, c]
    ensures a != c ==> DropAsWritten([a, b, c], a.title, 2) != MovedToSlot([a, b, c], 0, 2)
  {
    var cards := [a, b, c];
    assert FirstWithTitle(cards, a.title) == Some(0);
    var rest := cards[..0] + cards[1..];
    assert rest == [b, c];
    assert rest[..2] + [a] + rest[2..] == [b, c, a];
    assert cards[..0] + cards[1..2] + [a] + cards[2..] == [b, a, c];
    if a != c {
      assert [b, c, a][1] != [b, a, c][1];
    }
  }

  /** The index the card is re-inserted at once it has been popped. */
  function InsertIndex(source: nat, slot: nat): nat
  {
    if slot > source then slot - 1 else slot
  }

  /** Popping the card and inserting it at `InsertIndex` puts it in the slot it was dropped on. */
  lemma PopInsertLandsInSlot(cards: seq<TimelineCard>, source: nat, slot: nat)
    requires source < |cards| && slot <= |cards|
    ensures PopInsert(cards, source, InsertIndex(source, slot)) == MovedToSlot(cards, source, slot)
  {
    var rest := cards[..source] + cards[source + 1..];
    if slot <= source {
      assert rest[..slot] == cards[..slot];
      assert rest[slot..] == cards[slot..source] + cards[source + 1..];
    } else {
      assert rest[..slot - 1] == cards[..source] + cards[source + 1..slot];
      assert rest[slot - 1..] == cards[slot..];
    }
  }

  /** A drop next to the card's own position leaves the row as it was. */
  lemma MovedToOwnSlot(cards: seq<TimelineCard>, source: nat)
    requires source < |cards|
    ensures MovedToSlot(cards, source, source) == cards
    ensures MovedToSlot(cards, source, source + 1) == cards
  {
    assert cards == cards[..source] + [cards[source]] + cards[source + 1..];
  }

  class TimelineBoardWidget {
    /** `self.cards`, in row order. */
    var cards: seq<TimelineCard>
    /** The title lists `orderChanged` has emitted, oldest first. */
    var emitted: seq<seq<Value>>

    constructor ()
      ensures cards == [] && emitted == []
    {
      cards := [];
      emitted := [];
    }

    /**
     * `add_card`: one card with the title, at the end of the row; `raised`
     * when building the card's label raises, before anything is appended.
     */
    method AddCard(title: Value) returns (raised: bool)
      modifies this
      ensures raised <==> !LabelText(title)
      ensures cards == if raised then old(cards) else old(cards) + [TimelineCard(title)]
      ensures emitted == old(emitted)
    {
      if !LabelText(title) {
        return true;
      }
      cards := cards + [TimelineCard(title)];
      return false;
    }

    /** `remove_card`: the first card with the title goes, if any; the new order is emitted either way. */
    method RemoveCard(title: Value)
      modifies this
      ensures cards == RemoveFirst(old(cards), title)
      ensures emitted == old(emitted) + [Titles(cards)]
    {
      var i := 0;
      while i < |cards|
        invariant 0 <= i <= |cards| && cards == old(cards) && emitted == old(emitted)
        invariant forall j :: 0 <= j < i ==> cards[j].title != title
      {
        if cards[i].title == title {
          cards := cards[..i] + cards[i + 1..];
          break;
        }
        i := i + 1;
      }
      emitted := emitted + [Titles(cards)];
    }

    /**
     * The reorder of `dropEvent`: the first card with the dragged title is
     * moved into the gap `slot` the drop position falls in (the position is
     * Qt geometry, so the slot is the input). Nothing happens, and nothing is
     * emitted, for an unknown title or a drop next to the card itself.
     */
    method Drop(title: Value, slot: nat)
      requires slot <= |cards|
      modifies this
      ensures multiset(cards) == multiset(old(cards))
      ensures var source := FirstWithTitle(old(cards), title);
              if source.Some? && InsertIndex(source.value, slot) != source.value then
                cards == MovedToSlot(old(cards), source.value, slot) && emitted == old(emitted) + [Titles(cards)]
              else
                cards == old(cards) && emitted == old(emitted)
    {
      var source := FirstWithTitle(cards, title);
      if source.Some? {
        var index := InsertIndex(source.value, slot);
        if index != source.value {
          PopInsertLandsInSlot(cards, source.value, slot);
          cards := PopInsert(cards, source.value, index);
          emitted := emitted + [Titles(cards)];
        }
      }
    }
  }
}
