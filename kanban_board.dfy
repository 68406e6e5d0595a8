// The kanban board widget's data (GUI/windows/kanban_board.py): ordered
// columns with a name -> column map, card moves, undo/redo snapshot stacks,
// the save/load state codec and the keyboard move and Tab branches.

module KanbanBoard {
  import opened Json
  import opened KanbanModels
  import opened KanbanStore
  import opened Lists

  /** The most snapshots the undo stack keeps. */
  const MaxUndo: nat := 50

  /** The columns a new board starts with. */
  const InitialColumns: seq<string> := ["To Do", "In Progress", "Done"]

  // ---------------------------------------------------------------------------
  // Moving one card inside a list

  /** `insertItem(i, x)` for a position inside the list or just past its end. */
  function Insert<T>(s: seq<T>, i: nat, x: T): (r: seq<T>)
    requires i <= |s|
    ensures |r| == |s| + 1 && r[i] == x
    ensures RemoveAt(r, i) == s
  {
    var r := s[..i] + [x] + s[i..];
    assert r[..i] == s[..i] && r[i + 1..] == s[i..];
    r
  }

  /** Take the card at `from` and insert it at `to`. */
  function MoveItem<T>(s: seq<T>, from: nat, to: nat): (r: seq<T>)
    requires from < |s| && to < |s|
    ensures |r| == |s| && r[to] == s[from]
    ensures multiset(r) == multiset(s)
    ensures RemoveAt(r, to) == RemoveAt(s, from)
  {
    var r := Insert(RemoveAt(s, from), to, s[from]);
    assert multiset(RemoveAt(r, to)) + multiset{r[to]} == multiset(r);
    r
  }

  /** Moving a card back to where it came from undoes the move. */
  lemma MoveItemInverse<T>(s: seq<T>, from: nat, to: nat)
    requires from < |s| && to < |s|
    ensures MoveItem(MoveItem(s, from, to), to, from) == s
  {
    var m := MoveItem(s, from, to);
    var back := MoveItem(m, to, from);
    assert RemoveAt(back, from) == RemoveAt(m, to) == RemoveAt(s, from);
    assert back[from] == m[to] == s[from];
    forall k | 0 <= k < |s| ensures back[k] == s[k] {
      if k < from {
        assert back[k] == RemoveAt(back, from)[k];
      } else if k > from {
        assert back[k] == RemoveAt(back, from)[k - 1];
      }
    }
  }

  /** Every card on a board, column after column. */
  function Flatten<T>(columns: seq<seq<T>>): seq<T>
  {
    if columns == [] then [] else columns[0] + Flatten(columns[1..])
  }

  /** Replacing one column's cards swaps that column's cards in the board's multiset. */
  lemma {:induction false} FlattenUpdate<T>(columns: seq<seq<T>>, k: nat, x: seq<T>)
    requires k < |columns|
    ensures multiset(Flatten(columns[k := x])) + multiset(columns[k]) == multiset(Flatten(columns)) + multiset(x)
  {
    if k == 0 {
      assert columns[k := x][1..] == columns[1..];
    } else {
      var rest := columns[1..];
      FlattenUpdate(rest, k - 1, x);
      assert columns[k := x][1..] == rest[k - 1 := x];
      var a, b := multiset(Flatten(rest[k - 1 := x])), multiset(Flatten(rest));
      assert a + multiset(columns[k]) == b + multiset(x);
      assert multiset(Flatten(columns[k := x])) == multiset(columns[0]) + a;
      assert multiset(Flatten(columns)) == multiset(columns[0]) + b;
      MultisetPrefix(multiset(columns[0]), a, b, multiset(columns[k]), multiset(x));
    }
  }

  /** The cards of each column after `move_card_within_column` in column `i`. */
  function MoveWithin<T>(columns: seq<seq<T>>, i: nat, from: nat, to: nat): (r: seq<seq<T>>)
    requires i < |columns| && from < |columns[i]| && to < |columns[i]|
    ensures |r| == |columns| && |r[i]| == |columns[i]| && r[i][to] == columns[i][from]
    ensures forall k :: 0 <= k < |columns| && k != i ==> r[k] == columns[k]
  {
    columns[i := MoveItem(columns[i], from, to)]
  }

  lemma MultisetPrefix<T>(m: multiset<T>, a: multiset<T>, b: multiset<T>, x: multiset<T>, y: multiset<T>)
    requires a + x == b + y
    ensures m + a + x == m + b + y
  {
    forall e ensures (m + a + x)[e] == (m + b + y)[e] {
      assert (a + x)[e] == (b + y)[e];
    }
  }

  lemma MultisetCancel<T>(a: multiset<T>, b: multiset<T>, x: multiset<T>)
    requires a + x == b + x
    ensures a == b
  {
    forall e ensures a[e] == b[e] {
      assert (a + x)[e] == (b + x)[e];
    }
  }

  /** A move inside a column neither loses nor duplicates a card. */
  lemma MoveWithinKeepsCards<T>(columns: seq<seq<T>>, i: nat, from: nat, to: nat)
    requires i < |columns| && from < |columns[i]| && to < |columns[i]|
    ensures multiset(Flatten(MoveWithin(columns, i, from, to))) == multiset(Flatten(columns))
  {
    FlattenUpdate(columns, i, MoveItem(columns[i], from, to));
    MultisetCancel(multiset(Flatten(MoveWithin(columns, i, from, to))), multiset(Flatten(columns)), multiset(columns[i]));
  }

  /**
   * The cards of each column after `move_card_between_columns` takes the card
   * at `row` of column `i` and appends it to column `j`.
   */
  function MoveAcross<T>(columns: seq<seq<T>>, i: nat, j: nat, row: nat): (r: seq<seq<T>>)
    requires i < |columns| && j < |columns| && row < |columns[i]|
    ensures |r| == |columns| && |r[j]| > 0 && r[j][|r[j]| - 1] == columns[i][row]
    ensures i != j ==> |r[i]| == |columns[i]| - 1 && |r[j]| == |columns[j]| + 1
    ensures forall k :: 0 <= k < |columns| && k != i && k != j ==> r[k] == columns[k]
  {
    var card := columns[i][row];
    if i == j then columns[i := RemoveAt(columns[i], row) + [card]]
    else columns[i := RemoveAt(columns[i], row)][j := columns[j] + [card]]
  }

  /** A move between columns neither loses nor duplicates a card. */
  lemma MoveAcrossKeepsCards<T>(columns: seq<seq<T>>, i: nat, j: nat, row: nat)
    requires i < |columns| && j < |columns| && row < |columns[i]|
    ensures multiset(Flatten(MoveAcross(columns, i, j, row))) == multiset(Flatten(columns))
  {
    var card := columns[i][row];
    var removed := RemoveAt(columns[i], row);
    var moved := multiset(Flatten(MoveAcross(columns, i, j, row)));
    if i == j {
      FlattenUpdate(columns, i, removed + [card]);
      assert multiset(removed + [card]) == multiset(columns[i]);
      MultisetCancel(moved, multiset(Flatten(columns)), multiset(columns[i]));
    } else {
      var mid := columns[i := removed];
      FlattenUpdate(columns, i, removed);
      FlattenUpdate(mid, j, columns[j] + [card]);
      assert mid[j := columns[j] + [card]] == MoveAcross(columns, i, j, row);
      MultisetCancel(moved, multiset(Flatten(mid)) + multiset{card}, multiset(columns[j]));
      MultisetCancel(multiset(Flatten(mid)) + multiset{card}, multiset(Flatten(columns)), multiset(removed));
    }
  }

  // ---------------------------------------------------------------------------
  // The state codec: `save_state` and `load_state`

  /** One card as `save_state` writes it: a dictionary when `full`, its text otherwise. */
  function EncodeCard(card: KanbanCard, full: bool): (v: Value)
  {
    if full then Obj(map["title" := Str(card.text), "metadata" := Obj(card.metadata)])
    else Str(card.text)
  }

  function EncodeCards(cards: seq<KanbanCard>, full: bool): (vs: seq<Value>)
    ensures |vs| == |cards|
    ensures forall k :: 0 <= k < |cards| ==> vs[k] == EncodeCard(cards[k], full)
  {
    seq(|cards|, k requires 0 <= k < |cards| => EncodeCard(cards[k], full))
  }

  /**
   * A saved entry `load_state` can rebuild: the card constructor accepts its
   * title (a string or `None`) and, for a dictionary, the colour of its
   * coerced metadata. Any other title (a number, a list, or an entry that is
   * neither a dictionary, a string nor `None`) or a colour that is a
   * non-empty list or dictionary makes the constructor raise.
   */
  predicate LoadableEntry(entry: Value)
  {
    CardTitle(EntryTitle(entry)) && !(entry.Obj? && RejectedColor(CoercedMetadata(entry.fields)))
  }

  predicate LoadableState(state: BoardState)
  {
    forall name, k :: name in state && 0 <= k < |state[name]| ==> LoadableEntry(state[name][k])
  }

  /** Every one of `entries` can be rebuilt into a card. */
  predicate LoadableEntries(entries: seq<Value>)
  {
    forall k :: 0 <= k < |entries| ==> LoadableEntry(entries[k])
  }

  /** Every entry `load_state` reads for column `name` can be rebuilt. */
  predicate LoadableColumn(state: BoardState, name: string)
  {
    LoadableEntries(EntriesFor(state, name))
  }

  /** `state.get(name, [])` for each of `names`, in that order. */
  function ColumnEntries(state: BoardState, names: seq<string>): (entries: seq<seq<Value>>)
    ensures |entries| == |names|
    ensures forall i :: 0 <= i < |names| ==> entries[i] == EntriesFor(state, names[i])
  {
    seq(|names|, i requires 0 <= i < |names| => EntriesFor(state, names[i]))
  }

  /**
   * The position, in loading order, of the first column whose saved entries
   * cannot all be rebuilt, where `load_state` raises; `|columns|` when there is none.
   */
  function FirstUnloadable(columns: seq<seq<Value>>): (j: nat)
    ensures j <= |columns|
    ensures forall i :: 0 <= i < j ==> LoadableEntries(columns[i])
    ensures j < |columns| ==> !LoadableEntries(columns[j])
  {
    if columns == [] || !LoadableEntries(columns[0]) then 0
    else
      var j := 1 + FirstUnloadable(columns[1..]);
      assert forall i :: 1 <= i < |columns| ==> columns[i] == columns[1..][i - 1];
      j
  }

  /** A board whose every entry can be rebuilt loads without raising, whatever its columns. */
  lemma LoadableStateLoads(state: BoardState, names: seq<string>)
    requires LoadableState(state)
    ensures FirstUnloadable(ColumnEntries(state, names)) == |names|
  {
    var entries := ColumnEntries(state, names);
    forall i | 0 <= i < |names|
      ensures LoadableEntries(entries[i])
    {
      assert LoadableColumn(state, names[i]);
    }
  }

  /**
   * What `load_board` leaves in columns named `names` that held `before` and
   * now hold `after`: with no stored board, or an empty one, nothing is loaded
   * and nothing raises; otherwise `load_state` runs on the normalised board.
   */
  predicate LoadedFromStore(store: Store, names: seq<string>, before: seq<seq<KanbanCard>>, after: seq<seq<KanbanCard>>, raised: bool)
  {
    if store.board.None? || store.board.value == map[] then !raised && after == before
    else LoadedColumns(ColumnEntries(NormalisedBoard(store.board.value), names), before, after, raised)
  }

  /**
   * What `load_state` leaves in columns whose saved entries are `entries` and
   * which held `before` and now hold `after`: every column before the first
   * one with an entry that cannot be rebuilt is rebuilt, that column holds the
   * cards rebuilt before the bad entry, and the later columns keep their cards;
   * `raised` says whether there is such a column.
   */
  predicate LoadedColumns(entries: seq<seq<Value>>, before: seq<seq<KanbanCard>>, after: seq<seq<KanbanCard>>, raised: bool)
  {
    var j := FirstUnloadable(entries);
    && |before| == |entries| && |after| == |entries|
    && (raised <==> j < |entries|)
    && (forall i :: 0 <= i < j ==> DecodedColumn(entries[i], after[i]))
    && (j < |entries| ==> PartlyDecoded(entries[j], after[j]))
    && (forall i :: j < i < |entries| ==> after[i] == before[i])
  }

  /** When nothing raises, every column is rebuilt from its entries, so no card has a refused colour. */
  lemma LoadedWithoutRaise(entries: seq<seq<Value>>, before: seq<seq<KanbanCard>>, after: seq<seq<KanbanCard>>)
    requires LoadedColumns(entries, before, after, false)
    ensures forall i :: 0 <= i < |entries| ==> DecodedColumn(entries[i], after[i])
    ensures forall i :: 0 <= i < |after| ==> Colourable(after[i])
  {
    forall i | 0 <= i < |after| ensures Colourable(after[i]) {
      DecodedColumnColourable(entries[i], after[i]);
    }
  }

  /**
   * `load_board` on a stored board every entry of which can be rebuilt does
   * not raise: every column is rebuilt from the normalised board's entries
   * under its name, or, with no board or an empty one, keeps its cards.
   */
  lemma LoadedLoadableStore(store: Store, names: seq<string>, before: seq<seq<KanbanCard>>, after: seq<seq<KanbanCard>>, raised: bool)
    requires store.board.Some? ==> LoadableState(store.board.value)
    requires LoadedFromStore(store, names, before, after, raised)
    ensures !raised
    ensures store.board.None? || store.board.value == map[] ==> after == before
    ensures store.board.Some? && store.board.value != map[] ==>
              |after| == |names| && forall i :: 0 <= i < |names| ==> DecodedColumn(EntriesFor(NormalisedBoard(store.board.value), names[i]), after[i])
  {
    if store.board.Some? && store.board.value != map[] {
      var state := NormalisedBoard(store.board.value);
      NormalisedLoadable(store.board.value);
      LoadableStateLoads(state, names);
      LoadedWithoutRaise(ColumnEntries(state, names), before, after);
    }
  }

  /** Normalising a loadable board keeps it loadable: only `metadata` is rewritten. */
  lemma NormalisedLoadable(data: BoardState)
    requires LoadableState(data)
    ensures LoadableState(NormalisedBoard(data))
  {
    var r := NormalisedBoard(data);
    forall name, k | name in r && 0 <= k < |r[name]| ensures LoadableEntry(r[name][k]) {
      assert LoadableEntry(data[name][k]);
    }
  }

  /** The title `load_state` passes to the card constructor: a dictionary's `title` (default ""), any other entry itself. */
  function EntryTitle(entry: Value): Value
  {
    if entry.Obj? then Get(entry.fields, "title", Str("")) else entry
  }

  /** The metadata `load_state` passes on: coerced for a dictionary, none for a string. */
  function EntryMetadata(entry: Value): Option<Metadata>
  {
    if entry.Obj? then Some(CoercedMetadata(entry.fields)) else None
  }

  /** The card `load_state` builds from one entry, given the id the card constructor draws. */
  function DecodeEntry(entry: Value, freshId: string): KanbanCard
  {
    KanbanCard(TitleText(EntryTitle(entry)), MergedMetadata(EntryTitle(entry), EntryMetadata(entry), freshId))
  }

  /** The card's id as a string ("" when it has none or a non-string one). */
  function IdText(card: KanbanCard): string
  {
    if "id" in card.metadata && card.metadata["id"].Str? then card.metadata["id"].s else ""
  }

  /** `card` is what `load_state` builds from `entry`, with whatever id was drawn for it. */
  predicate DecodesTo(entry: Value, card: KanbanCard)
  {
    LoadableEntry(entry) && card == DecodeEntry(entry, IdText(card))
  }

  lemma DecodeEntryDecodes(entry: Value, freshId: string)
    requires LoadableEntry(entry)
    ensures DecodesTo(entry, DecodeEntry(entry, freshId))
  {
    var card := DecodeEntry(entry, freshId);
    var meta := EntryMetadata(entry);
    if meta.Some? && "id" in meta.value {
      MergedIgnoresFreshId(EntryTitle(entry), meta.value, freshId, IdText(card));
    }
  }

  /** `state.get(name, [])`: a column's saved entries. */
  function EntriesFor(state: BoardState, name: string): (entries: seq<Value>)
    ensures name in state ==> entries == state[name]
    ensures name !in state ==> entries == []
  {
    if name in state then state[name] else []
  }

  /** Every column's cards are the ones `load_state` builds from that column's entries. */
  predicate DecodedColumn(entries: seq<Value>, cards: seq<KanbanCard>)
  {
    |cards| == |entries| && forall k :: 0 <= k < |entries| ==> DecodesTo(entries[k], cards[k])
  }

  /** A card saved without metadata reloads with the same text. */
  lemma DecodeKeepsTitle(card: KanbanCard, full: bool, reloaded: KanbanCard)
    requires DecodesTo(EncodeCard(card, full), reloaded)
    ensures reloaded.text == card.text
  {
  }

  /** A well-formed card saved with its metadata reloads as exactly the same card. */
  lemma DecodeEncodedCard(card: KanbanCard, reloaded: KanbanCard)
    requires WellFormed(card)
    requires DecodesTo(EncodeCard(card, true), reloaded)
    ensures reloaded == card
  {
    var entry := EncodeCard(card, true);
    assert CoercedMetadata(entry.fields) == card.metadata;
    var m := MergedMetadata(Str(card.text), Some(card.metadata), IdText(reloaded));
    assert "id" in card.metadata;
    assert m.Keys == card.metadata.Keys;
  }

  /** Saving and reloading a column keeps its titles in order; with metadata, the cards themselves. */
  lemma ColumnRoundTrip(cards: seq<KanbanCard>, full: bool, reloaded: seq<KanbanCard>)
    requires DecodedColumn(EncodeCards(cards, full), reloaded)
    ensures |reloaded| == |cards|
    ensures forall k :: 0 <= k < |cards| ==> reloaded[k].text == cards[k].text
    ensures full && (forall k :: 0 <= k < |cards| ==> WellFormed(cards[k])) ==> reloaded == cards
  {
    forall k | 0 <= k < |cards|
      ensures reloaded[k].text == cards[k].text
      ensures full && WellFormed(cards[k]) ==> reloaded[k] == cards[k]
    {
      DecodeKeepsTitle(cards[k], full, reloaded[k]);
      if full && WellFormed(cards[k]) {
        DecodeEncodedCard(cards[k], reloaded[k]);
      }
    }
  }

  /**
   * `cards` is what `load_state` has put in a column when it raises: the
   * rebuilt cards of the entries before the first entry it cannot rebuild.
   */
  predicate PartlyDecoded(entries: seq<Value>, cards: seq<KanbanCard>)
  {
    |cards| < |entries| && DecodedColumn(entries[..|cards|], cards) && !LoadableEntry(entries[|cards|])
  }

  /**
   * Rebuilds one column's cards from its saved entries (the inner loop of
   * `load_state`): all of them, or, when an entry cannot be rebuilt, the
   * cards before it, with `raised` set.
   */
  method DecodeEntries(entries: seq<Value>, ids: UuidSource) returns (cards: seq<KanbanCard>, raised: bool)
    modifies ids
    ensures raised <==> !LoadableEntries(entries)
    ensures !raised ==> DecodedColumn(entries, cards)
    ensures raised ==> PartlyDecoded(entries, cards)
  {
    cards := [];
    var j := 0;
    while j < |entries|
      invariant 0 <= j <= |entries|
      invariant DecodedColumn(entries[..j], cards)
    {
      var card := DecodeOne(entries[j], ids);
      if card.None? {
        assert !LoadableEntry(entries[|cards|]);
        return cards, true;
      }
      DecodedColumnSnoc(entries, j, cards, card.value);
      cards := cards + [card.value];
      j := j + 1;
    }
    assert entries[..j] == entries;
    raised := false;
  }

  lemma DecodedColumnSnoc(entries: seq<Value>, j: nat, cards: seq<KanbanCard>, card: KanbanCard)
    requires j < |entries| && DecodedColumn(entries[..j], cards) && DecodesTo(entries[j], card)
    ensures DecodedColumn(entries[..j + 1], cards + [card])
  {
    assert entries[..j + 1] == entries[..j] + [entries[j]];
  }

  /**
   * One card of `load_state`: a dictionary entry passes its title and its
   * coerced metadata to the card constructor, any other entry passes itself
   * as the title; `None` when the constructor raises.
   */
  method DecodeOne(entry: Value, ids: UuidSource) returns (card: Option<KanbanCard>)
    modifies ids
    ensures card.Some? <==> LoadableEntry(entry)
    ensures card.Some? ==> DecodesTo(entry, card.value)
  {
    var n := |ids.issued|;
    card := NewKanbanCard(EntryTitle(entry), EntryMetadata(entry), ids);
    if card.Some? {
      DecodeEntryDecodes(entry, ids.issued[n]);
    }
  }

  /** Every card rebuilt from saved entries has a colour the card constructor accepts. */
  lemma DecodedColumnColourable(entries: seq<Value>, cards: seq<KanbanCard>)
    requires DecodedColumn(entries, cards)
    ensures Colourable(cards)
  {
    forall c | c in cards ensures !RejectedColor(c.metadata) {
      var k :| 0 <= k < |cards| && cards[k] == c;
      assert DecodesTo(entries[k], c);
    }
  }

  /** A load, whether it raises or not, leaves only cards with accepted colours where there were only such cards. */
  lemma LoadedColourable(entries: seq<seq<Value>>, before: seq<seq<KanbanCard>>, after: seq<seq<KanbanCard>>, raised: bool)
    requires LoadedColumns(entries, before, after, raised)
    requires forall i :: 0 <= i < |before| ==> Colourable(before[i])
    ensures forall i :: 0 <= i < |after| ==> Colourable(after[i])
  {
    var j := FirstUnloadable(entries);
    forall i | 0 <= i < |after| ensures Colourable(after[i]) {
      if i < j {
        DecodedColumnColourable(entries[i], after[i]);
      } else if i == j {
        DecodedColumnColourable(entries[j][..|after[j]|], after[j]);
      }
    }
  }

  /** The same for `load_board`. */
  lemma LoadedFromStoreColourable(store: Store, names: seq<string>, before: seq<seq<KanbanCard>>, after: seq<seq<KanbanCard>>, raised: bool)
    requires LoadedFromStore(store, names, before, after, raised)
    requires forall i :: 0 <= i < |before| ==> Colourable(before[i])
    ensures forall i :: 0 <= i < |after| ==> Colourable(after[i])
  {
    if store.board.Some? && store.board.value != map[] {
      LoadedColourable(ColumnEntries(NormalisedBoard(store.board.value), names), before, after, raised);
    }
  }

  /** A move between columns keeps every column free of refused colours. */
  lemma MoveAcrossColourable(columns: seq<seq<KanbanCard>>, i: nat, j: nat, row: nat)
    requires i < |columns| && j < |columns| && row < |columns[i]|
    requires forall k :: 0 <= k < |columns| ==> Colourable(columns[k])
    ensures forall k :: 0 <= k < |columns| ==> Colourable(MoveAcross(columns, i, j, row)[k])
  {
    var card := columns[i][row];
    var removed := RemoveAt(columns[i], row);
    assert card in columns[i];
    forall c | c in removed ensures c in columns[i] {
      assert c in multiset(removed);
    }
    assert Colourable(removed + [card]);
    if i != j {
      assert Colourable(columns[j] + [card]);
    }
  }

  /** A permutation of a column keeps it free of refused colours. */
  lemma PermutedColourable(cards: seq<KanbanCard>, moved: seq<KanbanCard>)
    requires multiset(moved) == multiset(cards) && Colourable(cards)
    ensures Colourable(moved)
  {
    forall c | c in moved ensures c in cards {
      assert c in multiset(moved);
    }
  }

  // ---------------------------------------------------------------------------
  // Columns and the board

  /** A column's list widget: the cards it shows, in order. */
  class CardList {
    var cards: seq<KanbanCard>

    constructor ()
      ensures cards == []
    {
      cards := [];
    }

    /**
     * The refill of one column in `load_state`: the list is cleared and then
     * receives the rebuilt cards one by one, up to an entry that raises.
     */
    method Load(entries: seq<Value>, ids: UuidSource) returns (raised: bool)
      modifies this, ids
      ensures raised <==> !LoadableEntries(entries)
      ensures !raised ==> DecodedColumn(entries, cards)
      ensures raised ==> PartlyDecoded(entries, cards)
    {
      cards, raised := DecodeEntries(entries, ids);
    }
  }

  /**
   * The column loop of `load_state`: each list in turn is cleared and refilled
   * from its column's entries until one raises; the lists after it keep their cards.
   */
  method LoadLists(lists: seq<CardList>, entries: seq<seq<Value>>, ids: UuidSource) returns (raised: bool)
    requires |lists| == |entries|
    requires forall a, b :: 0 <= a < b < |lists| ==> lists[a] != lists[b]
    modifies lists, ids
    ensures LoadedColumns(entries, old(ListCards(lists)), ListCards(lists), raised)
  {
    ghost var j := FirstUnloadable(entries);
    raised := false;
    var i := 0;
    while i < |lists| && !raised
      invariant 0 <= i <= |lists|
      invariant !raised ==> i <= j
      invariant raised ==> i == j + 1 && PartlyDecoded(entries[j], lists[j].cards)
      invariant forall k :: 0 <= k < i && k != j ==> DecodedColumn(entries[k], lists[k].cards)
      invariant forall k :: i <= k < |lists| ==> lists[k].cards == old(lists[k].cards)
    {
      raised := lists[i].Load(entries[i], ids);
      i := i + 1;
    }
  }

  /** The list widget of each of `cols`. */
  function ListsOf(cols: seq<Column>): (lists: seq<CardList>)
    ensures |lists| == |cols|
    ensures forall i :: 0 <= i < |cols| ==> lists[i] == cols[i].list
  {
    seq(|cols|, i requires 0 <= i < |cols| => cols[i].list)
  }

  /** The cards each of `lists` holds. */
  function ListCards(lists: seq<CardList>): (cards: seq<seq<KanbanCard>>)
    reads lists
    ensures |cards| == |lists|
    ensures forall i :: 0 <= i < |lists| ==> cards[i] == lists[i].cards
  {
    seq(|lists|, i reads lists requires 0 <= i < |lists| => lists[i].cards)
  }

  /** A column: its name and its own list widget. */
  class Column {
    var name: string
    const list: CardList

    constructor (name: string)
      ensures this.name == name && fresh(list) && list.cards == []
    {
      this.name := name;
      list := new CardList();
    }
  }


  function NamesOf(cols: seq<Column>): (names: seq<string>)
    reads cols
    ensures |names| == |cols|
    ensures forall i :: 0 <= i < |cols| ==> names[i] == cols[i].name
  {
    seq(|cols|, i reads cols requires 0 <= i < |cols| => cols[i].name)
  }

  function CardsOf(cols: seq<Column>): (cards: seq<seq<KanbanCard>>)
    reads cols, (set c | c in cols :: c.list)
    ensures |cards| == |cols|
    ensures forall i :: 0 <= i < |cols| ==> cards[i] == cols[i].list.cards
  {
    seq(|cols|, i reads cols, (set c | c in cols :: c.list) requires 0 <= i < |cols| => cols[i].list.cards)
  }

  /** `state[col.name]` for every column, in column order (what `save_state` returns). */
  function SnapshotOf(cols: seq<Column>, full: bool): (s: BoardState)
    reads cols, (set c | c in cols :: c.list)
  {
    if cols == [] then map[]
    else
      var last := cols[|cols| - 1];
      SnapshotOf(cols[..|cols| - 1], full)[last.name := EncodeCards(last.list.cards, full)]
  }

  predicate DistinctNames(cols: seq<Column>)
    reads cols
  {
    forall i, j :: 0 <= i < j < |cols| ==> cols[i].name != cols[j].name
  }

  /** With distinct names, the snapshot holds exactly the columns, each under its own name. */
  lemma {:induction false} SnapshotOfColumns(cols: seq<Column>, full: bool)
    requires DistinctNames(cols)
    ensures forall name :: name in SnapshotOf(cols, full) <==> exists i :: 0 <= i < |cols| && cols[i].name == name
    ensures forall i :: 0 <= i < |cols| ==> SnapshotOf(cols, full)[cols[i].name] == EncodeCards(cols[i].list.cards, full)
    decreases |cols|
  {
    if cols != [] {
      var prefix := cols[..|cols| - 1];
      assert DistinctNames(prefix);
      SnapshotOfColumns(prefix, full);
      forall name ensures name in SnapshotOf(cols, full) <==> exists i :: 0 <= i < |cols| && cols[i].name == name {
        if exists i :: 0 <= i < |cols| && cols[i].name == name {
          var i :| 0 <= i < |cols| && cols[i].name == name;
          if i < |cols| - 1 {
            assert prefix[i].name == name;
          }
        }
        if name in SnapshotOf(prefix, full) {
          var i :| 0 <= i < |prefix| && prefix[i].name == name;
          assert cols[i].name == name;
        }
      }
      forall i | 0 <= i < |cols| ensures SnapshotOf(cols, full)[cols[i].name] == EncodeCards(cols[i].list.cards, full) {
        if i < |cols| - 1 {
          assert prefix[i] == cols[i];
        }
      }
    }
  }

  /** A card saved with its metadata can be rebuilt when its colour is one the card constructor accepts. */
  lemma EncodedLoadable(cards: seq<KanbanCard>)
    requires Colourable(cards)
    ensures LoadableEntries(EncodeCards(cards, true))
  {
    forall k | 0 <= k < |cards| ensures LoadableEntry(EncodeCards(cards, true)[k]) {
      var fields := EncodeCard(cards[k], true).fields;
      assert cards[k] in cards;
      assert "color" in cards[k].metadata ==> CoercedMetadata(fields)["color"] == cards[k].metadata["color"];
    }
  }

  /** A full snapshot of columns whose cards all have accepted colours can be loaded back. */
  lemma {:induction false} SnapshotOfLoadable(cols: seq<Column>)
    requires forall i :: 0 <= i < |cols| ==> Colourable(cols[i].list.cards)
    ensures LoadableState(SnapshotOf(cols, true))
    decreases |cols|
  {
    if cols != [] {
      var last := cols[|cols| - 1];
      SnapshotOfLoadable(cols[..|cols| - 1]);
      EncodedLoadable(last.list.cards);
    }
  }

  /**
   * The board's undo and redo stacks, its `_loading` guard and whether the
   * autosave timer has been started. On the widget these are plain attributes;
   * they are grouped here so that moving cards and editing them never touch them.
   */
  class EditState {
    var undoStack: seq<BoardState>
    var redoStack: seq<BoardState>
    var loading: bool
    var autosaveArmed: bool

    constructor ()
      ensures undoStack == [] && redoStack == [] && !loading && !autosaveArmed
    {
      undoStack, redoStack := [], [];
      loading, autosaveArmed := false, false;
    }

    /** The two stacks hold at most 50 snapshots between them, and every snapshot can be loaded. */
    ghost predicate Valid()
      reads this
    {
      && |undoStack| + |redoStack| <= MaxUndo
      && (forall k :: 0 <= k < |undoStack| ==> LoadableState(undoStack[k]))
      && (forall k :: 0 <= k < |redoStack| ==> LoadableState(redoStack[k]))
    }

    /** Sets or clears the `_loading` guard; the stacks stay as they are. */
    method SetLoading(on: bool)
      requires Valid()
      modifies this
      ensures Valid() && loading == on
      ensures undoStack == old(undoStack) && redoStack == old(redoStack) && autosaveArmed == old(autosaveArmed)
    {
      loading := on;
    }

    /** The stack half of `push_undo`: append, drop the oldest past 50, clear the redo stack. */
    method Record(state: BoardState)
      requires Valid() && LoadableState(state)
      modifies this
      ensures Valid()
      ensures undoStack == Capped(old(undoStack) + [state]) && redoStack == []
      ensures loading == old(loading) && autosaveArmed == old(autosaveArmed)
    {
      var stack := undoStack + [state];
      if |stack| > MaxUndo {
        stack := stack[1..];
      }
      undoStack, redoStack := stack, [];
    }

    /**
     * The stack half of `undo` (and, with `toRedo` false, of `redo`): `current`
     * goes onto one stack and the last snapshot comes off the other.
     */
    method Swap(current: BoardState, toRedo: bool) returns (state: BoardState)
      requires Valid() && LoadableState(current)
      requires if toRedo then undoStack != [] else redoStack != []
      modifies this
      ensures Valid() && LoadableState(state)
      ensures loading == old(loading) && autosaveArmed == old(autosaveArmed)
      ensures toRedo ==> && state == old(undoStack[|undoStack| - 1])
                         && undoStack == old(undoStack[..|undoStack| - 1])
                         && redoStack == old(redoStack) + [current]
      ensures !toRedo ==> && state == old(redoStack[|redoStack| - 1])
                          && redoStack == old(redoStack[..|redoStack| - 1])
                          && undoStack == old(undoStack) + [current]
    {
      if toRedo {
        state := undoStack[|undoStack| - 1];
        redoStack, undoStack := redoStack + [current], undoStack[..|undoStack| - 1];
      } else {
        state := redoStack[|redoStack| - 1];
        undoStack, redoStack := undoStack + [current], redoStack[..|redoStack| - 1];
      }
    }
  }

  class Board {
    var columns: seq<Column>
    var columnMap: map<string, Column>
    const edits: EditState
    /** Stands in for `uuid.uuid4()` when cards are rebuilt. */
    const ids: UuidSource

    /**
     * The board invariant: the columns (and their list widgets) are distinct,
     * the map sends each column's name to it and has no other entries, and the
     * undo and redo stacks are valid. Every card on the board has a colour
     * the card constructor accepts, so that its snapshots can be loaded back.
     */
    ghost predicate Valid()
      reads this, columns, edits, (set c | c in columns :: c.list)
    {
      ColumnsValid() && CardsColourable() && edits.Valid()
    }

    ghost predicate CardsColourable()
      reads this, columns, (set c | c in columns :: c.list)
    {
      forall i :: 0 <= i < |columns| ==> Colourable(columns[i].list.cards)
    }

    ghost predicate ColumnsValid()
      reads this, columns
    {
      && (forall i, j :: 0 <= i < j < |columns| ==> columns[i] != columns[j] && columns[i].list != columns[j].list)
      && (forall i :: 0 <= i < |columns| ==> columns[i].name in columnMap && columnMap[columns[i].name] == columns[i])
      && (forall name :: name in columnMap ==> columnMap[name] in columns && columnMap[name].name == name)
    }

    lemma ValidDistinctNames()
      requires ColumnsValid()
      ensures DistinctNames(columns)
    {
      forall i, j | 0 <= i < j < |columns| ensures columns[i].name != columns[j].name {
        assert columnMap[columns[i].name] == columns[i];
        assert columnMap[columns[j].name] == columns[j];
      }
    }

    /** The names of the columns, in order. */
    function Names(): (names: seq<string>)
      reads this, columns
      ensures |names| == |columns|
      ensures forall i :: 0 <= i < |columns| ==> names[i] == columns[i].name
    {
      NamesOf(columns)
    }

    /** The cards of each column, in order. */
    function Cards(): (cards: seq<seq<KanbanCard>>)
      reads this, columns, (set c | c in columns :: c.list)
      ensures |cards| == |columns|
      ensures forall i :: 0 <= i < |columns| ==> cards[i] == columns[i].list.cards
    {
      CardsOf(columns)
    }

    /** The cards of the columns are those of their list widgets. */
    lemma CardsOfLists()
      ensures Cards() == ListCards(ListsOf(columns))
    {
    }

    /** `save_state(full)` as a value. */
    function Snapshot(full: bool): BoardState
      reads this, columns, (set c | c in columns :: c.list)
    {
      SnapshotOf(columns, full)
    }

    lemma SnapshotColumns(full: bool)
      requires ColumnsValid()
      ensures forall name :: name in Snapshot(full) <==> name in columnMap
      ensures forall i :: 0 <= i < |columns| ==> Snapshot(full)[columns[i].name] == EncodeCards(columns[i].list.cards, full)
    {
      ValidDistinctNames();
      SnapshotOfColumns(columns, full);
      forall name | name in columnMap ensures exists i :: 0 <= i < |columns| && columns[i].name == name {
        var i :| 0 <= i < |columns| && columns[i] == columnMap[name];
      }
    }

    /**
     * `__init__`: empty stacks, the default columns, then `load_board`. When
     * `load_state` raises on the stored board, the exception leaves `__init__`
     * and no board is returned; the model's board is the one left behind, with
     * `_loading` still set, so `edits.loading` tells the two outcomes apart.
     */
    constructor (store: Store)
      ensures Valid() && fresh(ids) && fresh(edits)
      ensures |columns| == |InitialColumns|
      ensures forall i :: 0 <= i < |columns| ==> columns[i].name == InitialColumns[i]
      ensures edits.undoStack == [] && edits.redoStack == [] && !edits.autosaveArmed
      ensures LoadedFromStore(store, InitialColumns, [[], [], []], Cards(), edits.loading)
    {
      columns := [];
      columnMap := map[];
      edits := new EditState();
      ids := new UuidSource();
      new;
      InitColumns();
      LoadInitialBoard(store);
    }

    /** The `load_board` that ends `__init__`, on the three empty default columns. */
    method LoadInitialBoard(store: Store)
      requires Valid() && |columns| == |InitialColumns|
      requires forall i :: 0 <= i < |columns| ==> columns[i].name == InitialColumns[i] && columns[i].list.cards == []
      requires edits.undoStack == [] && edits.redoStack == [] && !edits.loading && !edits.autosaveArmed
      modifies edits, (set c | c in columns :: c.list), ids
      ensures Valid() && |columns| == |InitialColumns|
      ensures forall i :: 0 <= i < |columns| ==> columns[i].name == InitialColumns[i]
      ensures edits.undoStack == [] && edits.redoStack == [] && !edits.autosaveArmed
      ensures LoadedFromStore(store, InitialColumns, [[], [], []], Cards(), edits.loading)
    {
      ghost var lists := ListsOf(columns);
      assert NamesOf(columns) == InitialColumns;
      assert ListCards(lists) == [[], [], []];
      var raised := LoadBoard(store);
      CardsOfLists();
    }

    /** `_init_columns`: "To Do", "In Progress" and "Done", each empty. */
    method InitColumns()
      requires columns == [] && columnMap == map[] && edits.Valid()
      modifies this
      ensures Valid()
      ensures |columns| == |InitialColumns|
      ensures forall i :: 0 <= i < |columns| ==> columns[i].name == InitialColumns[i] && columns[i].list.cards == []
      ensures forall i :: 0 <= i < |columns| ==> fresh(columns[i]) && fresh(columns[i].list)
    {
      var todo := new Column(InitialColumns[0]);
      var doing := new Column(InitialColumns[1]);
      var done := new Column(InitialColumns[2]);
      assert |InitialColumns[0]| == 5 && |InitialColumns[1]| == 11 && |InitialColumns[2]| == 4;
      columns := [todo, doing, done];
      columnMap := map[InitialColumns[0] := todo, InitialColumns[1] := doing, InitialColumns[2] := done];
    }

    /** `trigger_autosave`: starts the timer unless the board is loading. */
    method TriggerAutosave()
      requires Valid()
      modifies edits
      ensures Valid()
      ensures edits.autosaveArmed == (old(edits.autosaveArmed) || !edits.loading)
      ensures edits.undoStack == old(edits.undoStack) && edits.redoStack == old(edits.redoStack)
      ensures edits.loading == old(edits.loading)
    {
      if edits.loading {
        return;
      }
      edits.autosaveArmed := true;
    }

    /** `save_state`. */
    method SaveState(full: bool) returns (state: BoardState)
      ensures state == Snapshot(full)
    {
      state := map[];
      var i := 0;
      while i < |columns|
        invariant 0 <= i <= |columns|
        invariant state == SnapshotOf(columns[..i], full)
      {
        var col := columns[i];
        var encoded: seq<Value> := [];
        var j := 0;
        while j < |col.list.cards|
          invariant 0 <= j <= |col.list.cards|
          invariant encoded == EncodeCards(col.list.cards[..j], full)
        {
          encoded := encoded + [EncodeCard(col.list.cards[j], full)];
          j := j + 1;
        }
        assert col.list.cards[..j] == col.list.cards;
        assert columns[..i + 1][..i] == columns[..i];
        state := state[col.name := encoded];
        i := i + 1;
      }
      assert columns[..i] == columns;
    }

    /**
     * `load_state`: column by column, the column is emptied and refilled
     * from its entry in `state`. At the first entry whose card cannot be
     * built it raises: the columns before are reloaded, this one holds the
     * cards rebuilt so far, and the later ones keep their cards.
     */
    method LoadState(state: BoardState) returns (raised: bool)
      requires ColumnsValid()
      modifies (set c | c in columns :: c.list), ids
      ensures LoadedColumns(ColumnEntries(state, old(NamesOf(columns))), old(ListCards(ListsOf(columns))), ListCards(old(ListsOf(columns))), raised)
    {
      var entries := ColumnEntries(state, NamesOf(columns));
      raised := LoadLists(ListsOf(columns), entries, ids);
    }

    /**
     * `load_state` on a snapshot `save_state` took, every entry of which can be
     * rebuilt: nothing raises and every column is rebuilt from its entry.
     */
    method LoadSnapshot(state: BoardState)
      requires ColumnsValid() && LoadableState(state)
      modifies (set c | c in columns :: c.list), ids
      ensures forall i :: 0 <= i < |columns| ==> DecodedColumn(EntriesFor(state, columns[i].name), columns[i].list.cards)
      ensures CardsColourable()
    {
      ghost var names := NamesOf(columns);
      ghost var lists := ListsOf(columns);
      ghost var before := ListCards(lists);
      LoadableStateLoads(state, names);
      var raised := LoadState(state);
      LoadedWithoutRaise(ColumnEntries(state, names), before, ListCards(lists));
      forall i | 0 <= i < |columns|
        ensures DecodedColumn(EntriesFor(state, columns[i].name), columns[i].list.cards)
      {
        assert columns[i].name == names[i] && columns[i].list == lists[i];
      }
      ColourableLists(lists);
    }

    /**
     * `load_board`: load the stored board under the `_loading` guard. When
     * `load_state` raises, the exception leaves `_loading` set. The source sets
     * the guard before `load_state`; nothing here reads it in between, so the
     * model writes it once, to the value `load_board` leaves.
     */
    method LoadBoard(store: Store) returns (raised: bool)
      requires Valid() && !edits.loading
      modifies edits, (set c | c in columns :: c.list), ids
      ensures Valid() && edits.loading == raised
      ensures edits.undoStack == old(edits.undoStack) && edits.redoStack == old(edits.redoStack)
      ensures edits.autosaveArmed == old(edits.autosaveArmed)
      ensures LoadedFromStore(store, old(NamesOf(columns)), old(ListCards(ListsOf(columns))), ListCards(old(ListsOf(columns))), raised)
    {
      ghost var lists := ListsOf(columns);
      ghost var names := NamesOf(columns);
      ghost var before := ListCards(lists);
      raised := LoadStored(store);
      ghost var after := ListCards(lists);
      assert LoadedFromStore(store, names, before, after, raised);
      SetLoading(raised);
      assert ListCards(lists) == after;
    }

    /** Sets or clears the `_loading` guard. */
    method SetLoading(on: bool)
      requires Valid()
      modifies edits
      ensures Valid() && edits.loading == on
      ensures edits.undoStack == old(edits.undoStack) && edits.redoStack == old(edits.redoStack)
      ensures edits.autosaveArmed == old(edits.autosaveArmed)
    {
      edits.SetLoading(on);
    }

    /** What `load_board` does under the `_loading` guard: `load_state` on a non-empty stored board. */
    method LoadStored(store: Store) returns (raised: bool)
      requires ColumnsValid() && CardsColourable()
      modifies (set c | c in columns :: c.list), ids
      ensures ColumnsValid() && CardsColourable()
      ensures LoadedFromStore(store, old(NamesOf(columns)), old(ListCards(ListsOf(columns))), ListCards(old(ListsOf(columns))), raised)
    {
      ghost var lists := ListsOf(columns);
      ghost var before := ListCards(lists);
      ghost var names := NamesOf(columns);
      ColourableLists(lists);
      var state := LoadKanbanBoard(store);
      assert ListCards(lists) == before && NamesOf(columns) == names;
      if state == map[] {
        return false;
      }
      raised := LoadState(state);
      LoadedStoreColourable(store, names, before, lists, raised);
    }

    /** After `load_board`, whether it raised or not, every card on the board has an accepted colour again. */
    lemma LoadedStoreColourable(store: Store, names: seq<string>, before: seq<seq<KanbanCard>>, lists: seq<CardList>, raised: bool)
      requires lists == ListsOf(columns)
      requires forall i :: 0 <= i < |before| ==> Colourable(before[i])
      requires LoadedFromStore(store, names, before, ListCards(lists), raised)
      ensures CardsColourable()
    {
      LoadedFromStoreColourable(store, names, before, ListCards(lists), raised);
      ColourableLists(lists);
    }

    /** The colour part of the invariant, read off the cards of the column lists. */
    lemma ColourableLists(lists: seq<CardList>)
      requires lists == ListsOf(columns)
      ensures CardsColourable() <==> forall i :: 0 <= i < |lists| ==> Colourable(ListCards(lists)[i])
    {
      forall i | 0 <= i < |columns| ensures ListCards(lists)[i] == columns[i].list.cards {
      }
    }

    /** `push_undo`: snapshot the board before a change, unless it is loading. */
    method PushUndo()
      requires Valid()
      modifies edits
      ensures Valid()
      ensures edits.loading == old(edits.loading) && edits.autosaveArmed == old(edits.autosaveArmed)
      ensures edits.loading ==> edits.undoStack == old(edits.undoStack) && edits.redoStack == old(edits.redoStack)
      ensures !edits.loading ==>
                edits.undoStack == Capped(old(edits.undoStack) + [old(Snapshot(true))]) && edits.redoStack == []
    {
      if edits.loading {
        return;
      }
      var state := SaveState(true);
      SnapshotOfLoadable(columns);
      edits.Record(state);
    }

    /**
     * The stack half of `undo` (and, with the stacks swapped, of `redo`):
     * the current board goes onto one stack and the last snapshot comes off the other.
     */
    method SwapSnapshot(toRedo: bool) returns (state: BoardState)
      requires Valid()
      requires if toRedo then edits.undoStack != [] else edits.redoStack != []
      modifies edits
      ensures Valid() && LoadableState(state)
      ensures edits.loading == old(edits.loading) && edits.autosaveArmed == old(edits.autosaveArmed)
      ensures toRedo ==> && state == old(edits.undoStack[|edits.undoStack| - 1])
                         && edits.undoStack == old(edits.undoStack[..|edits.undoStack| - 1])
                         && edits.redoStack == old(edits.redoStack) + [old(Snapshot(true))]
      ensures !toRedo ==> && state == old(edits.redoStack[|edits.redoStack| - 1])
                          && edits.redoStack == old(edits.redoStack[..|edits.redoStack| - 1])
                          && edits.undoStack == old(edits.undoStack) + [old(Snapshot(true))]
    {
      var current := SaveState(true);
      SnapshotOfLoadable(columns);
      state := edits.Swap(current, toRedo);
    }

    /** `undo`: the current board goes onto the redo stack, the last snapshot is loaded. */
    method Undo()
      requires Valid()
      modifies edits, (set c | c in columns :: c.list), ids
      ensures Valid() && edits.loading == old(edits.loading)
      ensures old(edits.undoStack) == [] ==> unchanged(edits) && Cards() == old(Cards())
      ensures old(edits.undoStack) != [] ==>
                && edits.undoStack == old(edits.undoStack[..|edits.undoStack| - 1])
                && edits.redoStack == old(edits.redoStack) + [old(Snapshot(true))]
                && edits.autosaveArmed == (old(edits.autosaveArmed) || !edits.loading)
                && forall i :: 0 <= i < |columns| ==>
                     DecodedColumn(EntriesFor(old(edits.undoStack[|edits.undoStack| - 1]), columns[i].name), columns[i].list.cards)
    {
      if edits.undoStack == [] {
        return;
      }
      var state := SwapSnapshot(true);
      LoadSnapshot(state);
      TriggerAutosave();
    }

    /** `redo`: the current board goes onto the undo stack, the last undone snapshot is loaded. */
    method Redo()
      requires Valid()
      modifies edits, (set c | c in columns :: c.list), ids
      ensures Valid() && edits.loading == old(edits.loading)
      ensures old(edits.redoStack) == [] ==> unchanged(edits) && Cards() == old(Cards())
      ensures old(edits.redoStack) != [] ==>
                && edits.redoStack == old(edits.redoStack[..|edits.redoStack| - 1])
                && edits.undoStack == old(edits.undoStack) + [old(Snapshot(true))]
                && edits.autosaveArmed == (old(edits.autosaveArmed) || !edits.loading)
                && forall i :: 0 <= i < |columns| ==>
                     DecodedColumn(EntriesFor(old(edits.redoStack[|edits.redoStack| - 1]), columns[i].name), columns[i].list.cards)
    {
      if edits.redoStack == [] {
        return;
      }
      var state := SwapSnapshot(false);
      LoadSnapshot(state);
      TriggerAutosave();
    }

    /**
     * What `push_undo` followed by `trigger_autosave` does around an edit:
     * unless the board is loading, the board as it was goes onto the undo stack
     * (capped at 50), the redo stack is cleared and the autosave timer is started.
     */
    twostate predicate EditRecorded()
      reads this, edits
    {
      && edits.loading == old(edits.loading)
      && edits.autosaveArmed == (old(edits.autosaveArmed) || !edits.loading)
      && (edits.loading ==> edits.undoStack == old(edits.undoStack) && edits.redoStack == old(edits.redoStack))
      && (!edits.loading ==> edits.undoStack == Capped(old(edits.undoStack) + [old(Snapshot(true))]) && edits.redoStack == [])
    }

    /** The position of the column called `name`. */
    ghost function IndexOf(name: string): (i: nat)
      reads this, columns
      requires ColumnsValid() && name in columnMap
      ensures i < |columns| && columns[i] == columnMap[name]
    {
      var i :| 0 <= i < |columns| && columns[i] == columnMap[name]; i
    }

    /** Column `i`'s cards replaced, bracketed by `push_undo` and `trigger_autosave`. */
    method RecordedEdit(col: Column, ghost i: nat, cards: seq<KanbanCard>)
      requires Valid() && i < |columns| && columns[i] == col && Colourable(cards)
      modifies edits, col.list
      ensures Valid() && EditRecorded()
      ensures Cards() == old(Cards()[i := cards])
    {
      ghost var expected := Cards()[i := cards];
      PushUndo();
      label pushed:
      col.list.cards := cards;
      assert unchanged@pushed(this, edits) && unchanged@pushed(columns);
      TriggerAutosave();
      forall k | 0 <= k < |columns| ensures columns[k].list.cards == expected[k] {
        if k != i {
          assert columns[k].list != col.list;
        }
      }
    }

    /** `move_card_within_column`. */
    method MoveWithinColumn(name: string, fromRow: int, toRow: int) returns (ok: bool)
      requires Valid()
      modifies edits, (set c | c in columns :: c.list)
      ensures Valid()
      ensures ok <==> name in columnMap && 0 <= fromRow < |old(columnMap[name].list.cards)| && 0 <= toRow < |old(columnMap[name].list.cards)|
      ensures !ok ==> Cards() == old(Cards()) && unchanged(edits)
      ensures ok ==> Cards() == old(MoveWithin(Cards(), IndexOf(name), fromRow, toRow)) && EditRecorded()
    {
      if name !in columnMap {
        return false;
      }
      var col := columnMap[name];
      if fromRow < 0 || fromRow >= |col.list.cards| || toRow < 0 || toRow >= |col.list.cards| {
        return false;
      }
      PermutedColourable(col.list.cards, MoveItem(col.list.cards, fromRow, toRow));
      RecordedEdit(col, IndexOf(name), MoveItem(col.list.cards, fromRow, toRow));
      ok := true;
    }

    /** The two list updates of `move_card_between_columns`, bracketed by `push_undo` and `trigger_autosave`. */
    method RecordedTransfer(source: Column, target: Column, ghost i: nat, ghost j: nat, row: nat)
      requires Valid() && i < |columns| && j < |columns| && columns[i] == source && columns[j] == target
      requires row < |source.list.cards|
      modifies edits, source.list, target.list
      ensures Valid() && EditRecorded()
      ensures Cards() == old(MoveAcross(Cards(), i, j, row))
    {
      ghost var lists := ListsOf(columns);
      ghost var before := ListCards(lists);
      CardsOfLists();
      PushUndo();
      assert ListCards(lists) == before;
      TransferSaved(source, target, i, j, row);
      CardsOfLists();
    }

    /** The list updates of `move_card_between_columns` and the `trigger_autosave` after them. */
    method TransferSaved(source: Column, target: Column, ghost i: nat, ghost j: nat, row: nat)
      requires Valid() && i < |columns| && j < |columns| && columns[i] == source && columns[j] == target
      requires row < |source.list.cards|
      modifies edits, source.list, target.list
      ensures Valid()
      ensures edits.autosaveArmed == (old(edits.autosaveArmed) || !edits.loading)
      ensures edits.undoStack == old(edits.undoStack) && edits.redoStack == old(edits.redoStack)
      ensures edits.loading == old(edits.loading)
      ensures ListCards(old(ListsOf(columns))) == MoveAcross(old(ListCards(ListsOf(columns))), i, j, row)
    {
      ghost var lists := ListsOf(columns);
      MoveAcrossColourable(ListCards(lists), i, j, row);
      Transfer(source, target, i, j, row);
      ghost var after := ListCards(lists);
      ColourableLists(lists);
      TriggerAutosave();
      assert ListCards(lists) == after;
    }

    /** The two list updates: the card leaves the source column and goes to the end of the target. */
    method Transfer(source: Column, target: Column, ghost i: nat, ghost j: nat, row: nat)
      requires ColumnsValid() && i < |columns| && j < |columns| && columns[i] == source && columns[j] == target
      requires row < |source.list.cards|
      modifies source.list, target.list
      ensures ListCards(old(ListsOf(columns))) == MoveAcross(old(ListCards(ListsOf(columns))), i, j, row)
    {
      ghost var lists := ListsOf(columns);
      ghost var expected := MoveAcross(ListCards(lists), i, j, row);
      var card := source.list.cards[row];
      source.list.cards := RemoveAt(source.list.cards, row);
      target.list.cards := target.list.cards + [card];
      forall k | 0 <= k < |lists| ensures lists[k].cards == expected[k] {
        if k != i && k != j {
          assert lists[k] != source.list && lists[k] != target.list;
        }
      }
    }

    /** `move_card_between_columns`: the card goes to the end of the target column. */
    method MoveBetweenColumns(fromName: string, toName: string, row: int) returns (ok: bool)
      requires Valid()
      modifies edits, (set c | c in columns :: c.list)
      ensures Valid()
      ensures ok <==> fromName in columnMap && toName in columnMap && 0 <= row < |old(columnMap[fromName].list.cards)|
      ensures !ok ==> Cards() == old(Cards()) && unchanged(edits)
      ensures ok ==> Cards() == old(MoveAcross(Cards(), IndexOf(fromName), IndexOf(toName), row)) && EditRecorded()
    {
      if fromName !in columnMap || toName !in columnMap {
        return false;
      }
      var source := columnMap[fromName];
      var target := columnMap[toName];
      if row < 0 || row >= |source.list.cards| {
        return false;
      }
      RecordedTransfer(source, target, IndexOf(fromName), IndexOf(toName), row);
      ok := true;
    }

    /** `add_column`: a new empty column at the end, unless the name is taken. */
    method AddColumn(title: string)
      requires Valid()
      modifies this
      ensures Valid()
      ensures title in old(columnMap) ==> columns == old(columns) && columnMap == old(columnMap)
      ensures title !in old(columnMap) ==>
                && |columns| == |old(columns)| + 1 && columns[..|old(columns)|] == old(columns)
                && fresh(columns[|old(columns)|])
                && columns[|old(columns)|].name == title && columns[|old(columns)|].list.cards == []
                && columnMap == old(columnMap)[title := columns[|old(columns)|]]
    {
      if title in columnMap {
        return;
      }
      var col := new Column(title);
      columns := columns + [col];
      columnMap := columnMap[title := col];
    }

    /** `rename_column`: the same column, with its cards, under a new name. */
    method RenameColumn(oldTitle: string, newTitle: string)
      requires Valid()
      modifies this, columns
      ensures Valid() && columns == old(columns) && Cards() == old(Cards())
      ensures oldTitle !in old(columnMap) || newTitle in old(columnMap) ==>
                columnMap == old(columnMap) && Names() == old(Names())
      ensures oldTitle in old(columnMap) && newTitle !in old(columnMap) ==>
                && newTitle in columnMap && oldTitle !in columnMap
                && columnMap[newTitle] == old(columnMap[oldTitle])
                && columnMap.Keys == old(columnMap.Keys) - {oldTitle} + {newTitle}
                && (forall i :: 0 <= i < |columns| ==>
                      columns[i].name == if old(columns[i].name) == oldTitle then newTitle else old(columns[i].name))
    {
      if oldTitle !in columnMap || newTitle in columnMap {
        return;
      }
      CardsOfLists();
      Rename(oldTitle, newTitle);
      CardsOfLists();
    }

    /** The renaming itself: the column's name and its key in the map change together. */
    method Rename(oldTitle: string, newTitle: string)
      requires Valid() && oldTitle in columnMap && newTitle !in columnMap
      modifies this, columns
      ensures Valid() && columns == old(columns)
      ensures newTitle in columnMap && oldTitle !in columnMap
      ensures columnMap[newTitle] == old(columnMap[oldTitle])
      ensures columnMap.Keys == old(columnMap.Keys) - {oldTitle} + {newTitle}
      ensures forall i :: 0 <= i < |columns| ==>
                columns[i].name == if old(columns[i].name) == oldTitle then newTitle else old(columns[i].name)
    {
      var col := columnMap[oldTitle];
      ValidDistinctNames();
      col.name := newTitle;
      columnMap := columnMap[newTitle := col] - {oldTitle};
    }

    /** `delete_column`: on confirmation the column leaves both the list and the map. */
    method DeleteColumn(title: string, confirmed: bool)
      requires Valid()
      modifies this
      ensures Valid()
      ensures title !in old(columnMap) || !confirmed ==> columns == old(columns) && columnMap == old(columnMap)
      ensures title in old(columnMap) && confirmed ==>
                && columns == Without(old(columns), old(columnMap[title]))
                && columnMap == old(columnMap) - {title}
    {
      if title !in columnMap {
        return;
      }
      var col := columnMap[title];
      if !confirmed {
        return;
      }
      WithoutColourable(columns, col);
      columns := Without(columns, col);
      columnMap := columnMap - {title};
    }

    /** Ctrl+Up / Ctrl+Down on the focused column: the current card moves one row. */
    method KeyMoveVertical(focus: nat, currentRow: int, up: bool)
      requires Valid() && focus < |columns| && -1 <= currentRow < |columns[focus].list.cards|
      modifies edits, (set c | c in columns :: c.list)
      ensures Valid()
      ensures var target := if up then currentRow - 1 else currentRow + 1;
              if currentRow != -1 && 0 <= target < |old(columns[focus].list.cards)| then
                Cards() == old(MoveWithin(Cards(), focus, currentRow, target)) && EditRecorded()
              else Cards() == old(Cards()) && unchanged(edits)
    {
      if currentRow == -1 {
        return;
      }
      var target := if up then currentRow - 1 else currentRow + 1;
      if 0 <= target < |columns[focus].list.cards| {
        PermutedColourable(columns[focus].list.cards, MoveItem(columns[focus].list.cards, currentRow, target));
        RecordedEdit(columns[focus], focus, MoveItem(columns[focus].list.cards, currentRow, target));
      }
    }

    /** Ctrl+Left / Ctrl+Right on the focused column: the current card goes to the end of the neighbour. */
    method KeyMoveHorizontal(focus: nat, currentRow: int, left: bool)
      requires Valid() && focus < |columns| && -1 <= currentRow < |columns[focus].list.cards|
      modifies edits, (set c | c in columns :: c.list)
      ensures Valid()
      ensures var target := if left then focus - 1 else focus + 1;
              if currentRow != -1 && 0 <= target < |columns| then
                Cards() == old(MoveAcross(Cards(), focus, target, currentRow)) && EditRecorded()
              else Cards() == old(Cards()) && unchanged(edits)
    {
      if currentRow == -1 {
        return;
      }
      var target := if left then focus - 1 else focus + 1;
      if 0 <= target < |columns| {
        RecordedTransfer(columns[focus], columns[target], focus, target, currentRow);
      }
    }
  }

  /** The undo stack after a push: its oldest snapshot dropped once it holds more than 50. */
  function Capped(stack: seq<BoardState>): (r: seq<BoardState>)
    ensures |stack| <= MaxUndo + 1 ==> |r| <= MaxUndo
    ensures r == stack || (|stack| > MaxUndo && r == stack[1..])
  {
    if |stack| > MaxUndo then stack[1..] else stack
  }

  /** Dropping a column leaves columns whose cards all have accepted colours when they all had. */
  lemma WithoutColourable(cols: seq<Column>, col: Column)
    requires forall i :: 0 <= i < |cols| ==> Colourable(cols[i].list.cards)
    ensures forall i :: 0 <= i < |Without(cols, col)| ==> Colourable(Without(cols, col)[i].list.cards)
  {
    var r := Without(cols, col);
    forall i | 0 <= i < |r| ensures Colourable(r[i].list.cards) {
      var k :| 0 <= k < |cols| && cols[k] == r[i];
    }
  }

  /** `[c for c in cols if c != col]`. */
  function Without(cols: seq<Column>, col: Column): (r: seq<Column>)
    ensures forall i :: 0 <= i < |r| ==> r[i] in cols && r[i] != col
    ensures forall i :: 0 <= i < |cols| && cols[i] != col ==> cols[i] in r
    ensures (forall i, j :: 0 <= i < j < |cols| ==> cols[i] != cols[j]) ==>
              forall i, j :: 0 <= i < j < |r| ==> r[i] != r[j]
  {
    if cols == [] then []
    else
      var rest := Without(cols[1..], col);
      if cols[0] == col then rest
      else
        [cols[0]] + rest
  }

  /** Tab / Backtab: focus moves to column (i ± 1) mod n. */
  function TabTarget(i: nat, n: nat, backward: bool): (j: nat)
    requires i < n
    ensures j < n
    ensures !backward ==> j == if i + 1 == n then 0 else i + 1
    ensures backward ==> j == if i == 0 then n - 1 else i - 1
  {
    var k := if backward then i - 1 else i + 1;
    WrapAround(k, n);
    k % n
  }

  /** Python's `%` on a step of one past either end of `0 .. n - 1`. */
  lemma WrapAround(k: int, n: nat)
    requires n > 0 && -1 <= k <= n
    ensures k % n == if k == n then 0 else if k == -1 then n - 1 else k
  {
    if k == n {
      assert k == n * 1 + 0;
    } else if k == -1 {
      assert k == n * -1 + (n - 1);
    } else {
      assert k == n * 0 + k;
    }
  }

  /** Tab followed by Backtab (or the other way round) returns to the same column. */
  lemma TabBacktabInverse(i: nat, n: nat, backward: bool)
    requires i < n
    ensures TabTarget(TabTarget(i, n, backward), n, !backward) == i
  {
  }
}
