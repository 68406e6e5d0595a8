// Persistence of the kanban board (GUI/storage/kanban_store.py): the board
// file, its normalisation on load, and the timestamped history copies.

module KanbanStore {
  import opened Json
  import opened Text
  import opened KanbanModels

  /** The saved board: each column name with its list of cards. */
  type BoardState = map<string, seq<Value>>

  // ---------------------------------------------------------------------------
  // Normalisation on load

  /** The card dictionary already has a metadata dictionary holding a list of links. */
  predicate HasLinkList(card: map<string, Value>)
  {
    "metadata" in card && card["metadata"].Obj? && "links" in card["metadata"].fields
    && card["metadata"].fields["links"].Arr?
  }

  /**
   * A card dictionary's metadata after normalisation: a dictionary (an empty
   * one when it was missing or not a dictionary) whose `links` is a list
   * (an empty one when it was missing or not a list).
   */
  function CoercedMetadata(card: map<string, Value>): (m: Metadata)
    ensures "links" in m && m["links"].Arr?
    ensures "metadata" in card && card["metadata"].Obj? ==>
              forall k :: k in card["metadata"].fields && k != "links" ==>
                k in m && m[k] == card["metadata"].fields[k]
    ensures forall k :: k in m && k != "links" ==>
              "metadata" in card && card["metadata"].Obj? && k in card["metadata"].fields
    ensures HasLinkList(card) ==> m == card["metadata"].fields
    ensures !HasLinkList(card) ==> m["links"] == Arr([])
  {
    var meta := if "metadata" in card && card["metadata"].Obj? then card["metadata"].fields else map[];
    if "links" in meta && meta["links"].Arr? then meta else meta["links" := Arr([])]
  }

  /** One saved card after normalisation: dictionaries get coerced metadata, anything else is left alone. */
  function NormalisedCard(card: Value): (r: Value)
    ensures !card.Obj? ==> r == card
    ensures card.Obj? ==> r.Obj? && r.fields.Keys == card.fields.Keys + {"metadata"}
    ensures card.Obj? ==> r.fields["metadata"] == Obj(CoercedMetadata(card.fields))
    ensures card.Obj? ==> forall k :: k in card.fields && k != "metadata" ==> r.fields[k] == card.fields[k]
  {
    match card
    case Obj(fields) => Obj(fields["metadata" := Obj(CoercedMetadata(fields))])
    case _ => card
  }

  /** Normalising twice changes nothing more than normalising once. */
  lemma NormalisedCardIdempotent(card: Value)
    ensures NormalisedCard(NormalisedCard(card)) == NormalisedCard(card)
  {
    if card.Obj? {
      var once := NormalisedCard(card);
      assert CoercedMetadata(once.fields) == CoercedMetadata(card.fields);
    }
  }

  function NormalisedCards(cards: seq<Value>): (r: seq<Value>)
    ensures |r| == |cards|
    ensures forall i :: 0 <= i < |cards| ==> r[i] == NormalisedCard(cards[i])
  {
    seq(|cards|, i requires 0 <= i < |cards| => NormalisedCard(cards[i]))
  }

  function NormalisedBoard(data: BoardState): (r: BoardState)
    ensures r.Keys == data.Keys
    ensures forall name :: name in data ==> r[name] == NormalisedCards(data[name])
    ensures r == map[] <==> data == map[]
  {
    var r := map name | name in data :: NormalisedCards(data[name]);
    assert data == map[] ==> r.Keys == {};
    assert r == map[] ==> data.Keys == {};
    r
  }

  lemma NormalisedBoardIdempotent(data: BoardState)
    ensures NormalisedBoard(NormalisedBoard(data)) == NormalisedBoard(data)
  {
    var once := NormalisedBoard(data);
    forall name | name in data
      ensures NormalisedCards(once[name]) == once[name]
    {
      forall i | 0 <= i < |once[name]|
        ensures NormalisedCard(once[name][i]) == once[name][i]
      {
        NormalisedCardIdempotent(data[name][i]);
      }
    }
  }

  /** The inner loop of `load_kanban_board`: each card of one column, in place. */
  method NormaliseCards(cards: seq<Value>) returns (r: seq<Value>)
    ensures r == NormalisedCards(cards)
  {
    r := cards;
    var i := 0;
    while i < |r|
      invariant 0 <= i <= |r| && |r| == |cards|
      invariant forall j :: 0 <= j < i ==> r[j] == NormalisedCard(cards[j])
      invariant forall j :: i <= j < |r| ==> r[j] == cards[j]
    {
      r := r[i := NormalisedCard(r[i])];
      i := i + 1;
    }
  }

  /** The loop of `load_kanban_board` over every column. */
  method NormaliseBoard(data: BoardState) returns (r: BoardState)
    ensures r == NormalisedBoard(data)
  {
    r := data;
    var pending := data.Keys;
    while pending != {}
      invariant pending <= data.Keys && r.Keys == data.Keys
      invariant forall name :: name in pending ==> r[name] == data[name]
      invariant forall name :: name in data && name !in pending ==> r[name] == NormalisedCards(data[name])
      decreases pending
    {
      var name :| name in pending;
      var cards := NormaliseCards(r[name]);
      r := r[name := cards];
      pending := pending - {name};
    }
  }

  // ---------------------------------------------------------------------------
  // Files: the board file and the history directory

  /** What is on disk: the board file (if any) and the history copies by file name. */
  datatype Store = Store(board: Option<BoardState>, historyDir: bool, history: map<string, BoardState>)

  /** `load_kanban_board`: the normalised board, or an empty board when there is no file. */
  method LoadKanbanBoard(store: Store) returns (r: BoardState)
    ensures store.board.None? ==> r == map[]
    ensures store.board.Some? ==> r == NormalisedBoard(store.board.value)
  {
    if store.board.None? {
      return map[];
    }
    r := NormaliseBoard(store.board.value);
  }

  /** A local time as `datetime.now()` gives it. */
  datatype Timestamp = Timestamp(year: nat, month: nat, day: nat, hour: nat, minute: nat, second: nat)

  predicate ValidTimestamp(t: Timestamp)
  {
    1000 <= t.year <= 9999 && 1 <= t.month <= 12 && 1 <= t.day <= 31
    && t.hour < 24 && t.minute < 60 && t.second < 60
  }

  /** `t1` is strictly earlier than `t2`. */
  predicate Earlier(t1: Timestamp, t2: Timestamp)
  {
    if t1.year != t2.year then t1.year < t2.year
    else if t1.month != t2.month then t1.month < t2.month
    else if t1.day != t2.day then t1.day < t2.day
    else if t1.hour != t2.hour then t1.hour < t2.hour
    else if t1.minute != t2.minute then t1.minute < t2.minute
    else t1.second < t2.second
  }

  function Pow10(w: nat): (p: nat)
    ensures p >= 1
  {
    if w == 0 then 1 else 10 * Pow10(w - 1)
  }

  /** `n` written with exactly `w` digits, zero padded (`%04d`, `%02d`). */
  function Padded(n: nat, w: nat): (s: string)
    requires n < Pow10(w)
    ensures |s| == w && AllDigits(s)
  {
    if w == 0 then "" else Padded(n / 10, w - 1) + [DigitChar(n % 10)]
  }

  lemma {:induction false} PaddedOrder(a: nat, b: nat, w: nat)
    requires a < Pow10(w) && b < Pow10(w)
    ensures Padded(a, w) == Padded(b, w) <==> a == b
    ensures Less(Padded(a, w), Padded(b, w)) <==> a < b
  {
    if w > 0 {
      PaddedOrder(a / 10, b / 10, w - 1);
      var x, y := Padded(a / 10, w - 1), Padded(b / 10, w - 1);
      var c, d := DigitChar(a % 10), DigitChar(b % 10);
      assert Padded(a, w) == x + [c] && Padded(b, w) == y + [d];
      if x != y {
        LessEqualLengthPrefix(x, y, [c], [d]);
        assert Padded(a, w)[..w - 1] == x && Padded(b, w)[..w - 1] == y;
      } else {
        LessCommonPrefix(x, [c], [d]);
        DigitCharOrder(a % 10, b % 10);
        assert Padded(a, w)[w - 1] == c && Padded(b, w)[w - 1] == d;
      }
    } else {
      assert a == 0 && b == 0;
    }
  }

  lemma DigitCharOrder(a: nat, b: nat)
    requires a < 10 && b < 10
    ensures DigitChar(a) < DigitChar(b) <==> a < b
    ensures DigitChar(a) == DigitChar(b) <==> a == b
  {
  }

  function DatePart(t: Timestamp): string
    requires ValidTimestamp(t)
  {
    Padded(t.year, 4) + Padded(t.month, 2) + Padded(t.day, 2)
  }

  function TimePart(t: Timestamp): string
    requires ValidTimestamp(t)
  {
    Padded(t.hour, 2) + Padded(t.minute, 2) + Padded(t.second, 2)
  }

  /** The time stamp part of a history name, `%Y%m%d_%H%M%S`. */
  function Stamp(t: Timestamp): (s: string)
    requires ValidTimestamp(t)
    ensures |s| == 15
  {
    DatePart(t) + "_" + TimePart(t)
  }

  /** The history copy's name, `kanban_%Y%m%d_%H%M%S.json`. */
  function HistoryFileName(t: Timestamp): (name: string)
    requires ValidTimestamp(t)
    ensures StartsWith(name, "kanban_") && EndsWith(name, ".json")
    ensures |name| == 27
  {
    var name := "kanban_" + Stamp(t) + ".json";
    assert name[..7] == "kanban_";
    assert name[|name| - 5..] == ".json";
    name
  }

  /** Comparing three fixed-width fields compares the triples lexicographically. */
  lemma {:induction false} TripleOrder(a1: nat, a2: nat, a3: nat, b1: nat, b2: nat, b3: nat, w1: nat, w2: nat, w3: nat)
    requires a1 < Pow10(w1) && b1 < Pow10(w1) && a2 < Pow10(w2) && b2 < Pow10(w2) && a3 < Pow10(w3) && b3 < Pow10(w3)
    ensures var x, y := Padded(a1, w1) + Padded(a2, w2) + Padded(a3, w3), Padded(b1, w1) + Padded(b2, w2) + Padded(b3, w3);
            (x == y <==> a1 == b1 && a2 == b2 && a3 == b3)
            && (Less(x, y) <==> a1 < b1 || (a1 == b1 && (a2 < b2 || (a2 == b2 && a3 < b3))))
  {
    var p1, p2, p3 := Padded(a1, w1), Padded(a2, w2), Padded(a3, w3);
    var q1, q2, q3 := Padded(b1, w1), Padded(b2, w2), Padded(b3, w3);
    PaddedOrder(a1, b1, w1);
    PaddedOrder(a2, b2, w2);
    PaddedOrder(a3, b3, w3);
    ConcatOrder(p2, q2, p3, q3);
    ConcatOrder(p1, q1, p2 + p3, q2 + q3);
    assert p1 + p2 + p3 == p1 + (p2 + p3) && q1 + q2 + q3 == q1 + (q2 + q3);
  }

  lemma StampChronological(t1: Timestamp, t2: Timestamp)
    requires ValidTimestamp(t1) && ValidTimestamp(t2)
    ensures Less(Stamp(t1), Stamp(t2)) <==> Earlier(t1, t2)
    ensures Stamp(t1) == Stamp(t2) <==> t1 == t2
  {
    var d1, d2 := DatePart(t1), DatePart(t2);
    var s1, s2 := TimePart(t1), TimePart(t2);
    TripleOrder(t1.year, t1.month, t1.day, t2.year, t2.month, t2.day, 4, 2, 2);
    TripleOrder(t1.hour, t1.minute, t1.second, t2.hour, t2.minute, t2.second, 2, 2, 2);
    ConcatOrder(d1 + "_", d2 + "_", s1, s2);
    ConcatOrder(d1, d2, "_", "_");
  }

  /** Lexicographic order of history names is chronological order of their timestamps. */
  lemma HistoryNamesChronological(t1: Timestamp, t2: Timestamp)
    requires ValidTimestamp(t1) && ValidTimestamp(t2)
    ensures Less(HistoryFileName(t1), HistoryFileName(t2)) <==> Earlier(t1, t2)
    ensures HistoryFileName(t1) == HistoryFileName(t2) <==> t1 == t2
  {
    var s1, s2 := Stamp(t1), Stamp(t2);
    StampChronological(t1, t2);
    ConcatOrder(s1, s2, ".json", ".json");
    LessIrreflexive(".json");
    ConcatOrder("kanban_", "kanban_", s1 + ".json", s2 + ".json");
    assert HistoryFileName(t1) == "kanban_" + (s1 + ".json");
    assert HistoryFileName(t2) == "kanban_" + (s2 + ".json");
  }

  /** `save_kanban_board`: the board file and a history copy named after the time of saving. */
  function SaveKanbanBoard(store: Store, state: BoardState, now: Timestamp): (r: Store)
    requires ValidTimestamp(now)
    ensures r.board == Some(state) && r.historyDir
    ensures HistoryFileName(now) in r.history && r.history[HistoryFileName(now)] == state
    ensures forall name :: name in store.history && name != HistoryFileName(now) ==>
              name in r.history && r.history[name] == store.history[name]
  {
    Store(Some(state), true, store.history[HistoryFileName(now) := state])
  }

  /** `load_kanban_version`: a history copy by name, or an empty board when there is none. */
  function LoadKanbanVersion(store: Store, name: string): (r: BoardState)
    ensures name in store.history ==> r == store.history[name]
    ensures name !in store.history ==> r == map[]
  {
    if name in store.history then store.history[name] else map[]
  }

  /** Saving and then loading the copy just written gives back the saved board. */
  lemma SavedVersionLoads(store: Store, state: BoardState, now: Timestamp)
    requires ValidTimestamp(now)
    ensures LoadKanbanVersion(SaveKanbanBoard(store, state, now), HistoryFileName(now)) == state
  {
  }

  /** Saving and then loading the board file gives back the saved board once it is normalised. */
  lemma SavedBoardLoads(store: Store, state: BoardState, now: Timestamp)
    requires ValidTimestamp(now)
    requires NormalisedBoard(state) == state
    ensures var saved := SaveKanbanBoard(store, state, now);
            saved.board.Some? && NormalisedBoard(saved.board.value) == state
  {
  }

  // ---------------------------------------------------------------------------
  // Listing the history, newest first

  /** Sorted from greatest to least in Python's string order. */
  predicate SortedDescending(names: seq<string>)
  {
    forall i, j :: 0 <= i < j < |names| ==> !Less(names[i], names[j])
  }

  lemma NotLessTransitive(a: string, b: string, c: string)
    requires !Less(a, b) && !Less(b, c)
    ensures !Less(a, c)
  {
    LessTotal(a, b);
    LessTotal(b, c);
    if Less(b, a) && Less(c, b) {
      LessTransitive(c, b, a);
      LessAsymmetric(c, a);
    }
  }

  /** Inserts `x` into a descending list before the first element it is not less than. */
  function InsertDescending(x: string, names: seq<string>): (r: seq<string>)
    requires SortedDescending(names)
    ensures multiset(r) == multiset(names) + multiset{x}
    ensures SortedDescending(r)
  {
    if names == [] then [x]
    else if !Less(x, names[0]) then
      assert forall j :: 0 <= j < |names| ==> !Less(x, names[j]) by {
        forall j | 0 <= j < |names| ensures !Less(x, names[j]) {
          if j > 0 { NotLessTransitive(x, names[0], names[j]); }
        }
      }
      [x] + names
    else
      var rest := InsertDescending(x, names[1..]);
      assert names == [names[0]] + names[1..];
      assert forall j :: 0 <= j < |rest| ==> !Less(names[0], rest[j]) by {
        forall j | 0 <= j < |rest| ensures !Less(names[0], rest[j]) {
          assert rest[j] in multiset(rest);
          if rest[j] == x {
            LessAsymmetric(x, names[0]);
          } else {
            assert rest[j] in multiset(names[1..]);
            var k :| 0 <= k < |names[1..]| && names[1..][k] == rest[j];
            assert names[k + 1] == rest[j];
          }
        }
      }
      [names[0]] + rest
  }

  /** `files.sort(reverse=True)`. */
  function SortDescending(names: seq<string>): (r: seq<string>)
    ensures multiset(r) == multiset(names)
    ensures SortedDescending(r)
  {
    if names == [] then []
    else
      assert names == [names[0]] + names[1..];
      InsertDescending(names[0], SortDescending(names[1..]))
  }

  /** The directory entries that end with `.json`, in listing order. */
  function JsonFiles(listing: seq<string>): (r: seq<string>)
    ensures forall x :: x in r <==> x in listing && EndsWith(x, ".json")
    ensures multiset(r) <= multiset(listing)
  {
    if listing == [] then []
    else
      assert listing == [listing[0]] + listing[1..];
      (if EndsWith(listing[0], ".json") then [listing[0]] else []) + JsonFiles(listing[1..])
  }

  /** `list_kanban_versions`: the `.json` history files, greatest name first; none without a directory. */
  function ListKanbanVersions(historyDir: bool, listing: seq<string>): (r: seq<string>)
    ensures !historyDir ==> r == []
    ensures historyDir ==> multiset(r) == multiset(JsonFiles(listing))
    ensures forall x :: x in r <==> historyDir && x in listing && EndsWith(x, ".json")
    ensures SortedDescending(r)
  {
    if !historyDir then []
    else
      var r := SortDescending(JsonFiles(listing));
      assert forall x :: x in r <==> x in multiset(r);
      r
  }

  /**
   * Among history copies, the listing puts the newer of two saves first:
   * their order is reverse chronological.
   */
  lemma VersionsNewestFirst(listing: seq<string>, i: int, j: int, t1: Timestamp, t2: Timestamp)
    requires ValidTimestamp(t1) && ValidTimestamp(t2)
    requires var r := ListKanbanVersions(true, listing);
             0 <= i < j < |r| && r[i] == HistoryFileName(t1) && r[j] == HistoryFileName(t2)
    ensures !Earlier(t1, t2)
  {
    HistoryNamesChronological(t1, t2);
  }
}
