// Events and their store (GUI/storage/event_store.py). An event is
// kept as the JSON values it was built from; the store is an `IdList.Store`
// keyed by the event's id.

module EventStore {
  import opened Json
  import IdList

  datatype Event = Event(id: Value, title: Value, description: Value, metadata: Value)

  /** `Event(id, title, description="", metadata=None)`: falsy metadata becomes an empty dictionary. */
  function NewEvent(id: Value, title: Value, description: Value := Str(""), metadata: Value := Null): (c: Event)
    ensures c.id == id && c.title == title && c.description == description
    ensures Normal(c)
    ensures Truthy(metadata) ==> c.metadata == metadata
  {
    Event(id, title, description, if Truthy(metadata) then metadata else Obj(map[]))
  }

  /** What the constructor guarantees: the metadata is truthy or the empty dictionary. */
  predicate Normal(c: Event)
  {
    Truthy(c.metadata) || c.metadata == Obj(map[])
  }

  /** `to_dict`. */
  function ToDict(c: Event): (d: map<string, Value>)
    ensures d.Keys == {"id", "title", "description", "metadata"}
    ensures d["id"] == c.id && d["title"] == c.title && d["description"] == c.description && d["metadata"] == c.metadata
  {
    map["id" := c.id, "title" := c.title, "description" := c.description, "metadata" := c.metadata]
  }

  /**
   * `from_dict`: `id` and `title` are required (a missing one raises, here
   * `None`); a missing description is "" and missing metadata are {}.
   */
  function FromDict(data: Value): (r: Option<Event>)
    ensures r.Some? <==> data.Obj? && "id" in data.fields && "title" in data.fields
    ensures r.Some? ==> Normal(r.value) && r.value.id == data.fields["id"] && r.value.title == data.fields["title"]
    ensures r.Some? ==> r.value.description == Get(data.fields, "description", Str(""))
    ensures r.Some? && "metadata" in data.fields && Truthy(data.fields["metadata"]) ==> r.value.metadata == data.fields["metadata"]
    ensures r.Some? && ("metadata" !in data.fields || !Truthy(data.fields["metadata"])) ==> r.value.metadata == Obj(map[])
  {
    match data
    case Obj(fields) =>
      if "id" in fields && "title" in fields then
        Some(NewEvent(fields["id"], fields["title"], Get(fields, "description", Str("")),
                          Get(fields, "metadata", Obj(map[]))))
      else None
    case _ => None
  }

  /** A event written out and read back is the same event. */
  lemma FromDictToDict(c: Event)
    requires Normal(c)
    ensures FromDict(Obj(ToDict(c))) == Some(c)
  {
  }

  /** A dictionary with exactly the four keys and normal metadata survives reading and writing back. */
  lemma ToDictFromDict(data: map<string, Value>)
    requires data.Keys == {"id", "title", "description", "metadata"}
    requires Truthy(data["metadata"]) || data["metadata"] == Obj(map[])
    ensures FromDict(Obj(data)).Some? && ToDict(FromDict(Obj(data)).value) == data
  {
  }

  /** `load`: every entry of the file read with `from_dict`; one bad entry makes the whole load fail. */
  function FromDicts(data: seq<Value>): (r: Option<seq<Event>>)
    ensures r.Some? <==> forall i :: 0 <= i < |data| ==> FromDict(data[i]).Some?
    ensures r.Some? ==> |r.value| == |data| && forall i :: 0 <= i < |data| ==> Some(r.value[i]) == FromDict(data[i])
  {
    if data == [] then Some([])
    else
      var head, rest := FromDict(data[0]), FromDicts(data[1..]);
      if head.Some? && rest.Some? then Some([head.value] + rest.value)
      else
        assert !FromDict(data[0]).Some? || exists i :: 1 <= i < |data| && !FromDict(data[i]).Some? by {
          if head.Some? {
            var i :| 0 <= i < |data[1..]| && !FromDict(data[1..][i]).Some?;
            assert data[1..][i] == data[i + 1];
          }
        }
        None
  }

  /** `save` followed by `load`: the list written is the list read back. */
  lemma SaveLoad(cs: seq<Event>)
    requires forall i :: 0 <= i < |cs| ==> Normal(cs[i])
    ensures FromDicts(seq(|cs|, i requires 0 <= i < |cs| => Obj(ToDict(cs[i])))) == Some(cs)
  {
    var data := seq(|cs|, i requires 0 <= i < |cs| => Obj(ToDict(cs[i])));
    forall i | 0 <= i < |cs| ensures FromDict(data[i]) == Some(cs[i]) {
      FromDictToDict(cs[i]);
    }
    var r := FromDicts(data).value;
    assert forall i :: 0 <= i < |cs| ==> Some(r[i]) == Some(cs[i]);
    assert r == cs;
  }

  /** The event's id, the store's key. */
  function IdOf(c: Event): Value
  {
    c.id
  }

  /** `EventStore(file)`: the events from the file, or none when there is no file. */
  method OpenEventStore(file: Option<seq<Value>>) returns (store: Option<IdList.Store<Value, Event>>)
    ensures file.None? ==> store.Some? && fresh(store.value) && store.value.items == []
    ensures file.Some? ==> (store.Some? <==> FromDicts(file.value).Some?)
    ensures file.Some? && store.Some? ==> fresh(store.value) && store.value.items == FromDicts(file.value).value
    ensures store.Some? ==> store.value.idOf == IdOf
  {
    if file.None? {
      var s := new IdList.Store(IdOf, []);
      return Some(s);
    }
    var loaded := FromDicts(file.value);
    if loaded.None? {
      return None;
    }
    var s := new IdList.Store(IdOf, loaded.value);
    return Some(s);
  }
}
