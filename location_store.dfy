// Locations and their store (GUI/storage/location_store.py). A location is
// kept as the JSON values it was built from; the store is an `IdList.Store`
// keyed by the location's id.

module LocationStore {
  import opened Json
  import IdList

  datatype Location = Location(id: Value, name: Value, description: Value, details: Value)

  /** `Location(id, name, description="", details=None)`: falsy details become an empty dictionary. */
  function NewLocation(id: Value, name: Value, description: Value := Str(""), details: Value := Null): (c: Location)
    ensures c.id == id && c.name == name && c.description == description
    ensures Normal(c)
    ensures Truthy(details) ==> c.details == details
  {
    Location(id, name, description, if Truthy(details) then details else Obj(map[]))
  }

  /** What the constructor guarantees: the details are truthy or the empty dictionary. */
  predicate Normal(c: Location)
  {
    Truthy(c.details) || c.details == Obj(map[])
  }

  /** `to_dict`. */
  function ToDict(c: Location): (d: map<string, Value>)
    ensures d.Keys == {"id", "name", "description", "details"}
    ensures d["id"] == c.id && d["name"] == c.name && d["description"] == c.description && d["details"] == c.details
  {
    map["id" := c.id, "name" := c.name, "description" := c.description, "details" := c.details]
  }

  /**
   * `from_dict`: `id` and `name` are required (a missing one raises, here
   * `None`); a missing description is "" and missing details are {}.
   */
  function FromDict(data: Value): (r: Option<Location>)
    ensures r.Some? <==> data.Obj? && "id" in data.fields && "name" in data.fields
    ensures r.Some? ==> Normal(r.value) && r.value.id == data.fields["id"] && r.value.name == data.fields["name"]
    ensures r.Some? ==> r.value.description == Get(data.fields, "description", Str(""))
    ensures r.Some? && "details" in data.fields && Truthy(data.fields["details"]) ==> r.value.details == data.fields["details"]
    ensures r.Some? && ("details" !in data.fields || !Truthy(data.fields["details"])) ==> r.value.details == Obj(map[])
  {
    match data
    case Obj(fields) =>
      if "id" in fields && "name" in fields then
        Some(NewLocation(fields["id"], fields["name"], Get(fields, "description", Str("")),
                          Get(fields, "details", Obj(map[]))))
      else None
    case _ => None
  }

  /** A location written out and read back is the same location. */
  lemma FromDictToDict(c: Location)
    requires Normal(c)
    ensures FromDict(Obj(ToDict(c))) == Some(c)
  {
  }

  /** A dictionary with exactly the four keys and normal details survives reading and writing back. */
  lemma ToDictFromDict(data: map<string, Value>)
    requires data.Keys == {"id", "name", "description", "details"}
    requires Truthy(data["details"]) || data["details"] == Obj(map[])
    ensures FromDict(Obj(data)).Some? && ToDict(FromDict(Obj(data)).value) == data
  {
  }

  /** `load`: every entry of the file read with `from_dict`; one bad entry makes the whole load fail. */
  function FromDicts(data: seq<Value>): (r: Option<seq<Location>>)
    ensures r.Some? <==> forall i :: 0 <= i < |data| ==> FromDict(data[i]).Some?
    ensures r.Some? ==> |r.value| == |data| && forall i :: 0 <= i < |data| ==> Some(r.value[i]) == FromDict(data[i])
  {
    if data == [] then Some([])
    else
      var head, rest := FromDict(data[0]), FromDicts(data[1..]);
      if head.Some? && rest.Some? then Some([head.value] + rest.value)
      else
        assert !FromDict(data[0]).Some? || exists i :: 1 <= i < |data| && !FromDict(data[i]).Some? by {
          if head.Some? {
            var i :| 0 <= i < |data[1..]| && !FromDict(data[1..][i]).Some?;
            assert data[1..][i] == data[i + 1];
          }
        }
        None
  }

  /** `save` followed by `load`: the list written is the list read back. */
  lemma SaveLoad(cs: seq<Location>)
    requires forall i :: 0 <= i < |cs| ==> Normal(cs[i])
    ensures FromDicts(seq(|cs|, i requires 0 <= i < |cs| => Obj(ToDict(cs[i])))) == Some(cs)
  {
    var data := seq(|cs|, i requires 0 <= i < |cs| => Obj(ToDict(cs[i])));
    forall i | 0 <= i < |cs| ensures FromDict(data[i]) == Some(cs[i]) {
      FromDictToDict(cs[i]);
    }
    var r := FromDicts(data).value;
    assert forall i :: 0 <= i < |cs| ==> Some(r[i]) == Some(cs[i]);
    assert r == cs;
  }

  /** The location's id, the store's key. */
  function IdOf(c: Location): Value
  {
    c.id
  }

  /** `LocationStore(file)`: the locations from the file, or none when there is no file. */
  method OpenLocationStore(file: Option<seq<Value>>) returns (store: Option<IdList.Store<Value, Location>>)
    ensures file.None? ==> store.Some? && fresh(store.value) && store.value.items == []
    ensures file.Some? ==> (store.Some? <==> FromDicts(file.value).Some?)
    ensures file.Some? && store.Some? ==> fresh(store.value) && store.value.items == FromDicts(file.value).value
    ensures store.Some? ==> store.value.idOf == IdOf
  {
    if file.None? {
      var s := new IdList.Store(IdOf, []);
      return Some(s);
    }
    var loaded := FromDicts(file.value);
    if loaded.None? {
      return None;
    }
    var s := new IdList.Store(IdOf, loaded.value);
    return Some(s);
  }
}
