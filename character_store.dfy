// Characters and their store (GUI/storage/character_store.py). A character is
// kept as the JSON values it was built from; the store is an `IdList.Store`
// keyed by the character's id.

module CharacterStore {
  import opened Json
  import IdList

  datatype Character = Character(id: Value, name: Value, description: Value, traits: Value)

  /** `Character(id, name, description="", traits=None)`: falsy traits become an empty dictionary. */
  function NewCharacter(id: Value, name: Value, description: Value := Str(""), traits: Value := Null): (c: Character)
    ensures c.id == id && c.name == name && c.description == description
    ensures Normal(c)
    ensures Truthy(traits) ==> c.traits == traits
  {
    Character(id, name, description, if Truthy(traits) then traits else Obj(map[]))
  }

  /** What the constructor guarantees: the traits are truthy or the empty dictionary. */
  predicate Normal(c: Character)
  {
    Truthy(c.traits) || c.traits == Obj(map[])
  }

  /** `to_dict`. */
  function ToDict(c: Character): (d: map<string, Value>)
    ensures d.Keys == {"id", "name", "description", "traits"}
    ensures d["id"] == c.id && d["name"] == c.name && d["description"] == c.description && d["traits"] == c.traits
  {
    map["id" := c.id, "name" := c.name, "description" := c.description, "traits" := c.traits]
  }

  /**
   * `from_dict`: `id` and `name` are required (a missing one raises, here
   * `None`); a missing description is "" and missing traits are {}.
   */
  function FromDict(data: Value): (r: Option<Character>)
    ensures r.Some? <==> data.Obj? && "id" in data.fields && "name" in data.fields
    ensures r.Some? ==> Normal(r.value) && r.value.id == data.fields["id"] && r.value.name == data.fields["name"]
    ensures r.Some? ==> r.value.description == Get(data.fields, "description", Str(""))
    ensures r.Some? && "traits" in data.fields && Truthy(data.fields["traits"]) ==> r.value.traits == data.fields["traits"]
    ensures r.Some? && ("traits" !in data.fields || !Truthy(data.fields["traits"])) ==> r.value.traits == Obj(map[])
  {
    match data
    case Obj(fields) =>
      if "id" in fields && "name" in fields then
        Some(NewCharacter(fields["id"], fields["name"], Get(fields, "description", Str("")),
                          Get(fields, "traits", Obj(map[]))))
      else None
    case _ => None
  }

  /** A character written out and read back is the same character. */
  lemma FromDictToDict(c: Character)
    requires Normal(c)
    ensures FromDict(Obj(ToDict(c))) == Some(c)
  {
  }

  /** A dictionary with exactly the four keys and normal traits survives reading and writing back. */
  lemma ToDictFromDict(data: map<string, Value>)
    requires data.Keys == {"id", "name", "description", "traits"}
    requires Truthy(data["traits"]) || data["traits"] == Obj(map[])
    ensures FromDict(Obj(data)).Some? && ToDict(FromDict(Obj(data)).value) == data
  {
  }

  /** `load`: every entry of the file read with `from_dict`; one bad entry makes the whole load fail. */
  function FromDicts(data: seq<Value>): (r: Option<seq<Character>>)
    ensures r.Some? <==> forall i :: 0 <= i < |data| ==> FromDict(data[i]).Some?
    ensures r.Some? ==> |r.value| == |data| && forall i :: 0 <= i < |data| ==> Some(r.value[i]) == FromDict(data[i])
  {
    if data == [] then Some([])
    else
      var head, rest := FromDict(data[0]), FromDicts(data[1..]);
      if head.Some? && rest.Some? then Some([head.value] + rest.value)
      else
        assert !FromDict(data[0]).Some? || exists i :: 1 <= i < |data| && !FromDict(data[i]).Some? by {
          if head.Some? {
            var i :| 0 <= i < |data[1..]| && !FromDict(data[1..][i]).Some?;
            assert data[1..][i] == data[i + 1];
          }
        }
        None
  }

  /** `save` followed by `load`: the list written is the list read back. */
  lemma SaveLoad(cs: seq<Character>)
    requires forall i :: 0 <= i < |cs| ==> Normal(cs[i])
    ensures FromDicts(seq(|cs|, i requires 0 <= i < |cs| => Obj(ToDict(cs[i])))) == Some(cs)
  {
    var data := seq(|cs|, i requires 0 <= i < |cs| => Obj(ToDict(cs[i])));
    forall i | 0 <= i < |cs| ensures FromDict(data[i]) == Some(cs[i]) {
      FromDictToDict(cs[i]);
    }
    var r := FromDicts(data).value;
    assert forall i :: 0 <= i < |cs| ==> Some(r[i]) == Some(cs[i]);
    assert r == cs;
  }

  /** The character's id, the store's key. */
  function IdOf(c: Character): Value
  {
    c.id
  }

  /** `CharacterStore(file)`: the characters from the file, or none when there is no file. */
  method OpenCharacterStore(file: Option<seq<Value>>) returns (store: Option<IdList.Store<Value, Character>>)
    ensures file.None? ==> store.Some? && fresh(store.value) && store.value.items == []
    ensures file.Some? ==> (store.Some? <==> FromDicts(file.value).Some?)
    ensures file.Some? && store.Some? ==> fresh(store.value) && store.value.items == FromDicts(file.value).value
    ensures store.Some? ==> store.value.idOf == IdOf
  {
    if file.None? {
      var s := new IdList.Store(IdOf, []);
      return Some(s);
    }
    var loaded := FromDicts(file.value);
    if loaded.None? {
      return None;
    }
    var s := new IdList.Store(IdOf, loaded.value);
    return Some(s);
  }
}
