/**
 * The mock folder repository: a module-level table from id to folder and a
 * `nextId` counter. Instances are built by `create` through
 * `populateFields`; reads hand out such copies.
 */
module FolderRepository {
  import opened JsValues
  import opened OrderedKeys
  import opened DalHelpers

  /** A folder instance: its three data slots and the id its `getId` closure returns (0: none). */
  datatype Folder = Folder(name: Value, recording: Value, dtmf: Value, id: nat)

  /** The slots a fresh instance declares before `populateFields` runs. */
  function Template(): Record {
    map["name" := Undef, "recording" := Undef, "dtmf" := Undef, "getId" := Func]
  }

  /** `create(fields, id)`: a new instance, with `create(id)` accepted for `create(undefined, id)`. */
  function Create(fields: Value, id: Value): Folder {
    var slots := Populated(Template(), fields);
    Folder(slots["name"], slots["recording"], slots["dtmf"], IdOf(OptionalArgument(fields, id, "number")))
  }

  /** The instance as a JavaScript object: its data slots and its `getId` method. */
  function Slots(f: Folder): Record {
    map["name" := f.name, "recording" := f.recording, "dtmf" := f.dtmf, "getId" := Func]
  }

  /** The `{name, recording, dtmf}` object the repository copies a folder through. */
  function FieldsFor(f: Folder): Value {
    Obj(map["name" := f.name, "recording" := f.recording, "dtmf" := f.dtmf])
  }

  /** The copy every read hands out: `create({name, recording, dtmf}, getId())`. It equals the original. */
  function Copy(f: Folder): (c: Folder)
    ensures c == f
  {
    Create(FieldsFor(f), Num(f.id))
  }

  /** `optionalArgument` lets a number in the first position be the id, with every slot left undefined. */
  lemma CreateIdOverload(n: nat, id: Value, fields: map<string, Value>, m: nat)
    requires n > 0 && m > 0
    ensures Create(Num(n), id) == Folder(Undef, Undef, Undef, n)
    ensures Create(Obj(fields), Num(m)).id == m
    ensures Create(Obj(fields), Undef).id == 0
  {
  }

  /** `create(fields, id)` slot by slot: name, recording and DTMF come from `fields`, or stay undefined; unknown keys are ignored; the id is `fields` when that is a number, `id` otherwise. */
  lemma CreateFillsDeclaredSlots(fields: Value, id: Value)
    ensures Create(fields, id).name == Given(fields, "name", Undef)
    ensures Create(fields, id).recording == Given(fields, "recording", Undef)
    ensures Create(fields, id).dtmf == Given(fields, "dtmf", Undef)
    ensures Create(fields, id).id == IdOf(if fields.Num? then fields else id)
  {
    var t := Template();
    assert t["name"] == Undef && t["recording"] == Undef && t["dtmf"] == Undef;
    PopulatedSlots(t, fields);
  }

  /** The key `save` writes under: the instance's own id, or the next free one when it has none. */
  function SaveKey(id: nat, nextId: nat): nat {
    if id != 0 then id else nextId
  }

  /** Some stored folder is named `name`. */
  ghost predicate HasName(folders: map<nat, Folder>, name: string) {
    exists k :: k in folders && folders[k].name == Str(name)
  }

  /** `k` is the first key, in enumeration order, of a folder named `name`. */
  ghost predicate FirstWithName(folders: map<nat, Folder>, k: nat, name: string) {
    && k in folders
    && folders[k].name == Str(name)
    && forall j :: j in folders && j < k ==> folders[j].name != Str(name)
  }

  /** The folder `get(name)` answers with: the one under the least key with that name, or none. */
  ghost function Lookup(folders: map<nat, Folder>, name: string): (r: Option<Folder>)
    ensures r.None? <==> !HasName(folders, name)
    ensures r.Some? ==> exists k :: FirstWithName(folders, k, name) && r.value == folders[k]
  {
    if HasName(folders, name) then
      var matching := set j | j in folders && folders[j].name == Str(name);
      assert forall j :: j in folders && folders[j].name == Str(name) ==> j in matching;
      var k := Least(matching);
      Some(folders[k])
    else None
  }

  /** The first folder with the name, in enumeration order, is what a lookup answers. */
  lemma LookupFinds(folders: map<nat, Folder>, k: nat, name: string)
    requires FirstWithName(folders, k, name)
    ensures Lookup(folders, name) == Some(folders[k])
  {
  }

  /** A folder that shares the name or the DTMF digit with a requested one. */
  predicate Conflicts(f: Folder, name: string, dtmf: string) {
    f.name == Str(name) || f.dtmf == Str(dtmf)
  }

  /** The conflicting folders among those stored under `ks`, in that order. */
  ghost function ConflictingAt(folders: map<nat, Folder>, ks: seq<nat>, name: string, dtmf: string): seq<Folder>
    requires forall i :: 0 <= i < |ks| ==> ks[i] in folders
    decreases |ks|
  {
    if ks == [] then []
    else
      var last := folders[ks[|ks| - 1]];
      ConflictingAt(folders, ks[..|ks| - 1], name, dtmf) + (if Conflicts(last, name, dtmf) then [last] else [])
  }

  lemma {:induction false} ConflictingAtMembers(folders: map<nat, Folder>, ks: seq<nat>, name: string, dtmf: string)
    requires forall i :: 0 <= i < |ks| ==> ks[i] in folders
    ensures forall f :: f in ConflictingAt(folders, ks, name, dtmf) <==>
      Conflicts(f, name, dtmf) && exists i :: 0 <= i < |ks| && folders[ks[i]] == f
    decreases |ks|
  {
    if ks != [] {
      var init := ks[..|ks| - 1];
      ConflictingAtMembers(folders, init, name, dtmf);
      forall f | Conflicts(f, name, dtmf) && (exists i :: 0 <= i < |ks| && folders[ks[i]] == f)
        ensures f in ConflictingAt(folders, ks, name, dtmf)
      {
        var i :| 0 <= i < |ks| && folders[ks[i]] == f;
        if i < |ks| - 1 {
          assert folders[init[i]] == f;
        }
      }
      forall f | f in ConflictingAt(folders, ks, name, dtmf)
        ensures exists i :: 0 <= i < |ks| && folders[ks[i]] == f
      {
        if f in ConflictingAt(folders, init, name, dtmf) {
          var i :| 0 <= i < |init| && folders[init[i]] == f;
          assert folders[ks[i]] == f;
        } else {
          assert folders[ks[|ks| - 1]] == f;
        }
      }
    }
  }

  /** The folders `findByNameOrDTMF` reports are exactly the stored folders sharing the name or the DTMF digit. */
  lemma ConflictingMembers(folders: map<nat, Folder>, name: string, dtmf: string)
    ensures forall f :: f in ConflictingAt(folders, Ascending(folders.Keys), name, dtmf) <==>
      f in folders.Values && Conflicts(f, name, dtmf)
  {
    var ks := Ascending(folders.Keys);
    ConflictingAtMembers(folders, ks, name, dtmf);
    AscendingSorted(folders.Keys);
    forall f | f in folders.Values && Conflicts(f, name, dtmf)
      ensures exists i :: 0 <= i < |ks| && folders[ks[i]] == f
    {
      var k :| k in folders && folders[k] == f;
      var i :| 0 <= i < |ks| && ks[i] == k;
    }
  }

  class FolderRepo {
    var folders: map<nat, Folder>
    var nextId: nat

    /** Every folder is stored under its own non-zero id, below the next id to hand out. */
    ghost predicate Valid()
      reads this
    {
      && 0 < nextId
      && forall k :: k in folders ==> folders[k].id == k && 0 < k < nextId
    }

    constructor ()
      ensures folders == map[] && nextId == 1
      ensures Valid()
    {
      folders := map[];
      nextId := 1;
    }

    /** `getNextId()`: hands out the counter and advances it. */
    method GetNextId() returns (id: nat)
      modifies this
      ensures id == old(nextId) && nextId == old(nextId) + 1
      ensures folders == old(folders)
    {
      id := nextId;
      nextId := nextId + 1;
    }

    /** `all()`: a table of copies keyed by the stored ids, so it has as many entries as the store. */
    method All() returns (all: map<nat, Folder>)
      ensures all == folders
      ensures |all| == |folders|
    {
      all := map[];
      var rest := folders.Keys;
      while rest != {}
        invariant rest <= folders.Keys
        invariant all.Keys == folders.Keys - rest
        invariant forall k :: k in all ==> all[k] == folders[k]
        decreases rest
      {
        var k;
        k, rest := PopLeast(rest);
        all := all[k := Copy(folders[k])];
      }
    }

    /** `get(name)`: a copy of the first folder with that name, or null. */
    method Get(name: string) returns (r: Option<Folder>)
      ensures r == Lookup(folders, name)
    {
      var rest := folders.Keys;
      while rest != {}
        invariant rest <= folders.Keys
        invariant forall j :: j in folders && j !in rest ==> folders[j].name != Str(name)
        invariant forall j, k :: j in folders && j !in rest && k in rest ==> j < k
        decreases rest
      {
        var k;
        k, rest := PopLeast(rest);
        if folders[k].name == Str(name) {
          assert FirstWithName(folders, k, name);
          LookupFinds(folders, k, name);
          return Some(Copy(folders[k]));
        }
      }
      return None;
    }

    /** `findByNameOrDTMF(name, dtmf)`: copies of the folders with that name or that DTMF digit, in enumeration order. */
    method FindByNameOrDTMF(name: string, dtmf: string) returns (found: seq<Folder>)
      ensures found == ConflictingAt(folders, Ascending(folders.Keys), name, dtmf)
      ensures forall f :: f in found <==> f in folders.Values && Conflicts(f, name, dtmf)
    {
      var ks := EnumerationOrder(folders.Keys);
      found := [];
      for i := 0 to |ks|
        invariant found == ConflictingAt(folders, ks[..i], name, dtmf)
      {
        assert ks[..i + 1][..i] == ks[..i];
        var f := Copy(folders[ks[i]]);
        if Conflicts(f, name, dtmf) {
          found := found + [f];
        }
      }
      assert ks[..|ks|] == ks;
      ConflictingMembers(folders, name, dtmf);
    }

    /** `save(instance)`: stores a fresh copy of name, recording and DTMF, allocating an id only when the instance has none. */
    method Save(instance: Folder)
      modifies this
      ensures folders == old(folders)[SaveKey(instance.id, old(nextId)) := instance.(id := SaveKey(instance.id, old(nextId)))]
      ensures nextId == if instance.id == 0 then old(nextId) + 1 else old(nextId)
      ensures old(Valid()) && (instance.id == 0 || instance.id in old(folders)) ==> Valid()
    {
      var id := instance.id;
      if id == 0 {
        id := GetNextId();
      }
      folders := folders[id := Create(FieldsFor(instance), Num(id))];
    }

    /** `remove(instance)`: deletes the instance's entry; fails when it has no id or no entry. */
    method Remove(instance: Folder) returns (r: Outcome)
      modifies this
      ensures instance.id == 0 ==> r == Fail("instance has no id.")
      ensures instance.id != 0 && instance.id !in old(folders) ==> r == Fail("instance does not exist in database.")
      ensures r.Fail? ==> folders == old(folders)
      ensures r.Pass? <==> instance.id != 0 && instance.id in old(folders)
      ensures r.Pass? ==> folders == old(folders) - {instance.id}
      ensures nextId == old(nextId)
      ensures old(Valid()) ==> Valid()
    {
      var id := instance.id;
      if id == 0 {
        return Fail("instance has no id.");
      }
      if id !in folders {
        return Fail("instance does not exist in database.");
      }
      folders := folders - {id};
      return Pass;
    }

    /** `testReset(newFolders, newNextId)`: replaces the table and the counter; omitted arguments mean empty and 1. */
    method TestReset(newFolders: Option<map<nat, Folder>>, newNextId: Option<nat>)
      modifies this
      ensures folders == if newFolders.Some? then newFolders.value else map[]
      ensures nextId == if newNextId.Some? then newNextId.value else 1
      ensures newFolders.None? && newNextId.None? ==> Valid()
    {
      folders := if newFolders.Some? then newFolders.value else map[];
      nextId := if newNextId.Some? then newNextId.value else 1;
    }
  }
}
