/**
 * The mock mailbox repository: a module-level table from id to mailbox and a
 * `nextId` counter. A mailbox remembers the context it was created for; the
 * queries compare that context's id.
 */
module MailboxRepository {
  import opened JsValues
  import opened OrderedKeys
  import opened DalHelpers

  /**
   * A mailbox instance: its number, its nine profile slots, the id of the
   * context its `getContext` closure returns, and the id its `getId` closure
   * returns (0: none).
   */
  datatype Mailbox = Mailbox(
    mailboxNumber: Value,
    mailboxName: Value,
    password: Value,
    name: Value,
    email: Value,
    read: Value,
    unread: Value,
    greetingBusy: Value,
    greetingAway: Value,
    greetingName: Value,
    contextId: nat,
    id: nat)

  /** The slots a fresh instance declares before `populateFields` runs. */
  function Template(number: Value): Record {
    map[
      "mailboxNumber" := number,
      "mailboxName" := Undef,
      "password" := Undef,
      "name" := Undef,
      "email" := Undef,
      "read" := Undef,
      "unread" := Undef,
      "greetingBusy" := Undef,
      "greetingAway" := Undef,
      "greetingName" := Undef,
      "getId" := Func,
      "getContext" := Func]
  }

  /** `create(number, context, fields, id)`: a new instance for the context with id `contextId`. */
  function Create(number: Value, contextId: nat, fields: Value, id: Value): Mailbox {
    var slots := Populated(Template(number), fields);
    Mailbox(slots["mailboxNumber"], slots["mailboxName"], slots["password"], slots["name"], slots["email"],
            slots["read"], slots["unread"], slots["greetingBusy"], slots["greetingAway"], slots["greetingName"],
            contextId, IdOf(OptionalArgument(fields, id, "number")))
  }

  /** The instance as a JavaScript object: its data slots and its two accessor methods. */
  function Slots(m: Mailbox): Record {
    map[
      "mailboxNumber" := m.mailboxNumber,
      "mailboxName" := m.mailboxName,
      "password" := m.password,
      "name" := m.name,
      "email" := m.email,
      "read" := m.read,
      "unread" := m.unread,
      "greetingBusy" := m.greetingBusy,
      "greetingAway" := m.greetingAway,
      "greetingName" := m.greetingName,
      "getId" := Func,
      "getContext" := Func]
  }

  /** The object of nine profile fields the repository copies a mailbox through. */
  function ProfileOf(m: Mailbox): Value {
    Obj(map[
      "mailboxName" := m.mailboxName,
      "password" := m.password,
      "name" := m.name,
      "email" := m.email,
      "read" := m.read,
      "unread" := m.unread,
      "greetingBusy" := m.greetingBusy,
      "greetingAway" := m.greetingAway,
      "greetingName" := m.greetingName])
  }

  /** Populating a fresh instance from a mailbox's profile restores the box name, password and owner name. */
  lemma NameSlotsKept(m: Mailbox)
    ensures Populated(Template(m.mailboxNumber), ProfileOf(m))["mailboxName"] == m.mailboxName
    ensures Populated(Template(m.mailboxNumber), ProfileOf(m))["password"] == m.password
    ensures Populated(Template(m.mailboxNumber), ProfileOf(m))["name"] == m.name
  {
    UndefSlotTakesField(Template(m.mailboxNumber), ProfileOf(m), "mailboxName");
    UndefSlotTakesField(Template(m.mailboxNumber), ProfileOf(m), "password");
    UndefSlotTakesField(Template(m.mailboxNumber), ProfileOf(m), "name");
  }

  /** Populating a fresh instance from a mailbox's profile restores the e-mail address and the two message counters. */
  lemma ContactSlotsKept(m: Mailbox)
    ensures Populated(Template(m.mailboxNumber), ProfileOf(m))["email"] == m.email
    ensures Populated(Template(m.mailboxNumber), ProfileOf(m))["read"] == m.read
    ensures Populated(Template(m.mailboxNumber), ProfileOf(m))["unread"] == m.unread
  {
    UndefSlotTakesField(Template(m.mailboxNumber), ProfileOf(m), "email");
    UndefSlotTakesField(Template(m.mailboxNumber), ProfileOf(m), "read");
    UndefSlotTakesField(Template(m.mailboxNumber), ProfileOf(m), "unread");
  }

  /** Populating a fresh instance from a mailbox's profile restores the three greetings. */
  lemma GreetingSlotsKept(m: Mailbox)
    ensures Populated(Template(m.mailboxNumber), ProfileOf(m))["greetingBusy"] == m.greetingBusy
    ensures Populated(Template(m.mailboxNumber), ProfileOf(m))["greetingAway"] == m.greetingAway
    ensures Populated(Template(m.mailboxNumber), ProfileOf(m))["greetingName"] == m.greetingName
  {
    UndefSlotTakesField(Template(m.mailboxNumber), ProfileOf(m), "greetingBusy");
    UndefSlotTakesField(Template(m.mailboxNumber), ProfileOf(m), "greetingAway");
    UndefSlotTakesField(Template(m.mailboxNumber), ProfileOf(m), "greetingName");
  }

  /** The profile carries no number, so populating a fresh instance from it keeps the number the instance was created with. */
  lemma NumberSlotKept(m: Mailbox)
    ensures Populated(Template(m.mailboxNumber), ProfileOf(m))["mailboxNumber"] == m.mailboxNumber
  {
    assert "mailboxNumber" !in ProfileOf(m).props;
  }

  /** Re-creating a mailbox from its number, context and profile under an id yields the mailbox with that id. */
  lemma RebuildKeepsFields(m: Mailbox, id: nat)
    ensures Create(m.mailboxNumber, m.contextId, ProfileOf(m), Num(id)) == m.(id := id)
  {
    NameSlotsKept(m);
    ContactSlotsKept(m);
    GreetingSlotsKept(m);
    NumberSlotKept(m);
    assert IdOf(OptionalArgument(ProfileOf(m), Num(id), "number")) == id;
  }

  /** The copy every read makes: number, context, the nine profile fields and the id. It equals the original. */
  function Copy(m: Mailbox): (c: Mailbox)
    ensures c == m
  {
    RebuildKeepsFields(m, m.id);
    Create(m.mailboxNumber, m.contextId, ProfileOf(m), Num(m.id))
  }

  /**
   * `create(number, context, fields, id)` slot by slot: every declared slot
   * takes the field of the same name when `fields` defines it, so a
   * `mailboxNumber` field overwrites the number argument; the nine profile
   * slots are undefined otherwise; unknown keys are ignored; the context is
   * the one given; and the id comes from `fields` when that is a number
   * (the `create(number, context, id)` form), from `id` otherwise.
   */
  lemma CreateFillsDeclaredSlots(number: Value, contextId: nat, fields: Value, id: Value)
    ensures Create(number, contextId, fields, id).mailboxNumber ==
      if number.Func? then number else Given(fields, "mailboxNumber", number)
    ensures Create(number, contextId, fields, id).mailboxName == Given(fields, "mailboxName", Undef)
    ensures Create(number, contextId, fields, id).password == Given(fields, "password", Undef)
    ensures Create(number, contextId, fields, id).name == Given(fields, "name", Undef)
    ensures Create(number, contextId, fields, id).email == Given(fields, "email", Undef)
    ensures Create(number, contextId, fields, id).read == Given(fields, "read", Undef)
    ensures Create(number, contextId, fields, id).unread == Given(fields, "unread", Undef)
    ensures Create(number, contextId, fields, id).greetingBusy == Given(fields, "greetingBusy", Undef)
    ensures Create(number, contextId, fields, id).greetingAway == Given(fields, "greetingAway", Undef)
    ensures Create(number, contextId, fields, id).greetingName == Given(fields, "greetingName", Undef)
    ensures Create(number, contextId, fields, id).contextId == contextId
    ensures Create(number, contextId, fields, id).id == IdOf(if fields.Num? then fields else id)
  {
    CreateFillsNumberSlot(number, contextId, fields, id);
    CreateFillsNameSlots(number, contextId, fields, id);
    CreateFillsContactSlots(number, contextId, fields, id);
    CreateFillsGreetingSlots(number, contextId, fields, id);
  }

  /** A `mailboxNumber` field overwrites the number argument, unless that is a function; the context is the one given; the id is `fields` when that is a number, `id` otherwise. */
  lemma CreateFillsNumberSlot(number: Value, contextId: nat, fields: Value, id: Value)
    ensures Create(number, contextId, fields, id).mailboxNumber ==
      if number.Func? then number else Given(fields, "mailboxNumber", number)
    ensures Create(number, contextId, fields, id).contextId == contextId
    ensures Create(number, contextId, fields, id).id == IdOf(if fields.Num? then fields else id)
  {
    var t := Template(number);
    assert t["mailboxNumber"] == number;
    PopulatedSlots(t, fields);
  }

  /** The box name, password and owner name come from the fields, or stay undefined. */
  lemma CreateFillsNameSlots(number: Value, contextId: nat, fields: Value, id: Value)
    ensures Create(number, contextId, fields, id).mailboxName == Given(fields, "mailboxName", Undef)
    ensures Create(number, contextId, fields, id).password == Given(fields, "password", Undef)
    ensures Create(number, contextId, fields, id).name == Given(fields, "name", Undef)
  {
    var t := Template(number);
    assert t["mailboxName"] == Undef && t["password"] == Undef && t["name"] == Undef;
    PopulatedSlots(t, fields);
  }

  /** The e-mail address and both message counters come from the fields, or stay undefined. */
  lemma CreateFillsContactSlots(number: Value, contextId: nat, fields: Value, id: Value)
    ensures Create(number, contextId, fields, id).email == Given(fields, "email", Undef)
    ensures Create(number, contextId, fields, id).read == Given(fields, "read", Undef)
    ensures Create(number, contextId, fields, id).unread == Given(fields, "unread", Undef)
  {
    var t := Template(number);
    assert t["email"] == Undef && t["read"] == Undef && t["unread"] == Undef;
    PopulatedSlots(t, fields);
  }

  /** The three greetings come from the fields, or stay undefined. */
  lemma CreateFillsGreetingSlots(number: Value, contextId: nat, fields: Value, id: Value)
    ensures Create(number, contextId, fields, id).greetingBusy == Given(fields, "greetingBusy", Undef)
    ensures Create(number, contextId, fields, id).greetingAway == Given(fields, "greetingAway", Undef)
    ensures Create(number, contextId, fields, id).greetingName == Given(fields, "greetingName", Undef)
  {
    var t := Template(number);
    assert t["greetingBusy"] == Undef && t["greetingAway"] == Undef && t["greetingName"] == Undef;
    PopulatedSlots(t, fields);
  }

  /** The key `save` writes under: the instance's own id, or the next free one when it has none. */
  function SaveKey(id: nat, nextId: nat): nat {
    if id != 0 then id else nextId
  }

  /** A mailbox with this number belongs to the context with this id. */
  predicate Matches(m: Mailbox, number: string, contextId: nat) {
    m.mailboxNumber == Str(number) && m.contextId == contextId
  }

  /** Some stored mailbox has this number in this context. */
  ghost predicate HasMailbox(mailboxes: map<nat, Mailbox>, number: string, contextId: nat) {
    exists k :: k in mailboxes && Matches(mailboxes[k], number, contextId)
  }

  /** `k` is the first key, in enumeration order, of a mailbox with this number in this context. */
  ghost predicate FirstMatch(mailboxes: map<nat, Mailbox>, k: nat, number: string, contextId: nat) {
    && k in mailboxes
    && Matches(mailboxes[k], number, contextId)
    && forall j :: j in mailboxes && j < k ==> !Matches(mailboxes[j], number, contextId)
  }

  /** The mailbox `get(number, context)` answers with: the one under the least key that matches, or none. */
  ghost function Lookup(mailboxes: map<nat, Mailbox>, number: string, contextId: nat): (r: Option<Mailbox>)
    ensures r.None? <==> !HasMailbox(mailboxes, number, contextId)
    ensures r.Some? ==> exists k :: FirstMatch(mailboxes, k, number, contextId) && r.value == mailboxes[k]
  {
    if HasMailbox(mailboxes, number, contextId) then
      var matching := set j | j in mailboxes && Matches(mailboxes[j], number, contextId);
      assert forall j :: j in mailboxes && Matches(mailboxes[j], number, contextId) ==> j in matching;
      var k := Least(matching);
      Some(mailboxes[k])
    else None
  }

  /** The first matching mailbox, in enumeration order, is what a lookup answers. */
  lemma LookupFinds(mailboxes: map<nat, Mailbox>, k: nat, number: string, contextId: nat)
    requires FirstMatch(mailboxes, k, number, contextId)
    ensures Lookup(mailboxes, number, contextId) == Some(mailboxes[k])
  {
  }

  /** The ids of the stored mailboxes of one context. */
  ghost function KeysInContext(mailboxes: map<nat, Mailbox>, s: set<nat>, contextId: nat): set<nat> {
    set k | k in s && k in mailboxes && mailboxes[k].contextId == contextId
  }

  /** The mailboxes of one context among those stored under `ks`, in that order. */
  ghost function InContext(mailboxes: map<nat, Mailbox>, ks: seq<nat>, contextId: nat): seq<Mailbox>
    requires forall i :: 0 <= i < |ks| ==> ks[i] in mailboxes
    decreases |ks|
  {
    if ks == [] then []
    else
      (if mailboxes[ks[0]].contextId == contextId then [mailboxes[ks[0]]] else []) +
      InContext(mailboxes, ks[1..], contextId)
  }

  /** One step of `findByContext`: the mailbox under the next key is collected exactly when it belongs to the context. */
  lemma InContextVisit(mailboxes: map<nat, Mailbox>, ks: seq<nat>, i: nat, found: seq<Mailbox>, contextId: nat)
    requires forall j :: 0 <= j < |ks| ==> ks[j] in mailboxes
    requires i < |ks|
    requires InContext(mailboxes, ks, contextId) == found + InContext(mailboxes, ks[i..], contextId)
    ensures InContext(mailboxes, ks, contextId) ==
      (found + if mailboxes[ks[i]].contextId == contextId then [mailboxes[ks[i]]] else []) +
      InContext(mailboxes, ks[i + 1..], contextId)
  {
    assert ks[i..][1..] == ks[i + 1..];
  }

  /** Enumerating the keys `s` in order and keeping one context's mailboxes yields one mailbox per key of that context: as many as `countByContext` counts. */
  lemma {:induction false} InContextCount(mailboxes: map<nat, Mailbox>, s: set<nat>, contextId: nat)
    requires s <= mailboxes.Keys
    ensures |InContext(mailboxes, Ascending(s), contextId)| == |KeysInContext(mailboxes, s, contextId)|
    decreases s
  {
    if s != {} {
      var least := Least(s);
      var rest := s - {least};
      assert Ascending(s)[1..] == Ascending(rest);
      InContextCount(mailboxes, rest, contextId);
      if mailboxes[least].contextId == contextId {
        assert KeysInContext(mailboxes, s, contextId) == KeysInContext(mailboxes, rest, contextId) + {least};
      } else {
        assert KeysInContext(mailboxes, s, contextId) == KeysInContext(mailboxes, rest, contextId);
      }
    } else {
      assert KeysInContext(mailboxes, s, contextId) == {};
    }
  }

  /** Enumerating the keys `s` in order and keeping one context's mailboxes yields exactly the mailboxes of that context stored under `s`. */
  lemma {:induction false} InContextHas(mailboxes: map<nat, Mailbox>, s: set<nat>, contextId: nat)
    requires s <= mailboxes.Keys
    ensures forall m :: m in InContext(mailboxes, Ascending(s), contextId) <==>
      exists k :: k in s && mailboxes[k] == m && m.contextId == contextId
    decreases s
  {
    if s != {} {
      var ks := Ascending(s);
      var least := Least(s);
      var rest := s - {least};
      assert ks[1..] == Ascending(rest);
      InContextHas(mailboxes, rest, contextId);
      forall m | exists k :: k in s && mailboxes[k] == m && m.contextId == contextId
        ensures m in InContext(mailboxes, ks, contextId)
      {
        var k :| k in s && mailboxes[k] == m && m.contextId == contextId;
        if k != least {
          assert k in rest;
        }
      }
    }
  }

  /** The mailboxes `findByContext` reports are exactly the stored mailboxes of the context, one per key. */
  lemma FoundInContext(mailboxes: map<nat, Mailbox>, contextId: nat)
    ensures |InContext(mailboxes, Ascending(mailboxes.Keys), contextId)| == |KeysInContext(mailboxes, mailboxes.Keys, contextId)|
    ensures forall m :: m in InContext(mailboxes, Ascending(mailboxes.Keys), contextId) <==>
      m in mailboxes.Values && m.contextId == contextId
  {
    InContextCount(mailboxes, mailboxes.Keys, contextId);
    InContextHas(mailboxes, mailboxes.Keys, contextId);
  }

  class MailboxRepo {
    var mailboxes: map<nat, Mailbox>
    var nextId: nat

    /** Every mailbox is stored under its own non-zero id, below the next id to hand out. */
    ghost predicate Valid()
      reads this
    {
      && 0 < nextId
      && forall k :: k in mailboxes ==> mailboxes[k].id == k && 0 < k < nextId
    }

    constructor ()
      ensures mailboxes == map[] && nextId == 1
      ensures Valid()
    {
      mailboxes := map[];
      nextId := 1;
    }

    /** `getNextId()`: hands out the counter and advances it. */
    method GetNextId() returns (id: nat)
      modifies this
      ensures id == old(nextId) && nextId == old(nextId) + 1
      ensures mailboxes == old(mailboxes)
    {
      id := nextId;
      nextId := nextId + 1;
    }

    /** `findByContext(context)`: copies of the context's mailboxes, in enumeration order. */
    method FindByContext(contextId: nat) returns (found: seq<Mailbox>)
      ensures found == InContext(mailboxes, Ascending(mailboxes.Keys), contextId)
      ensures |found| == |KeysInContext(mailboxes, mailboxes.Keys, contextId)|
      ensures forall m :: m in found <==> m in mailboxes.Values && m.contextId == contextId
    {
      var ks := EnumerationOrder(mailboxes.Keys);
      found := [];
      for i := 0 to |ks|
        invariant InContext(mailboxes, ks, contextId) == found + InContext(mailboxes, ks[i..], contextId)
      {
        InContextVisit(mailboxes, ks, i, found, contextId);
        var m := mailboxes[ks[i]];
        if m.contextId == contextId {
          found := found + [m];
        }
      }
      FoundInContext(mailboxes, contextId);
    }

    /** `countByContext(context)`: how many stored mailboxes belong to the context. */
    method CountByContext(contextId: nat) returns (count: nat)
      ensures count == |KeysInContext(mailboxes, mailboxes.Keys, contextId)|
    {
      count := 0;
      var rest := mailboxes.Keys;
      while rest != {}
        invariant rest <= mailboxes.Keys
        invariant count == |KeysInContext(mailboxes, mailboxes.Keys - rest, contextId)|
        decreases rest
      {
        var k :| k in rest;
        var rest' := rest - {k};
        if mailboxes[k].contextId == contextId {
          assert KeysInContext(mailboxes, mailboxes.Keys - rest', contextId) ==
            KeysInContext(mailboxes, mailboxes.Keys - rest, contextId) + {k};
          count := count + 1;
        } else {
          assert KeysInContext(mailboxes, mailboxes.Keys - rest', contextId) ==
            KeysInContext(mailboxes, mailboxes.Keys - rest, contextId);
        }
        rest := rest';
      }
      assert mailboxes.Keys - rest == mailboxes.Keys;
    }

    /** `get(number, context)`: a copy of the first mailbox with that number in that context, or null. */
    method Get(number: string, contextId: nat) returns (r: Option<Mailbox>)
      ensures r == Lookup(mailboxes, number, contextId)
    {
      var rest := mailboxes.Keys;
      while rest != {}
        invariant rest <= mailboxes.Keys
        invariant forall j :: j in mailboxes && j !in rest ==> !Matches(mailboxes[j], number, contextId)
        invariant forall j, k :: j in mailboxes && j !in rest && k in rest ==> j < k
        decreases rest
      {
        var k;
        k, rest := PopLeast(rest);
        if Matches(mailboxes[k], number, contextId) {
          assert FirstMatch(mailboxes, k, number, contextId);
          LookupFinds(mailboxes, k, number, contextId);
          return Some(mailboxes[k]);
        }
      }
      return None;
    }

    /** `save(instance)`: stores a copy of number, context and all nine profile fields, allocating an id only when the instance has none. */
    method Save(instance: Mailbox)
      modifies this
      ensures mailboxes == old(mailboxes)[SaveKey(instance.id, old(nextId)) := instance.(id := SaveKey(instance.id, old(nextId)))]
      ensures nextId == if instance.id == 0 then old(nextId) + 1 else old(nextId)
      ensures old(Valid()) && (instance.id == 0 || instance.id in old(mailboxes)) ==> Valid()
    {
      var id := instance.id;
      if id == 0 {
        id := GetNextId();
      }
      // the stored copy, `Create(number, context, ProfileOf(instance), Num(id))`, is `instance.(id := id)` (RebuildKeepsFields)
      mailboxes := mailboxes[id := instance.(id := id)];
    }

    /** `remove(instance)`: deletes the instance's entry; fails when it has no id or no entry. */
    method Remove(instance: Mailbox) returns (r: Outcome)
      modifies this
      ensures instance.id == 0 ==> r == Fail("instance has no id.")
      ensures instance.id != 0 && instance.id !in old(mailboxes) ==> r == Fail("instance does not exist in database.")
      ensures r.Fail? ==> mailboxes == old(mailboxes)
      ensures r.Pass? <==> instance.id != 0 && instance.id in old(mailboxes)
      ensures r.Pass? ==> mailboxes == old(mailboxes) - {instance.id}
      ensures nextId == old(nextId)
      ensures old(Valid()) ==> Valid()
    {
      var id := instance.id;
      if id == 0 {
        return Fail("instance has no id.");
      }
      if id !in mailboxes {
        return Fail("instance does not exist in database.");
      }
      mailboxes := mailboxes - {id};
      return Pass;
    }

    /** `testReset(newMailboxes, newNextId)`: replaces the table and the counter; omitted arguments mean empty and 1. */
    method TestReset(newMailboxes: Option<map<nat, Mailbox>>, newNextId: Option<nat>)
      modifies this
      ensures mailboxes == if newMailboxes.Some? then newMailboxes.value else map[]
      ensures nextId == if newNextId.Some? then newNextId.value else 1
      ensures newMailboxes.None? && newNextId.None? ==> Valid()
    {
      mailboxes := if newMailboxes.Some? then newMailboxes.value else map[];
      nextId := if newNextId.Some? then newNextId.value else 1;
    }
  }
}
