/**
 * The mock message repository: a module-level table from id to message and a
 * `nextId` counter. A message remembers its mailbox and its folder; the
 * queries compare their ids.
 */
module MessageRepository {
  import opened JsValues
  import opened OrderedKeys
  import opened DalHelpers

  /**
   * A message instance: its six data slots, the ids of the mailbox and folder
   * its `getMailbox` and `getFolder` closures return, and the id its `getId`
   * closure returns (0: none).
   */
  datatype Message = Message(
    date: Value,
    read: Value,
    originalMailbox: Value,
    callerId: Value,
    duration: Value,
    recording: Value,
    mailboxId: nat,
    folderId: nat,
    id: nat)

  /** The slots a fresh instance declares before `populateFields` runs. */
  function Template(): Record {
    map[
      "date" := Undef,
      "read" := Undef,
      "originalMailbox" := Undef,
      "callerId" := Undef,
      "duration" := Undef,
      "recording" := Undef,
      "getId" := Func,
      "getMailbox" := Func,
      "getFolder" := Func,
      "init" := Func,
      "markAsRead" := Func]
  }

  /** `create(mailbox, folder, fields, id)`: a new instance in the mailbox and folder with those ids. */
  function Create(mailboxId: nat, folderId: nat, fields: Value, id: Value): Message {
    var slots := Populated(Template(), fields);
    Message(slots["date"], slots["read"], slots["originalMailbox"], slots["callerId"], slots["duration"],
            slots["recording"], mailboxId, folderId, IdOf(OptionalArgument(fields, id, "number")))
  }

  /**
   * `create(mailbox, folder, fields, id)` slot by slot: each of the six data
   * slots comes from `fields`, or stays undefined; unknown keys are ignored;
   * mailbox and folder are the ones given; the id is `fields` when that is a
   * number, `id` otherwise.
   */
  lemma CreateFillsDeclaredSlots(mailboxId: nat, folderId: nat, fields: Value, id: Value)
    ensures Create(mailboxId, folderId, fields, id).date == Given(fields, "date", Undef)
    ensures Create(mailboxId, folderId, fields, id).read == Given(fields, "read", Undef)
    ensures Create(mailboxId, folderId, fields, id).originalMailbox == Given(fields, "originalMailbox", Undef)
    ensures Create(mailboxId, folderId, fields, id).callerId == Given(fields, "callerId", Undef)
    ensures Create(mailboxId, folderId, fields, id).duration == Given(fields, "duration", Undef)
    ensures Create(mailboxId, folderId, fields, id).recording == Given(fields, "recording", Undef)
    ensures Create(mailboxId, folderId, fields, id).mailboxId == mailboxId && Create(mailboxId, folderId, fields, id).folderId == folderId
    ensures Create(mailboxId, folderId, fields, id).id == IdOf(if fields.Num? then fields else id)
  {
    CreateFillsArrivalSlots(mailboxId, folderId, fields, id);
    CreateFillsCallSlots(mailboxId, folderId, fields, id);
  }

  /** Date, read flag and original mailbox come from the fields, or stay undefined. */
  lemma CreateFillsArrivalSlots(mailboxId: nat, folderId: nat, fields: Value, id: Value)
    ensures Create(mailboxId, folderId, fields, id).date == Given(fields, "date", Undef)
    ensures Create(mailboxId, folderId, fields, id).read == Given(fields, "read", Undef)
    ensures Create(mailboxId, folderId, fields, id).originalMailbox == Given(fields, "originalMailbox", Undef)
  {
    var t := Template();
    assert t["date"] == Undef && t["read"] == Undef && t["originalMailbox"] == Undef;
    PopulatedSlots(t, fields);
  }

  /** Caller id, duration and recording come from the fields, or stay undefined. */
  lemma CreateFillsCallSlots(mailboxId: nat, folderId: nat, fields: Value, id: Value)
    ensures Create(mailboxId, folderId, fields, id).callerId == Given(fields, "callerId", Undef)
    ensures Create(mailboxId, folderId, fields, id).duration == Given(fields, "duration", Undef)
    ensures Create(mailboxId, folderId, fields, id).recording == Given(fields, "recording", Undef)
  {
    var t := Template();
    assert t["callerId"] == Undef && t["duration"] == Undef && t["recording"] == Undef;
    PopulatedSlots(t, fields);
  }

  /** The object of six data fields the repository copies a message through. */
  function FieldsFor(m: Message): Value {
    Obj(map[
      "date" := m.date,
      "read" := m.read,
      "originalMailbox" := m.originalMailbox,
      "callerId" := m.callerId,
      "duration" := m.duration,
      "recording" := m.recording])
  }

  /** Populating a fresh instance from a message's fields restores the date, the read flag and the original mailbox. */
  lemma ArrivalSlotsKept(m: Message)
    ensures Populated(Template(), FieldsFor(m))["date"] == m.date
    ensures Populated(Template(), FieldsFor(m))["read"] == m.read
    ensures Populated(Template(), FieldsFor(m))["originalMailbox"] == m.originalMailbox
  {
    UndefSlotTakesField(Template(), FieldsFor(m), "date");
    UndefSlotTakesField(Template(), FieldsFor(m), "read");
    UndefSlotTakesField(Template(), FieldsFor(m), "originalMailbox");
  }

  /** Populating a fresh instance from a message's fields restores the caller id, the duration and the recording. */
  lemma CallSlotsKept(m: Message)
    ensures Populated(Template(), FieldsFor(m))["callerId"] == m.callerId
    ensures Populated(Template(), FieldsFor(m))["duration"] == m.duration
    ensures Populated(Template(), FieldsFor(m))["recording"] == m.recording
  {
    UndefSlotTakesField(Template(), FieldsFor(m), "callerId");
    UndefSlotTakesField(Template(), FieldsFor(m), "duration");
    UndefSlotTakesField(Template(), FieldsFor(m), "recording");
  }

  /** Re-creating a message from its mailbox, folder and fields under an id yields the message with that id. */
  lemma RebuildKeepsFields(m: Message, id: nat)
    ensures Create(m.mailboxId, m.folderId, FieldsFor(m), Num(id)) == m.(id := id)
  {
    ArrivalSlotsKept(m);
    CallSlotsKept(m);
  }

  /** The copy every read makes: mailbox, folder, the six data fields and the id. It equals the original. */
  function Copy(m: Message): (c: Message)
    ensures c == m
  {
    RebuildKeepsFields(m, m.id);
    Create(m.mailboxId, m.folderId, FieldsFor(m), Num(m.id))
  }

  /** The instance's own `markAsRead()`: whether it was unread, and the instance afterwards. */
  function MarkedRead(m: Message): (bool, Message) {
    if !Truthy(m.read) then (true, m.(read := Bool(true))) else (false, m)
  }

  /**
   * The instance's `markAsRead()` answers true exactly when the message was
   * unread, leaves it read and otherwise unchanged, and answers false on
   * every later call.
   */
  lemma MarkedReadOnce(m: Message)
    ensures MarkedRead(m).0 <==> !Truthy(m.read)
    ensures Truthy(MarkedRead(m).1.read)
    ensures MarkedRead(m).1.(read := m.read) == m
    ensures MarkedRead(MarkedRead(m).1) == (false, MarkedRead(m).1)
  {
  }

  /** The key `save` writes under: the instance's own id, or the next free one when it has none. */
  function SaveKey(id: nat, nextId: nat): nat {
    if id != 0 then id else nextId
  }

  /** The ids, among `s`, of the stored messages of one mailbox. */
  ghost function KeysInMailbox(messages: map<nat, Message>, s: set<nat>, mailboxId: nat): set<nat> {
    set k | k in s && k in messages && messages[k].mailboxId == mailboxId
  }

  /** The ids, among `s`, of the stored messages of one folder. */
  ghost function KeysInFolder(messages: map<nat, Message>, s: set<nat>, folderId: nat): set<nat> {
    set k | k in s && k in messages && messages[k].folderId == folderId
  }

  /** The messages of one mailbox among those stored under `ks`, in that order. */
  ghost function InMailbox(messages: map<nat, Message>, ks: seq<nat>, mailboxId: nat): seq<Message>
    requires forall i :: 0 <= i < |ks| ==> ks[i] in messages
    decreases |ks|
  {
    if ks == [] then []
    else
      (if messages[ks[0]].mailboxId == mailboxId then [messages[ks[0]]] else []) +
      InMailbox(messages, ks[1..], mailboxId)
  }

  /** A message of this mailbox, in this folder. */
  predicate Filed(m: Message, mailboxId: nat, folderId: nat) {
    m.mailboxId == mailboxId && m.folderId == folderId
  }

  /** The messages of one mailbox and one folder among those stored under `ks`, in that order. */
  ghost function InMailboxFolder(messages: map<nat, Message>, ks: seq<nat>, mailboxId: nat, folderId: nat): seq<Message>
    requires forall i :: 0 <= i < |ks| ==> ks[i] in messages
    decreases |ks|
  {
    if ks == [] then []
    else
      var m := messages[ks[0]];
      (if Filed(m, mailboxId, folderId) then [m] else []) +
      InMailboxFolder(messages, ks[1..], mailboxId, folderId)
  }

  /** The table left once the messages of one mailbox among the keys `done` are deleted. */
  ghost function Without(messages: map<nat, Message>, done: seq<nat>, mailboxId: nat): map<nat, Message> {
    map k | k in messages && (k !in done || messages[k].mailboxId != mailboxId) :: messages[k]
  }

  /** The table with every message of one mailbox deleted. */
  ghost function OtherMailboxes(messages: map<nat, Message>, mailboxId: nat): map<nat, Message> {
    map k | k in messages && messages[k].mailboxId != mailboxId :: messages[k]
  }

  lemma InMailboxStep(messages: map<nat, Message>, k: nat, rest: seq<nat>, mailboxId: nat)
    requires k in messages
    requires forall i :: 0 <= i < |rest| ==> rest[i] in messages
    ensures InMailbox(messages, [k] + rest, mailboxId) ==
      (if messages[k].mailboxId == mailboxId then [messages[k]] else []) + InMailbox(messages, rest, mailboxId)
  {
    assert ([k] + rest)[1..] == rest;
  }

  lemma InMailboxFolderStep(messages: map<nat, Message>, k: nat, rest: seq<nat>, mailboxId: nat, folderId: nat)
    requires k in messages
    requires forall i :: 0 <= i < |rest| ==> rest[i] in messages
    ensures InMailboxFolder(messages, [k] + rest, mailboxId, folderId) ==
      (if Filed(messages[k], mailboxId, folderId) then [messages[k]] else []) +
      InMailboxFolder(messages, rest, mailboxId, folderId)
  {
    assert ([k] + rest)[1..] == rest;
  }

  /**
   * Enumerating the keys `s` in order and keeping one mailbox's messages
   * yields exactly those messages, one per key: as many as `countByMailbox`
   * counts.
   */
  lemma {:induction false} InMailboxMembers(messages: map<nat, Message>, s: set<nat>, mailboxId: nat)
    requires s <= messages.Keys
    ensures |InMailbox(messages, Ascending(s), mailboxId)| == |KeysInMailbox(messages, s, mailboxId)|
    ensures forall m :: m in InMailbox(messages, Ascending(s), mailboxId) <==>
      exists k :: k in s && messages[k] == m && m.mailboxId == mailboxId
    decreases s
  {
    if s != {} {
      var ks := Ascending(s);
      var least := Least(s);
      var rest := s - {least};
      assert ks == [least] + Ascending(rest);
      InMailboxStep(messages, least, Ascending(rest), mailboxId);
      InMailboxMembers(messages, rest, mailboxId);
      if messages[least].mailboxId == mailboxId {
        assert KeysInMailbox(messages, s, mailboxId) == KeysInMailbox(messages, rest, mailboxId) + {least};
      } else {
        assert KeysInMailbox(messages, s, mailboxId) == KeysInMailbox(messages, rest, mailboxId);
      }
      forall m | exists k :: k in s && messages[k] == m && m.mailboxId == mailboxId
        ensures m in InMailbox(messages, ks, mailboxId)
      {
        var k :| k in s && messages[k] == m && m.mailboxId == mailboxId;
        if k != least {
          assert k in rest;
        }
      }
    } else {
      assert KeysInMailbox(messages, s, mailboxId) == {};
    }
  }

  /** Enumerating the keys `s` in order and keeping one mailbox's messages in one folder yields exactly those messages. */
  lemma {:induction false} InMailboxFolderMembers(messages: map<nat, Message>, s: set<nat>, mailboxId: nat, folderId: nat)
    requires s <= messages.Keys
    ensures forall m :: m in InMailboxFolder(messages, Ascending(s), mailboxId, folderId) <==>
      exists k :: k in s && messages[k] == m && Filed(m, mailboxId, folderId)
    decreases s
  {
    if s != {} {
      var ks := Ascending(s);
      var least := Least(s);
      var rest := s - {least};
      assert ks == [least] + Ascending(rest);
      InMailboxFolderStep(messages, least, Ascending(rest), mailboxId, folderId);
      InMailboxFolderMembers(messages, rest, mailboxId, folderId);
      forall m | exists k :: k in s && messages[k] == m && Filed(m, mailboxId, folderId)
        ensures m in InMailboxFolder(messages, ks, mailboxId, folderId)
      {
        var k :| k in s && messages[k] == m && Filed(m, mailboxId, folderId);
        if k != least {
          assert k in rest;
        }
      }
    }
  }

  /** The messages `all(mailbox, folder)` reports are exactly the stored messages of that mailbox in that folder. */
  lemma AllMembers(messages: map<nat, Message>, mailboxId: nat, folderId: nat)
    ensures forall m :: m in InMailboxFolder(messages, Ascending(messages.Keys), mailboxId, folderId) <==>
      m in messages.Values && Filed(m, mailboxId, folderId)
  {
    InMailboxFolderMembers(messages, messages.Keys, mailboxId, folderId);
  }

  /** Visiting one more key deletes its message exactly when it belongs to the mailbox. */
  lemma WithoutStep(messages: map<nat, Message>, done: seq<nat>, k: nat, mailboxId: nat)
    requires k in messages && k !in done
    ensures k in Without(messages, done, mailboxId) && Without(messages, done, mailboxId)[k] == messages[k]
    ensures Without(messages, done + [k], mailboxId) ==
      if messages[k].mailboxId == mailboxId then Without(messages, done, mailboxId) - {k}
      else Without(messages, done, mailboxId)
  {
  }

  /** One iteration of `removeByMailbox` on the table: the next key's message is still stored, and is deleted exactly when it belongs to the mailbox. */
  lemma TableVisit(original: map<nat, Message>, ks: seq<nat>, i: nat, table: map<nat, Message>, mailboxId: nat)
    requires ks == Ascending(original.Keys) && i < |ks|
    requires table == Without(original, ks[..i], mailboxId)
    ensures ks[i] in table && table[ks[i]] == original[ks[i]]
    ensures Without(original, ks[..i + 1], mailboxId) ==
      if original[ks[i]].mailboxId == mailboxId then table - {ks[i]} else table
  {
    AscendingFresh(original.Keys, i);
    WithoutStep(original, ks[..i], ks[i], mailboxId);
    assert ks[..i + 1] == ks[..i] + [ks[i]];
  }

  /** One iteration of `removeByMailbox` on what it reports: the next key's message is collected exactly when it belongs to the mailbox. */
  lemma RemovedVisit(original: map<nat, Message>, ks: seq<nat>, i: nat, removed: seq<Message>, mailboxId: nat)
    requires forall j :: 0 <= j < |ks| ==> ks[j] in original
    requires i < |ks|
    requires InMailbox(original, ks, mailboxId) == removed + InMailbox(original, ks[i..], mailboxId)
    ensures InMailbox(original, ks, mailboxId) ==
      (removed + if original[ks[i]].mailboxId == mailboxId then [original[ks[i]]] else []) +
      InMailbox(original, ks[i + 1..], mailboxId)
  {
    assert ks[i..][1..] == ks[i + 1..];
  }

  /** One step of `all(mailbox, folder)`: the message under the next key is collected exactly when it is filed there. */
  lemma FiledVisit(messages: map<nat, Message>, ks: seq<nat>, i: nat, found: seq<Message>, mailboxId: nat, folderId: nat)
    requires forall j :: 0 <= j < |ks| ==> ks[j] in messages
    requires i < |ks|
    requires InMailboxFolder(messages, ks, mailboxId, folderId) == found + InMailboxFolder(messages, ks[i..], mailboxId, folderId)
    ensures InMailboxFolder(messages, ks, mailboxId, folderId) ==
      (found + if Filed(messages[ks[i]], mailboxId, folderId) then [messages[ks[i]]] else []) +
      InMailboxFolder(messages, ks[i + 1..], mailboxId, folderId)
  {
    assert ks[i..][1..] == ks[i + 1..];
  }

  /** Once every key has been visited, exactly the mailbox's messages are gone. */
  lemma WithoutAll(messages: map<nat, Message>, done: seq<nat>, mailboxId: nat)
    requires forall k :: k in messages ==> k in done
    ensures Without(messages, done, mailboxId) == OtherMailboxes(messages, mailboxId)
  {
  }

  /** Once every key has been visited, `removeByMailbox` has reported each of the mailbox's messages once, in enumeration order, and deleted exactly those. */
  lemma RemoveDone(original: map<nat, Message>, ks: seq<nat>, table: map<nat, Message>, removed: seq<Message>, mailboxId: nat)
    requires ks == Ascending(original.Keys)
    requires table == Without(original, ks[..|ks|], mailboxId)
    requires InMailbox(original, ks, mailboxId) == removed + InMailbox(original, ks[|ks|..], mailboxId)
    ensures removed == InMailbox(original, Ascending(original.Keys), mailboxId)
    ensures |removed| == |KeysInMailbox(original, original.Keys, mailboxId)|
    ensures table == OtherMailboxes(original, mailboxId)
  {
    assert ks[..|ks|] == ks;
    AscendingComplete(original.Keys);
    WithoutAll(original, ks, mailboxId);
    InMailboxMembers(original, original.Keys, mailboxId);
  }

  /** Every message is stored under its own non-zero id, below the next id to hand out. */
  ghost predicate Keyed(messages: map<nat, Message>, nextId: nat) {
    && 0 < nextId
    && forall k :: k in messages ==> messages[k].id == k && 0 < k < nextId
  }

  /** Deleting one mailbox's messages keeps every remaining message under its own id. */
  lemma OtherMailboxesKeyed(messages: map<nat, Message>, nextId: nat, mailboxId: nat)
    ensures Keyed(messages, nextId) ==> Keyed(OtherMailboxes(messages, mailboxId), nextId)
  {
  }

  /**
   * After `removeByMailbox`, `countByMailbox` is 0 for that mailbox, and every
   * message of another mailbox is still stored, unchanged.
   */
  lemma OtherMailboxesKept(messages: map<nat, Message>, mailboxId: nat)
    ensures |KeysInMailbox(OtherMailboxes(messages, mailboxId), OtherMailboxes(messages, mailboxId).Keys, mailboxId)| == 0
    ensures forall k :: k in messages && messages[k].mailboxId != mailboxId ==>
      k in OtherMailboxes(messages, mailboxId) && OtherMailboxes(messages, mailboxId)[k] == messages[k]
    ensures OtherMailboxes(messages, mailboxId).Keys == messages.Keys - KeysInMailbox(messages, messages.Keys, mailboxId)
  {
    assert KeysInMailbox(OtherMailboxes(messages, mailboxId), OtherMailboxes(messages, mailboxId).Keys, mailboxId) == {};
  }

  class MessageRepo {
    var messages: map<nat, Message>
    var nextId: nat

    /** Every message is stored under its own non-zero id, below the next id to hand out. */
    ghost predicate Valid()
      reads this
    {
      Keyed(messages, nextId)
    }

    constructor ()
      ensures messages == map[] && nextId == 1
      ensures Valid()
    {
      messages := map[];
      nextId := 1;
    }

    /** `getNextId()`: hands out the counter and advances it. */
    method GetNextId() returns (id: nat)
      modifies this
      ensures id == old(nextId) && nextId == old(nextId) + 1
      ensures messages == old(messages)
    {
      id := nextId;
      nextId := nextId + 1;
    }

    /** `countByMailbox(mailbox)`: how many stored messages belong to the mailbox. */
    method CountByMailbox(mailboxId: nat) returns (count: nat)
      ensures count == |KeysInMailbox(messages, messages.Keys, mailboxId)|
    {
      count := 0;
      var rest := messages.Keys;
      while rest != {}
        invariant rest <= messages.Keys
        invariant count == |KeysInMailbox(messages, messages.Keys - rest, mailboxId)|
        decreases rest
      {
        var k :| k in rest;
        var rest' := rest - {k};
        if messages[k].mailboxId == mailboxId {
          assert KeysInMailbox(messages, messages.Keys - rest', mailboxId) ==
            KeysInMailbox(messages, messages.Keys - rest, mailboxId) + {k};
          count := count + 1;
        } else {
          assert KeysInMailbox(messages, messages.Keys - rest', mailboxId) ==
            KeysInMailbox(messages, messages.Keys - rest, mailboxId);
        }
        rest := rest';
      }
      assert messages.Keys - rest == messages.Keys;
    }

    /** `countByFolder(folder)`: how many stored messages are in the folder. */
    method CountByFolder(folderId: nat) returns (count: nat)
      ensures count == |KeysInFolder(messages, messages.Keys, folderId)|
    {
      count := 0;
      var rest := messages.Keys;
      while rest != {}
        invariant rest <= messages.Keys
        invariant count == |KeysInFolder(messages, messages.Keys - rest, folderId)|
        decreases rest
      {
        var k :| k in rest;
        var rest' := rest - {k};
        if messages[k].folderId == folderId {
          assert KeysInFolder(messages, messages.Keys - rest', folderId) ==
            KeysInFolder(messages, messages.Keys - rest, folderId) + {k};
          count := count + 1;
        } else {
          assert KeysInFolder(messages, messages.Keys - rest', folderId) ==
            KeysInFolder(messages, messages.Keys - rest, folderId);
        }
        rest := rest';
      }
      assert messages.Keys - rest == messages.Keys;
    }

    /** `all(mailbox, folder)`: copies of the messages of that mailbox in that folder, in enumeration order. */
    method All(mailboxId: nat, folderId: nat) returns (found: seq<Message>)
      ensures found == InMailboxFolder(messages, Ascending(messages.Keys), mailboxId, folderId)
      ensures forall m :: m in found <==> m in messages.Values && Filed(m, mailboxId, folderId)
    {
      var ks := EnumerationOrder(messages.Keys);
      found := [];
      for i := 0 to |ks|
        invariant InMailboxFolder(messages, ks, mailboxId, folderId) ==
          found + InMailboxFolder(messages, ks[i..], mailboxId, folderId)
      {
        FiledVisit(messages, ks, i, found, mailboxId, folderId);
        var m := messages[ks[i]];
        if Filed(m, mailboxId, folderId) {
          found := found + [m];
        }
      }
      AllMembers(messages, mailboxId, folderId);
    }

    /** `save(instance)`: stores a copy of mailbox, folder and the six data fields, allocating an id only when the instance has none. */
    method Save(instance: Message)
      modifies this
      ensures messages == old(messages)[SaveKey(instance.id, old(nextId)) := instance.(id := SaveKey(instance.id, old(nextId)))]
      ensures nextId == if instance.id == 0 then old(nextId) + 1 else old(nextId)
      ensures old(Valid()) && (instance.id == 0 || instance.id in old(messages)) ==> Valid()
    {
      var id := instance.id;
      if id == 0 {
        id := GetNextId();
      }
      // the stored copy, `Create(mailbox, folder, FieldsFor(instance), Num(id))`, is `instance.(id := id)` (RebuildKeepsFields)
      messages := messages[id := instance.(id := id)];
    }

    /** `changeFolder(message, folder)`: saves the message, under its own id, in the new folder; it must have an id. */
    method ChangeFolder(message: Message, folderId: nat) returns (r: Outcome, moved: Message)
      modifies this
      ensures message.id == 0 ==> r == Fail("message has no id.") && messages == old(messages)
      ensures message.id != 0 ==> r == Pass && moved == message.(folderId := folderId)
      ensures message.id != 0 ==> messages == old(messages)[message.id := message.(folderId := folderId)]
      ensures nextId == old(nextId)
      ensures old(Valid()) && message.id in old(messages) ==> Valid()
    {
      moved := message;
      if message.id == 0 {
        return Fail("message has no id."), moved;
      }
      moved := message.(folderId := folderId);
      Save(moved);
      r := Pass;
    }

    /**
     * `markAsRead(instance)`: sets an unread instance's `read` slot, saves
     * it and answers true; an already read one is left alone. `updated` is
     * the caller's instance afterwards.
     */
    method MarkAsRead(instance: Message) returns (r: Outcome, marked: bool, updated: Message)
      modifies this
      ensures instance.id == 0 ==> r == Fail("message has no id.") && !marked && updated == instance
      ensures instance.id != 0 ==> r == Pass && (marked, updated) == MarkedRead(instance)
      ensures !marked ==> messages == old(messages)
      ensures marked ==> messages == old(messages)[instance.id := updated]
      ensures nextId == old(nextId)
      ensures old(Valid()) && instance.id in old(messages) ==> Valid()
    {
      if instance.id == 0 {
        return Fail("message has no id."), false, instance;
      }
      if Truthy(instance.read) {
        return Pass, false, instance;
      }
      updated := instance.(read := Bool(true));
      Save(updated);
      r, marked := Pass, true;
    }

    /** `remove(instance)`: deletes the instance's entry; fails when it has no id or no entry. */
    method Remove(instance: Message) returns (r: Outcome)
      modifies this
      ensures instance.id == 0 ==> r == Fail("instance has no id.")
      ensures instance.id != 0 && instance.id !in old(messages) ==> r == Fail("instance does not exist in database.")
      ensures r.Fail? ==> messages == old(messages)
      ensures r.Pass? <==> instance.id != 0 && instance.id in old(messages)
      ensures r.Pass? ==> messages == old(messages) - {instance.id}
      ensures nextId == old(nextId)
      ensures old(Valid()) ==> Valid()
    {
      var id := instance.id;
      if id == 0 {
        return Fail("instance has no id.");
      }
      if id !in messages {
        return Fail("instance does not exist in database.");
      }
      messages := messages - {id};
      return Pass;
    }

    /** `removeByMailbox(mailbox)`: deletes the mailbox's messages while enumerating, and answers copies of them in that order. */
    method RemoveByMailbox(mailboxId: nat) returns (removed: seq<Message>)
      modifies this
      ensures removed == InMailbox(old(messages), Ascending(old(messages).Keys), mailboxId)
      ensures |removed| == |KeysInMailbox(old(messages), old(messages).Keys, mailboxId)|
      ensures messages == OtherMailboxes(old(messages), mailboxId)
      ensures nextId == old(nextId)
      ensures old(Valid()) ==> Valid()
    {
      ghost var original := messages;
      var ks := EnumerationOrder(messages.Keys);
      removed := [];
      for i := 0 to |ks|
        invariant nextId == old(nextId)
        invariant messages == Without(original, ks[..i], mailboxId)
        invariant InMailbox(original, ks, mailboxId) == removed + InMailbox(original, ks[i..], mailboxId)
      {
        TableVisit(original, ks, i, messages, mailboxId);
        RemovedVisit(original, ks, i, removed, mailboxId);
        var m := messages[ks[i]];
        if m.mailboxId == mailboxId {
          removed := removed + [m];
          messages := messages - {ks[i]};
        }
      }
      RemoveDone(original, ks, messages, removed, mailboxId);
      OtherMailboxesKeyed(original, nextId, mailboxId);
    }

    /** `testReset(newMessages, newNextId)`: replaces the table and the counter; omitted arguments mean empty and 1. */
    method TestReset(newMessages: Option<map<nat, Message>>, newNextId: Option<nat>)
      modifies this
      ensures messages == if newMessages.Some? then newMessages.value else map[]
      ensures nextId == if newNextId.Some? then newNextId.value else 1
      ensures newMessages.None? && newNextId.None? ==> Valid()
    {
      messages := if newMessages.Some? then newMessages.value else map[];
      nextId := if newNextId.Some? then newNextId.value else 1;
    }
  }
}
