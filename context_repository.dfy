/**
 * The mock context repository: a module-level table from id to context and
 * a `nextId` counter. Reads hand out copies; only `save`, `remove` and
 * `testReset` change the table.
 */
module ContextRepository {
  import opened JsValues
  import opened OrderedKeys

  /** A context (domain) instance; `id` 0 stands for an instance that was never saved. */
  datatype Context = Context(domain: string, id: nat)

  /** `create(domain, id)`: a new instance; being a value, it cannot touch the table. */
  function Create(domain: string, id: nat): Context {
    Context(domain, id)
  }

  /** The key `save` writes under: the instance's own id, or the next free one when it has none. */
  function SaveKey(id: nat, nextId: nat): nat {
    if id != 0 then id else nextId
  }

  /** Some stored context has this domain. */
  ghost predicate HasDomain(contexts: map<nat, Context>, domain: string) {
    exists k :: k in contexts && contexts[k].domain == domain
  }

  /** `k` is the first key, in enumeration order, whose context has this domain. */
  ghost predicate FirstWithDomain(contexts: map<nat, Context>, k: nat, domain: string) {
    && k in contexts
    && contexts[k].domain == domain
    && forall j :: j in contexts && j < k ==> contexts[j].domain != domain
  }

  /** The context `get(domain)` answers with: the one under the least key with that domain, or none. */
  ghost function Lookup(contexts: map<nat, Context>, domain: string): (r: Option<Context>)
    ensures r.None? <==> !HasDomain(contexts, domain)
    ensures r.Some? ==> exists k :: FirstWithDomain(contexts, k, domain) && r.value == contexts[k]
  {
    if HasDomain(contexts, domain) then
      var matching := set j | j in contexts && contexts[j].domain == domain;
      assert forall j :: j in contexts && contexts[j].domain == domain ==> j in matching;
      var k := Least(matching);
      Some(contexts[k])
    else None
  }

  /** The first context with the domain, in enumeration order, is what a lookup answers. */
  lemma LookupFinds(contexts: map<nat, Context>, k: nat, domain: string)
    requires FirstWithDomain(contexts, k, domain)
    ensures Lookup(contexts, domain) == Some(contexts[k])
  {
  }

  /** No two stored contexts share a domain. */
  ghost predicate UniqueDomains(contexts: map<nat, Context>) {
    forall j, k :: j in contexts && k in contexts && contexts[j].domain == contexts[k].domain ==> j == k
  }

  class ContextRepo {
    var contexts: map<nat, Context>
    var nextId: nat

    /** Every context is stored under its own non-zero id, below the next id to hand out. */
    ghost predicate Valid()
      reads this
    {
      && 0 < nextId
      && forall k :: k in contexts ==> contexts[k].id == k && 0 < k < nextId
    }

    constructor ()
      ensures contexts == map[] && nextId == 1
      ensures Valid()
    {
      contexts := map[];
      nextId := 1;
    }

    /** `getNextId()`: hands out the counter and advances it. */
    method GetNextId() returns (id: nat)
      modifies this
      ensures id == old(nextId) && nextId == old(nextId) + 1
      ensures contexts == old(contexts)
    {
      id := nextId;
      nextId := nextId + 1;
    }

    /** `all()`: one copy of every stored context, in enumeration order. */
    method All() returns (all: seq<Context>)
      ensures all == InOrder(contexts)
      ensures |all| == |contexts|
      ensures forall c :: c in all <==> c in contexts.Values
    {
      var ks := EnumerationOrder(contexts.Keys);
      all := [];
      for i := 0 to |ks|
        invariant all == ValuesAt(contexts, ks[..i])
      {
        assert ks[..i + 1][..i] == ks[..i];
        all := all + [Create(contexts[ks[i]].domain, contexts[ks[i]].id)];
      }
      assert ks[..|ks|] == ks;
      InOrderMembers(contexts);
    }

    /** `get(domain)`: a copy of the first context with that domain, or null. */
    method Get(domain: string) returns (r: Option<Context>)
      ensures r == Lookup(contexts, domain)
    {
      var rest := contexts.Keys;
      while rest != {}
        invariant rest <= contexts.Keys
        invariant forall j :: j in contexts && j !in rest ==> contexts[j].domain != domain
        invariant forall j, k :: j in contexts && j !in rest && k in rest ==> j < k
        decreases rest
      {
        var k;
        k, rest := PopLeast(rest);
        if contexts[k].domain == domain {
          assert FirstWithDomain(contexts, k, domain);
          LookupFinds(contexts, k, domain);
          return Some(Create(contexts[k].domain, contexts[k].id));
        }
      }
      return None;
    }

    /** `save(instance)`: stores a fresh copy under the instance's id, allocating one if it has none. */
    method Save(instance: Context)
      modifies this
      ensures contexts == old(contexts)[SaveKey(instance.id, old(nextId)) := Context(instance.domain, SaveKey(instance.id, old(nextId)))]
      ensures nextId == if instance.id == 0 then old(nextId) + 1 else old(nextId)
      ensures old(Valid()) && (instance.id == 0 || instance.id in old(contexts)) ==> Valid()
    {
      var id := instance.id;
      if id == 0 {
        id := GetNextId();
      }
      contexts := contexts[id := Create(instance.domain, id)];
    }

    /** `remove(instance)`: deletes the instance's entry; fails when it has no id or no entry. */
    method Remove(instance: Context) returns (r: Outcome)
      modifies this
      ensures instance.id == 0 ==> r == Fail("instance has no id.")
      ensures instance.id != 0 && instance.id !in old(contexts) ==> r == Fail("instance does not exist in database.")
      ensures r.Fail? ==> contexts == old(contexts)
      ensures r.Pass? <==> instance.id != 0 && instance.id in old(contexts)
      ensures r.Pass? ==> contexts == old(contexts) - {instance.id}
      ensures nextId == old(nextId)
      ensures old(Valid()) ==> Valid()
    {
      var id := instance.id;
      if id == 0 {
        return Fail("instance has no id.");
      }
      if id !in contexts {
        return Fail("instance does not exist in database.");
      }
      contexts := contexts - {id};
      return Pass;
    }

    /** `testReset(newContexts, newNextId)`: replaces the table and the counter; omitted arguments mean empty and 1. */
    method TestReset(newContexts: Option<map<nat, Context>>, newNextId: Option<nat>)
      modifies this
      ensures contexts == if newContexts.Some? then newContexts.value else map[]
      ensures nextId == if newNextId.Some? then newNextId.value else 1
      ensures newContexts.None? && newNextId.None? ==> Valid()
    {
      contexts := if newContexts.Some? then newContexts.value else map[];
      nextId := if newNextId.Some? then newNextId.value else 1;
    }
  }

  /** A lookup's answer is the only context with that domain when domains are unique. */
  lemma UniqueLookup(contexts: map<nat, Context>, k: nat, domain: string)
    requires UniqueDomains(contexts)
    requires FirstWithDomain(contexts, k, domain)
    ensures forall j :: j in contexts && contexts[j].domain == domain ==> j == k
  {
  }

  /** Removing the one context with a domain leaves no context with it, when domains are unique. */
  lemma RemoveLeavesNoDomain(contexts: map<nat, Context>, k: nat, domain: string)
    requires UniqueDomains(contexts)
    requires k in contexts && contexts[k].domain == domain
    ensures !HasDomain(contexts - {k}, domain)
    ensures UniqueDomains(contexts - {k})
  {
  }
}
