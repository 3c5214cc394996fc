/**
 * The context commands: `show contexts`, `create context <domain>`,
 * `edit context <domain> <new domain>` and `delete context <domain>`.
 * lib/voicemail-admin.js and lib/commands/context.js carry the same four
 * handlers; they are modelled once.
 */
module ContextCommands {
  import opened JsValues
  import opened OrderedKeys
  import opened Replies
  import opened DataAccess
  import C = ContextRepository
  import M = MailboxRepository

  /** The underlined header `show contexts` logs above the domains. */
  const DomainHeader := "domain          "

  function DomainExists(domain: string): string {
    "Context with domain '" + domain + "' already exists."
  }

  function Created(domain: string): string {
    "Successfully created context '" + domain + "'"
  }

  function DomainTaken(domain: string): string {
    "A context with domain '" + domain + "' already exists."
  }

  function NoSuchContext(domain: string): string {
    "Context '" + domain + "' not found."
  }

  function Renamed(domain: string, newDomain: string): string {
    "Context '" + domain + "' changed to '" + newDomain + "'"
  }

  function StillHoldsMailboxes(domain: string, count: nat): string {
    "Context '" + domain + "' contains " + NatToString(count) + " mailbox(es) that must be deleted first."
  }

  function Deleted(domain: string): string {
    "Deleted context '" + domain + "'"
  }

  /** One line per context, naming its domain, in the order given. */
  function DomainLines(contexts: seq<C.Context>): (lines: seq<Line>)
    ensures |lines| == |contexts|
    ensures forall i :: 0 <= i < |contexts| ==> lines[i] == Text(contexts[i].domain)
  {
    if contexts == [] then [] else DomainLines(contexts[..|contexts| - 1]) + [Text(contexts[|contexts| - 1].domain)]
  }

  /** The listing names exactly the stored domains. */
  lemma ListedDomains(contexts: map<nat, C.Context>)
    ensures forall d :: Text(d) in DomainLines(InOrder(contexts)) <==> C.HasDomain(contexts, d)
  {
    var listed := InOrder(contexts);
    InOrderMembers(contexts);
    forall d ensures Text(d) in DomainLines(listed) <==> C.HasDomain(contexts, d) {
      if Text(d) in DomainLines(listed) {
        var i :| 0 <= i < |listed| && DomainLines(listed)[i] == Text(d);
        assert listed[i] in contexts.Values;
      }
      if C.HasDomain(contexts, d) {
        var k :| k in contexts && contexts[k].domain == d;
        assert contexts[k] in listed;
        var i :| 0 <= i < |listed| && listed[i] == contexts[k];
        assert DomainLines(listed)[i] == Text(d);
      }
    }
  }

  /** A context added under a free key with a domain nobody has is what `get` then finds, and keeps domains unique. */
  lemma AddedDomainFound(contexts: map<nat, C.Context>, k: nat, domain: string)
    requires k !in contexts && !C.HasDomain(contexts, domain)
    ensures C.Lookup(contexts[k := C.Context(domain, k)], domain) == Some(C.Context(domain, k))
    ensures C.UniqueDomains(contexts) ==> C.UniqueDomains(contexts[k := C.Context(domain, k)])
  {
    var after := contexts[k := C.Context(domain, k)];
    assert C.FirstWithDomain(after, k, domain);
    C.LookupFinds(after, k, domain);
  }

  /**
   * Renaming the context under `k` to a domain nobody has makes `get` find it
   * under the new domain; with unique domains, the old domain is then gone.
   */
  lemma RenamedDomainFound(contexts: map<nat, C.Context>, k: nat, newDomain: string)
    requires k in contexts && !C.HasDomain(contexts, newDomain)
    ensures C.Lookup(contexts[k := contexts[k].(domain := newDomain)], newDomain) == Some(contexts[k].(domain := newDomain))
    ensures C.UniqueDomains(contexts) ==> C.UniqueDomains(contexts[k := contexts[k].(domain := newDomain)])
    ensures C.UniqueDomains(contexts) ==> !C.HasDomain(contexts[k := contexts[k].(domain := newDomain)], contexts[k].domain)
  {
    var after := contexts[k := contexts[k].(domain := newDomain)];
    assert C.FirstWithDomain(after, k, newDomain);
    C.LookupFinds(after, k, newDomain);
  }

  /** The context `get` answers with is stored under its own id, in a valid table. */
  lemma FoundIsStored(contexts: map<nat, C.Context>, nextId: nat, domain: string)
    requires forall k :: k in contexts ==> contexts[k].id == k && 0 < k < nextId
    requires C.HasDomain(contexts, domain)
    ensures C.Lookup(contexts, domain).value.id in contexts
    ensures contexts[C.Lookup(contexts, domain).value.id] == C.Lookup(contexts, domain).value
    ensures C.Lookup(contexts, domain).value.domain == domain
  {
  }

  /** What `showContexts` logs. */
  ghost predicate ListsContexts(dal: Dal, r: Result)
    reads dal.context
  {
    && (r == Ok([Text(DomainHeader)] + DomainLines(InOrder(dal.context.contexts))))
    && (|r.lines| == |dal.context.contexts| + 1)
    && (forall d :: Text(d) in r.lines[1..] <==> C.HasDomain(dal.context.contexts, d))
  }

  /** `showContexts`: the header, then every stored domain in enumeration order. */
  method ShowContexts(dal: Dal) returns (r: Result)
    ensures ListsContexts(dal, r)
  {
    var contexts := dal.context.All();
    var lines := [Text(DomainHeader)];
    for i := 0 to |contexts|
      invariant lines == [Text(DomainHeader)] + DomainLines(contexts[..i])
    {
      assert contexts[..i + 1][..i] == contexts[..i];
      lines := lines + [Text(contexts[i].domain)];
    }
    assert contexts[..|contexts|] == contexts;
    ListedDomains(dal.context.contexts);
    r := Ok(lines);
    assert r.lines[1..] == DomainLines(contexts);
  }

  /** What `createContext` settles with, and the context table it leaves behind. */
  twostate predicate CreatesContext(dal: Dal, tokens: seq<string>, r: Result)
    reads dal.context
  {
    && (|tokens| != 3 ==> r == Err(Syntax, InvalidSyntax(tokens)))
    && (|tokens| == 3 && C.HasDomain(old(dal.context.contexts), tokens[2]) ==>
          r == Err(Conflict, DomainExists(tokens[2])))
    && (r.Ok? <==> |tokens| == 3 && !C.HasDomain(old(dal.context.contexts), tokens[2]))
    && (r.Err? ==> unchanged(dal.context))
    && (r.Ok? ==>
          && r.lines == [Text(Created(tokens[2]))]
          && dal.context.contexts == old(dal.context.contexts)[old(dal.context.nextId) := C.Context(tokens[2], old(dal.context.nextId))]
          && dal.context.nextId == old(dal.context.nextId) + 1)
    && (r.Ok? && old(dal.context.Valid()) ==>
          C.Lookup(dal.context.contexts, tokens[2]) == Some(C.Context(tokens[2], old(dal.context.nextId))))
  }

  /** `createContext`: refuses a domain that is already stored, otherwise saves a new context under the next id. */
  method CreateContext(dal: Dal, tokens: seq<string>) returns (r: Result)
    modifies dal.context
    ensures CreatesContext(dal, tokens, r)
    ensures old(dal.context.Valid()) ==> dal.context.Valid()
    ensures old(dal.context.Valid()) && old(C.UniqueDomains(dal.context.contexts)) ==> C.UniqueDomains(dal.context.contexts)
  {
    if |tokens| != 3 {
      return Err(Syntax, InvalidSyntax(tokens));
    }
    var domain := tokens[2];
    var newContext := C.Create(domain, 0);
    var existing := dal.context.Get(domain);
    if existing.Some? {
      return Err(Conflict, DomainExists(domain));
    }
    ghost var before := dal.context.contexts;
    dal.context.Save(newContext);
    if old(dal.context.Valid()) {
      AddedDomainFound(before, old(dal.context.nextId), domain);
    }
    return Ok([Text(Created(domain))]);
  }

  /** What `editContext` settles with, and the context table it leaves behind. */
  twostate predicate EditsContext(dal: Dal, tokens: seq<string>, r: Result)
    reads dal.context
  {
    && (|tokens| != 4 || tokens[3] == "" ==> r == Err(Syntax, InvalidSyntax(tokens)))
    && (|tokens| == 4 && tokens[3] != "" && C.HasDomain(old(dal.context.contexts), tokens[3]) ==>
          r == Err(Conflict, DomainTaken(tokens[3])))
    && (|tokens| == 4 && tokens[3] != "" && !C.HasDomain(old(dal.context.contexts), tokens[3]) &&
                !C.HasDomain(old(dal.context.contexts), tokens[2]) ==>
          r == Err(NotFound, NoSuchContext(tokens[2])))
    && (r.Ok? <==>
          |tokens| == 4 && tokens[3] != "" &&
          !C.HasDomain(old(dal.context.contexts), tokens[3]) && C.HasDomain(old(dal.context.contexts), tokens[2]))
    && (r.Err? ==> unchanged(dal.context))
    && (r.Ok? ==> r.lines == [Text(Renamed(tokens[2], tokens[3]))])
    && (r.Ok? && old(dal.context.Valid()) ==>
          var c := old(C.Lookup(dal.context.contexts, tokens[2])).value;
          && dal.context.nextId == old(dal.context.nextId)
          && dal.context.contexts == old(dal.context.contexts)[c.id := c.(domain := tokens[3])]
          && C.Lookup(dal.context.contexts, tokens[3]) == Some(c.(domain := tokens[3])))
    && (old(dal.context.Valid()) && old(C.UniqueDomains(dal.context.contexts)) ==>
          && C.UniqueDomains(dal.context.contexts)
          && (r.Ok? ==> !C.HasDomain(dal.context.contexts, tokens[2])))
  }

  /**
   * `editContext`: renames a context. The new domain must be non-empty and
   * not stored yet; that is checked before the context itself is looked up.
   */
  method EditContext(dal: Dal, tokens: seq<string>) returns (r: Result)
    modifies dal.context
    ensures EditsContext(dal, tokens, r)
    ensures old(dal.context.Valid()) ==> dal.context.Valid()
  {
    if |tokens| != 4 {
      return Err(Syntax, InvalidSyntax(tokens));
    }
    var domain := tokens[2];
    var newValue := tokens[3];
    if |newValue| < 1 {
      return Err(Syntax, InvalidSyntax(tokens));
    }
    var existing := dal.context.Get(newValue);
    if existing.Some? {
      return Err(Conflict, DomainTaken(newValue));
    }
    var context := dal.context.Get(domain);
    if context.None? {
      return Err(NotFound, NoSuchContext(domain));
    }
    ghost var before := dal.context.contexts;
    var c := context.value;
    if dal.context.Valid() {
      FoundIsStored(before, dal.context.nextId, domain);
    }
    dal.context.Save(c.(domain := newValue));
    if old(dal.context.Valid()) {
      RenamedDomainFound(before, c.id, newValue);
    }
    return Ok([Text(Renamed(domain, newValue))]);
  }

  /** What `deleteContext` settles with, and the context table it leaves behind. */
  twostate predicate DeletesContext(dal: Dal, tokens: seq<string>, r: Result)
    reads dal.context, dal.mailbox
  {
    && (|tokens| != 3 ==> r == Err(Syntax, InvalidSyntax(tokens)))
    && (|tokens| == 3 && !C.HasDomain(old(dal.context.contexts), tokens[2]) ==>
          r == Err(NotFound, NoSuchContext(tokens[2])))
    && (|tokens| == 3 && C.HasDomain(old(dal.context.contexts), tokens[2]) ==>
          var c := old(C.Lookup(dal.context.contexts, tokens[2])).value;
          var count := |M.KeysInContext(dal.mailbox.mailboxes, dal.mailbox.mailboxes.Keys, c.id)|;
          && (count != 0 ==> r == Err(NotEmpty, StillHoldsMailboxes(tokens[2], count)))
          && (count == 0 && old(dal.context.Valid()) ==>
                && r == Ok([Text(Deleted(tokens[2]))])
                && dal.context.contexts == old(dal.context.contexts) - {c.id}
                && forall k :: k in dal.mailbox.mailboxes ==> dal.mailbox.mailboxes[k].contextId != c.id))
    && (r.Err? ==> dal.context.contexts == old(dal.context.contexts))
    && (dal.context.nextId == old(dal.context.nextId))
    && (r.Ok? && old(dal.context.Valid()) && old(C.UniqueDomains(dal.context.contexts)) ==>
          !C.HasDomain(dal.context.contexts, tokens[2]) && C.UniqueDomains(dal.context.contexts))
  }

  /**
   * `deleteContext`: removes a context, unless some mailbox still belongs
   * to it. Mailboxes are only counted, never touched.
   */
  method DeleteContext(dal: Dal, tokens: seq<string>) returns (r: Result)
    modifies dal.context
    ensures DeletesContext(dal, tokens, r)
    ensures old(dal.context.Valid()) ==> dal.context.Valid()
  {
    if |tokens| != 3 {
      return Err(Syntax, InvalidSyntax(tokens));
    }
    var domain := tokens[2];
    var context := dal.context.Get(domain);
    if context.None? {
      return Err(NotFound, NoSuchContext(domain));
    }
    var count := dal.mailbox.CountByContext(context.value.id);
    if count != 0 {
      return Err(NotEmpty, StillHoldsMailboxes(domain, count));
    }
    ghost var before := dal.context.contexts;
    if dal.context.Valid() {
      FoundIsStored(before, dal.context.nextId, domain);
    }
    ghost var inContext := M.KeysInContext(dal.mailbox.mailboxes, dal.mailbox.mailboxes.Keys, context.value.id);
    assert forall k :: k in dal.mailbox.mailboxes && dal.mailbox.mailboxes[k].contextId == context.value.id ==> k in inContext;
    var outcome := dal.context.Remove(context.value);
    if outcome.Fail? {
      return Err(Rejected, outcome.message);
    }
    if old(dal.context.Valid()) && C.UniqueDomains(before) {
      C.RemoveLeavesNoDomain(before, context.value.id, domain);
    }
    return Ok([Text(Deleted(domain))]);
  }
}
