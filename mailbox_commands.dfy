/**
 * The mailbox commands, each naming a mailbox as `<number>@<domain>`:
 * `show mailbox`, `show mailboxes <domain>`, `create mailbox <key>
 * <password> <name> <email>`, `edit mailbox <key> <field> <value>`,
 * `delete mailbox <key>` and `delete messages <key>`. lib/voicemail-admin.js
 * and lib/commands/mailbox.js carry the same handlers; they are modelled once.
 */
module MailboxCommands {
  import opened JsValues
  import opened JsStrings
  import opened OrderedKeys
  import opened DalHelpers
  import opened CommandHelpers
  import opened Replies
  import opened DataAccess
  import C = ContextRepository
  import M = MailboxRepository
  import MR = MessageRepository
  import ContextCommands

  function NoSuchMailbox(number: string, domain: string): string {
    "Mailbox '" + number + "@" + domain + "' not found."
  }

  /** `deleteMailbox`'s not-found message, whose format string has no `@` between number and domain. */
  function NoSuchMailboxJoined(number: string, domain: string): string {
    "Mailbox '" + number + domain + "' not found."
  }

  function NoContextFor(number: string, domain: string): string {
    "Context '" + domain + "' requested for '" + number + "@" + domain + "' does not exist."
  }

  function MailboxExists(number: string, domain: string): string {
    "Requested mailbox '" + number + "@" + domain + "' already exists."
  }

  function MailboxCreated(number: string, domain: string): string {
    "Successfully created mailbox '" + number + "@" + domain + "'."
  }

  function NotEditableField(field: string): string {
    "'" + field + "' is not an editable property of mailboxes."
  }

  /** `editMailbox`'s success message, whose format string also has no `@`. */
  function MailboxUpdated(number: string, domain: string): string {
    "Mailbox '" + number + domain + "' updated"
  }

  function StillHoldsMessages(number: string, domain: string, count: nat): string {
    "Mailbox '" + number + "@" + domain + "' has " + NatToString(count) + " messages in it that must be deleted first."
  }

  function MailboxDeleted(number: string, domain: string): string {
    "Deleted mailbox '" + number + "@" + domain + "'"
  }

  function MessagesDeleted(count: nat): string {
    "Deleted " + NatToString(count) + " messages"
  }

  // ---------------------------------------------------------------- keys

  /** `entryComponents` has `count` words and its third splits on `@` into exactly two parts. */
  predicate KeyedCommand(tokens: seq<string>, count: nat) {
    count >= 3 && |tokens| == count && |Split(tokens[2], '@')| == 2
  }

  /** `mailboxKey[0]`. */
  function NumberOf(tokens: seq<string>): string
    requires |tokens| >= 3 && |Split(tokens[2], '@')| == 2
  {
    Split(tokens[2], '@')[0]
  }

  /** `mailboxKey[1]`. */
  function DomainOf(tokens: seq<string>): string
    requires |tokens| >= 3 && |Split(tokens[2], '@')| == 2
  {
    Split(tokens[2], '@')[1]
  }

  /** A mailbox key is well formed exactly when it holds one `@`; either side may be empty. */
  lemma KeyNeedsOneAt(key: string)
    ensures |Split(key, '@')| == 2 <==> Occurrences(key, '@') == 1
  {
    SplitParts(key, '@');
  }

  /** A number and a domain without `@` come back from their key unchanged. */
  lemma KeyRoundTrip(number: string, domain: string)
    requires '@' !in number && '@' !in domain
    ensures Split(number + "@" + domain, '@') == [number, domain]
  {
    SplitAfterPrefix(number, domain, '@');
    SplitNoSeparator(domain, '@');
    assert number + "@" + domain == number + ['@'] + domain;
  }

  /**
   * The mailbox a key names: the context `get(domain)` finds, then the
   * mailbox `get(number, context)` finds in it.
   */
  ghost function Resolve(contexts: map<nat, C.Context>, mailboxes: map<nat, M.Mailbox>, number: string, domain: string): (r: Option<M.Mailbox>)
    ensures r.None? <==> !C.HasDomain(contexts, domain) || !M.HasMailbox(mailboxes, number, C.Lookup(contexts, domain).value.id)
    ensures r.Some? ==>
      && r.value in mailboxes.Values
      && M.Matches(r.value, number, C.Lookup(contexts, domain).value.id)
  {
    match C.Lookup(contexts, domain)
    case None => None
    case Some(c) => M.Lookup(mailboxes, number, c.id)
  }

  /** Resolving a key: the two lookups, in the handlers' order. */
  method ResolveKey(dal: Dal, number: string, domain: string) returns (context: Option<C.Context>, mailbox: Option<M.Mailbox>)
    ensures context == C.Lookup(dal.context.contexts, domain)
    ensures mailbox == Resolve(dal.context.contexts, dal.mailbox.mailboxes, number, domain)
    ensures mailbox.Some? ==> context.Some?
  {
    context := dal.context.Get(domain);
    if context.None? {
      return context, None;
    }
    mailbox := dal.mailbox.Get(number, context.value.id);
  }

  /** The mailbox `get` answers with is stored under its own id, in a valid table. */
  lemma FoundIsStored(mailboxes: map<nat, M.Mailbox>, nextId: nat, number: string, contextId: nat)
    requires forall k :: k in mailboxes ==> mailboxes[k].id == k && 0 < k < nextId
    requires M.HasMailbox(mailboxes, number, contextId)
    ensures M.Lookup(mailboxes, number, contextId).value.id in mailboxes
    ensures mailboxes[M.Lookup(mailboxes, number, contextId).value.id] == M.Lookup(mailboxes, number, contextId).value
  {
  }

  // ---------------------------------------------------------------- show

  /** What `showMailbox` settles with. */
  ghost predicate ShowsMailbox(dal: Dal, tokens: seq<string>, r: Result)
    reads dal.context, dal.mailbox
  {
    && (!KeyedCommand(tokens, 3) ==> r == Err(Syntax, InvalidSyntax(tokens)))
    && (KeyedCommand(tokens, 3) ==>
          match Resolve(dal.context.contexts, dal.mailbox.mailboxes, NumberOf(tokens), DomainOf(tokens))
          case None => r == Err(NotFound, NoSuchMailbox(NumberOf(tokens), DomainOf(tokens)))
          case Some(m) => r == Ok([Json(Plain(M.Slots(m)))]))
  }

  /** `showMailbox`: the named mailbox as JSON, with its accessor methods culled. */
  method ShowMailbox(dal: Dal, tokens: seq<string>) returns (r: Result)
    ensures ShowsMailbox(dal, tokens, r)
  {
    if |tokens| != 3 {
      return Err(Syntax, InvalidSyntax(tokens));
    }
    var key := Split(tokens[2], '@');
    if |key| != 2 {
      return Err(Syntax, InvalidSyntax(tokens));
    }
    var number, domain := key[0], key[1];
    var context, mailbox := ResolveKey(dal, number, domain);
    if mailbox.None? {
      return Err(NotFound, NoSuchMailbox(number, domain));
    }
    var shown := new JsObject(M.Slots(mailbox.value));
    RemoveNonValues(shown);
    return Ok([Json(shown.props)]);
  }

  /** What `showMailbox` logs: no accessor method, and every string-valued slot. */
  lemma ShownMailboxFields(m: M.Mailbox)
    ensures "getId" !in Plain(M.Slots(m)) && "getContext" !in Plain(M.Slots(m))
    ensures m.mailboxNumber.Str? ==> "mailboxNumber" in Plain(M.Slots(m)) && Plain(M.Slots(m))["mailboxNumber"] == m.mailboxNumber
    ensures m.email.Str? ==> "email" in Plain(M.Slots(m)) && Plain(M.Slots(m))["email"] == m.email
  {
    var slots := M.Slots(m);
    assert slots["getId"] == Func && slots["getContext"] == Func;
    assert slots["mailboxNumber"] == m.mailboxNumber && slots["email"] == m.email;
  }

  /** The underlined header: `sprintf('%-20s %-25s %-25s', 'number', 'email', 'name')`. */
  function MailboxHeader(): string {
    Columns(["number", "email", "name"], [20, 25, 25])
  }

  /** One mailbox's line: its `<number>@<domain>`, email and name in padded columns. */
  function MailboxRow(m: M.Mailbox, domain: string): string {
    Columns([Display(m.mailboxNumber) + "@" + domain, Display(m.email), Display(m.name)], [20, 25, 25])
  }

  /** One line per mailbox, in the order given. */
  function MailboxRows(mailboxes: seq<M.Mailbox>, domain: string): (lines: seq<Line>)
    ensures |lines| == |mailboxes|
  {
    if mailboxes == [] then []
    else MailboxRows(mailboxes[..|mailboxes| - 1], domain) + [Text(MailboxRow(mailboxes[|mailboxes| - 1], domain))]
  }

  /** The line at each position is the line of the mailbox at that position. */
  lemma {:induction false} MailboxRowsAt(mailboxes: seq<M.Mailbox>, domain: string)
    ensures forall i :: 0 <= i < |mailboxes| ==> MailboxRows(mailboxes, domain)[i] == Text(MailboxRow(mailboxes[i], domain))
    decreases |mailboxes|
  {
    if mailboxes != [] {
      var init := mailboxes[..|mailboxes| - 1];
      MailboxRowsAt(init, domain);
      forall i | 0 <= i < |mailboxes|
        ensures MailboxRows(mailboxes, domain)[i] == Text(MailboxRow(mailboxes[i], domain))
      {
        if i < |init| {
          assert init[i] == mailboxes[i];
        }
      }
    }
  }

  /** One more mailbox, one more line. */
  lemma MailboxRowsStep(mailboxes: seq<M.Mailbox>, i: nat, domain: string)
    requires i < |mailboxes|
    ensures MailboxRows(mailboxes[..i + 1], domain) == MailboxRows(mailboxes[..i], domain) + [Text(MailboxRow(mailboxes[i], domain))]
  {
    assert mailboxes[..i + 1][..i] == mailboxes[..i];
  }

  /** The listing has one line per mailbox of the context, and every such mailbox has its line. */
  lemma ListedMailboxes(mailboxes: map<nat, M.Mailbox>, contextId: nat, domain: string)
    ensures |MailboxRows(M.InContext(mailboxes, Ascending(mailboxes.Keys), contextId), domain)| ==
      |M.KeysInContext(mailboxes, mailboxes.Keys, contextId)|
    ensures forall m :: m in mailboxes.Values && m.contextId == contextId ==>
      Text(MailboxRow(m, domain)) in MailboxRows(M.InContext(mailboxes, Ascending(mailboxes.Keys), contextId), domain)
  {
    var listed := M.InContext(mailboxes, Ascending(mailboxes.Keys), contextId);
    M.FoundInContext(mailboxes, contextId);
    MailboxRowsAt(listed, domain);
    forall m | m in mailboxes.Values && m.contextId == contextId
      ensures Text(MailboxRow(m, domain)) in MailboxRows(listed, domain)
    {
      var i :| 0 <= i < |listed| && listed[i] == m;
      assert MailboxRows(listed, domain)[i] == Text(MailboxRow(m, domain));
    }
  }

  /** What `showMailboxes` settles with. */
  ghost predicate ListsMailboxes(dal: Dal, tokens: seq<string>, r: Result)
    reads dal.context, dal.mailbox
  {
    && (|tokens| != 3 ==> r == Err(Syntax, InvalidSyntax(tokens)))
    && (|tokens| == 3 && !C.HasDomain(dal.context.contexts, tokens[2]) ==>
          r == Err(NotFound, ContextCommands.NoSuchContext(tokens[2])))
    && (|tokens| == 3 && C.HasDomain(dal.context.contexts, tokens[2]) ==>
          var c := C.Lookup(dal.context.contexts, tokens[2]).value;
          r == Ok([Text(MailboxHeader())] +
                   MailboxRows(M.InContext(dal.mailbox.mailboxes, Ascending(dal.mailbox.mailboxes.Keys), c.id), tokens[2])))
  }

  /** `showMailboxes`: the header, then one line per mailbox of the context, in enumeration order. */
  method ShowMailboxes(dal: Dal, tokens: seq<string>) returns (r: Result)
    ensures ListsMailboxes(dal, tokens, r)
  {
    if |tokens| != 3 {
      return Err(Syntax, InvalidSyntax(tokens));
    }
    var domain := tokens[2];
    var context := dal.context.Get(domain);
    if context.None? {
      return Err(NotFound, ContextCommands.NoSuchContext(domain));
    }
    var mailboxes := dal.mailbox.FindByContext(context.value.id);
    var lines := ListMailboxes(mailboxes, domain);
    return Ok(lines);
  }

  /** The loop of `showMailboxes`: the header, then each mailbox's line in turn. */
  method ListMailboxes(mailboxes: seq<M.Mailbox>, domain: string) returns (lines: seq<Line>)
    ensures lines == [Text(MailboxHeader())] + MailboxRows(mailboxes, domain)
  {
    var rows := [];
    for i := 0 to |mailboxes|
      invariant rows == MailboxRows(mailboxes[..i], domain)
    {
      MailboxRowsStep(mailboxes, i, domain);
      rows := rows + [Text(MailboxRow(mailboxes[i], domain))];
    }
    assert mailboxes[..|mailboxes|] == mailboxes;
    lines := [Text(MailboxHeader())] + rows;
  }

  // ---------------------------------------------------------------- create

  /** The mailbox `createMailbox` saves: number, password, name and email set, every other slot undefined, no id yet. */
  function NewMailbox(number: string, contextId: nat, password: string, name: string, email: string): M.Mailbox {
    M.Mailbox(Str(number), Undef, Str(password), Str(name), Str(email),
              Undef, Undef, Undef, Undef, Undef, contextId, 0)
  }

  /** lib/voicemail-admin.js creates the bare instance and then sets the three fields. */
  lemma AssignedAfterCreate(number: string, contextId: nat, password: string, name: string, email: string)
    ensures M.Create(Str(number), contextId, Undef, Undef).(password := Str(password), name := Str(name), email := Str(email)) ==
            NewMailbox(number, contextId, password, name, email)
  {
    var t := M.Template(Str(number));
    assert Populated(t, Undef) == t;
    assert t["mailboxNumber"] == Str(number) && t["mailboxName"] == Undef;
    assert t["read"] == Undef && t["unread"] == Undef;
    assert t["greetingBusy"] == Undef && t["greetingAway"] == Undef && t["greetingName"] == Undef;
  }

  /** The fields object lib/commands/mailbox.js hands to `create`. */
  function Profile(password: string, name: string, email: string): Value {
    Obj(map["password" := Str(password), "name" := Str(name), "email" := Str(email)])
  }

  /** The three profile slots take the given values. */
  lemma ProfileSlotsFilled(number: string, password: string, name: string, email: string)
    ensures var p := Populated(M.Template(Str(number)), Profile(password, name, email));
      p["password"] == Str(password) && p["name"] == Str(name) && p["email"] == Str(email)
  {
    var t := M.Template(Str(number));
    UndefSlotTakesField(t, Profile(password, name, email), "password");
    UndefSlotTakesField(t, Profile(password, name, email), "name");
    UndefSlotTakesField(t, Profile(password, name, email), "email");
  }

  /** Fields naming only the three profile slots leave the number and the other slots as the template has them. */
  lemma OtherSlotsKept(number: string, fields: Value)
    requires fields.Obj? && fields.props.Keys == {"password", "name", "email"}
    ensures var p := Populated(M.Template(Str(number)), fields);
      && p["mailboxNumber"] == Str(number) && p["mailboxName"] == Undef
      && p["read"] == Undef && p["unread"] == Undef
      && p["greetingBusy"] == Undef && p["greetingAway"] == Undef && p["greetingName"] == Undef
  {
    var t := M.Template(Str(number));
    assert t["mailboxNumber"] == Str(number) && "mailboxNumber" !in fields.props;
    assert t["mailboxName"] == Undef && "mailboxName" !in fields.props;
    assert t["read"] == Undef && "read" !in fields.props;
    assert t["unread"] == Undef && "unread" !in fields.props;
    assert t["greetingBusy"] == Undef && "greetingBusy" !in fields.props;
    assert t["greetingAway"] == Undef && "greetingAway" !in fields.props;
    assert t["greetingName"] == Undef && "greetingName" !in fields.props;
  }

  /** lib/commands/mailbox.js hands the three fields to `create` instead: the same mailbox. */
  lemma PopulatedOnCreate(number: string, contextId: nat, password: string, name: string, email: string)
    ensures M.Create(Str(number), contextId, Profile(password, name, email), Undef) ==
            NewMailbox(number, contextId, password, name, email)
  {
    ProfileSlotsFilled(number, password, name, email);
    assert Profile(password, name, email).props.Keys == {"password", "name", "email"};
    OtherSlotsKept(number, Profile(password, name, email));
    assert IdOf(OptionalArgument(Profile(password, name, email), Undef, "number")) == 0;
  }

  /** No two stored mailboxes share a number within one context. */
  ghost predicate UniqueKeys(mailboxes: map<nat, M.Mailbox>) {
    forall j, k ::
      && j in mailboxes && k in mailboxes
      && mailboxes[j].mailboxNumber == mailboxes[k].mailboxNumber
      && mailboxes[j].contextId == mailboxes[k].contextId
      ==> j == k
  }

  /** A mailbox whose number is not taken in its context, added under a free key, keeps keys unique and is what `get` finds. */
  lemma AddedMailboxFound(mailboxes: map<nat, M.Mailbox>, k: nat, m: M.Mailbox, number: string)
    requires k !in mailboxes && m.mailboxNumber == Str(number)
    requires !M.HasMailbox(mailboxes, number, m.contextId)
    ensures UniqueKeys(mailboxes) ==> UniqueKeys(mailboxes[k := m])
    ensures M.Lookup(mailboxes[k := m], number, m.contextId) == Some(m)
  {
    var after := mailboxes[k := m];
    assert M.FirstMatch(after, k, number, m.contextId);
    M.LookupFinds(after, k, number, m.contextId);
  }

  /** What `createMailbox` settles with, and the mailbox table it leaves behind. */
  twostate predicate CreatesMailbox(dal: Dal, tokens: seq<string>, r: Result)
    reads dal.context, dal.mailbox
  {
    && (!KeyedCommand(tokens, 6) ==> r == Err(Syntax, InvalidSyntax(tokens)))
    && (KeyedCommand(tokens, 6) && !C.HasDomain(dal.context.contexts, DomainOf(tokens)) ==>
          r == Err(NotFound, NoContextFor(NumberOf(tokens), DomainOf(tokens))))
    && (KeyedCommand(tokens, 6) && C.HasDomain(dal.context.contexts, DomainOf(tokens)) &&
                M.HasMailbox(old(dal.mailbox.mailboxes), NumberOf(tokens), C.Lookup(dal.context.contexts, DomainOf(tokens)).value.id) ==>
          r == Err(Conflict, MailboxExists(NumberOf(tokens), DomainOf(tokens))))
    && (r.Ok? <==>
          && KeyedCommand(tokens, 6) && C.HasDomain(dal.context.contexts, DomainOf(tokens))
          && !M.HasMailbox(old(dal.mailbox.mailboxes), NumberOf(tokens), C.Lookup(dal.context.contexts, DomainOf(tokens)).value.id))
    && (r.Err? ==> unchanged(dal.mailbox))
    && (r.Ok? ==>
          var id := old(dal.mailbox.nextId);
          var m := NewMailbox(NumberOf(tokens), C.Lookup(dal.context.contexts, DomainOf(tokens)).value.id, tokens[3], tokens[4], tokens[5]);
          && r.lines == [Text(MailboxCreated(NumberOf(tokens), DomainOf(tokens)))]
          && dal.mailbox.mailboxes == old(dal.mailbox.mailboxes)[id := m.(id := id)]
          && dal.mailbox.nextId == id + 1
          && (old(dal.mailbox.Valid()) ==> M.Lookup(dal.mailbox.mailboxes, NumberOf(tokens), m.contextId) == Some(m.(id := id))))
  }

  /**
   * `createMailbox`: the domain must name a stored context, and the number
   * must be free in it; the new mailbox is then saved under the next id.
   */
  method CreateMailbox(dal: Dal, tokens: seq<string>) returns (r: Result)
    modifies dal.mailbox
    ensures CreatesMailbox(dal, tokens, r)
    ensures old(dal.mailbox.Valid()) ==> dal.mailbox.Valid()
    ensures old(dal.mailbox.Valid()) && old(UniqueKeys(dal.mailbox.mailboxes)) ==> UniqueKeys(dal.mailbox.mailboxes)
  {
    if |tokens| != 6 {
      return Err(Syntax, InvalidSyntax(tokens));
    }
    var key := Split(tokens[2], '@');
    if |key| != 2 {
      return Err(Syntax, InvalidSyntax(tokens));
    }
    var number, domain := key[0], key[1];
    var password, name, email := tokens[3], tokens[4], tokens[5];
    var context := dal.context.Get(domain);
    if context.None? {
      return Err(NotFound, NoContextFor(number, domain));
    }
    var existing := dal.mailbox.Get(number, context.value.id);
    if existing.Some? {
      return Err(Conflict, MailboxExists(number, domain));
    }
    // the instance `create(number, context)` returns, with the three fields then set (AssignedAfterCreate)
    var mailbox := NewMailbox(number, context.value.id, password, name, email);
    ghost var before := dal.mailbox.mailboxes;
    dal.mailbox.Save(mailbox);
    if old(dal.mailbox.Valid()) {
      AddedMailboxFound(before, old(dal.mailbox.nextId), mailbox.(id := old(dal.mailbox.nextId)), number);
    }
    return Ok([Text(MailboxCreated(number, domain))]);
  }

  // ---------------------------------------------------------------- edit

  /** The fields `editMailbox` may set. */
  predicate Editable(field: string) {
    field == "mailboxName" || field == "password" || field == "name" || field == "email"
  }

  /** The mailbox with one editable slot set, as `mailbox[field] = value` does; number, context and id stay. */
  function WithField(m: M.Mailbox, field: string, value: Value): (e: M.Mailbox)
    requires Editable(field)
    ensures M.Slots(e) == M.Slots(m)[field := value]
    ensures e.mailboxNumber == m.mailboxNumber && e.contextId == m.contextId && e.id == m.id
  {
    if field == "mailboxName" then m.(mailboxName := value)
    else if field == "password" then m.(password := value)
    else if field == "name" then m.(name := value)
    else m.(email := value)
  }

  /** Setting an editable slot under the mailbox's own key keeps keys unique. */
  lemma EditKeepsKeys(mailboxes: map<nat, M.Mailbox>, k: nat, field: string, value: Value)
    requires k in mailboxes && Editable(field)
    ensures UniqueKeys(mailboxes) ==> UniqueKeys(mailboxes[k := WithField(mailboxes[k], field, value)])
  {
  }

  /** What `editMailbox` settles with, and the mailbox table it leaves behind. */
  twostate predicate EditsMailbox(dal: Dal, tokens: seq<string>, r: Result)
    reads dal.context, dal.mailbox
  {
    && (!KeyedCommand(tokens, 5) ==> r == Err(Syntax, InvalidSyntax(tokens)))
    && (KeyedCommand(tokens, 5) ==>
          match old(Resolve(dal.context.contexts, dal.mailbox.mailboxes, NumberOf(tokens), DomainOf(tokens)))
          case None => r == Err(NotFound, NoSuchMailbox(NumberOf(tokens), DomainOf(tokens)))
          case Some(m) =>
            && (!Editable(tokens[3]) ==> r == Err(NotEditable, NotEditableField(tokens[3])))
            && (Editable(tokens[3]) ==> r == Ok([Text(MailboxUpdated(NumberOf(tokens), DomainOf(tokens)))]))
            && (Editable(tokens[3]) && old(dal.mailbox.Valid()) ==>
                  && dal.mailbox.mailboxes == old(dal.mailbox.mailboxes)[m.id := WithField(m, tokens[3], Str(tokens[4]))]
                  && dal.mailbox.nextId == old(dal.mailbox.nextId)))
    && (r.Err? ==> unchanged(dal.mailbox))
  }

  /**
   * `editMailbox`: sets `mailboxName`, `password`, `name` or `email` of the
   * named mailbox; any other field is refused once the mailbox is found.
   */
  method EditMailbox(dal: Dal, tokens: seq<string>) returns (r: Result)
    modifies dal.mailbox
    ensures EditsMailbox(dal, tokens, r)
    ensures old(dal.mailbox.Valid()) ==> dal.mailbox.Valid()
    ensures old(dal.mailbox.Valid()) && old(UniqueKeys(dal.mailbox.mailboxes)) ==> UniqueKeys(dal.mailbox.mailboxes)
  {
    if |tokens| != 5 {
      return Err(Syntax, InvalidSyntax(tokens));
    }
    var key := Split(tokens[2], '@');
    if |key| != 2 {
      return Err(Syntax, InvalidSyntax(tokens));
    }
    var number, domain := key[0], key[1];
    var field, newValue := tokens[3], tokens[4];
    var context, mailbox := ResolveKey(dal, number, domain);
    if mailbox.None? {
      return Err(NotFound, NoSuchMailbox(number, domain));
    }
    var m := mailbox.value;
    var edited: M.Mailbox;
    if field == "mailboxName" {
      edited := m.(mailboxName := Str(newValue));
    } else if field == "password" {
      edited := m.(password := Str(newValue));
    } else if field == "name" {
      edited := m.(name := Str(newValue));
    } else if field == "email" {
      edited := m.(email := Str(newValue));
    } else {
      return Err(NotEditable, NotEditableField(field));
    }
    assert edited == WithField(m, field, Str(newValue));
    if dal.mailbox.Valid() {
      FoundIsStored(dal.mailbox.mailboxes, dal.mailbox.nextId, number, context.value.id);
      EditKeepsKeys(dal.mailbox.mailboxes, m.id, field, Str(newValue));
    }
    dal.mailbox.Save(edited);
    return Ok([Text(MailboxUpdated(number, domain))]);
  }

  // ---------------------------------------------------------------- delete

  /** With unique keys, removing the mailbox a key names leaves no mailbox under that key. */
  lemma RemovedKeyGone(mailboxes: map<nat, M.Mailbox>, k: nat, number: string, contextId: nat)
    requires UniqueKeys(mailboxes)
    requires k in mailboxes && M.Matches(mailboxes[k], number, contextId)
    ensures !M.HasMailbox(mailboxes - {k}, number, contextId)
    ensures UniqueKeys(mailboxes - {k})
  {
  }

  /** A count of zero means no stored message belongs to the mailbox. */
  lemma NoMessageLeft(messages: map<nat, MR.Message>, mailboxId: nat)
    requires |MR.KeysInMailbox(messages, messages.Keys, mailboxId)| == 0
    ensures forall k :: k in messages ==> messages[k].mailboxId != mailboxId
  {
    assert forall k :: k in messages && messages[k].mailboxId == mailboxId ==>
      k in MR.KeysInMailbox(messages, messages.Keys, mailboxId);
  }

  /** What `deleteMailbox` settles with, and the mailbox table it leaves behind. */
  twostate predicate DeletesMailbox(dal: Dal, tokens: seq<string>, r: Result)
    reads dal.context, dal.mailbox, dal.message
  {
    && (!KeyedCommand(tokens, 3) ==> r == Err(Syntax, InvalidSyntax(tokens)))
    && (KeyedCommand(tokens, 3) ==>
          match old(Resolve(dal.context.contexts, dal.mailbox.mailboxes, NumberOf(tokens), DomainOf(tokens)))
          case None => r == Err(NotFound, NoSuchMailboxJoined(NumberOf(tokens), DomainOf(tokens)))
          case Some(m) =>
            var count := |MR.KeysInMailbox(dal.message.messages, dal.message.messages.Keys, m.id)|;
            && (count != 0 ==> r == Err(NotEmpty, StillHoldsMessages(NumberOf(tokens), DomainOf(tokens), count)))
            && (count == 0 && old(dal.mailbox.Valid()) ==>
                  && r == Ok([Text(MailboxDeleted(NumberOf(tokens), DomainOf(tokens)))])
                  && dal.mailbox.mailboxes == old(dal.mailbox.mailboxes) - {m.id}
                  && forall k :: k in dal.message.messages ==> dal.message.messages[k].mailboxId != m.id))
    && (r.Err? ==> dal.mailbox.mailboxes == old(dal.mailbox.mailboxes))
    && (dal.mailbox.nextId == old(dal.mailbox.nextId))
    && (r.Ok? && old(dal.mailbox.Valid()) && old(UniqueKeys(dal.mailbox.mailboxes)) ==>
          && UniqueKeys(dal.mailbox.mailboxes)
          && C.HasDomain(dal.context.contexts, DomainOf(tokens))
          && !M.HasMailbox(dal.mailbox.mailboxes, NumberOf(tokens), C.Lookup(dal.context.contexts, DomainOf(tokens)).value.id))
  }

  /** `deleteMailbox`: removes the named mailbox, unless it still holds messages. */
  method DeleteMailbox(dal: Dal, tokens: seq<string>) returns (r: Result)
    modifies dal.mailbox
    ensures DeletesMailbox(dal, tokens, r)
    ensures old(dal.mailbox.Valid()) ==> dal.mailbox.Valid()
  {
    if |tokens| != 3 {
      return Err(Syntax, InvalidSyntax(tokens));
    }
    var key := Split(tokens[2], '@');
    if |key| != 2 {
      return Err(Syntax, InvalidSyntax(tokens));
    }
    var number, domain := key[0], key[1];
    var context, mailbox := ResolveKey(dal, number, domain);
    if mailbox.None? {
      return Err(NotFound, NoSuchMailboxJoined(number, domain));
    }
    var m := mailbox.value;
    var count := dal.message.CountByMailbox(m.id);
    if count != 0 {
      return Err(NotEmpty, StillHoldsMessages(number, domain, count));
    }
    ghost var before := dal.mailbox.mailboxes;
    if dal.mailbox.Valid() {
      FoundIsStored(before, dal.mailbox.nextId, number, context.value.id);
    }
    NoMessageLeft(dal.message.messages, m.id);
    var outcome := dal.mailbox.Remove(m);
    if outcome.Fail? {
      return Err(Rejected, outcome.message);
    }
    if old(dal.mailbox.Valid()) && UniqueKeys(before) {
      RemovedKeyGone(before, m.id, number, context.value.id);
    }
    return Ok([Text(MailboxDeleted(number, domain))]);
  }

  /** A mailbox with no messages loses nothing when its messages are deleted. */
  lemma NothingToRemove(messages: map<nat, MR.Message>, mailboxId: nat)
    requires |MR.KeysInMailbox(messages, messages.Keys, mailboxId)| == 0
    ensures MR.OtherMailboxes(messages, mailboxId) == messages
  {
    NoMessageLeft(messages, mailboxId);
  }

  /** What `deleteMessages` settles with, and the message table it leaves behind. */
  twostate predicate DeletesMessages(dal: Dal, tokens: seq<string>, r: Result)
    reads dal.context, dal.mailbox, dal.message
  {
    && (!KeyedCommand(tokens, 3) ==> r == Err(Syntax, InvalidSyntax(tokens)))
    && (KeyedCommand(tokens, 3) ==>
          match Resolve(dal.context.contexts, dal.mailbox.mailboxes, NumberOf(tokens), DomainOf(tokens))
          case None => r == Err(NotFound, NoSuchMailbox(NumberOf(tokens), DomainOf(tokens)))
          case Some(m) =>
            var count := |MR.KeysInMailbox(old(dal.message.messages), old(dal.message.messages).Keys, m.id)|;
            && r == Ok([Text(MessagesDeleted(count))])
            && dal.message.messages == MR.OtherMailboxes(old(dal.message.messages), m.id)
            && |MR.KeysInMailbox(dal.message.messages, dal.message.messages.Keys, m.id)| == 0
            && (count == 0 ==> unchanged(dal.message)))
    && (r.Err? ==> unchanged(dal.message))
    && (dal.message.nextId == old(dal.message.nextId))
  }

  /**
   * `deleteMessages`: deletes every message of the named mailbox and
   * reports how many there were; with none, the store is not touched.
   */
  method DeleteMessages(dal: Dal, tokens: seq<string>) returns (r: Result)
    modifies dal.message
    ensures DeletesMessages(dal, tokens, r)
    ensures old(dal.message.Valid()) ==> dal.message.Valid()
  {
    if |tokens| != 3 {
      return Err(Syntax, InvalidSyntax(tokens));
    }
    var key := Split(tokens[2], '@');
    if |key| != 2 {
      return Err(Syntax, InvalidSyntax(tokens));
    }
    var number, domain := key[0], key[1];
    var context, mailbox := ResolveKey(dal, number, domain);
    if mailbox.None? {
      return Err(NotFound, NoSuchMailbox(number, domain));
    }
    var m := mailbox.value;
    var count := dal.message.CountByMailbox(m.id);
    MR.OtherMailboxesKept(dal.message.messages, m.id);
    if count == 0 {
      NothingToRemove(dal.message.messages, m.id);
    } else {
      var removed := dal.message.RemoveByMailbox(m.id);
    }
    return Ok([Text(MessagesDeleted(count))]);
  }
}
