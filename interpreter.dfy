/**
 * The command interpreter of lib/voicemail-admin.js: a line read at the
 * prompt is cut into words, its first one or two words select an entry of
 * the menu, and the entry's action names the handler that runs. What the
 * handler logs, or the error it throws, goes to the log; the prompt is
 * shown again until a line asks to stop.
 */
module Interpreter {
  import opened JsValues
  import opened Replies
  import opened Tokenizer
  import opened DataAccess
  import C = ContextRepository
  import FolderRepository
  import MailboxRepository
  import ContextCommands
  import FolderCommands
  import MailboxCommands

  /** One entry of the menu's `commands` object. */
  datatype CommandSpec = CommandSpec(action: string, usage: string, description: string, details: seq<string>)

  /**
   * The menu's `commands` object: the entries by key, and the keys in the
   * order a `for ... in` loop visits them (the order they are written in).
   */
  datatype Menu = Menu(order: seq<string>, commands: map<string, CommandSpec>)

  /** Every key is listed exactly once in the order. */
  predicate WellFormed(menu: Menu) {
    && (forall k :: k in menu.commands ==> k in menu.order)
    && (forall i :: 0 <= i < |menu.order| ==> menu.order[i] in menu.commands)
    && (forall i, j :: 0 <= i < j < |menu.order| ==> menu.order[i] != menu.order[j])
  }

  /** One line of the log: `logger.info` of a line, or `logger.error` of a thrown error. */
  datatype Entry = Info(line: Line) | Error(text: string)

  /** What `exit()` logs. */
  const Farewell := "So long and thanks for all the fish"

  /** What `showHelpCommand` throws for an unknown command; the `%s` is never filled in. */
  const NoSuchHelp := "Command: '%s' does not exist."

  /** What calling `commands[action]` logs when the menu names an action `createApi` does not define. */
  const NotAFunction := "TypeError: functionPtr is not a function"

  function UnknownCommand(line: string): string {
    "Error: Unknown command '" + line + "'"
  }

  /** The handlers `createApi` defines, named as in the object it returns. */
  datatype Action =
    | showHelp | exit
    | showContexts | showFolders | showFolder | showMailbox | showMailboxes
    | createContext | createMailbox | createFolder
    | editContext | editMailbox | editFolder
    | deleteMessages | deleteMailbox | deleteFolder | deleteContext

  /** The property of the `createApi` object that holds the handler. */
  function NameOf(a: Action): string {
    match a
    case showHelp => "showHelp"
    case exit => "exit"
    case showContexts => "showContexts"
    case showFolders => "showFolders"
    case showFolder => "showFolder"
    case showMailbox => "showMailbox"
    case showMailboxes => "showMailboxes"
    case createContext => "createContext"
    case createMailbox => "createMailbox"
    case createFolder => "createFolder"
    case editContext => "editContext"
    case editMailbox => "editMailbox"
    case editFolder => "editFolder"
    case deleteMessages => "deleteMessages"
    case deleteMailbox => "deleteMailbox"
    case deleteFolder => "deleteFolder"
    case deleteContext => "deleteContext"
  }

  /** `commands[name]`: the handler a menu entry's action names, when `createApi` defines one. */
  function ActionNamed(name: string): (a: Option<Action>)
    ensures a.Some? ==> NameOf(a.value) == name
  {
    if name == "showHelp" then Some(showHelp)
    else if name == "exit" then Some(exit)
    else if name == "showContexts" then Some(showContexts)
    else if name == "showFolders" then Some(showFolders)
    else if name == "showFolder" then Some(showFolder)
    else if name == "showMailbox" then Some(showMailbox)
    else if name == "showMailboxes" then Some(showMailboxes)
    else if name == "createContext" then Some(createContext)
    else if name == "createMailbox" then Some(createMailbox)
    else if name == "createFolder" then Some(createFolder)
    else if name == "editContext" then Some(editContext)
    else if name == "editMailbox" then Some(editMailbox)
    else if name == "editFolder" then Some(editFolder)
    else if name == "deleteMessages" then Some(deleteMessages)
    else if name == "deleteMailbox" then Some(deleteMailbox)
    else if name == "deleteFolder" then Some(deleteFolder)
    else if name == "deleteContext" then Some(deleteContext)
    else None
  }

  /** Every handler is found under its own name. */
  lemma EveryActionNamed(a: Action)
    ensures ActionNamed(NameOf(a)) == Some(a)
  {
  }

  /** The handlers that only read the store. */
  predicate ReadOnly(a: Action) {
    a.showHelp? || a.exit? || a.showContexts? || a.showFolders? || a.showFolder? || a.showMailbox? || a.showMailboxes?
  }

  /** `internalCommands`: the one-word commands. */
  predicate IsInternal(word: string) {
    word == "exit" || word == "help"
  }

  /** `baseCommand`: the only word, an internal command's word, or the first two words. */
  function CommandKey(tokens: seq<string>): string
    requires |tokens| >= 1
  {
    if |tokens| == 1 || IsInternal(tokens[0]) then tokens[0] else tokens[0] + " " + tokens[1]
  }

  /** `commandName` in `showHelpCommand`: the word after `help`, or the two words after it. */
  function HelpKey(tokens: seq<string>): string
    requires |tokens| >= 2
  {
    if |tokens| == 2 then tokens[1] else tokens[1] + " " + tokens[2]
  }

  // ---------------------------------------------------------------- help

  /** The detail lines of an entry, one per detail. */
  function Details(details: seq<string>): (lines: seq<Line>)
    ensures |lines| == |details|
    ensures forall i :: 0 <= i < |details| ==> lines[i] == Text(details[i])
  {
    if details == [] then [] else Details(details[..|details| - 1]) + [Text(details[|details| - 1])]
  }

  /** One more detail, one more line. */
  lemma DetailsStep(details: seq<string>, i: nat)
    requires i < |details|
    ensures Details(details[..i + 1]) == Details(details[..i]) + [Text(details[i])]
  {
    assert details[..i + 1][..i] == details[..i];
  }

  /** The usage, the description and the details of one entry. */
  function Usage(spec: CommandSpec): seq<Line> {
    [Text("Usage: " + spec.usage), Text(spec.description)] + Details(spec.details)
  }

  /** One line of the command list: `<key> - <description>`. */
  function ListingLine(key: string, spec: CommandSpec): string {
    key + " - " + spec.description
  }

  /** The command list lines for the given keys, in that order. */
  function Listing(menu: Menu, keys: seq<string>): (lines: seq<Line>)
    requires forall i :: 0 <= i < |keys| ==> keys[i] in menu.commands
    ensures |lines| == |keys|
    ensures forall i :: 0 <= i < |keys| ==> lines[i] == Text(ListingLine(keys[i], menu.commands[keys[i]]))
  {
    if keys == [] then []
    else Listing(menu, keys[..|keys| - 1]) + [Text(ListingLine(keys[|keys| - 1], menu.commands[keys[|keys| - 1]]))]
  }

  /** One more key, one more line. */
  lemma ListingStep(menu: Menu, keys: seq<string>, i: nat)
    requires forall j :: 0 <= j < |keys| ==> keys[j] in menu.commands
    requires i < |keys|
    ensures Listing(menu, keys[..i + 1]) == Listing(menu, keys[..i]) + [Text(ListingLine(keys[i], menu.commands[keys[i]]))]
  {
    assert keys[..i + 1][..i] == keys[..i];
  }

  /** What `showHelp` logs or throws: one command's usage, or the whole command list. */
  function Help(menu: Menu, tokens: seq<string>): (r: Result)
    requires WellFormed(menu)
    // a named command is described exactly when the menu has it, and fails as not found otherwise
    ensures |tokens| >= 2 ==> (r.Ok? <==> HelpKey(tokens) in menu.commands)
    ensures |tokens| >= 2 && r.Ok? ==> |r.lines| == 2 + |menu.commands[HelpKey(tokens)].details|
    ensures r.Err? ==> r.kind == NotFound && r.message == NoSuchHelp
    // with no command named, a title and one line per entry
    ensures |tokens| < 2 ==> r.Ok? && |r.lines| == |menu.order| + 1
  {
    if |tokens| >= 2 then
      if HelpKey(tokens) in menu.commands then Ok(Usage(menu.commands[HelpKey(tokens)]))
      else Err(NotFound, NoSuchHelp)
    else Ok([Text(PadRight("Command List:", 70))] + Listing(menu, menu.order))
  }

  /** `showHelp`: with a command named, its usage and details; otherwise every entry, in menu order. */
  method ShowHelp(menu: Menu, tokens: seq<string>) returns (r: Result)
    requires WellFormed(menu)
    ensures r == Help(menu, tokens)
  {
    if |tokens| >= 2 {
      var key := HelpKey(tokens);
      if key !in menu.commands {
        return Err(NotFound, NoSuchHelp);
      }
      var lines := ShowUsage(menu.commands[key]);
      return Ok(lines);
    }
    var listing := ListCommands(menu);
    return Ok([Text(PadRight("Command List:", 70))] + listing);
  }

  /** The `showHelpCommand` lines: usage, description, then each detail in turn. */
  method ShowUsage(spec: CommandSpec) returns (lines: seq<Line>)
    ensures lines == Usage(spec)
  {
    var details := [];
    for i := 0 to |spec.details|
      invariant details == Details(spec.details[..i])
    {
      DetailsStep(spec.details, i);
      details := details + [Text(spec.details[i])];
    }
    assert spec.details[..|spec.details|] == spec.details;
    lines := [Text("Usage: " + spec.usage), Text(spec.description)] + details;
  }

  /** The loop over `menu.commands`: one line per entry, in menu order. */
  method ListCommands(menu: Menu) returns (listing: seq<Line>)
    requires WellFormed(menu)
    ensures listing == Listing(menu, menu.order)
  {
    listing := [];
    for i := 0 to |menu.order|
      invariant listing == Listing(menu, menu.order[..i])
    {
      ListingStep(menu, menu.order, i);
      listing := listing + [Text(ListingLine(menu.order[i], menu.commands[menu.order[i]]))];
    }
    assert menu.order[..|menu.order|] == menu.order;
  }

  /** `help` alone lists every entry of the menu once, under a heading. */
  lemma HelpListsEveryCommand(menu: Menu)
    requires WellFormed(menu)
    ensures Help(menu, ["help"]).Ok?
    ensures |Help(menu, ["help"]).lines| == |menu.order| + 1
    ensures forall k :: k in menu.commands ==> Text(ListingLine(k, menu.commands[k])) in Help(menu, ["help"]).lines
  {
    var lines := Help(menu, ["help"]).lines;
    forall k | k in menu.commands
      ensures Text(ListingLine(k, menu.commands[k])) in lines
    {
      var i :| 0 <= i < |menu.order| && menu.order[i] == k;
      assert lines[i + 1] == Text(ListingLine(k, menu.commands[k]));
    }
  }

  /** `help <command>` describes the very entry that `<command>` runs. */
  lemma HelpDescribesWhatRuns(menu: Menu, words: seq<string>)
    requires WellFormed(menu)
    requires |words| >= 1 && (|words| == 1 || !IsInternal(words[0]))
    ensures CommandKey(words) in menu.commands ==>
      Help(menu, ["help"] + words) == Ok(Usage(menu.commands[CommandKey(words)]))
    ensures CommandKey(words) !in menu.commands ==>
      Help(menu, ["help"] + words) == Err(NotFound, NoSuchHelp)
  {
    var tokens := ["help"] + words;
    assert tokens[1] == words[0];
    assert |tokens| > 2 ==> tokens[2] == words[1];
  }

  // ---------------------------------------------------------------- one line

  /** What becomes of a line read at the prompt. */
  datatype Route =
    | Quit                                        // no input, or an empty line: `exit()`
    | Blank                                       // no word in the line: nothing happens
    | Unknown(line: string)                       // no menu entry for its key
    | NotCallable                                 // the entry's action is not a handler
    | Run(action: Action, tokens: seq<string>)    // the handler runs on the words

  function RouteOf(menu: Menu, input: Option<string>): (r: Route)
    ensures r.Run? ==> |r.tokens| >= 1
  {
    if input.None? || input.value == "" then Quit
    else
      var tokens := Tokenize(input.value);
      if tokens == [] then Blank
      else if CommandKey(tokens) !in menu.commands then Unknown(input.value)
      else match ActionNamed(menu.commands[CommandKey(tokens)].action)
        case None => NotCallable
        case Some(a) => Run(a, tokens)
  }

  /** The prompt stops after this input: `processOption` resolved to `true`. */
  predicate Stops(menu: Menu, input: Option<string>) {
    RouteOf(menu, input).Quit? || (RouteOf(menu, input).Run? && RouteOf(menu, input).action.exit?)
  }

  /** The store as the handlers keep it: records under their own ids, domains, folder names and mailbox keys unique. */
  ghost predicate Consistent(dal: Dal)
    reads dal.context, dal.folder, dal.mailbox, dal.message
  {
    && ContextsConsistent(dal.context)
    && FoldersConsistent(dal.folder)
    && MailboxesConsistent(dal.mailbox)
    && dal.message.Valid()
  }

  ghost predicate ContextsConsistent(repo: C.ContextRepo)
    reads repo
  {
    repo.Valid() && C.UniqueDomains(repo.contexts)
  }

  ghost predicate FoldersConsistent(repo: FolderRepository.FolderRepo)
    reads repo
  {
    repo.Valid() && FolderCommands.UniqueNames(repo.folders)
  }

  ghost predicate MailboxesConsistent(repo: MailboxRepository.MailboxRepo)
    reads repo
  {
    repo.Valid() && MailboxCommands.UniqueKeys(repo.mailboxes)
  }

  /** The log lines of a settled handler: its lines, or `Error: <message>` from the catch. */
  function Logged(r: Result): (log: seq<Entry>)
    ensures r.Ok? ==> |log| == |r.lines| && forall i :: 0 <= i < |log| ==> log[i] == Info(r.lines[i])
    ensures r.Err? ==> log == [Error("Error: " + r.message)]
  {
    match r
    case Err(_, message) => [Error("Error: " + message)]
    case Ok(lines) => InfoLines(lines)
  }

  /** One `logger.info` entry per line, in order. */
  function InfoLines(lines: seq<Line>): (log: seq<Entry>)
    ensures |log| == |lines| && forall i :: 0 <= i < |log| ==> log[i] == Info(lines[i])
  {
    if lines == [] then [] else InfoLines(lines[..|lines| - 1]) + [Info(lines[|lines| - 1])]
  }

  /**
   * What the handler an action names promises: the reply it settles with
   * and the tables it leaves behind, each as that handler states it.
   */
  twostate predicate Handled(dal: Dal, menu: Menu, action: Action, tokens: seq<string>, r: Result)
    requires WellFormed(menu)
    reads dal.context, dal.folder, dal.mailbox, dal.message
  {
    match action
    case showHelp => r == Help(menu, tokens)
    case exit => r == Ok([Text(Farewell)])
    case showContexts => ContextCommands.ListsContexts(dal, r)
    case showFolders => FolderCommands.ListsFolders(dal, r)
    case showFolder => FolderCommands.ShowsFolder(dal, tokens, r)
    case showMailbox => MailboxCommands.ShowsMailbox(dal, tokens, r)
    case showMailboxes => MailboxCommands.ListsMailboxes(dal, tokens, r)
    case createContext => ContextCommands.CreatesContext(dal, tokens, r)
    case createMailbox => MailboxCommands.CreatesMailbox(dal, tokens, r)
    case createFolder => FolderCommands.CreatesFolder(dal, tokens, r)
    case editContext => ContextCommands.EditsContext(dal, tokens, r)
    case editMailbox => MailboxCommands.EditsMailbox(dal, tokens, r)
    case editFolder => FolderCommands.EditsFolder(dal, tokens, r)
    case deleteMessages => MailboxCommands.DeletesMessages(dal, tokens, r)
    case deleteMailbox => MailboxCommands.DeletesMailbox(dal, tokens, r)
    case deleteFolder => FolderCommands.DeletesFolder(dal, tokens, r)
    case deleteContext => ContextCommands.DeletesContext(dal, tokens, r)
  }

  /** `commands[action](chosenCommand, entryComponents)`: the named handler runs, and only `exit` stops. */
  method Dispatch(dal: Dal, menu: Menu, action: Action, tokens: seq<string>) returns (r: Result, stop: bool)
    requires WellFormed(menu) && |tokens| >= 1
    modifies dal.context, dal.folder, dal.mailbox, dal.message
    ensures stop <==> action.exit?
    ensures Handled(dal, menu, action, tokens, r)
    ensures ReadOnly(action) ==> unchanged(dal.context, dal.folder, dal.mailbox, dal.message)
    ensures old(Consistent(dal)) ==> Consistent(dal)
  {
    stop := false;
    if ReadOnly(action) {
      r, stop := Query(dal, menu, action, tokens);
    } else if action.createContext? || action.editContext? || action.deleteContext? {
      r := ChangeContexts(dal, action, tokens);
    } else if action.createFolder? || action.editFolder? || action.deleteFolder? {
      r := ChangeFolders(dal, action, tokens);
    } else if action.createMailbox? || action.editMailbox? {
      r := ChangeMailboxes(dal, action, tokens);
    } else {
      r := DeleteFromMailboxes(dal, action, tokens);
    }
  }

  /** The handlers that only read: help, exit and the `show` commands. */
  method Query(dal: Dal, menu: Menu, action: Action, tokens: seq<string>) returns (r: Result, stop: bool)
    requires WellFormed(menu) && ReadOnly(action)
    ensures stop <==> action.exit?
    ensures action.showHelp? ==> r == Help(menu, tokens)
    ensures action.exit? ==> r == Ok([Text(Farewell)])
    ensures action.showContexts? ==> ContextCommands.ListsContexts(dal, r)
    ensures action.showFolders? ==> FolderCommands.ListsFolders(dal, r)
    ensures action.showFolder? ==> FolderCommands.ShowsFolder(dal, tokens, r)
    ensures action.showMailbox? ==> MailboxCommands.ShowsMailbox(dal, tokens, r)
    ensures action.showMailboxes? ==> MailboxCommands.ListsMailboxes(dal, tokens, r)
  {
    stop := false;
    if action.showHelp? {
      r := ShowHelp(menu, tokens);
    } else if action.exit? {
      r, stop := Ok([Text(Farewell)]), true;
    } else if action.showContexts? {
      r := ContextCommands.ShowContexts(dal);
    } else if action.showFolders? {
      r := FolderCommands.ShowFolders(dal);
    } else if action.showFolder? {
      r := FolderCommands.ShowFolder(dal, tokens);
    } else if action.showMailbox? {
      r := MailboxCommands.ShowMailbox(dal, tokens);
    } else {
      r := MailboxCommands.ShowMailboxes(dal, tokens);
    }
  }

  /** `createContext`, `editContext` and `deleteContext`: only the context table changes. */
  method ChangeContexts(dal: Dal, action: Action, tokens: seq<string>) returns (r: Result)
    modifies dal.context
    ensures action.createContext? ==> ContextCommands.CreatesContext(dal, tokens, r)
    ensures action.editContext? ==> ContextCommands.EditsContext(dal, tokens, r)
    ensures action.deleteContext? ==> ContextCommands.DeletesContext(dal, tokens, r)
    ensures old(Consistent(dal)) ==> Consistent(dal)
  {
    if action.createContext? {
      r := ContextCommands.CreateContext(dal, tokens);
    } else if action.editContext? {
      r := ContextCommands.EditContext(dal, tokens);
    } else {
      r := ContextCommands.DeleteContext(dal, tokens);
    }
  }

  /** `createFolder`, `editFolder` and `deleteFolder`: only the folder table changes. */
  method ChangeFolders(dal: Dal, action: Action, tokens: seq<string>) returns (r: Result)
    modifies dal.folder
    ensures action.createFolder? ==> FolderCommands.CreatesFolder(dal, tokens, r)
    ensures action.editFolder? ==> FolderCommands.EditsFolder(dal, tokens, r)
    ensures action.deleteFolder? ==> FolderCommands.DeletesFolder(dal, tokens, r)
    ensures old(Consistent(dal)) ==> Consistent(dal)
  {
    if action.createFolder? {
      r := FolderCommands.CreateFolder(dal, tokens);
    } else if action.editFolder? {
      r := FolderCommands.EditFolder(dal, tokens);
    } else {
      r := FolderCommands.DeleteFolder(dal, tokens);
    }
  }

  /** `createMailbox` and `editMailbox`: only the mailbox table changes. */
  method ChangeMailboxes(dal: Dal, action: Action, tokens: seq<string>) returns (r: Result)
    modifies dal.mailbox
    ensures action.createMailbox? ==> MailboxCommands.CreatesMailbox(dal, tokens, r)
    ensures action.editMailbox? ==> MailboxCommands.EditsMailbox(dal, tokens, r)
    ensures old(Consistent(dal)) ==> Consistent(dal)
  {
    if action.createMailbox? {
      r := MailboxCommands.CreateMailbox(dal, tokens);
    } else {
      r := MailboxCommands.EditMailbox(dal, tokens);
    }
  }

  /** `deleteMailbox` changes the mailbox table, `deleteMessages` the message table. */
  method DeleteFromMailboxes(dal: Dal, action: Action, tokens: seq<string>) returns (r: Result)
    modifies dal.mailbox, dal.message
    ensures action.deleteMailbox? ==> MailboxCommands.DeletesMailbox(dal, tokens, r)
    ensures action.deleteMessages? ==> MailboxCommands.DeletesMessages(dal, tokens, r)
    ensures old(Consistent(dal)) ==> Consistent(dal)
  {
    if action.deleteMailbox? {
      r := MailboxCommands.DeleteMailbox(dal, tokens);
    } else {
      r := MailboxCommands.DeleteMessages(dal, tokens);
    }
  }

  /**
   * `processOption`: runs one line and reports whether the prompt stops.
   * Anything a handler throws is logged and the prompt goes on. `r` is
   * what the handler settled with (`Ok([])` when no handler ran).
   */
  method ProcessOption(dal: Dal, menu: Menu, input: Option<string>) returns (stop: bool, log: seq<Entry>, r: Result)
    requires WellFormed(menu)
    modifies dal.context, dal.folder, dal.mailbox, dal.message
    ensures stop == Stops(menu, input)
    ensures RouteOf(menu, input).Quit? ==> log == [Info(Text(Farewell))]
    ensures RouteOf(menu, input).Blank? ==> log == []
    ensures RouteOf(menu, input).Unknown? ==> log == [Error(UnknownCommand(input.value))]
    ensures RouteOf(menu, input).NotCallable? ==> log == [Error(NotAFunction)]
    ensures RouteOf(menu, input).Run? && RouteOf(menu, input).action.exit? ==> log == [Info(Text(Farewell))]
    ensures RouteOf(menu, input).Run? && RouteOf(menu, input).action.showHelp? ==>
      log == Logged(Help(menu, RouteOf(menu, input).tokens))
    ensures !RouteOf(menu, input).Run? ==> r == Ok([])
    ensures RouteOf(menu, input).Run? ==>
      log == Logged(r) && Handled(dal, menu, RouteOf(menu, input).action, RouteOf(menu, input).tokens, r)
    ensures !RouteOf(menu, input).Run? || ReadOnly(RouteOf(menu, input).action) ==>
      unchanged(dal.context, dal.folder, dal.mailbox, dal.message)
    ensures old(Consistent(dal)) ==> Consistent(dal)
  {
    if input.None? || input.value == "" {
      return true, [Info(Text(Farewell))], Ok([]);
    }
    var line := input.value;
    var tokens := Tokenize(line);
    if tokens == [] {
      return false, [], Ok([]);
    }
    var key := CommandKey(tokens);
    if key !in menu.commands {
      return false, [Error(UnknownCommand(line))], Ok([]);
    }
    var action := ActionNamed(menu.commands[key].action);
    if action.None? {
      return false, [Error(NotAFunction)], Ok([]);
    }
    r, stop := Dispatch(dal, menu, action.value, tokens);
    log := Logged(r);
  }

  /** `exit`, with or without words after it, stops the prompt whenever the menu maps it to the exit action. */
  lemma ExitAlwaysStops(menu: Menu, rest: string)
    requires "exit" in menu.commands && menu.commands["exit"].action == "exit"
    requires rest == [] || IsSpace(rest[0])
    ensures Stops(menu, Some("exit" + rest))
  {
    var line := "exit" + rest;
    ChunkOfPlainWord("exit", rest);
    assert IsWordChar(line[0]) && line[..4] == "exit";
    assert Tokenize(line) == ["exit"] + Tokenize(line[4..]);
  }

  /** Plain words typed with single spaces select the entry keyed by the first two (unless the first is internal). */
  lemma TypedWordsSelect(words: seq<string>)
    requires |words| >= 2 && !IsInternal(words[0])
    requires forall i :: 0 <= i < |words| ==> IsPlainWord(words[i])
    ensures Tokenize(Spaced(words)) == words
    ensures CommandKey(Tokenize(Spaced(words))) == words[0] + " " + words[1]
  {
    SpacedWordsRoundTrip(words);
  }

  // ---------------------------------------------------------------- the prompt

  /** How many inputs the prompt reads: up to and including the first that stops it. */
  function SessionLength(menu: Menu, inputs: seq<Option<string>>): (n: nat)
    ensures n <= |inputs|
    ensures inputs != [] ==> n >= 1
    ensures forall j :: 0 <= j < n - 1 ==> !Stops(menu, inputs[j])
    ensures 0 < n < |inputs| ==> Stops(menu, inputs[n - 1])
    decreases |inputs|
  {
    if inputs == [] then 0
    else if Stops(menu, inputs[0]) then 1
    else 1 + SessionLength(menu, inputs[1..])
  }

  /**
   * `processOptionPrompt`: each input in turn, until one stops the prompt.
   * The inputs stand for what `prompt.get` answers; the store stays
   * consistent throughout.
   */
  method Session(dal: Dal, menu: Menu, inputs: seq<Option<string>>) returns (log: seq<Entry>, consumed: nat)
    requires WellFormed(menu)
    modifies dal.context, dal.folder, dal.mailbox, dal.message
    ensures consumed == SessionLength(menu, inputs)
    ensures old(Consistent(dal)) ==> Consistent(dal)
  {
    log, consumed := [], 0;
    var stop := false;
    while consumed < |inputs| && !stop
      invariant consumed <= |inputs|
      invariant stop ==> SessionLength(menu, inputs) == consumed
      invariant !stop ==> SessionLength(menu, inputs) == consumed + SessionLength(menu, inputs[consumed..])
      invariant old(Consistent(dal)) ==> Consistent(dal)
      decreases |inputs| - consumed
    {
      assert inputs[consumed..][1..] == inputs[consumed + 1..];
      var entries, settled;
      stop, entries, settled := ProcessOption(dal, menu, inputs[consumed]);
      log := log + entries;
      consumed := consumed + 1;
    }
  }
}
