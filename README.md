# node-voicemail-admin, modelled in Dafny

node-voicemail-admin is the command-line administration tool for the
Asterisk voicemail application. An administrator types a line such as
`create mailbox 1000@default 1234 "Jane Doe" jane@example.com`. The
interpreter cuts the line into words and uses the first one or two words
as the key into the menu's command table. It then runs the handler that
the entry names. Each handler checks its word count, looks records up in
the data access layer, and writes at most once. What the handler logs, or
the error it throws, goes to the log. The prompt comes back until a line
asks to stop.

The project models four parts:

- **Interpreter** (`interpreter.dfy`, `tokenizer.dfy`, `replies.dfy`):
  - `processOption`: the tokenizer, the choice of command key, the menu
    lookup, the dispatch, and the catch that turns an error into a log
    line;
  - `showHelpCommand`, `invalidSyntax` and `exit`;
  - the `processOptionPrompt` rule that decides whether to prompt again.
- **Handlers**:
  - the context handlers (`context_commands.dfy`);
  - the folder handlers (`folder_commands.dfy`);
  - the mailbox handlers (`mailbox_commands.dfy`).

  They appear twice in the source: inside `createApi` in
  `lib/voicemail-admin.js` and once per entity under `lib/commands/`.
  The two copies behave the same, so they are modelled once as methods
  returning a `Result`. That is either the lines logged or the kind and
  text of the error thrown. The table below cites the `lib/commands/`
  copy. The `createApi` copies are at these lines of
  `lib/voicemail-admin.js`:
  - `showContexts` 179-187, `createContext` 291-312,
    `editContext` 400-434, `deleteContext` 682-714;
  - `showFolders` 189-207, `showFolder` 209-225, `createFolder` 364-398,
    `editFolder` 488-547, `deleteFolder` 649-680;
  - `showMailbox` 227-259, `showMailboxes` 261-289,
    `createMailbox` 314-362, `editMailbox` 436-486,
    `deleteMessages` 549-597, `deleteMailbox` 599-647.

  `removeUgly` (lib/voicemail-admin.js:122-130) is the same culling as
  `removeNonValues`, written a second time, and is modelled by the same
  members.
- **Store**: the four in-memory repositories of the mock data access
  layer (`*_repository.dfy`, bundled by `data_access.dfy`):
  - each is a class holding its `id -> record` map and its `nextId`
    counter;
  - its methods reassign them as the JavaScript module-level variables
    are reassigned;
  - the order in which `for ... in` visits integer keys is ascending
    (`ordered_keys.dfy`).
- **Record helpers**:
  - JavaScript values and objects (`js_values.dfy`);
  - `removeNonValues`/`removeUgly` (`command_helpers.dfy`);
  - `optionalArgument`/`populateFields` (`dal_helpers.dfy`);
  - `String.prototype.split` on `@` (`strings.dfy`).

Conventions:

- Record ids are natural numbers. 0 stands for "no id": a missing id,
  which JavaScript treats as falsy.
- A record's other fields keep their JavaScript type as a tagged `Value`.
- `Consistent` is the store as the handlers keep it:
  - every record lies under its own id;
  - domains are unique;
  - folder names are unique;
  - `number@domain` keys are unique.

  Every handler preserves `Consistent`, and so do `ProcessOption` and
  `Session`.

Source quirks that the model keeps as written:

- `editMailbox` and the not-found message of `deleteMailbox` print the
  mailbox key without its `@`.
- The help error keeps its literal, unfilled `%s`.
- Empty halves of a `number@domain` key are accepted.
- A DTMF edit makes no conflict check. `FolderCommands.DigitEditCanDuplicate`
  exhibits two folders that end up with the same DTMF.

## Model

| member | source | states |
|---|---|---|
| Tokenizer.FirstQuote | lib/voicemail-admin.js:52 | the position of the first `"` in the text, with none before it, or the text's length when it has none |
| Tokenizer.FirstQuoteAt | lib/voicemail-admin.js:52 | a quote with no quote before it is the first quote, so it closes the span `"[^"]*"` |
| Tokenizer.Chunk | lib/voicemail-admin.js:52-60 | the match at the start of the line covers at least one character exactly when a match can start there, and never more than the line; otherwise it yields no word and covers nothing |
| Tokenizer.Tokenize | lib/voicemail-admin.js:52-60 | every match covers a character, so a line yields at most as many words as it has characters |
| Tokenizer.ChunkHasNoQuote | lib/voicemail-admin.js:58-60 | the word a match yields has every `"` removed |
| Tokenizer.NoQuoteInTokens | lib/voicemail-admin.js:52-60 | no word of any line contains a double quote |
| Tokenizer.BlankLineHasNoTokens | lib/voicemail-admin.js:52-56 | a line of whitespace only yields no words |
| Tokenizer.ChunkAtWordChar | lib/voicemail-admin.js:52 | a match that starts with a word character keeps it and goes on from the next character |
| Tokenizer.ChunkAtQuote | lib/voicemail-admin.js:52-60 | a match that starts with a quote closed at a given position yields the text between the quotes and goes on after the closing one |
| Tokenizer.ChunkOfBareRun | lib/voicemail-admin.js:52 | a run of word characters of any length is taken whole, followed by whatever match continues after it |
| Tokenizer.ChunkOfPlainWord | lib/voicemail-admin.js:52 | a bare run of word characters is matched up to the first space or lone quote after it |
| Tokenizer.SpacedWordsRoundTrip | lib/voicemail-admin.js:52-60 | plain words joined by single spaces come back as the same words, in order |
| Tokenizer.ChunkOfQuotedSpan | lib/voicemail-admin.js:52-60 | for any quote-free text `s` and any `rest`, the match at `"s"rest` yields `s` followed by the word of the match continuing in `rest`, and covers `|s| + 2` characters more than that match |
| Tokenizer.QuotedSpanIsOneToken | lib/voicemail-admin.js:52-60 | a quoted span with spaces inside is one word, without its quotes, followed by the words of what comes after it |
| Tokenizer.UnpairedQuoteIsSkipped | lib/voicemail-admin.js:52-60 | a quote that no later quote closes belongs to no word |
| Tokenizer.ChunkAcrossPieces | lib/voicemail-admin.js:52-60 | for any run of word characters `w`, quote-free `s` and any `rest`, the match at `w"s"rest` yields `w + s` followed by the word of the match continuing in `rest`, and covers `|w| + |s| + 2` characters more |
| Tokenizer.AdjacentPiecesJoin | lib/voicemail-admin.js:52-60 | a word and a quoted span that touch, and whatever touches the closing quote, are one word (`a"b c"d` is `ab cd`); the words after that match follow |
| Tokenizer.FirstWord | lib/voicemail-admin.js:52-60 | a line where a match starts yields that match's word first, then the words of the text after it |
| Replies.InvalidSyntaxNamesCommand | lib/voicemail-admin.js:137-140 | the syntax error names the first two words only; with a single word, the second is printed as `undefined` |
| Replies.PadRight | lib/commands/folder.js:45-55 | a `%-Ns` cell is as wide as the field or as the text, whichever is longer |
| Replies.PaddedCell | lib/commands/folder.js:45-55 | a `%-Ns` cell starts with the text and is filled with spaces after it |
| JsStrings.Split | lib/commands/mailbox.js:28-33 | `split` always yields at least one part |
| JsStrings.JoinSplit | lib/commands/mailbox.js:28-33 | joining the parts with the separator gives back the string |
| JsStrings.SplitParts | lib/commands/mailbox.js:28-33 | there is one more part than separators, and no part contains the separator |
| JsStrings.SplitNoSeparator | lib/commands/mailbox.js:28-33 | a string without the separator splits into itself alone |
| JsStrings.SplitAfterPrefix | lib/commands/mailbox.js:28-33 | splitting `a@b`, where `a` holds no `@`, gives `a` followed by the parts of `b` |
| JsValues.TypeOfKinds | lib/commands/helpers/common.js:25-27 | `typeof` is "function" exactly for functions, and "object" exactly for objects and `null` |
| DalHelpers.NumberArgument | test/mock_dal/helpers/common.js:28-34 | asked for a "number", `optionalArgument` takes the first argument exactly when it is numeric; an object, `null` or `undefined` gives way to the second |
| DalHelpers.Populated | test/mock_dal/helpers/common.js:42-52 | only declared slots are assigned; function slots are never overwritten; absent or undefined fields leave a slot alone; every other declared slot takes the field's value; missing or null fields change nothing |
| DalHelpers.UndefSlotTakesField | test/mock_dal/helpers/common.js:44-48 | a slot declared undefined ends up holding the field's value |
| DalHelpers.PopulatedSlots | test/mock_dal/helpers/common.js:42-52 | every declared slot that is not a function ends up with the field of that name when it is defined, and keeps its declared value otherwise |
| DalHelpers.PopulateFields | test/mock_dal/helpers/common.js:42-52 | the loop over the instance's keys updates it in place to `Populated` and returns the same instance |
| CommandHelpers.Plain | lib/commands/helpers/common.js:23-31 | no key is added; the kept keys keep their values, none of which is a function, an object or `null`; every other key is kept |
| CommandHelpers.RemoveNonValues | lib/commands/helpers/common.js:23-31 | deleting while iterating leaves the object holding exactly `Plain` of its old properties |
| CommandHelpers.PlainKeepsPrimitives | lib/commands/helpers/common.js:24-30 | a key survives exactly when its value is a string, a number, a boolean or undefined |
| CommandHelpers.PlainIdempotent | lib/commands/helpers/common.js:24-30 | culling twice is culling once |
| OrderedKeys.Least | test/mock_dal/repositories/context.js:65 | the first key a `for ... in` visits is the least one |
| OrderedKeys.Ascending | test/mock_dal/repositories/context.js:65 | the visiting order lists one key per stored record, each a stored key |
| OrderedKeys.AscendingSorted | test/mock_dal/repositories/context.js:65 | the visiting order holds every stored key and is strictly ascending |
| OrderedKeys.AscendingFresh | test/mock_dal/repositories/context.js:65 | no key is visited twice |
| OrderedKeys.PopLeast | test/mock_dal/repositories/context.js:65 | one step of the loop visits the least remaining key and goes on with the others |
| OrderedKeys.EnumerationOrder | test/mock_dal/repositories/context.js:65 | the keys visited one by one form the ascending order |
| OrderedKeys.InOrderMembers | test/mock_dal/repositories/context.js:59-73 | the records listed in visiting order are one per entry, and exactly the stored records |
| ContextRepository.Lookup | test/mock_dal/repositories/context.js:78-91 | no answer exactly when no context has the domain; otherwise the first in visiting order that has it |
| ContextRepository.LookupFinds | test/mock_dal/repositories/context.js:78-91 | the first context with the domain, in visiting order, is the answer |
| ContextRepository.ContextRepo.constructor | test/mock_dal/repositories/context.js:12-13 | the table starts empty and ids start at 1 |
| ContextRepository.ContextRepo.GetNextId | test/mock_dal/repositories/context.js:16-18 | hands out the counter and advances it by one |
| ContextRepository.ContextRepo.All | test/mock_dal/repositories/context.js:59-73 | one copy per stored context, in visiting order, and exactly the stored contexts |
| ContextRepository.ContextRepo.Get | test/mock_dal/repositories/context.js:78-91 | a copy of the first context with the domain, or none |
| ContextRepository.ContextRepo.Save | test/mock_dal/repositories/context.js:96-108 | writes under the instance's own id, or allocates the next id when it has none; only that entry changes |
| ContextRepository.ContextRepo.Remove | test/mock_dal/repositories/context.js:113-128 | fails, changing nothing, when the instance has no id or no entry; otherwise deletes exactly that entry |
| ContextRepository.ContextRepo.TestReset | test/mock_dal/repositories/context.js:133-145 | replaces the table and counter; omitted arguments mean empty and 1 |
| ContextRepository.UniqueLookup | test/mock_dal/repositories/context.js:78-91 | with unique domains, the context a lookup finds is the only one with that domain |
| ContextRepository.RemoveLeavesNoDomain | test/mock_dal/repositories/context.js:113-128 | with unique domains, removing the context leaves no context with its domain |
| FolderRepository.Copy | test/mock_dal/repositories/folder.js:74-78 | the copy a read hands out equals the stored folder, so changing it changes nothing stored |
| FolderRepository.CreateIdOverload | test/mock_dal/repositories/folder.js:47-62 | `create(id)` gives an empty folder with that id; `create(fields, id)` takes the id; without an id the folder has none |
| FolderRepository.CreateFillsDeclaredSlots | test/mock_dal/repositories/folder.js:47-62 | name, recording and DTMF come from the fields when they define them and are undefined otherwise; the id is the first argument when that is a number, the second otherwise |
| FolderRepository.Lookup | test/mock_dal/repositories/folder.js:88-103 | no answer exactly when no folder has the name; otherwise the first with it |
| FolderRepository.LookupFinds | test/mock_dal/repositories/folder.js:88-103 | the first folder with the name, in visiting order, is the answer |
| FolderRepository.ConflictingAtMembers | test/mock_dal/repositories/folder.js:110-128 | the folders collected along a key order are exactly those, under these keys, that match the name or the DTMF |
| FolderRepository.ConflictingMembers | test/mock_dal/repositories/folder.js:110-128 | the folders collected over the whole table are exactly the stored ones that match the name or the DTMF |
| FolderRepository.FolderRepo.constructor | test/mock_dal/repositories/folder.js:12-13 | the table starts empty and ids start at 1 |
| FolderRepository.FolderRepo.GetNextId | test/mock_dal/repositories/folder.js:16-18 | hands out the counter and advances it by one |
| FolderRepository.FolderRepo.All | test/mock_dal/repositories/folder.js:67-83 | a table of copies keyed by id, with as many entries as the store |
| FolderRepository.FolderRepo.Get | test/mock_dal/repositories/folder.js:88-103 | a copy of the first folder with the name, or none |
| FolderRepository.FolderRepo.FindByNameOrDTMF | test/mock_dal/repositories/folder.js:110-128 | exactly the stored folders whose name or DTMF matches, in visiting order |
| FolderRepository.FolderRepo.Save | test/mock_dal/repositories/folder.js:133-148 | stores a copy of name, recording and DTMF under the instance's id, allocating one only when it has none |
| FolderRepository.FolderRepo.Remove | test/mock_dal/repositories/folder.js:153-167 | fails, changing nothing, for a missing or unknown id; otherwise deletes exactly that entry |
| FolderRepository.FolderRepo.TestReset | test/mock_dal/repositories/folder.js:172-184 | replaces the table and counter; omitted arguments mean empty and 1 |
| MailboxRepository.NameSlotsKept | test/mock_dal/repositories/mailbox.js:125-153 | re-creating a mailbox from its profile restores box name, password and owner name |
| MailboxRepository.ContactSlotsKept | test/mock_dal/repositories/mailbox.js:125-153 | re-creating a mailbox from its profile restores e-mail and both message counters |
| MailboxRepository.GreetingSlotsKept | test/mock_dal/repositories/mailbox.js:125-153 | re-creating a mailbox from its profile restores the three greetings |
| MailboxRepository.NumberSlotKept | test/mock_dal/repositories/mailbox.js:47-71 | the number fixed at creation is not overwritten by the profile |
| MailboxRepository.RebuildKeepsFields | test/mock_dal/repositories/mailbox.js:125-153 | rebuilding a mailbox from number, context, profile and id gives that mailbox with that id |
| MailboxRepository.Copy | test/mock_dal/repositories/mailbox.js:125-153 | the copy a read hands out equals the stored mailbox |
| MailboxRepository.CreateFillsDeclaredSlots | test/mock_dal/repositories/mailbox.js:47-71 | every one of the ten declared data slots takes the field of its name when the fields define it (so a `mailboxNumber` field overwrites the number argument), and otherwise keeps its declared value: the number, or undefined; the context is the one given; the id is `fields` when that is a number, `id` otherwise |
| MailboxRepository.CreateFillsNumberSlot | test/mock_dal/repositories/mailbox.js:47-71 | a defined `mailboxNumber` field overwrites the number argument unless that is a function; context and id as above |
| MailboxRepository.CreateFillsNameSlots | test/mock_dal/repositories/mailbox.js:47-71 | box name, password and owner name come from the fields, or stay undefined |
| MailboxRepository.CreateFillsContactSlots | test/mock_dal/repositories/mailbox.js:47-71 | e-mail address and both message counters come from the fields, or stay undefined |
| MailboxRepository.CreateFillsGreetingSlots | test/mock_dal/repositories/mailbox.js:47-71 | the three greetings come from the fields, or stay undefined |
| MailboxRepository.Lookup | test/mock_dal/repositories/mailbox.js:125-153 | no answer exactly when no mailbox matches both number and context id; otherwise the first that does |
| MailboxRepository.LookupFinds | test/mock_dal/repositories/mailbox.js:125-153 | the first mailbox matching number and context, in visiting order, is the answer |
| MailboxRepository.InContextVisit | test/mock_dal/repositories/mailbox.js:77-105 | one loop step collects the next mailbox exactly when it belongs to the context |
| MailboxRepository.InContextCount | test/mock_dal/repositories/mailbox.js:77-120 | the mailboxes collected are as many as the keys of the context |
| MailboxRepository.InContextHas | test/mock_dal/repositories/mailbox.js:77-105 | the mailboxes collected are exactly those of the context |
| MailboxRepository.FoundInContext | test/mock_dal/repositories/mailbox.js:77-120 | `findByContext` reports exactly the context's mailboxes, and as many as `countByContext` counts |
| MailboxRepository.MailboxRepo.constructor | test/mock_dal/repositories/mailbox.js:12-13 | the table starts empty and ids start at 1 |
| MailboxRepository.MailboxRepo.GetNextId | test/mock_dal/repositories/mailbox.js:16-18 | hands out the counter and advances it by one |
| MailboxRepository.MailboxRepo.FindByContext | test/mock_dal/repositories/mailbox.js:77-105 | copies of exactly the context's mailboxes, in visiting order, as many as `countByContext` counts |
| MailboxRepository.MailboxRepo.CountByContext | test/mock_dal/repositories/mailbox.js:110-120 | the number of stored mailboxes whose context id matches |
| MailboxRepository.MailboxRepo.Get | test/mock_dal/repositories/mailbox.js:125-153 | a copy of the first mailbox with that number in that context, or none |
| MailboxRepository.MailboxRepo.Save | test/mock_dal/repositories/mailbox.js:158-182 | stores number, context and all nine profile fields under the instance's id, allocating one only when it has none |
| MailboxRepository.MailboxRepo.Remove | test/mock_dal/repositories/mailbox.js:210-225 | fails, changing nothing, for a missing or unknown id; otherwise deletes exactly that entry |
| MailboxRepository.MailboxRepo.TestReset | test/mock_dal/repositories/mailbox.js:288-300 | replaces the table and counter; omitted arguments mean empty and 1 |
| MessageRepository.CreateFillsDeclaredSlots | test/mock_dal/repositories/message.js:48-90 | each of the six data slots takes the field of its name when the fields define it and is undefined otherwise; mailbox and folder are the ones given; the id is `fields` when that is a number, `id` otherwise |
| MessageRepository.CreateFillsArrivalSlots | test/mock_dal/repositories/message.js:48-90 | date, read flag and original mailbox come from the fields, or stay undefined |
| MessageRepository.CreateFillsCallSlots | test/mock_dal/repositories/message.js:48-90 | caller id, duration and recording come from the fields, or stay undefined |
| MessageRepository.ArrivalSlotsKept | test/mock_dal/repositories/message.js:48-90 | re-creating a message from its fields restores date, read flag and original mailbox |
| MessageRepository.CallSlotsKept | test/mock_dal/repositories/message.js:48-90 | re-creating a message from its fields restores caller id, duration and recording |
| MessageRepository.RebuildKeepsFields | test/mock_dal/repositories/message.js:48-90 | rebuilding a message from mailbox, folder, fields and id gives that message with that id |
| MessageRepository.Copy | test/mock_dal/repositories/message.js:150-180 | the copy a read hands out equals the stored message |
| MessageRepository.MarkedReadOnce | test/mock_dal/repositories/message.js:79-86 | the instance's `markAsRead` answers true exactly when the message was unread, leaves it read, changes nothing else, and answers false when called again |
| MessageRepository.InMailboxMembers | test/mock_dal/repositories/message.js:329-358 | the messages a mailbox holds, collected in visiting order, are one per key of the mailbox and exactly its messages |
| MessageRepository.InMailboxFolderMembers | test/mock_dal/repositories/message.js:150-180 | the messages collected are exactly those of the mailbox in the folder |
| MessageRepository.AllMembers | test/mock_dal/repositories/message.js:150-180 | `all` reports exactly the stored messages of that mailbox and folder |
| MessageRepository.WithoutStep | test/mock_dal/repositories/message.js:329-358 | one loop step deletes the visited message exactly when it belongs to the mailbox |
| MessageRepository.TableVisit | test/mock_dal/repositories/message.js:329-358 | a message not yet visited is still stored unchanged, and the step updates the table as `WithoutStep` says |
| MessageRepository.RemovedVisit | test/mock_dal/repositories/message.js:329-358 | one loop step appends the visited message to the answer exactly when it belongs to the mailbox |
| MessageRepository.FiledVisit | test/mock_dal/repositories/message.js:150-180 | one loop step collects the visited message exactly when it is in that mailbox and folder |
| MessageRepository.WithoutAll | test/mock_dal/repositories/message.js:329-358 | after every key has been visited, exactly the other mailboxes' messages remain |
| MessageRepository.RemoveDone | test/mock_dal/repositories/message.js:329-358 | when the loop ends, the answer holds the mailbox's messages in order and the table holds everyone else's |
| MessageRepository.OtherMailboxesKeyed | test/mock_dal/repositories/message.js:329-358 | removing a mailbox's messages keeps every other message under its own id |
| MessageRepository.OtherMailboxesKept | test/mock_dal/repositories/message.js:329-358 | afterwards the mailbox has no message, every other message is stored unchanged, and only the mailbox's keys are gone |
| MessageRepository.MessageRepo.constructor | test/mock_dal/repositories/message.js:13-14 | the table starts empty and ids start at 1 |
| MessageRepository.MessageRepo.GetNextId | test/mock_dal/repositories/message.js:17-19 | hands out the counter and advances it by one |
| MessageRepository.MessageRepo.CountByMailbox | test/mock_dal/repositories/message.js:121-130 | the number of stored messages of the mailbox |
| MessageRepository.MessageRepo.CountByFolder | test/mock_dal/repositories/message.js:135-144 | the number of stored messages in the folder |
| MessageRepository.MessageRepo.All | test/mock_dal/repositories/message.js:150-180 | copies of exactly the messages of that mailbox in that folder, in visiting order |
| MessageRepository.MessageRepo.Save | test/mock_dal/repositories/message.js:227-250 | stores mailbox, folder and the six data fields under the instance's id, allocating one only when it has none |
| MessageRepository.MessageRepo.ChangeFolder | test/mock_dal/repositories/message.js:255-282 | fails without writing when the message has no id; otherwise saves it under its id with only the folder changed |
| MessageRepository.MessageRepo.MarkAsRead | test/mock_dal/repositories/message.js:287-305 | fails without an id, leaving the instance and the table alone; otherwise the answer and the updated instance are those of the instance's own `markAsRead` (`MarkedRead`): false and the instance as it was for a read message, true and the instance marked read otherwise, and only then is that updated instance saved under its id |
| MessageRepository.MessageRepo.Remove | test/mock_dal/repositories/message.js:310-324 | fails, changing nothing, for a missing or unknown id; otherwise deletes exactly that entry |
| MessageRepository.MessageRepo.RemoveByMailbox | test/mock_dal/repositories/message.js:329-358 | deletes exactly the mailbox's messages, keeps every other, and answers copies of the deleted ones in visiting order |
| MessageRepository.MessageRepo.TestReset | test/mock_dal/repositories/message.js:363-375 | replaces the table and counter; omitted arguments mean empty and 1 |
| DataAccess.Dal.constructor | test/mock_dal/db.js:16-25 | four fresh, empty repositories |
| ContextCommands.DomainLines | lib/commands/context.js:21-29 | one line per context, holding its domain |
| ContextCommands.ListedDomains | lib/commands/context.js:21-29 | a domain is listed exactly when some stored context has it |
| ContextCommands.ShowContexts | lib/commands/context.js:21-29 | the header, then one line per stored context, in visiting order; a domain is listed exactly when stored; nothing is written |
| ContextCommands.AddedDomainFound | lib/commands/context.js:40-47 | a new context under a fresh key is what a later lookup of its domain finds, and domains stay unique |
| ContextCommands.CreateContext | lib/commands/context.js:31-53 | wrong word count is a syntax error; an existing domain is a conflict; either way nothing is written; otherwise exactly one context with the domain is added under the next id |
| ContextCommands.RenamedDomainFound | lib/commands/context.js:84-85 | a renamed context is found under its new domain and no longer under its old one; domains stay unique |
| ContextCommands.FoundIsStored | lib/commands/context.js:76-85 | the context a lookup answers is stored under its own id with the domain asked for |
| ContextCommands.EditContext | lib/commands/context.js:55-91 | an empty new domain is a syntax error; an existing new domain fails before the old one is looked up; a missing old domain fails; on success only the domain changes and the id is kept |
| ContextCommands.DeleteContext | lib/commands/context.js:93-126 | a missing context fails; a context that still has mailboxes fails without removal; otherwise exactly that context is removed and its domain is no longer found |
| FolderCommands.FolderRows | lib/commands/folder.js:47-56 | one row per folder, in order |
| FolderCommands.FolderRowsSnoc | lib/commands/folder.js:47-56 | each loop step adds the next folder's row |
| FolderCommands.HeaderColumns | lib/commands/folder.js:45-46 | the header is 50 characters wide, and "recording" starts at column 20 |
| FolderCommands.RowColumnsAlign | lib/commands/folder.js:54-55 | a row with a short name and DTMF puts them at columns 0 and 13, and the recording at column 20, under the header |
| FolderCommands.ListedFolders | lib/commands/folder.js:41-58 | every stored folder has a row, and every row belongs to a stored folder |
| FolderCommands.ShowFolders | lib/commands/folder.js:41-58 | the header, then one row per stored folder, in visiting order; nothing is written |
| FolderCommands.ShownFolderFields | lib/commands/folder.js:36-37 | the logged folder shows no accessor, only name, recording and DTMF, and every string-valued one of them |
| FolderCommands.ShowFolder | lib/commands/folder.js:22-39 | wrong word count is a syntax error; an unknown name is not found; otherwise the culled folder found by name; nothing is written |
| FolderCommands.ConflictEntry | lib/commands/folder.js:76-78 | one conflict entry, `name (dtmf: d)`, is never empty |
| FolderCommands.ConflictList | lib/commands/folder.js:73-79 | the list of conflicts is non-empty when some folder conflicts |
| FolderCommands.ConflictListSnoc | lib/commands/folder.js:75-79 | each step of the `forEach` appends one entry, after a comma once the list is non-empty |
| FolderCommands.CommaJoinSnoc | lib/commands/folder.js:75-79 | joining one more part appends `, ` and the part |
| FolderCommands.ConflictListJoins | lib/commands/folder.js:73-82 | the conflicts are the entries joined by `, ` |
| FolderCommands.BuildConflictList | lib/commands/folder.js:73-79 | the loop builds exactly the comma-joined entries |
| FolderCommands.CreatedFromTokens | lib/commands/folder.js:85-87 | the folder created from the words has that name, DTMF and recording, and no id |
| FolderCommands.AddedFolderKeepsUnique | lib/commands/folder.js:85-89 | a folder that conflicts with none keeps names and DTMFs unique, and is what a later lookup of its name finds |
| FolderCommands.CreateFolder | lib/commands/folder.js:60-95 | wrong word count is a syntax error; a name or DTMF in use fails with the list of conflicts and writes nothing; otherwise exactly one folder is added under the next id |
| FolderCommands.WithField | lib/commands/folder.js:138-153 | setting one field changes only that slot and keeps the id |
| FolderCommands.FoundIsStored | lib/commands/folder.js:114-131 | the folder a lookup answers is stored under its own id with the name asked for |
| FolderCommands.RenamedFolderKeepsUnique | lib/commands/folder.js:114-131 | renaming to an unused name keeps names and DTMFs unique and is found under the new name |
| FolderCommands.DigitEditCanDuplicate | lib/commands/folder.js:138-153 | a DTMF edit can give two folders the same DTMF, because it makes no conflict check |
| FolderCommands.EditFolder | lib/commands/folder.js:97-158 | wrong word count or an empty value is a syntax error; a rename to a taken name fails before the old name is looked up; a missing folder fails; a field other than name, DTMF or recording fails; on success only that field changes and the id and count are kept |
| FolderCommands.RemovedNameGone | lib/commands/folder.js:186 | with unique names, removing the folder leaves no folder with its name |
| FolderCommands.DeleteFolder | lib/commands/folder.js:160-192 | a missing folder fails; a folder still holding messages fails without removal; otherwise exactly that folder is removed |
| MailboxCommands.KeyNeedsOneAt | lib/commands/mailbox.js:28-33 | a key splits into exactly two parts exactly when it holds exactly one `@` |
| MailboxCommands.KeyRoundTrip | lib/commands/mailbox.js:28-33 | `number@domain`, with no `@` in the number or the domain, splits back into the number and the domain, empty ones included |
| MailboxCommands.Resolve | lib/commands/mailbox.js:38-51 | no mailbox exactly when the domain is unknown or no mailbox of its context has the number; otherwise the one the two lookups find |
| MailboxCommands.ResolveKey | lib/commands/mailbox.js:38-51 | looks the context up, then the mailbox in it, as `Resolve` says |
| MailboxCommands.FoundIsStored | lib/commands/mailbox.js:163-184 | the mailbox a lookup answers is stored under its own id |
| MailboxCommands.ShowMailbox | lib/commands/mailbox.js:22-56 | a malformed key or wrong word count is a syntax error; a missing context or mailbox is "Mailbox ... not found"; otherwise the culled mailbox; nothing is written |
| MailboxCommands.ShownMailboxFields | lib/commands/mailbox.js:53-54 | the logged mailbox shows no accessor, but does show each string-valued slot |
| MailboxCommands.MailboxRows | lib/commands/mailbox.js:80-85 | one row per mailbox |
| MailboxCommands.MailboxRowsAt | lib/commands/mailbox.js:80-85 | the row of each mailbox is its `number@domain`, e-mail and name, in 20/25/25 columns |
| MailboxCommands.MailboxRowsStep | lib/commands/mailbox.js:80-85 | each `forEach` step adds the next mailbox's row |
| MailboxCommands.ListedMailboxes | lib/commands/mailbox.js:72-85 | the rows are as many as the context's mailboxes, and every mailbox of the context has one |
| MailboxCommands.ShowMailboxes | lib/commands/mailbox.js:58-87 | wrong word count is a syntax error; an unknown domain is "Context ... not found"; otherwise the header and a row per mailbox of the context, in visiting order; nothing is written |
| MailboxCommands.ListMailboxes | lib/commands/mailbox.js:75-85 | the loop logs the header and then exactly the rows |
| MailboxCommands.AssignedAfterCreate | lib/voicemail-admin.js:351-354 | the `createApi` copy, which creates a bare mailbox and then assigns password, name and e-mail, builds the new mailbox |
| MailboxCommands.ProfileSlotsFilled | lib/commands/mailbox.js:128-129 | populating from the profile object fills password, name and e-mail |
| MailboxCommands.OtherSlotsKept | lib/commands/mailbox.js:128-129 | populating from that object leaves every other slot as declared |
| MailboxCommands.PopulatedOnCreate | lib/commands/mailbox.js:128-129 | handing the profile to `create` builds the same new mailbox |
| MailboxCommands.AddedMailboxFound | lib/commands/mailbox.js:128-130 | a new mailbox with an unused key keeps keys unique and is what a later lookup finds |
| MailboxCommands.CreateMailbox | lib/commands/mailbox.js:89-136 | a malformed key or wrong word count is a syntax error; a missing context fails before an existing mailbox does; either way nothing is written; otherwise one mailbox with the words' password, name and e-mail is added under the next id and found by its key |
| MailboxCommands.WithField | lib/commands/mailbox.js:171-184 | setting one field changes only that slot and keeps number, context and id |
| MailboxCommands.EditKeepsKeys | lib/commands/mailbox.js:171-184 | editing a profile field keeps keys unique |
| MailboxCommands.EditMailbox | lib/commands/mailbox.js:138-190 | a malformed key or wrong word count is a syntax error; a missing mailbox fails; a field other than mailboxName, password, name or e-mail fails; on success only that field changes |
| MailboxCommands.RemovedKeyGone | lib/commands/mailbox.js:236 | with unique keys, removing the mailbox leaves none with its key |
| MailboxCommands.NoMessageLeft | lib/commands/mailbox.js:281-292 | a mailbox whose count is zero has no stored message |
| MailboxCommands.DeleteMailbox | lib/commands/mailbox.js:192-242 | a malformed key is a syntax error; a missing mailbox fails; one still holding messages fails and stays; otherwise exactly that mailbox is removed |
| MailboxCommands.NothingToRemove | lib/commands/mailbox.js:281-292 | when the mailbox holds no message, removing its messages would change nothing |
| MailboxCommands.DeleteMessages | lib/commands/mailbox.js:244-294 | a malformed key is a syntax error; a missing mailbox fails; with no message nothing is removed; otherwise exactly the mailbox's messages are removed, their count is reported, and the count is zero afterwards |
| Interpreter.ActionNamed | lib/voicemail-admin.js:160-714 | the handler found under a name is the one `createApi` defines under that very name |
| Interpreter.EveryActionNamed | lib/voicemail-admin.js:160-714 | each of the seventeen handlers is found under its own name |
| Interpreter.Details | lib/voicemail-admin.js:112-114 | one line per detail, in order |
| Interpreter.DetailsStep | lib/voicemail-admin.js:112-114 | each `forEach` step logs the next detail |
| Interpreter.Listing | lib/voicemail-admin.js:168-172 | one `key - description` line per key, in order |
| Interpreter.ListingStep | lib/voicemail-admin.js:168-172 | each loop step logs the next key's line |
| Interpreter.Help | lib/voicemail-admin.js:92-173 | with a command named, succeeds exactly when the menu has the key the next one or two words form, with usage, description and one line per detail; otherwise fails as not found with the fixed message; with none named, a title and one line per menu entry |
| Interpreter.ShowHelp | lib/voicemail-admin.js:92-173 | with one word, the command list; with more, the usage, description and details of the command that the next one or two words name, or the error with its literal `%s` |
| Interpreter.ShowUsage | lib/voicemail-admin.js:109-114 | logs usage, description and every detail, in order |
| Interpreter.ListCommands | lib/voicemail-admin.js:167-172 | logs one line per menu entry, in menu order |
| Interpreter.HelpListsEveryCommand | lib/voicemail-admin.js:167-172 | `help` lists every menu entry, after a title line |
| Interpreter.HelpDescribesWhatRuns | lib/voicemail-admin.js:97-106 | `help` followed by a command's words describes the entry that those words would run, or fails when there is none |
| Interpreter.RouteOf | lib/voicemail-admin.js:39-83 | what happens to a line: no line or an empty one exits, a blank one does nothing, an unknown key fails, and otherwise a handler runs on at least one word |
| Interpreter.Logged | lib/voicemail-admin.js:80-82 | a handler's lines are logged as info; its error is logged once as an error |
| Interpreter.Dispatch | lib/voicemail-admin.js:76-79 | runs exactly the handler the action names: for each of the seventeen actions the result and the tables left behind are those that handler's own contract states (`Handled`, e.g. `createContext` meets `ContextCommands.CreatesContext`); stops exactly for `exit`; the read-only handlers write nothing; every handler keeps the store consistent |
| Interpreter.Query | lib/voicemail-admin.js:162-289 | for each read-only action, the reply is the one its handler states: the help for `showHelp`, the farewell for `exit`, the listing or record of `showContexts`, `showFolders`, `showFolder`, `showMailbox`, `showMailboxes`; stops only for `exit` |
| Interpreter.ChangeContexts | lib/commands/context.js:31-126 | `createContext`, `editContext` and `deleteContext` each meet their own handler's contract, and keep the store consistent |
| Interpreter.ChangeFolders | lib/commands/folder.js:60-192 | `createFolder`, `editFolder` and `deleteFolder` each meet their own handler's contract, and keep the store consistent |
| Interpreter.ChangeMailboxes | lib/commands/mailbox.js:89-190 | `createMailbox` and `editMailbox` each meet their own handler's contract, and keep the store consistent |
| Interpreter.DeleteFromMailboxes | lib/commands/mailbox.js:192-294 | `deleteMailbox` and `deleteMessages` each meet their own handler's contract, and keep the store consistent |
| Interpreter.ProcessOption | lib/voicemail-admin.js:39-83 | never fails; answers `true` exactly for an empty input or `exit`; logs the farewell, nothing, the unknown-command error or the not-a-function error on those routes; when a handler runs, `r` meets that handler's contract (`Handled` for the action the entry names, on the line's words) and the log is exactly `Logged(r)`; read-only routes write nothing; the store stays consistent |
| Interpreter.ExitAlwaysStops | lib/voicemail-admin.js:63-79 | any line starting with the word `exit` stops the session |
| Interpreter.TypedWordsSelect | lib/voicemail-admin.js:63-70 | plain words typed with single spaces select the entry keyed by the first two of them |
| Interpreter.SessionLength | lib/voicemail-admin.js:724-739 | the session reads lines up to and including the first that stops it, or all of them |
| Interpreter.Session | lib/voicemail-admin.js:724-739 | the prompt loop consumes exactly that many lines and keeps the store consistent |

## Left out

- Terminal I/O is not modelled. The prompt, `getPrompt` and the logger become a sequence of input lines and a log of entries. Colours, underlining and `%j` serialisation are not modelled; a logged object is the record it would print.
- `sprintf` padding is modelled only for the listings (`%-Ns`). Other format strings become plain string concatenation.
- The `menu.json` table is not modelled. The menu is a parameter: its keys in file order and its entries by key.
- The promise chain (`Q`) is not modelled. Every operation runs to completion in order, and a rejected promise is an `Err` result.
- Keys inherited from `Object.prototype`, such as `constructor`, would be found by the menu lookup. They are not modelled; the menu holds only its own keys.
- The `TypeError` text logged when an entry names no handler is not the engine's own. Engines word it differently; the model uses one fixed text.
- The mailbox MWI hooks `newMessage`, `readMessage`, `deletedMessage` and `updateMwi` are not modelled. No handler calls them, and `updateMwi` is a no-op.
- The message repository's `get` and `latest`, and the `init` field of a message, are not modelled. No handler calls them, and `latest` compares dates.
- Non-numeric, negative and fractional ids are not modelled. Ids are natural numbers, and 0 means none.
- `FolderCommands.ShowFolders`: the `typeof(folder) === 'function'` skip of `lib/commands/folder.js` and the `key === 'add'` skip of the `createApi` copy (lib/voicemail-admin.js:197) are not modelled. The map `all` answers holds only folders, under numeric ids, so neither skip can fire.
- `JsValues.Display`: a function value is rendered as the word `function`. JavaScript would print the function's source text, which the model does not carry.
- The bootstrap files `app.js`, `lib/voicemail-admin-init.js`, `createtables.js` and `data/db.js` are not part of this model, nor is the build file `Gruntfile.js`.
- The store does not enforce unique domains, folder names or mailbox keys. `Consistent` is an invariant the handlers preserve, not one the store checks.
- `Interpreter.Session`: a session also ends when the input lines run out. The JavaScript prompt would wait for more.
