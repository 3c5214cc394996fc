/**
 * The folder commands: `show folders`, `show folder <name>`,
 * `create folder <name> <dtmf> <recording>`, `edit folder <name> <field>
 * <value>` and `delete folder <name>`. lib/voicemail-admin.js and
 * lib/commands/folder.js carry the same handlers; they are modelled once.
 */
module FolderCommands {
  import opened JsValues
  import opened OrderedKeys
  import opened DalHelpers
  import opened CommandHelpers
  import opened Replies
  import opened DataAccess
  import F = FolderRepository
  import MR = MessageRepository

  function NoSuchFolder(name: string): string {
    "Folder '" + name + "' not found."
  }

  function FolderCreated(name: string): string {
    "Successfully created folder '" + name + "'"
  }

  function NameTaken(name: string): string {
    "A folder named '" + name + "' already exists."
  }

  function FolderRenamed(name: string, newName: string): string {
    "Folder '" + name + "' changed to '" + newName + "'"
  }

  function NotEditableField(field: string): string {
    "'" + field + "' is not an editable property of folders."
  }

  function FolderUpdated(name: string): string {
    "Folder '" + name + "' updated"
  }

  function StillHoldsMessages(name: string, count: nat): string {
    "Folder '" + name + "' has " + NatToString(count) + " messages in it that must be deleted first."
  }

  function FolderDeleted(name: string): string {
    "Deleted folder '" + name + "'"
  }

  // ---------------------------------------------------------------- listing

  /** The underlined header: `sprintf('%-12s %-6s %-30s', 'name', 'dtmf', 'recording')`. */
  function FolderHeader(): string {
    PadRight("name", 12) + " " + PadRight("dtmf", 6) + " " + PadRight("recording", 30)
  }

  /** One folder's line: `sprintf('%-12s %-6s %s', name, dtmf, recording)`. */
  function FolderRow(f: F.Folder): string {
    PadRight(Display(f.name), 12) + " " + PadRight(Display(f.dtmf), 6) + " " + Display(f.recording)
  }

  /** One line per folder, in the order given. */
  function FolderRows(folders: seq<F.Folder>): (lines: seq<Line>)
    ensures |lines| == |folders|
    ensures forall i :: 0 <= i < |folders| ==> lines[i] == Text(FolderRow(folders[i]))
  {
    if folders == [] then []
    else
      var init := folders[..|folders| - 1];
      assert forall i :: 0 <= i < |init| ==> init[i] == folders[i];
      FolderRows(init) + [Text(FolderRow(folders[|folders| - 1]))]
  }

  lemma FolderRowsSnoc(folders: seq<F.Folder>, f: F.Folder)
    ensures FolderRows(folders + [f]) == FolderRows(folders) + [Text(FolderRow(f))]
  {
    assert (folders + [f])[..|folders|] == folders;
  }

  /** The header is 50 characters wide, with `recording` starting in column 20. */
  lemma HeaderColumns()
    ensures |FolderHeader()| == 50 && FolderHeader()[20..29] == "recording"
  {
    PaddedCell("recording", 30);
    var header := PadRight("name", 12) + " " + PadRight("dtmf", 6) + " " + PadRight("recording", 30);
    assert header[20..29] == PadRight("recording", 30)[..9];
  }

  /** A name of up to 12 characters and a DTMF digit of up to 6 leave the recording in column 20, under its header. */
  lemma RowColumnsAlign(f: F.Folder)
    requires |Display(f.name)| <= 12 && |Display(f.dtmf)| <= 6
    ensures FolderRow(f)[..|Display(f.name)|] == Display(f.name)
    ensures FolderRow(f)[13..13 + |Display(f.dtmf)|] == Display(f.dtmf)
    ensures FolderRow(f)[20..] == Display(f.recording)
  {
    var name := PadRight(Display(f.name), 12);
    var dtmf := PadRight(Display(f.dtmf), 6);
    PaddedCell(Display(f.name), 12);
    PaddedCell(Display(f.dtmf), 6);
    assert FolderRow(f) == name + " " + dtmf + " " + Display(f.recording);
    assert FolderRow(f)[..|Display(f.name)|] == name[..|Display(f.name)|];
    assert FolderRow(f)[13..13 + |Display(f.dtmf)|] == dtmf[..|Display(f.dtmf)|];
  }

  /** Every stored folder has its line in the listing, and there is no other line. */
  lemma ListedFolders(folders: map<nat, F.Folder>)
    ensures |FolderRows(InOrder(folders))| == |folders|
    ensures forall f :: f in folders.Values ==> Text(FolderRow(f)) in FolderRows(InOrder(folders))
    ensures forall l :: l in FolderRows(InOrder(folders)) ==> exists f :: f in folders.Values && l == Text(FolderRow(f))
  {
    var listed := InOrder(folders);
    InOrderMembers(folders);
    forall f | f in folders.Values ensures Text(FolderRow(f)) in FolderRows(listed) {
      var i :| 0 <= i < |listed| && listed[i] == f;
      assert FolderRows(listed)[i] == Text(FolderRow(f));
    }
    forall l | l in FolderRows(listed) ensures exists f :: f in folders.Values && l == Text(FolderRow(f)) {
      var i :| 0 <= i < |listed| && FolderRows(listed)[i] == l;
      assert listed[i] in folders.Values;
    }
  }

  /** What `showFolders` logs. */
  ghost predicate ListsFolders(dal: Dal, r: Result)
    reads dal.folder
  {
    && (r == Ok([Text(FolderHeader())] + FolderRows(InOrder(dal.folder.folders))))
    && (|r.lines| == |dal.folder.folders| + 1)
  }

  /** `showFolders`: the header, then one line per stored folder in enumeration order. */
  method ShowFolders(dal: Dal) returns (r: Result)
    ensures ListsFolders(dal, r)
  {
    var folders := dal.folder.All();
    var ks := EnumerationOrder(folders.Keys);
    var rows := [];
    for i := 0 to |ks|
      invariant rows == FolderRows(ValuesAt(folders, ks[..i]))
    {
      // the table's keys are ids, never 'add', and its values are instances, never functions
      ValuesAtSnoc(folders, ks, i);
      FolderRowsSnoc(ValuesAt(folders, ks[..i]), folders[ks[i]]);
      rows := rows + [Text(FolderRow(folders[ks[i]]))];
    }
    assert ks[..|ks|] == ks;
    InOrderMembers(dal.folder.folders);
    r := Ok([Text(FolderHeader())] + rows);
  }

  // ---------------------------------------------------------------- show one

  /** What `showFolder` logs for a folder: its data slots, with `getId` and any object slot culled. */
  lemma ShownFolderFields(f: F.Folder)
    ensures "getId" !in Plain(F.Slots(f))
    ensures Plain(F.Slots(f)).Keys <= {"name", "recording", "dtmf"}
    ensures f.name.Str? ==> "name" in Plain(F.Slots(f)) && Plain(F.Slots(f))["name"] == f.name
    ensures f.dtmf.Str? ==> "dtmf" in Plain(F.Slots(f)) && Plain(F.Slots(f))["dtmf"] == f.dtmf
    ensures f.recording.Str? ==> "recording" in Plain(F.Slots(f)) && Plain(F.Slots(f))["recording"] == f.recording
  {
    assert F.Slots(f)["getId"] == Func;
  }

  /** What `showFolder` settles with. */
  ghost predicate ShowsFolder(dal: Dal, tokens: seq<string>, r: Result)
    reads dal.folder
  {
    && (|tokens| != 3 ==> r == Err(Syntax, InvalidSyntax(tokens)))
    && (|tokens| == 3 && !F.HasName(dal.folder.folders, tokens[2]) ==> r == Err(NotFound, NoSuchFolder(tokens[2])))
    && (|tokens| == 3 && F.HasName(dal.folder.folders, tokens[2]) ==>
          r == Ok([Json(Plain(F.Slots(F.Lookup(dal.folder.folders, tokens[2]).value)))]))
  }

  /** `showFolder`: the named folder as JSON, or an error when no folder has that name. */
  method ShowFolder(dal: Dal, tokens: seq<string>) returns (r: Result)
    ensures ShowsFolder(dal, tokens, r)
  {
    if |tokens| != 3 {
      return Err(Syntax, InvalidSyntax(tokens));
    }
    var name := tokens[2];
    var folder := dal.folder.Get(name);
    if folder.None? {
      return Err(NotFound, NoSuchFolder(name));
    }
    var shown := new JsObject(F.Slots(folder.value));
    RemoveNonValues(shown);
    return Ok([Json(shown.props)]);
  }

  // ---------------------------------------------------------------- create

  /** One entry of the conflict report: `sprintf('%s (dtmf: %s)', name, dtmf)`. */
  function ConflictEntry(f: F.Folder): (s: string)
    ensures |s| > 0
  {
    Display(f.name) + " (dtmf: " + Display(f.dtmf) + ")"
  }

  /** The report the loop builds: each entry appended, preceded by ", " once the report is non-empty. */
  function ConflictList(folders: seq<F.Folder>): (s: string)
    ensures folders != [] ==> |s| > 0
  {
    if folders == [] then ""
    else
      var before := ConflictList(folders[..|folders| - 1]);
      before + (if |before| > 0 then ", " else "") + ConflictEntry(folders[|folders| - 1])
  }

  lemma ConflictListSnoc(folders: seq<F.Folder>, i: nat)
    requires i < |folders|
    ensures ConflictList(folders[..i + 1]) ==
      ConflictList(folders[..i]) + (if |ConflictList(folders[..i])| > 0 then ", " else "") + ConflictEntry(folders[i])
  {
    assert folders[..i + 1][..i] == folders[..i];
  }

  /** The entries of the folders, in order. */
  function Entries(folders: seq<F.Folder>): (entries: seq<string>)
    ensures |entries| == |folders|
  {
    if folders == [] then [] else Entries(folders[..|folders| - 1]) + [ConflictEntry(folders[|folders| - 1])]
  }

  /** `parts.join(', ')`. */
  function CommaJoin(parts: seq<string>): string
    requires |parts| >= 1
  {
    if |parts| == 1 then parts[0] else parts[0] + ", " + CommaJoin(parts[1..])
  }

  lemma {:induction false} CommaJoinSnoc(parts: seq<string>, last: string)
    requires |parts| >= 1
    ensures CommaJoin(parts + [last]) == CommaJoin(parts) + ", " + last
    decreases |parts|
  {
    if |parts| == 1 {
      assert (parts + [last])[1..] == [last];
    } else {
      assert (parts + [last])[1..] == parts[1..] + [last];
      CommaJoinSnoc(parts[1..], last);
    }
  }

  /** The report is the conflicting folders' entries joined by ", ", in the order they were found. */
  lemma {:induction false} ConflictListJoins(folders: seq<F.Folder>)
    requires |folders| >= 1
    ensures ConflictList(folders) == CommaJoin(Entries(folders))
    decreases |folders|
  {
    if |folders| > 1 {
      var init := folders[..|folders| - 1];
      var last := ConflictEntry(folders[|folders| - 1]);
      ConflictListJoins(init);
      CommaJoinSnoc(Entries(init), last);
    }
  }

  /** The `forEach` that builds the report, entry by entry. */
  method BuildConflictList(existing: seq<F.Folder>) returns (conflicts: string)
    ensures conflicts == ConflictList(existing)
    ensures existing != [] ==> conflicts == CommaJoin(Entries(existing))
  {
    conflicts := "";
    for i := 0 to |existing|
      invariant conflicts == ConflictList(existing[..i])
    {
      ConflictListSnoc(existing, i);
      conflicts := conflicts + (if |conflicts| > 0 then ", " else "") + ConflictEntry(existing[i]);
    }
    assert existing[..|existing|] == existing;
    if existing != [] {
      ConflictListJoins(existing);
    }
  }

  function ConflictReport(folders: seq<F.Folder>): string {
    "Requested folder conflicts with existing folders: " + ConflictList(folders)
  }

  /** The instance `create({name, dtmf, recording})` builds from the command's tokens: no id yet. */
  lemma CreatedFromTokens(name: string, dtmf: string, recording: string)
    ensures F.Create(Obj(map["name" := Str(name), "dtmf" := Str(dtmf), "recording" := Str(recording)]), Undef) ==
            F.Folder(Str(name), Str(recording), Str(dtmf), 0)
  {
    var fields := Obj(map["name" := Str(name), "dtmf" := Str(dtmf), "recording" := Str(recording)]);
    UndefSlotTakesField(F.Template(), fields, "name");
    UndefSlotTakesField(F.Template(), fields, "dtmf");
    UndefSlotTakesField(F.Template(), fields, "recording");
    assert IdOf(OptionalArgument(fields, Undef, "number")) == 0;
  }

  /** No two stored folders share a name. */
  ghost predicate UniqueNames(folders: map<nat, F.Folder>) {
    forall j, k :: j in folders && k in folders && folders[j].name == folders[k].name ==> j == k
  }

  /** No two stored folders share a DTMF digit. */
  ghost predicate UniqueDigits(folders: map<nat, F.Folder>) {
    forall j, k :: j in folders && k in folders && folders[j].dtmf == folders[k].dtmf ==> j == k
  }

  /** A folder that conflicts with none stored, added under a free key, keeps names and digits unique. */
  lemma AddedFolderKeepsUnique(folders: map<nat, F.Folder>, k: nat, f: F.Folder)
    requires k !in folders
    requires f.name.Str? && f.dtmf.Str?
    requires forall g :: g in folders.Values ==> !F.Conflicts(g, f.name.s, f.dtmf.s)
    ensures UniqueNames(folders) ==> UniqueNames(folders[k := f])
    ensures UniqueDigits(folders) ==> UniqueDigits(folders[k := f])
    ensures F.Lookup(folders[k := f], f.name.s) == Some(f)
  {
    var after := folders[k := f];
    forall j | j in folders ensures folders[j].name != f.name && folders[j].dtmf != f.dtmf {
      assert folders[j] in folders.Values;
    }
    assert F.FirstWithName(after, k, f.name.s);
    F.LookupFinds(after, k, f.name.s);
  }

  /** What `createFolder` settles with, and the folder table it leaves behind. */
  twostate predicate CreatesFolder(dal: Dal, tokens: seq<string>, r: Result)
    reads dal.folder
  {
    && (|tokens| != 5 ==> r == Err(Syntax, InvalidSyntax(tokens)))
    && (|tokens| == 5 ==>
          var conflicting := old(F.ConflictingAt(dal.folder.folders, Ascending(dal.folder.folders.Keys), tokens[2], tokens[3]));
          conflicting != [] ==> r == Err(Conflict, ConflictReport(conflicting)))
    && (r.Ok? <==>
          |tokens| == 5 && forall f :: f in old(dal.folder.folders).Values ==> !F.Conflicts(f, tokens[2], tokens[3]))
    && (r.Err? ==> unchanged(dal.folder))
    && (r.Ok? ==>
          && r.lines == [Text(FolderCreated(tokens[2]))]
          && dal.folder.folders == old(dal.folder.folders)[old(dal.folder.nextId) :=
               F.Folder(Str(tokens[2]), Str(tokens[4]), Str(tokens[3]), old(dal.folder.nextId))]
          && dal.folder.nextId == old(dal.folder.nextId) + 1)
  }

  /**
   * `createFolder`: refuses a name or DTMF digit that a stored folder
   * already has, listing every such folder; otherwise saves the new folder
   * under the next id.
   */
  method CreateFolder(dal: Dal, tokens: seq<string>) returns (r: Result)
    modifies dal.folder
    ensures CreatesFolder(dal, tokens, r)
    ensures old(dal.folder.Valid()) ==> dal.folder.Valid()
    ensures old(dal.folder.Valid()) && old(UniqueNames(dal.folder.folders)) ==> UniqueNames(dal.folder.folders)
    ensures old(dal.folder.Valid()) && old(UniqueDigits(dal.folder.folders)) ==> UniqueDigits(dal.folder.folders)
  {
    if |tokens| != 5 {
      return Err(Syntax, InvalidSyntax(tokens));
    }
    var name := tokens[2];
    var dtmf := tokens[3];
    var recording := tokens[4];
    var existing := dal.folder.FindByNameOrDTMF(name, dtmf);
    if |existing| > 0 {
      assert existing[0] in existing;
      var conflicts := BuildConflictList(existing);
      return Err(Conflict, "Requested folder conflicts with existing folders: " + conflicts);
    }
    CreatedFromTokens(name, dtmf, recording);
    var newFolder := F.Create(Obj(map["name" := Str(name), "dtmf" := Str(dtmf), "recording" := Str(recording)]), Undef);
    ghost var before := dal.folder.folders;
    dal.folder.Save(newFolder);
    if old(dal.folder.Valid()) {
      AddedFolderKeepsUnique(before, old(dal.folder.nextId), newFolder.(id := old(dal.folder.nextId)));
    }
    return Ok([Text(FolderCreated(name))]);
  }

  // ---------------------------------------------------------------- edit

  /** The folder with one slot set, as `folder[field] = value` does for an editable field. */
  function WithField(f: F.Folder, field: string, value: Value): (g: F.Folder)
    requires field in {"name", "dtmf", "recording"}
    ensures F.Slots(g) == F.Slots(f)[field := value]
    ensures g.id == f.id
  {
    if field == "name" then f.(name := value)
    else if field == "dtmf" then f.(dtmf := value)
    else f.(recording := value)
  }

  /** The folder `get(name)` answers with is stored under its own id, in a valid table. */
  lemma FoundIsStored(folders: map<nat, F.Folder>, nextId: nat, name: string)
    requires forall k :: k in folders ==> folders[k].id == k && 0 < k < nextId
    requires F.HasName(folders, name)
    ensures F.Lookup(folders, name).value.id in folders
    ensures folders[F.Lookup(folders, name).value.id] == F.Lookup(folders, name).value
    ensures F.Lookup(folders, name).value.name == Str(name)
  {
  }

  /** Renaming the folder under `k` to a name nobody has keeps names unique and drops the old name. */
  lemma RenamedFolderKeepsUnique(folders: map<nat, F.Folder>, k: nat, newName: string)
    requires k in folders && !F.HasName(folders, newName)
    ensures UniqueNames(folders) ==> UniqueNames(folders[k := folders[k].(name := Str(newName))])
    ensures UniqueDigits(folders) ==> UniqueDigits(folders[k := folders[k].(name := Str(newName))])
    ensures F.Lookup(folders[k := folders[k].(name := Str(newName))], newName) == Some(folders[k].(name := Str(newName)))
  {
    var after := folders[k := folders[k].(name := Str(newName))];
    assert F.FirstWithName(after, k, newName);
    F.LookupFinds(after, k, newName);
  }

  /**
   * Unlike `createFolder`, a DTMF edit checks nothing: two folders can end
   * up sharing a digit.
   */
  lemma DigitEditCanDuplicate()
    ensures var folders := map[1 := F.Folder(Str("INBOX"), Str("r"), Str("0"), 1), 2 := F.Folder(Str("Old"), Str("r"), Str("1"), 2)];
      UniqueDigits(folders) && !UniqueDigits(folders[2 := WithField(folders[2], "dtmf", Str("0"))])
  {
    var folders := map[1 := F.Folder(Str("INBOX"), Str("r"), Str("0"), 1), 2 := F.Folder(Str("Old"), Str("r"), Str("1"), 2)];
    var after := folders[2 := WithField(folders[2], "dtmf", Str("0"))];
    assert after[1].dtmf == after[2].dtmf;
  }

  /** What `editFolder` settles with, and the folder table it leaves behind. */
  twostate predicate EditsFolder(dal: Dal, tokens: seq<string>, r: Result)
    reads dal.folder
  {
    && (|tokens| != 5 || tokens[4] == "" ==> r == Err(Syntax, InvalidSyntax(tokens)))
    && (|tokens| == 5 && tokens[4] != "" && tokens[3] == "name" ==>
          && (F.HasName(old(dal.folder.folders), tokens[4]) ==> r == Err(Conflict, NameTaken(tokens[4])))
          && (!F.HasName(old(dal.folder.folders), tokens[4]) && !F.HasName(old(dal.folder.folders), tokens[2]) ==>
                r == Err(NotFound, NoSuchFolder(tokens[2])))
          && (!F.HasName(old(dal.folder.folders), tokens[4]) && F.HasName(old(dal.folder.folders), tokens[2]) ==>
                r == Ok([Text(FolderRenamed(tokens[2], tokens[4]))])))
    && (|tokens| == 5 && tokens[4] != "" && tokens[3] != "name" ==>
          && (!F.HasName(old(dal.folder.folders), tokens[2]) ==> r == Err(NotFound, NoSuchFolder(tokens[2])))
          && (F.HasName(old(dal.folder.folders), tokens[2]) && tokens[3] !in {"dtmf", "recording"} ==>
                r == Err(NotEditable, NotEditableField(tokens[3])))
          && (F.HasName(old(dal.folder.folders), tokens[2]) && tokens[3] in {"dtmf", "recording"} ==>
                r == Ok([Text(FolderUpdated(tokens[2]))])))
    && (r.Err? ==> unchanged(dal.folder))
    && (r.Ok? && old(dal.folder.Valid()) ==>
          var f := old(F.Lookup(dal.folder.folders, tokens[2])).value;
          && dal.folder.folders == old(dal.folder.folders)[f.id := WithField(f, tokens[3], Str(tokens[4]))]
          && dal.folder.nextId == old(dal.folder.nextId))
  }

  /**
   * `editFolder`: the new value must be non-empty. A rename first checks that
   * no folder has the new name; `dtmf` and `recording` are set without any
   * check; any other field is refused once the folder is found.
   */
  method EditFolder(dal: Dal, tokens: seq<string>) returns (r: Result)
    modifies dal.folder
    ensures EditsFolder(dal, tokens, r)
    ensures old(dal.folder.Valid()) ==> dal.folder.Valid()
    ensures old(dal.folder.Valid()) && old(UniqueNames(dal.folder.folders)) ==> UniqueNames(dal.folder.folders)
  {
    if |tokens| != 5 {
      return Err(Syntax, InvalidSyntax(tokens));
    }
    var name := tokens[2];
    var field := tokens[3];
    var newValue := tokens[4];
    if |newValue| < 1 {
      return Err(Syntax, InvalidSyntax(tokens));
    }
    ghost var before := dal.folder.folders;
    if field == "name" {
      var existing := dal.folder.Get(newValue);
      if existing.Some? {
        return Err(Conflict, NameTaken(newValue));
      }
      var folder := dal.folder.Get(name);
      if folder.None? {
        return Err(NotFound, NoSuchFolder(name));
      }
      if dal.folder.Valid() {
        FoundIsStored(before, dal.folder.nextId, name);
        RenamedFolderKeepsUnique(before, folder.value.id, newValue);
      }
      dal.folder.Save(folder.value.(name := Str(newValue)));
      return Ok([Text(FolderRenamed(name, newValue))]);
    }
    var folder := dal.folder.Get(name);
    if folder.None? {
      return Err(NotFound, NoSuchFolder(name));
    }
    var edited: F.Folder;
    if field == "dtmf" {
      edited := folder.value.(dtmf := Str(newValue));
    } else if field == "recording" {
      edited := folder.value.(recording := Str(newValue));
    } else {
      return Err(NotEditable, NotEditableField(field));
    }
    if dal.folder.Valid() {
      FoundIsStored(before, dal.folder.nextId, name);
    }
    dal.folder.Save(edited);
    return Ok([Text(FolderUpdated(name))]);
  }

  // ---------------------------------------------------------------- delete

  /** With unique names, removing the folder that has a name leaves no folder with it. */
  lemma RemovedNameGone(folders: map<nat, F.Folder>, k: nat, name: string)
    requires UniqueNames(folders)
    requires k in folders && folders[k].name == Str(name)
    ensures !F.HasName(folders - {k}, name)
    ensures UniqueNames(folders - {k})
  {
  }

  /** What `deleteFolder` settles with, and the folder table it leaves behind. */
  twostate predicate DeletesFolder(dal: Dal, tokens: seq<string>, r: Result)
    reads dal.folder, dal.message
  {
    && (|tokens| != 3 ==> r == Err(Syntax, InvalidSyntax(tokens)))
    && (|tokens| == 3 && !F.HasName(old(dal.folder.folders), tokens[2]) ==>
          r == Err(NotFound, NoSuchFolder(tokens[2])))
    && (|tokens| == 3 && F.HasName(old(dal.folder.folders), tokens[2]) ==>
          var f := old(F.Lookup(dal.folder.folders, tokens[2])).value;
          var count := |MR.KeysInFolder(dal.message.messages, dal.message.messages.Keys, f.id)|;
          && (count != 0 ==> r == Err(NotEmpty, StillHoldsMessages(tokens[2], count)))
          && (count == 0 && old(dal.folder.Valid()) ==>
                && r == Ok([Text(FolderDeleted(tokens[2]))])
                && dal.folder.folders == old(dal.folder.folders) - {f.id}
                && forall k :: k in dal.message.messages ==> dal.message.messages[k].folderId != f.id))
    && (r.Err? ==> dal.folder.folders == old(dal.folder.folders))
    && (dal.folder.nextId == old(dal.folder.nextId))
    && (r.Ok? && old(dal.folder.Valid()) && old(UniqueNames(dal.folder.folders)) ==>
          !F.HasName(dal.folder.folders, tokens[2]) && UniqueNames(dal.folder.folders))
  }

  /** `deleteFolder`: removes the named folder, unless some message is still filed in it. */
  method DeleteFolder(dal: Dal, tokens: seq<string>) returns (r: Result)
    modifies dal.folder
    ensures DeletesFolder(dal, tokens, r)
    ensures old(dal.folder.Valid()) ==> dal.folder.Valid()
  {
    if |tokens| != 3 {
      return Err(Syntax, InvalidSyntax(tokens));
    }
    var name := tokens[2];
    var folder := dal.folder.Get(name);
    if folder.None? {
      return Err(NotFound, NoSuchFolder(name));
    }
    var count := dal.message.CountByFolder(folder.value.id);
    if count != 0 {
      return Err(NotEmpty, StillHoldsMessages(name, count));
    }
    ghost var before := dal.folder.folders;
    if dal.folder.Valid() {
      FoundIsStored(before, dal.folder.nextId, name);
    }
    ghost var inFolder := MR.KeysInFolder(dal.message.messages, dal.message.messages.Keys, folder.value.id);
    assert forall k :: k in dal.message.messages && dal.message.messages[k].folderId == folder.value.id ==> k in inFolder;
    var outcome := dal.folder.Remove(folder.value);
    if outcome.Fail? {
      return Err(Rejected, outcome.message);
    }
    if old(dal.folder.Valid()) && UniqueNames(before) {
      RemovedNameGone(before, folder.value.id, name);
    }
    return Ok([Text(FolderDeleted(name))]);
  }
}
