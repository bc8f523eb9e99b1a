/** The presence computation of `update_presence`, once the plugin is connected and the ignore
    lists are loaded: the editor observations and the settings become the four activity fields
    large_image, large_text, details and state, or the cycle stops early. */
module Presence {
  import opened Wrappers
  import opened Text
  import Paths
  import TermCmds
  import FileSize
  import Icons

  /** What `vim.eval` gives for an ignore setting: a Vim List, a String (or Number), or anything else. */
  datatype IgnoreValue = IgnoreList(items: seq<string>) | IgnoreString(text: string) | IgnoreOther

  /** The `g:vimsence_*` variables; None when `exists(...)` is not '1'. */
  datatype Config = Config(
    smallText: Option<string>,
    smallImage: Option<string>,
    clientId: Option<string>,
    customIcons: Option<map<string, string>>,
    ignoredFileTypes: Option<IgnoreValue>,
    ignoredDirectories: Option<IgnoreValue>,
    ignoredFileTypesName: Option<string>,
    ignoredDirectoriesName: Option<string>,
    editingText: Option<string>,
    editingState: Option<string>,
    editingDetails: Option<string>,
    fileExplorerImage: Option<string>,
    fileExplorerText: Option<string>,
    fileExplorerDetails: Option<string>,
    fileExplorerState: Option<string>,
    terminalImage: Option<string>,
    terminalText: Option<string>,
    terminalDetails: Option<string>,
    terminalState: Option<string>,
    unknownImage: Option<string>,
    idleImage: Option<string>,
    idleText: Option<string>,
    idleState: Option<string>)

  /** No variable set: every default applies. */
  const NO_SETTINGS := Config(None, None, None, None, None, None, None, None, None, None, None,
                              None, None, None, None, None, None, None, None, None, None, None, None)

  /** The editor state one cycle reads through `vim.eval`. */
  datatype Snapshot = Snapshot(
    bufferName: string,   // expand("%:t")
    cwd: string,          // getcwd()
    fullPath: string,     // expand("%:p")
    filetype: string,     // &filetype
    extension: string,    // expand("%:e")
    fileSize: int,        // getfsize(expand(@%)), -1 when there is no file
    lastLine: int,        // line("$")
    buftype: string,      // &buftype
    modifiable: string)   // &modifiable, as the text "0" or "1"

  /** Code the plugin calls but that is not part of this model: the matchers `utils.contains`
      and `utils.contains_fuzzy`, and the `%.1f` rendering of the scaled file size. */
  datatype Externals = Externals(
    contains: (IgnoreValue, string) -> bool,
    containsFuzzy: (seq<string>, string) -> bool,
    formatOneDecimal: real -> string)

  /** The module globals `ignored_file_types` and `ignored_directories` once loaded. */
  datatype IgnoreLists = IgnoreLists(fileTypes: IgnoreValue, directories: IgnoreValue)

  /** The lazy load: the configured value, or the empty list. */
  function LoadIgnoreLists(cfg: Config): IgnoreLists
  {
    IgnoreLists(cfg.ignoredFileTypes.GetOr(IgnoreList([])), cfg.ignoredDirectories.GetOr(IgnoreList([])))
  }

  const FILE_EXPLORERS: seq<string> := ["nerdtree", "vimfiler", "netrw"]
  const FILE_EXPLORER_NAMES: seq<string> := ["vimfiler:default", "NERD_tree_", "NetrwTreeListing"]

  const DEFAULT_EDITING_TEXT := "Editing a {filetype} file"
  const DEFAULT_EDITING_STATE := "Workspace: {}"
  const DEFAULT_EDITING_DETAILS := "Editing {filename}"

  /** The values the placeholders of a template stand for in one cycle. */
  datatype Tags = Tags(
    filename: string,
    directory: string,
    filedir: string,
    filetype: string,
    filesize: string,
    filesizeb: string,
    fileline: string,
    termcmds: string)

  const PLACEHOLDERS: seq<string> := ["{filename}", "{directory}", "{filedir}", "{filetype}",
                                      "{filesize}", "{filesizeb}", "{fileline}", "{termcmds}"]

  /** `parse_tags`: eight replacements, one per placeholder, in this order; each works on the
      output of the one before. */
  function ParseTags(t: Tags, s: string): string
  {
    ExpandAfterFilename(t, ReplaceAll(s, "{filename}", t.filename))
  }

  /** The seven replacements that follow the "{filename}" one, in the same order. */
  function ExpandAfterFilename(t: Tags, s1: string): string
  {
    var s2 := ReplaceAll(s1, "{directory}", t.directory);
    var s3 := ReplaceAll(s2, "{filedir}", t.filedir);
    var s4 := ReplaceAll(s3, "{filetype}", t.filetype);
    var s5 := ReplaceAll(s4, "{filesize}", t.filesize);
    var s6 := ReplaceAll(s5, "{filesizeb}", t.filesizeb);
    var s7 := ReplaceAll(s6, "{fileline}", t.fileline);
    ReplaceAll(s7, "{termcmds}", t.termcmds)
  }

  /** The text `get_filesize` returns, for a size whose unit exists. */
  function SizeText(sizeLabel: FileSize.SizeLabel, ext: Externals): string
    requires !sizeLabel.UnitOutOfRange?
  {
    match sizeLabel
    case ZeroBytes => "0B"
    case Scaled(v, unit) => ext.formatOneDecimal(v) + unit
  }

  /** Lines 135-143: the observations of one cycle; None when `get_filesize` raises IndexError. */
  function Observe(snap: Snapshot, ext: Externals): Option<Tags>
  {
    var sizeLabel := FileSize.Label(snap.fileSize);
    if sizeLabel.UnitOutOfRange? then None
    else Some(Tags(
      snap.bufferName,
      Paths.GetDirectory(snap.cwd),
      Paths.GetFiledir(snap.fullPath, snap.cwd),
      snap.filetype,
      SizeText(sizeLabel, ext),
      Decimal(snap.fileSize),
      Decimal(snap.lastLine),
      TermCmds.TermCmds(snap.bufferName)))
  }

  /** Lines 145-152: an ignored file type is renamed when a name is set; otherwise the cycle
      stops (None) and the stored activity is sent as it stands. */
  function GateFileType(cfg: Config, lists: IgnoreLists, ext: Externals, t: Tags): Option<Tags>
  {
    if !ext.contains(lists.fileTypes, t.filetype) then Some(t)
    else if cfg.ignoredFileTypesName.Some? then
      Some(t.(filename := cfg.ignoredFileTypesName.value, filetype := ""))
    else None
  }

  /** One pass of the loop at lines 159-163 on one string. */
  function ScrubStep(d: string, entry: string, name: string): string
  {
    if Contains(d, entry) then ReplaceAll(d, entry, name) else d
  }

  /** The loop at lines 159-163 on one string: each list entry, in list order. */
  function Scrub(d: string, entries: seq<string>, name: string): string
    decreases |entries|
  {
    if entries == [] then d else Scrub(ScrubStep(d, entries[0], name), entries[1..], name)
  }

  /** Lines 154-169: a matched directory is rewritten when a name is set; otherwise the cycle stops. */
  function GateDirectory(cfg: Config, lists: IgnoreLists, ext: Externals, t: Tags): Option<Tags>
  {
    if !(ext.contains(lists.directories, t.directory) || ext.contains(lists.directories, t.filedir)) then
      Some(t)
    else if cfg.ignoredDirectoriesName.None? then None
    else
      var name := cfg.ignoredDirectoriesName.value;
      match lists.directories
      case IgnoreList(entries) =>
        Some(t.(directory := Scrub(t.directory, entries, name), filedir := Scrub(t.filedir, entries, name)))
      case IgnoreString(x) =>
        var d := ReplaceAll(t.directory, x, name);
        Some(t.(directory := d, filedir := ReplaceAll(d, x, name)))
      case IgnoreOther => Some(t)
  }

  /** The five cases of lines 199-262, tried in this order. */
  datatype Branch = KnownIcon | FileExplorer | Terminal | UnknownWritable | Idle

  /** The first case whose condition holds (after the gates, on the current file name and type). */
  function SelectBranch(t: Tags, snap: Snapshot, tables: Icons.IconTables, ext: Externals): Branch
  {
    if t.filetype != "" && Icons.HasIcon(tables, t.filetype) then KnownIcon
    else if t.filetype in FILE_EXPLORERS || ext.containsFuzzy(FILE_EXPLORER_NAMES, t.filename) then FileExplorer
    else if snap.buftype == "terminal" then Terminal
    else if snap.modifiable != "" && t.filename != "" then UnknownWritable
    else Idle
  }

  /** The four fields written into the activity at lines 265-268. */
  datatype Fields = Fields(largeImage: string, largeText: string, details: string, state: string)

  /** The fields each case produces. The editing templates are resolved first (lines 184-197)
      and stand unless the case replaces them. */
  function Dispatch(b: Branch, cfg: Config, snap: Snapshot, tables: Icons.IconTables, t: Tags): Fields
  {
    var editingText := cfg.editingText.GetOr(DEFAULT_EDITING_TEXT);
    var editingState := ParseTags(t, cfg.editingState.GetOr(DEFAULT_EDITING_STATE));
    var editingDetails := ParseTags(t, cfg.editingDetails.GetOr(DEFAULT_EDITING_DETAILS));
    match b
    case KnownIcon =>
      Fields(Icons.IconFor(tables, t.filetype), ParseTags(t, editingText), editingDetails, editingState)
    case FileExplorer =>
      Fields("file-explorer", cfg.fileExplorerText.GetOr("In the file explorer"),
             cfg.fileExplorerDetails.GetOr("Searching for files"), cfg.fileExplorerState.GetOr(editingState))
    case Terminal =>
      Fields(cfg.terminalImage.GetOr("sh"), cfg.terminalText.GetOr("In the terminal"),
             ParseTags(t, cfg.terminalDetails.GetOr("Running terminal")),
             ParseTags(t, cfg.terminalState.GetOr("{termcmds}")))
    case UnknownWritable =>
      Fields(cfg.unknownImage.GetOr("none"),
             if t.filetype != "" then ParseTags(t, editingText)
             else if snap.extension == "" || t.filetype == "" then "Unknown"
             else snap.extension,
             editingDetails, editingState)
    case Idle =>
      Fields(cfg.idleImage.GetOr("none"), cfg.idleText.GetOr("Nothing"), cfg.idleText.GetOr("Nothing"),
             cfg.idleState.GetOr("   "))
  }

  /** How a connected cycle ends: `get_filesize` raised, the stored activity was re-sent by an
      ignore gate, or new fields were computed. */
  datatype CycleResult = SizeIndexError | SendBaseline | Publish(fields: Fields)

  /** One connected cycle of `update_presence`, from the observations to the fields sent. */
  function Cycle(cfg: Config, snap: Snapshot, lists: IgnoreLists, tables: Icons.IconTables,
                 ext: Externals): CycleResult
  {
    match Observe(snap, ext)
    case None => SizeIndexError
    case Some(t0) =>
      match GateFileType(cfg, lists, ext, t0)
      case None => SendBaseline
      case Some(t1) =>
        match GateDirectory(cfg, lists, ext, t1)
        case None => SendBaseline
        case Some(t) => Publish(Dispatch(SelectBranch(t, snap, tables, ext), cfg, snap, tables, t))
  }

  /** The loop at lines 159-163, rewriting `directory` and `filedir` entry by entry. */
  method ScrubDirectories(directory: string, filedir: string, entries: seq<string>, name: string)
    returns (d: string, f: string)
    ensures d == Scrub(directory, entries, name)
    ensures f == Scrub(filedir, entries, name)
  {
    d, f := directory, filedir;
    for i := 0 to |entries|
      invariant Scrub(d, entries[i..], name) == Scrub(directory, entries, name)
      invariant Scrub(f, entries[i..], name) == Scrub(filedir, entries, name)
    {
      var a := entries[i];
      assert entries[i..][1..] == entries[i + 1..];
      if Contains(d, a) {
        d := ReplaceAll(d, a, name);
      }
      if Contains(f, a) {
        f := ReplaceAll(f, a, name);
      }
    }
    assert entries[|entries|..] == [];
  }

  /** Lines 135-143: the observations, read in the source's order. */
  method GatherTags(snap: Snapshot, ext: Externals) returns (t: Option<Tags>)
    ensures t == Observe(snap, ext)
  {
    var filename := snap.bufferName;
    var directory := Paths.GetDirectory(snap.cwd);
    var filedir := Paths.GetFiledir(snap.fullPath, snap.cwd);
    var filetype := snap.filetype;
    var sizeLabel := FileSize.GetFileSize(snap.fileSize);
    if sizeLabel.UnitOutOfRange? {
      return None;
    }
    var filesize := SizeText(sizeLabel, ext);
    var filesizeb := Decimal(snap.fileSize);
    var fileline := Decimal(snap.lastLine);
    var termcmds := TermCmds.TermCmds(snap.bufferName);
    t := Some(Tags(filename, directory, filedir, filetype, filesize, filesizeb, fileline, termcmds));
  }

  /** Lines 130-269 up to the send: observations, the two ignore gates, then the fields. */
  method ComputeCycle(cfg: Config, snap: Snapshot, lists: IgnoreLists, tables: Icons.IconTables,
                      ext: Externals) returns (r: CycleResult)
    ensures r == Cycle(cfg, snap, lists, tables, ext)
  {
    var observed := GatherTags(snap, ext);
    if observed.None? {
      return SizeIndexError;
    }
    var named := ApplyFileTypeGate(cfg, lists, ext, observed.value);
    if named.None? {
      return SendBaseline;
    }
    var gated := ApplyDirectoryGate(cfg, lists, ext, named.value);
    if gated.None? {
      return SendBaseline;
    }
    var fields := ResolveFields(cfg, snap, tables, ext, gated.value);
    r := Publish(fields);
  }

  /** Lines 145-152: None where the source sends the stored activity and returns. */
  method ApplyFileTypeGate(cfg: Config, lists: IgnoreLists, ext: Externals, tags: Tags)
    returns (r: Option<Tags>)
    ensures r == GateFileType(cfg, lists, ext, tags)
  {
    var filename, filetype := tags.filename, tags.filetype;
    if ext.contains(lists.fileTypes, filetype) {
      if cfg.ignoredFileTypesName.Some? {
        filename := cfg.ignoredFileTypesName.value;
        filetype := "";
      } else {
        return None;
      }
    }
    r := Some(tags.(filename := filename, filetype := filetype));
  }

  /** Lines 154-169: None where the source sends the stored activity and returns. */
  method ApplyDirectoryGate(cfg: Config, lists: IgnoreLists, ext: Externals, tags: Tags)
    returns (r: Option<Tags>)
    ensures r == GateDirectory(cfg, lists, ext, tags)
  {
    var directory, filedir := tags.directory, tags.filedir;
    if ext.contains(lists.directories, directory) || ext.contains(lists.directories, filedir) {
      if cfg.ignoredDirectoriesName.Some? {
        var ignoredName := cfg.ignoredDirectoriesName.value;
        match lists.directories {
          case IgnoreList(entries) =>
            directory, filedir := ScrubDirectories(directory, filedir, entries, ignoredName);
          case IgnoreString(x) =>
            directory := ReplaceAll(directory, x, ignoredName);
            filedir := ReplaceAll(directory, x, ignoredName);
          case IgnoreOther =>
        }
      } else {
        return None;
      }
    }
    r := Some(tags.(directory := directory, filedir := filedir));
  }

  /** Lines 184-262: the editing templates, then the five cases in order. `parse_tags` reads
      the current filename, directory, filedir and filetype, which no longer change. */
  method ResolveFields(cfg: Config, snap: Snapshot, tables: Icons.IconTables, ext: Externals, tags: Tags)
    returns (f: Fields)
    ensures f == Dispatch(SelectBranch(tags, snap, tables, ext), cfg, snap, tables, tags)
  {
    var editingText, largeText, details, state := ResolveEditing(cfg, tags);
    var filename, filetype := tags.filename, tags.filetype;
    if filetype != "" && (filetype in tables.hasThumbnail || filetype in tables.remap) {
      f := ShowKnownIcon(cfg, snap, tables, tags, editingText, details, state);
    } else if filetype in FILE_EXPLORERS || ext.containsFuzzy(FILE_EXPLORER_NAMES, filename) {
      f := ShowFileExplorer(cfg, snap, tables, tags, state);
    } else if snap.buftype == "terminal" {
      f := ShowTerminal(cfg, snap, tables, tags);
    } else if snap.modifiable != "" && filename != "" {
      f := ShowUnknown(cfg, snap, tables, tags, editingText, details, state);
    } else {
      f := ShowIdle(cfg, snap, tables, tags);
    }
  }

  /** Lines 184-197: the three editing templates, each the setting or its default, parsed. */
  method ResolveEditing(cfg: Config, tags: Tags)
    returns (editingText: string, largeText: string, details: string, state: string)
    ensures editingText == cfg.editingText.GetOr(DEFAULT_EDITING_TEXT)
    ensures largeText == ParseTags(tags, editingText)
    ensures state == ParseTags(tags, cfg.editingState.GetOr(DEFAULT_EDITING_STATE))
    ensures details == ParseTags(tags, cfg.editingDetails.GetOr(DEFAULT_EDITING_DETAILS))
  {
    editingText := DEFAULT_EDITING_TEXT;
    if cfg.editingText.Some? {
      editingText := cfg.editingText.value;
    }
    largeText := ParseTags(tags, editingText);

    var editingState := DEFAULT_EDITING_STATE;
    if cfg.editingState.Some? {
      editingState := cfg.editingState.value;
    }
    state := ParseTags(tags, editingState);

    var editingDetails := DEFAULT_EDITING_DETAILS;
    if cfg.editingDetails.Some? {
      editingDetails := cfg.editingDetails.value;
    }
    details := ParseTags(tags, editingDetails);
  }

  /** Lines 199-205: the known-icon case, with the resolved editing values. */
  method ShowKnownIcon(cfg: Config, snap: Snapshot, tables: Icons.IconTables, tags: Tags,
                       editingText: string, details: string, state: string)
    returns (f: Fields)
    requires editingText == cfg.editingText.GetOr(DEFAULT_EDITING_TEXT)
    requires state == ParseTags(tags, cfg.editingState.GetOr(DEFAULT_EDITING_STATE))
    requires details == ParseTags(tags, cfg.editingDetails.GetOr(DEFAULT_EDITING_DETAILS))
    ensures f == Dispatch(KnownIcon, cfg, snap, tables, tags)
  {
    var filetype := tags.filetype;
    var largeText := ParseTags(tags, editingText);
    if filetype in tables.remap {
      filetype := tables.remap[filetype];
    }
    var largeImage := filetype;
    f := Fields(largeImage, largeText, details, state);
  }

  /** Lines 206-221: the file-explorer case; `state` is the resolved editing state. */
  method ShowFileExplorer(cfg: Config, snap: Snapshot, tables: Icons.IconTables, tags: Tags, state: string)
    returns (f: Fields)
    requires state == ParseTags(tags, cfg.editingState.GetOr(DEFAULT_EDITING_STATE))
    ensures f == Dispatch(FileExplorer, cfg, snap, tables, tags)
  {
    var largeImage, largeText, details, st := "file-explorer", "", "", state;
    if cfg.fileExplorerImage.Some? {
      largeText := cfg.fileExplorerImage.value;
    }
    largeText := "In the file explorer";
    if cfg.fileExplorerText.Some? {
      largeText := cfg.fileExplorerText.value;
    }
    details := "Searching for files";
    if cfg.fileExplorerDetails.Some? {
      details := cfg.fileExplorerDetails.value;
    }
    if cfg.fileExplorerState.Some? {
      st := cfg.fileExplorerState.value;
    }
    f := Fields(largeImage, largeText, details, st);
  }

  /** Lines 222-240: the terminal case. */
  method ShowTerminal(cfg: Config, snap: Snapshot, tables: Icons.IconTables, tags: Tags)
    returns (f: Fields)
    ensures f == Dispatch(Terminal, cfg, snap, tables, tags)
  {
    var largeImage := "sh";
    if cfg.terminalImage.Some? {
      largeImage := cfg.terminalImage.value;
    }
    var largeText := "In the terminal";
    if cfg.terminalText.Some? {
      largeText := cfg.terminalText.value;
    }
    var details := "Running terminal";
    if cfg.terminalDetails.Some? {
      details := cfg.terminalDetails.value;
    }
    details := ParseTags(tags, details);
    var state := "{termcmds}";
    if cfg.terminalState.Some? {
      state := cfg.terminalState.value;
    }
    state := ParseTags(tags, state);
    f := Fields(largeImage, largeText, details, state);
  }

  /** Lines 241-247: a writable buffer with a name, of no known kind. */
  method ShowUnknown(cfg: Config, snap: Snapshot, tables: Icons.IconTables, tags: Tags,
                     editingText: string, details: string, state: string)
    returns (f: Fields)
    requires editingText == cfg.editingText.GetOr(DEFAULT_EDITING_TEXT)
    requires state == ParseTags(tags, cfg.editingState.GetOr(DEFAULT_EDITING_STATE))
    requires details == ParseTags(tags, cfg.editingDetails.GetOr(DEFAULT_EDITING_DETAILS))
    ensures f == Dispatch(UnknownWritable, cfg, snap, tables, tags)
  {
    var filetype := tags.filetype;
    var largeImage := "none";
    if cfg.unknownImage.Some? {
      largeImage := cfg.unknownImage.value;
    }
    var largeText := if filetype != "" then ParseTags(tags, editingText)
                     else if snap.extension == "" || filetype == "" then "Unknown"
                     else snap.extension;
    f := Fields(largeImage, largeText, details, state);
  }

  /** Lines 249-262: nothing to show. */
  method ShowIdle(cfg: Config, snap: Snapshot, tables: Icons.IconTables, tags: Tags)
    returns (f: Fields)
    ensures f == Dispatch(Idle, cfg, snap, tables, tags)
  {
    var largeImage := "none";
    if cfg.idleImage.Some? {
      largeImage := cfg.idleImage.value;
    }
    var largeText, details := "Nothing", "Nothing";
    if cfg.idleText.Some? {
      largeText := cfg.idleText.value;
      details := cfg.idleText.value;
    }
    var state := "   ";
    if cfg.idleState.Some? {
      state := cfg.idleState.value;
    }
    f := Fields(largeImage, largeText, details, state);
  }
}
