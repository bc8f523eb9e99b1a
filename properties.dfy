/** What the presence computation guarantees: the template substitution, the ignore gates, the
    five-way dispatch and the file-size error, each stated over the functions of `Presence`. */
module PresenceProperties {
  import opened Wrappers
  import opened Text
  import opened Presence
  import Icons
  import FileSize
  import TermCmds

  /** None of the eight placeholders occurs in s. */
  predicate NoPlaceholders(s: string)
  {
    forall i :: 0 <= i < |PLACEHOLDERS| ==> !Contains(s, PLACEHOLDERS[i])
  }

  /** Every placeholder starts with '{', so text without '{' has none. */
  lemma BraceFreeHasNoPlaceholders(s: string)
    requires '{' !in s
    ensures NoPlaceholders(s)
  {
    forall i | 0 <= i < |PLACEHOLDERS|
      ensures !Contains(s, PLACEHOLDERS[i])
    {
      AbsentFirstChar(s, PLACEHOLDERS[i]);
    }
  }

  /** A text holding none of the placeholders from "{directory}" to "{fileline}" passes the
      first six of the later replacements unchanged: only the "{termcmds}" step acts on it. */
  lemma ExpandAfterFilenameOnlyLast(t: Tags, s: string)
    requires forall i :: 1 <= i < |PLACEHOLDERS| - 1 ==> !Contains(s, PLACEHOLDERS[i])
    ensures ExpandAfterFilename(t, s) == ReplaceAll(s, "{termcmds}", t.termcmds)
  {
    assert !Contains(s, PLACEHOLDERS[1]);
    ReplaceAbsent(s, "{directory}", t.directory);
    assert !Contains(s, PLACEHOLDERS[2]);
    ReplaceAbsent(s, "{filedir}", t.filedir);
    assert !Contains(s, PLACEHOLDERS[3]);
    ReplaceAbsent(s, "{filetype}", t.filetype);
    assert !Contains(s, PLACEHOLDERS[4]);
    ReplaceAbsent(s, "{filesize}", t.filesize);
    assert !Contains(s, PLACEHOLDERS[5]);
    ReplaceAbsent(s, "{filesizeb}", t.filesizeb);
    assert !Contains(s, PLACEHOLDERS[6]);
    ReplaceAbsent(s, "{fileline}", t.fileline);
  }

  /** The last seven replacements leave text alone that holds none of their placeholders. */
  lemma ExpandAfterFilenameIdentity(t: Tags, s: string)
    requires forall i :: 1 <= i < |PLACEHOLDERS| ==> !Contains(s, PLACEHOLDERS[i])
    ensures ExpandAfterFilename(t, s) == s
  {
    ExpandAfterFilenameOnlyLast(t, s);
    assert !Contains(s, PLACEHOLDERS[7]);
    ReplaceAbsent(s, "{termcmds}", t.termcmds);
  }

  /** A template without placeholders comes out of `parse_tags` unchanged, whatever the tags. */
  lemma ParseTagsIdentity(t: Tags, s: string)
    requires NoPlaceholders(s)
    ensures ParseTags(t, s) == s
  {
    assert !Contains(s, PLACEHOLDERS[0]);
    ReplaceAbsent(s, "{filename}", t.filename);
    ExpandAfterFilenameIdentity(t, s);
  }

  /** The default editing state "Workspace: {}" holds no placeholder and is sent literally. */
  lemma DefaultStateVerbatim(t: Tags)
    ensures ParseTags(t, DEFAULT_EDITING_STATE) == "Workspace: {}"
  {
    var s := DEFAULT_EDITING_STATE;
    assert s == "Workspace: " + "{}";
    forall i | 0 <= i < |PLACEHOLDERS|
      ensures !Contains(s, PLACEHOLDERS[i])
    {
      ContainsSkip("Workspace: ", "{}", PLACEHOLDERS[i]);
    }
    ParseTagsIdentity(t, s);
  }

  /** `s.replace(pat, rep)` when pat occurs once, with its first character nowhere else. */
  lemma ReplaceOnly(a: string, pat: string, b: string, rep: string)
    requires |pat| > 0 && pat[0] !in a && pat[0] !in b
    ensures ReplaceAll(a + pat + b, pat, rep) == a + rep + b
  {
    assert a + pat + b == a + (pat + b);
    ReplaceSkip(a, pat + b, pat, rep);
    ReplaceHead(pat, b, rep);
    AbsentFirstChar(b, pat);
    ReplaceAbsent(b, pat, rep);
  }

  /** A template whose only placeholder is "{filename}" gets the file name, provided the name
      itself holds no '{' (otherwise later replacements would reach into it). */
  lemma FilenameTemplate(t: Tags, a: string, b: string)
    requires '{' !in a && '{' !in b && '{' !in t.filename
    ensures ParseTags(t, a + "{filename}" + b) == a + t.filename + b
  {
    ReplaceOnly(a, "{filename}", b, t.filename);
    var s1 := a + t.filename + b;
    assert '{' !in s1;
    BraceFreeHasNoPlaceholders(s1);
    ExpandAfterFilenameIdentity(t, s1);
  }

  /** A text whose only '{' is its first character does not contain a placeholder-like sub
      that differs from it in the second character. */
  lemma HeadMismatch(c: char, r: string, sub: string)
    requires |sub| >= 2 && sub[0] !in r && (|r| == 0 || r[0] != sub[1])
    ensures !Contains([c] + r, sub)
  {
    var s := [c] + r;
    if |sub| <= |s| {
      assert s[..|sub|][1] == r[0];
    }
    AbsentFirstChar(r, sub);
    assert s[1..] == r;
  }

  /** A text whose only '{' is its first character contains sub, which starts with '{',
      only as a prefix. */
  lemma SingleBraceContains(c: char, r: string, sub: string)
    requires |sub| > 0 && sub[0] !in r
    ensures Contains([c] + r, sub) <==> |sub| <= 1 + |r| && ([c] + r)[..|sub|] == sub
  {
    AbsentFirstChar(r, sub);
    assert ([c] + r)[1..] == r;
  }

  /** "{termcmds}" holds none of the seven placeholders replaced before it. */
  lemma TermcmdsHoldsNoEarlierPlaceholder()
    ensures forall i :: 0 <= i < |PLACEHOLDERS| - 1 ==> !Contains("{termcmds}", PLACEHOLDERS[i])
  {
    var r := "termcmds}";
    assert "{termcmds}" == ['{'] + r;
    assert r[0] == 't';
    forall i | 0 <= i < |PLACEHOLDERS| - 1
      ensures !Contains("{termcmds}", PLACEHOLDERS[i])
    {
      assert PLACEHOLDERS[i][0] == '{' && PLACEHOLDERS[i][1] != 't';
      assert '{' !in r;
      HeadMismatch('{', r, PLACEHOLDERS[i]);
    }
  }

  /** The seven steps after "{filename}" turn "{termcmds}" into the `termcmds` tag. */
  lemma TermcmdsAfterFilename(t: Tags)
    ensures ExpandAfterFilename(t, "{termcmds}") == t.termcmds
  {
    TermcmdsHoldsNoEarlierPlaceholder();
    var s := "{termcmds}";
    ExpandAfterFilenameOnlyLast(t, s);
    assert s == s + [];
    ReplaceHead(s, [], t.termcmds);
  }

  /** The terminal's default state "{termcmds}" becomes exactly the `termcmds` tag, and since
      that replacement comes last, a placeholder inside the tag's value stays as it is. */
  lemma TermcmdsTemplate(t: Tags)
    ensures ParseTags(t, "{termcmds}") == t.termcmds
  {
    TermcmdsHoldsNoEarlierPlaceholder();
    assert !Contains("{termcmds}", PLACEHOLDERS[0]);
    ReplaceAbsent("{termcmds}", "{filename}", t.filename);
    TermcmdsAfterFilename(t);
  }

  /** Substitution is sequential: a file name that itself reads "{termcmds}" is expanded again
      by the later "{termcmds}" step. */
  lemma LaterPlaceholderExpandedInsideEarlierValue(t: Tags)
    requires t.filename == "{termcmds}"
    ensures ParseTags(t, "{filename}") == t.termcmds
  {
    assert "{filename}" == "{filename}" + [];
    ReplaceHead("{filename}", [], t.filename);
    assert ReplaceAll([], "{filename}", t.filename) == [];
    assert ReplaceAll("{filename}", "{filename}", t.filename) == "{termcmds}";
    TermcmdsAfterFilename(t);
  }

  // ---- The ignore gates ----

  /** An ignored file type with no replacement name ends the cycle before any dispatch: the
      stored activity is sent as it is. */
  lemma IgnoredTypeWithoutNameSendsBaseline(cfg: Config, snap: Snapshot, lists: IgnoreLists,
                                            tables: Icons.IconTables, ext: Externals)
    requires Observe(snap, ext).Some?
    requires ext.contains(lists.fileTypes, snap.filetype)
    requires cfg.ignoredFileTypesName.None?
    ensures Cycle(cfg, snap, lists, tables, ext) == SendBaseline
  {
  }

  /** The directory gate rewrites only `directory` and `filedir`. */
  lemma DirectoryGateKeepsOtherTags(cfg: Config, lists: IgnoreLists, ext: Externals, t: Tags)
    requires GateDirectory(cfg, lists, ext, t).Some?
    ensures GateDirectory(cfg, lists, ext, t).value ==
            t.(directory := GateDirectory(cfg, lists, ext, t).value.directory,
               filedir := GateDirectory(cfg, lists, ext, t).value.filedir)
  {
  }

  /** With a replacement name, an ignored file type takes that name and an empty type, so the
      known-icon case cannot be chosen, whatever the directory gate does next. */
  lemma IgnoredTypeRenamed(cfg: Config, lists: IgnoreLists, ext: Externals, t0: Tags,
                           snap: Snapshot, tables: Icons.IconTables)
    requires ext.contains(lists.fileTypes, t0.filetype)
    requires cfg.ignoredFileTypesName.Some?
    ensures GateFileType(cfg, lists, ext, t0) ==
            Some(t0.(filename := cfg.ignoredFileTypesName.value, filetype := ""))
    ensures var t1 := GateFileType(cfg, lists, ext, t0).value;
            GateDirectory(cfg, lists, ext, t1).Some? ==>
              var t := GateDirectory(cfg, lists, ext, t1).value;
              t.filename == cfg.ignoredFileTypesName.value && t.filetype == "" &&
              SelectBranch(t, snap, tables, ext) != KnownIcon
  {
    var t1 := GateFileType(cfg, lists, ext, t0).value;
    if GateDirectory(cfg, lists, ext, t1).Some? {
      DirectoryGateKeepsOtherTags(cfg, lists, ext, t1);
    }
  }

  /** One pass of the rewriting loop is a plain replace-all: the `in` test in front of it only
      skips a replacement that would change nothing. */
  lemma ScrubStepIsReplace(d: string, entry: string, name: string)
    ensures ScrubStep(d, entry, name) == ReplaceAll(d, entry, name)
  {
    if !Contains(d, entry) {
      ReplaceAbsent(d, entry, name);
    }
  }

  /** The list case processes entries in list order: rewriting with xs + ys is rewriting with
      xs, then with ys. */
  lemma {:induction false} ScrubAppend(d: string, xs: seq<string>, ys: seq<string>, name: string)
    ensures Scrub(d, xs + ys, name) == Scrub(Scrub(d, xs, name), ys, name)
    decreases |xs|
  {
    if xs == [] {
      assert xs + ys == ys;
    } else {
      assert (xs + ys)[0] == xs[0];
      assert (xs + ys)[1..] == xs[1..] + ys;
      ScrubAppend(ScrubStep(d, xs[0], name), xs[1..], ys, name);
    }
  }

  /** Rewriting with a single entry ignored under `name` replaces every occurrence of it. */
  lemma ScrubSingle(d: string, entry: string, name: string)
    ensures Scrub(d, [entry], name) == ReplaceAll(d, entry, name)
  {
    assert [entry][1..] == [];
    ScrubStepIsReplace(d, entry, name);
  }

  /** An entry that never occurs changes nothing: a text in which no entry occurs is left alone. */
  lemma {:induction false} ScrubUntouched(d: string, entries: seq<string>, name: string)
    requires forall i :: 0 <= i < |entries| ==> !Contains(d, entries[i])
    ensures Scrub(d, entries, name) == d
    decreases |entries|
  {
    if entries != [] {
      assert !Contains(d, entries[0]);
      assert ScrubStep(d, entries[0], name) == d;
      assert forall i :: 0 <= i < |entries[1..]| ==> entries[1..][i] == entries[i + 1];
      ScrubUntouched(d, entries[1..], name);
    }
  }

  /** The string case derives `filedir` from the directory it has just rewritten: once the
      directory matched, the original `filedir` has no influence on the result. */
  lemma StringCaseFiledirFromDirectory(cfg: Config, lists: IgnoreLists, ext: Externals, t: Tags,
                                       otherFiledir: string)
    requires lists.directories.IgnoreString? && cfg.ignoredDirectoriesName.Some?
    requires ext.contains(lists.directories, t.directory)
    ensures GateDirectory(cfg, lists, ext, t) == GateDirectory(cfg, lists, ext, t.(filedir := otherFiledir))
    ensures var x, n := lists.directories.text, cfg.ignoredDirectoriesName.value;
            var d := ReplaceAll(t.directory, x, n);
            GateDirectory(cfg, lists, ext, t) == Some(t.(directory := d, filedir := ReplaceAll(d, x, n)))
  {
  }

  /** The string case, opened by a match on either value, rewrites `directory` and then sets
      `filedir` from the rewritten directory, not from the old `filedir`. */
  lemma StringCaseRewrite(cfg: Config, lists: IgnoreLists, ext: Externals, t: Tags)
    requires lists.directories.IgnoreString? && cfg.ignoredDirectoriesName.Some?
    requires ext.contains(lists.directories, t.directory) || ext.contains(lists.directories, t.filedir)
    ensures var x, n := lists.directories.text, cfg.ignoredDirectoriesName.value;
            var d := ReplaceAll(t.directory, x, n);
            GateDirectory(cfg, lists, ext, t) == Some(t.(directory := d, filedir := ReplaceAll(d, x, n)))
  {
  }

  /** When only `filedir` matched, the ignored `filedir` is not hidden: it is overwritten by the
      unmatched directory name. Directory "proj", file directory "secret", the ignored string
      "secret" and the name "X" send "proj" as both. */
  lemma FiledirOnlyMatchKeepsDirectory(cfg: Config, lists: IgnoreLists, ext: Externals, t: Tags)
    requires lists.directories == IgnoreString("secret") && cfg.ignoredDirectoriesName == Some("X")
    requires t.directory == "proj" && t.filedir == "secret"
    requires ext.contains(lists.directories, t.filedir)
    ensures GateDirectory(cfg, lists, ext, t) == Some(t.(filedir := "proj"))
  {
    ReplaceAbsent("proj", "secret", "X");
  }

  /** The list case rewrites `directory` and `filedir` independently, each with every entry. */
  lemma ListCaseRewritesBoth(cfg: Config, lists: IgnoreLists, ext: Externals, t: Tags)
    requires lists.directories.IgnoreList? && cfg.ignoredDirectoriesName.Some?
    requires ext.contains(lists.directories, t.directory) || ext.contains(lists.directories, t.filedir)
    ensures var es, n := lists.directories.items, cfg.ignoredDirectoriesName.value;
            GateDirectory(cfg, lists, ext, t) ==
              Some(t.(directory := Scrub(t.directory, es, n), filedir := Scrub(t.filedir, es, n)))
  {
  }

  /** A matched directory or file directory with no replacement name ends the cycle with the
      stored activity, whether the file type passed the first gate as it was or renamed. */
  lemma IgnoredDirectoryWithoutNameSendsBaseline(cfg: Config, snap: Snapshot, lists: IgnoreLists,
                                                 tables: Icons.IconTables, ext: Externals)
    requires Observe(snap, ext).Some?
    requires GateFileType(cfg, lists, ext, Observe(snap, ext).value).Some?
    requires var t1 := GateFileType(cfg, lists, ext, Observe(snap, ext).value).value;
             ext.contains(lists.directories, t1.directory) || ext.contains(lists.directories, t1.filedir)
    requires cfg.ignoredDirectoriesName.None?
    ensures Cycle(cfg, snap, lists, tables, ext) == SendBaseline
  {
  }

  // ---- The dispatch ----

  /** The five cases are taken first-match: each is chosen exactly when its own condition holds
      and those of all earlier cases fail. */
  lemma SelectBranchFirstMatch(t: Tags, snap: Snapshot, tables: Icons.IconTables, ext: Externals)
    ensures var known := t.filetype != "" && Icons.HasIcon(tables, t.filetype);
            var explorer := t.filetype in FILE_EXPLORERS || ext.containsFuzzy(FILE_EXPLORER_NAMES, t.filename);
            var terminal := snap.buftype == "terminal";
            var writable := snap.modifiable != "" && t.filename != "";
            var b := SelectBranch(t, snap, tables, ext);
            && (b == KnownIcon <==> known)
            && (b == FileExplorer <==> !known && explorer)
            && (b == Terminal <==> !known && !explorer && terminal)
            && (b == UnknownWritable <==> !known && !explorer && !terminal && writable)
            && (b == Idle <==> !known && !explorer && !terminal && !writable)
  {
  }

  /** A known type shows its remapped image, or the type itself when there is no remap entry. */
  lemma KnownIconImage(cfg: Config, snap: Snapshot, tables: Icons.IconTables, t: Tags)
    ensures var f := Dispatch(KnownIcon, cfg, snap, tables, t);
            && (t.filetype in tables.remap ==> f.largeImage == tables.remap[t.filetype])
            && (t.filetype !in tables.remap ==> f.largeImage == t.filetype)
            && f.largeText == ParseTags(t, cfg.editingText.GetOr(DEFAULT_EDITING_TEXT))
  {
  }

  /** The file explorer always shows "file-explorer"; its image setting has no effect, and
      without a state of its own it keeps the resolved editing state. */
  lemma FileExplorerFields(cfg: Config, snap: Snapshot, tables: Icons.IconTables, t: Tags, image: Option<string>)
    ensures Dispatch(FileExplorer, cfg, snap, tables, t).largeImage == "file-explorer"
    ensures Dispatch(FileExplorer, cfg.(fileExplorerImage := image), snap, tables, t) ==
            Dispatch(FileExplorer, cfg, snap, tables, t)
    ensures cfg.fileExplorerState.None? ==>
            Dispatch(FileExplorer, cfg, snap, tables, t).state ==
            ParseTags(t, cfg.editingState.GetOr(DEFAULT_EDITING_STATE))
  {
  }

  /** In the terminal, details and state go through `parse_tags` and large_text does not: a
      configured text is shown as written, placeholders included. */
  lemma TerminalFields(cfg: Config, snap: Snapshot, tables: Icons.IconTables, t: Tags)
    ensures var f := Dispatch(Terminal, cfg, snap, tables, t);
            && f.largeText == cfg.terminalText.GetOr("In the terminal")
            && f.details == ParseTags(t, cfg.terminalDetails.GetOr("Running terminal"))
            && (cfg.terminalState.None? ==> f.state == t.termcmds)
  {
    TermcmdsTemplate(t);
  }

  /** A writable named buffer with no file type reads "Unknown", whatever its extension: the
      `filetype == ''` test cuts off the extension. */
  lemma UnknownWithoutType(cfg: Config, snap: Snapshot, tables: Icons.IconTables, t: Tags)
    requires t.filetype == ""
    ensures Dispatch(UnknownWritable, cfg, snap, tables, t).largeText == "Unknown"
    ensures Dispatch(UnknownWritable, cfg, snap, tables, t) ==
            Dispatch(UnknownWritable, cfg, snap.(extension := "x"), tables, t)
  {
  }

  /** When idle, details repeat large_text and the state defaults to three spaces. */
  lemma IdleFields(cfg: Config, snap: Snapshot, tables: Icons.IconTables, t: Tags)
    ensures var f := Dispatch(Idle, cfg, snap, tables, t);
            && f.details == f.largeText == cfg.idleText.GetOr("Nothing")
            && f.state == cfg.idleState.GetOr("   ")
            && f.largeImage == cfg.idleImage.GetOr("none")
  {
  }

  // ---- The whole cycle ----

  /** The cycle fails on the size exactly when the size is past the last unit, before any gate
      is consulted. */
  lemma SizeErrorIff(cfg: Config, snap: Snapshot, lists: IgnoreLists, tables: Icons.IconTables, ext: Externals)
    ensures Cycle(cfg, snap, lists, tables, ext) == SizeIndexError <==> snap.fileSize > FileSize.Pow1024(4)
  {
    FileSize.OutOfRangeIff(snap.fileSize);
  }

  // ---- Whole cycles with no settings ----

  /** A placeholder whose second character is not 'f' is none of the first three, which all
      begin with "{f" and differ from it at that position. */
  lemma FirstThreeAbsent(a: string, pat: string, b: string)
    requires |pat| >= 6 && pat[0] == '{' && '{' !in a && '{' !in pat[1..] && '{' !in b
    requires pat[5] != 'n' && pat[5] != 'c' && pat[5] != 'd'
    ensures forall i :: 0 <= i < 3 ==> !Contains(a + pat + b, PLACEHOLDERS[i])
  {
    var r := pat[1..] + b;
    assert pat + b == ['{'] + r;
    assert a + pat + b == a + (['{'] + r);
    forall i | 0 <= i < 3
      ensures !Contains(a + pat + b, PLACEHOLDERS[i])
    {
      var p := PLACEHOLDERS[i];
      assert p[0] == '{' && p[5] in "ncd";
      ContainsSkip(a, ['{'] + r, p);
      SingleBraceContains('{', r, p);
      assert |p| <= 1 + |r| ==> (['{'] + r)[..|p|][5] == pat[5];
    }
  }

  /** A template whose only placeholder is "{filetype}" gets the file type. */
  lemma FiletypeTemplate(t: Tags, a: string, b: string)
    requires '{' !in a && '{' !in b && '{' !in t.filetype
    ensures ParseTags(t, a + "{filetype}" + b) == a + t.filetype + b
  {
    var s := a + "{filetype}" + b;
    FirstThreeAbsent(a, "{filetype}", b);
    assert !Contains(s, PLACEHOLDERS[0]) && !Contains(s, PLACEHOLDERS[1]) && !Contains(s, PLACEHOLDERS[2]);
    ReplaceAbsent(s, "{filename}", t.filename);
    ReplaceAbsent(s, "{directory}", t.directory);
    ReplaceAbsent(s, "{filedir}", t.filedir);
    ReplaceOnly(a, "{filetype}", b, t.filetype);
    var s4 := a + t.filetype + b;
    assert '{' !in s4;
    BraceFreeHasNoPlaceholders(s4);
    assert !Contains(s4, PLACEHOLDERS[4]) && !Contains(s4, PLACEHOLDERS[5]);
    assert !Contains(s4, PLACEHOLDERS[6]) && !Contains(s4, PLACEHOLDERS[7]);
    ReplaceAbsent(s4, "{filesize}", t.filesize);
    ReplaceAbsent(s4, "{filesizeb}", t.filesizeb);
    ReplaceAbsent(s4, "{fileline}", t.fileline);
    ReplaceAbsent(s4, "{termcmds}", t.termcmds);
  }

  /** The default editing text names the file type. */
  lemma DefaultEditingText(t: Tags)
    requires '{' !in t.filetype
    ensures ParseTags(t, DEFAULT_EDITING_TEXT) == "Editing a " + t.filetype + " file"
  {
    assert DEFAULT_EDITING_TEXT == "Editing a " + "{filetype}" + " file";
    FiletypeTemplate(t, "Editing a ", " file");
  }

  /** The default details name the file. */
  lemma DefaultEditingDetails(t: Tags)
    requires '{' !in t.filename
    ensures ParseTags(t, DEFAULT_EDITING_DETAILS) == "Editing " + t.filename
  {
    assert DEFAULT_EDITING_DETAILS == "Editing " + "{filename}" + "";
    FilenameTemplate(t, "Editing ", "");
    assert "Editing " + t.filename + "" == "Editing " + t.filename;
  }

  /** A matcher that finds nothing in the empty ignore lists (the lists loaded with no settings). */
  ghost predicate EmptyListsMatchNothing(ext: Externals)
  {
    forall x :: !ext.contains(IgnoreList([]), x)
  }

  /** With no settings and nothing ignored, both gates let the observations through. */
  lemma NothingIgnored(snap: Snapshot, tables: Icons.IconTables, ext: Externals)
    requires snap.fileSize <= FileSize.Pow1024(4)
    requires EmptyListsMatchNothing(ext)
    ensures Observe(snap, ext).Some?
    ensures var t := Observe(snap, ext).value;
            Cycle(NO_SETTINGS, snap, LoadIgnoreLists(NO_SETTINGS), tables, ext) ==
            Publish(Dispatch(SelectBranch(t, snap, tables, ext), NO_SETTINGS, snap, tables, t))
  {
    FileSize.OutOfRangeIff(snap.fileSize);
    var lists := LoadIgnoreLists(NO_SETTINGS);
    var t := Observe(snap, ext).value;
    assert GateFileType(NO_SETTINGS, lists, ext, t) == Some(t);
    assert GateDirectory(NO_SETTINGS, lists, ext, t) == Some(t);
  }

  /** Editing `app.py` of type python with every default: the python image, the default texts. */
  lemma EditingPythonScenario(snap: Snapshot, ext: Externals)
    requires snap.bufferName == "app.py" && snap.filetype == "python"
    requires snap.fileSize <= FileSize.Pow1024(4)
    requires EmptyListsMatchNothing(ext)
    ensures Cycle(NO_SETTINGS, snap, LoadIgnoreLists(NO_SETTINGS), Icons.DEFAULT_TABLES, ext) ==
            Publish(Fields("py", "Editing a python file", "Editing app.py", "Workspace: {}"))
  {
    NothingIgnored(snap, Icons.DEFAULT_TABLES, ext);
    PythonBranch(snap, Observe(snap, ext).value, ext);
  }

  lemma PythonBranch(snap: Snapshot, t: Tags, ext: Externals)
    requires t.filename == "app.py" && t.filetype == "python"
    ensures Dispatch(SelectBranch(t, snap, Icons.DEFAULT_TABLES, ext), NO_SETTINGS, snap, Icons.DEFAULT_TABLES, t)
            == Fields("py", "Editing a python file", "Editing app.py", "Workspace: {}")
  {
    Icons.DefaultIcons();
    assert SelectBranch(t, snap, Icons.DEFAULT_TABLES, ext) == KnownIcon;
    PythonFields(snap, t);
  }

  lemma PythonFields(snap: Snapshot, t: Tags)
    requires t.filename == "app.py" && t.filetype == "python"
    ensures Dispatch(KnownIcon, NO_SETTINGS, snap, Icons.DEFAULT_TABLES, t)
            == Fields("py", "Editing a python file", "Editing app.py", "Workspace: {}")
  {
    Icons.DefaultIcons();
    KnownIconDefaults(snap, Icons.DEFAULT_TABLES, t);
    PythonTemplates(t);
  }

  lemma PythonTemplates(t: Tags)
    requires t.filename == "app.py" && t.filetype == "python"
    ensures ParseTags(t, DEFAULT_EDITING_TEXT) == "Editing a python file"
    ensures ParseTags(t, DEFAULT_EDITING_DETAILS) == "Editing app.py"
    ensures ParseTags(t, DEFAULT_EDITING_STATE) == "Workspace: {}"
  {
    DefaultEditingText(t);
    DefaultEditingDetails(t);
    DefaultStateVerbatim(t);
    Concatenations();
  }

  lemma Concatenations()
    ensures "Editing a " + "python" + " file" == "Editing a python file"
    ensures "Editing " + "app.py" == "Editing app.py"
  {
  }

  /** With no settings the known-icon case sends the icon and the three default templates. */
  lemma KnownIconDefaults(snap: Snapshot, tables: Icons.IconTables, t: Tags)
    ensures Dispatch(KnownIcon, NO_SETTINGS, snap, tables, t) ==
            Fields(Icons.IconFor(tables, t.filetype), ParseTags(t, DEFAULT_EDITING_TEXT),
                   ParseTags(t, DEFAULT_EDITING_DETAILS), ParseTags(t, DEFAULT_EDITING_STATE))
  {
  }

  /** A terminal buffer named `bash` with every default: the shell image and the command as state. */
  lemma TerminalScenario(snap: Snapshot, ext: Externals)
    requires snap.bufferName == "bash" && snap.filetype == "" && snap.buftype == "terminal"
    requires snap.fileSize <= FileSize.Pow1024(4)
    requires EmptyListsMatchNothing(ext) && !ext.containsFuzzy(FILE_EXPLORER_NAMES, "bash")
    ensures Cycle(NO_SETTINGS, snap, LoadIgnoreLists(NO_SETTINGS), Icons.DEFAULT_TABLES, ext) ==
            Publish(Fields("sh", "In the terminal", "Running terminal", "bash"))
  {
    NothingIgnored(snap, Icons.DEFAULT_TABLES, ext);
    BashCommand();
    TerminalBranch(snap, Observe(snap, ext).value, ext);
  }

  lemma BashCommand()
    ensures TermCmds.TermCmds("bash") == "bash"
  {
    assert ':' !in "bash";
    TermCmds.NoColonKept("bash");
  }

  lemma TerminalBranch(snap: Snapshot, t: Tags, ext: Externals)
    requires t.filename == "bash" && t.filetype == "" && t.termcmds == "bash" && snap.buftype == "terminal"
    requires !ext.containsFuzzy(FILE_EXPLORER_NAMES, "bash")
    ensures Dispatch(SelectBranch(t, snap, Icons.DEFAULT_TABLES, ext), NO_SETTINGS, snap, Icons.DEFAULT_TABLES, t)
            == Fields("sh", "In the terminal", "Running terminal", "bash")
  {
    assert "" !in FILE_EXPLORERS;
    assert SelectBranch(t, snap, Icons.DEFAULT_TABLES, ext) == Terminal;
    TerminalFields(NO_SETTINGS, snap, Icons.DEFAULT_TABLES, t);
    TerminalTemplates(t);
  }

  lemma TerminalTemplates(t: Tags)
    ensures ParseTags(t, "Running terminal") == "Running terminal"
    ensures ParseTags(t, "{termcmds}") == t.termcmds
  {
    assert '{' !in "Running terminal";
    BraceFreeHasNoPlaceholders("Running terminal");
    ParseTagsIdentity(t, "Running terminal");
    TermcmdsTemplate(t);
  }

  /** No buffer name, no file type, not a terminal: the idle fields. */
  lemma IdleScenario(snap: Snapshot, ext: Externals)
    requires snap.bufferName == "" && snap.filetype == "" && snap.buftype == ""
    requires snap.fileSize <= FileSize.Pow1024(4)
    requires EmptyListsMatchNothing(ext) && !ext.containsFuzzy(FILE_EXPLORER_NAMES, "")
    ensures Cycle(NO_SETTINGS, snap, LoadIgnoreLists(NO_SETTINGS), Icons.DEFAULT_TABLES, ext) ==
            Publish(Fields("none", "Nothing", "Nothing", "   "))
  {
    var tables := Icons.DEFAULT_TABLES;
    NothingIgnored(snap, tables, ext);
    var t := Observe(snap, ext).value;
    IdleBranch(snap, t, ext);
  }

  lemma IdleBranch(snap: Snapshot, t: Tags, ext: Externals)
    requires t.filename == "" && t.filetype == "" && snap.buftype == ""
    requires !ext.containsFuzzy(FILE_EXPLORER_NAMES, "")
    ensures Dispatch(SelectBranch(t, snap, Icons.DEFAULT_TABLES, ext), NO_SETTINGS, snap, Icons.DEFAULT_TABLES, t)
            == Fields("none", "Nothing", "Nothing", "   ")
  {
    assert "" !in FILE_EXPLORERS;
    assert SelectBranch(t, snap, Icons.DEFAULT_TABLES, ext) == Idle;
    IdleFields(NO_SETTINGS, snap, Icons.DEFAULT_TABLES, t);
  }
}
