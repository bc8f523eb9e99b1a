# vimsence presence model

A Dafny model of the presence computation of the Vim plugin vimsence (`python/vimsence.py`).
On each cycle the plugin reads a handful of editor observations and the user's `g:vimsence_*`
settings. It turns them into the four Discord activity fields `large_image`, `large_text`,
`details` and `state`, writes those into the shared `base_activity` dict and sends that dict to
the Discord client.

Modules, following the plugin's structure:

- `Wrappers`: `Option`.
- `Text`: Python's `str.replace` (all occurrences; the empty pattern interleaves),
  substring `in`, and the decimal rendering of integers.
- `Paths`: `re.split(r"[\\/]", …)`, plus `get_directory` and `get_filedir`. The latter falls
  back to `get_directory` when index `-2` does not exist.
- `TermCmds`: what `re.search(r'(?!\d*\:)([\s\S]*)', …)` returns in `get_termcmds`. This is the
  suffix starting at the first position that is not a run of digits followed by `:`.
- `FileSize`: the unit loop of `get_filesize`, with an integer scale in place of repeated float
  division. The scale is exact because dividing by 1024 is exact.
- `Icons`: the `has_thumbnail` and `remap` tables, and their merge with `g:vimsence_custom_icons`.
- `Presence`:
  - the settings, the editor snapshot and the placeholder tags;
  - `parse_tags`, the two ignore gates and the five-way dispatch;
  - `Cycle`, one connected cycle as a function;
  - `ComputeCycle`, `GatherTags`, `ScrubDirectories` and `ResolveFields`: the step-by-step code,
    proved equal to the functions.
- `PresenceProperties`: what the computation guarantees.
- `Plugin`: the module globals as a class `VimSence`, with `base_activity` as a separate object
  `ActivityDict` that `update_presence` writes through an alias. It covers module load,
  `update_presence`, `reconnect` and `disconnect`, and logs every `set_activity` call in `sent`.

`Valid()` on `VimSence` keeps these invariants:
- the two ignore lists are loaded together;
- there is no connection without a client;
- the fixed keys of the activity keep their load-time values;
- the activity last sent is exactly what `base_activity` holds.

So an ignore gate that sends `base_activity` re-sends the previous cycle's four fields.

Behaviour that follows the code, as written:
- A size of exactly 1024 bytes stays in `B`: the loop divides only while the size is strictly
  greater than 1024. So 1048576 bytes is `KB`, not `MB`.
- In the string case of the directory gate, `filedir` is computed from the already-rewritten
  `directory` (line 166). The original `filedir` has no influence there.
- `&modifiable` arrives as the text `"0"` or `"1"`, and that text is tested for truthiness.
  Only an empty string counts as not writable.
- The ignore lists are read once and never changed afterwards.
- `reconnect` on a client that is already connected still calls the client's `reconnect()`.
  On success it runs a cycle.

## Model

| member | source | states |
|---|---|---|
| Text.ContainsIff | python/vimsence.py:160-163 | the recursive check behind `a in directory` holds exactly when `a` occurs at some index |
| Text.ReplaceAbsent | python/vimsence.py:174-181 | `str.replace` with a pattern that does not occur returns the text unchanged |
| Text.ReplaceSelf | python/vimsence.py:174-181 | replacing a pattern by itself changes nothing, including the empty pattern |
| Text.InterleaveEmpty | python/vimsence.py:161 | the empty-pattern replacement with an empty text is the identity |
| Text.ReplaceSkip | python/vimsence.py:174-181 | a prefix free of the pattern's first character is copied unchanged, and replacement continues after it |
| Text.ReplaceHead | python/vimsence.py:174-181 | a leading occurrence becomes the replacement, and the search resumes after it |
| Text.ContainsSkip | python/vimsence.py:160-163 | a prefix free of the pattern's first character does not affect containment |
| Text.NatText | python/vimsence.py:378-392 | the decimal text of a number is non-empty and all digits |
| Text.DecimalRoundTrip | python/vimsence.py:378-392 | the decimal text of a size or line count reads back as the same integer, sign included |
| Paths.Split | python/vimsence.py:347 | splitting on `/` and `\` gives one more segment than there are separators, none of them holding a separator |
| Paths.SplitLastSep | python/vimsence.py:347 | the segments of `p + sep + d` (with `d` separator-free) are the segments of `p` followed by `d` |
| Paths.LastSegment | python/vimsence.py:347 | the last segment is the longest separator-free suffix |
| Paths.GetDirectory | python/vimsence.py:342-347 | `get_directory` is a separator-free suffix of the working directory, preceded by a separator unless it is the whole path |
| Paths.FiledirIsParent | python/vimsence.py:349-360 | for a path `p/d`, `get_filedir` is the last segment of `p` |
| Paths.FiledirFallback | python/vimsence.py:355-358 | a path with no separator makes index -2 fail, and `get_filedir` falls back to `get_directory` |
| Paths.PathCases | python/vimsence.py:355-358 | every path either has no separator or is `p + sep + d` with a separator-free `d` |
| TermCmds.BlockedIff | python/vimsence.py:412 | the lookahead `(?!\d*\:)` fails at a position exactly when a run of digits and then `:` starts there |
| TermCmds.TermCmds | python/vimsence.py:403-416 | the result is a suffix where the lookahead succeeds, and it fails at every earlier position |
| TermCmds.BlockedHasColon | python/vimsence.py:412 | the lookahead can only fail where a `:` follows |
| TermCmds.NoColonKept | python/vimsence.py:403-414 | a buffer name without `:` is returned whole |
| TermCmds.JobPrefixDropped | python/vimsence.py:403-414 | a name `digits:cmd` yields `cmd`, whenever `cmd` does not itself begin with digits followed by `:` (then that prefix goes too) |
| TermCmds.JobPrefixExample | python/vimsence.py:403-414 | `12345:bash` yields `bash` |
| FileSize.Pow1024Grows | python/vimsence.py:373-375 | the scale strictly grows with each division |
| FileSize.UnitIndex | python/vimsence.py:372-375 | for a positive size, the unit index is the least `k` with size at most 1024^(k+1) |
| FileSize.UnitIndexUnique | python/vimsence.py:372-375 | no other index satisfies those bounds |
| FileSize.GetFileSize | python/vimsence.py:362-376 | the loop computes the label: `0B` for sizes up to 0, otherwise the scaled value and the unit at the index, or an index past the table |
| FileSize.OutOfRangeIff | python/vimsence.py:371-376 | the unit index runs past `names`, an IndexError, exactly when the size exceeds 1024^4 |
| FileSize.KibibyteBoundary | python/vimsence.py:373 | 1024 bytes is 1024.0 `B`; 1025 bytes is in `KB`; 1536 bytes is 1.5 `KB` |
| FileSize.MebibyteBoundary | python/vimsence.py:373 | 1048576 bytes is 1024.0 `KB`; one byte more is in `MB` |
| Icons.Merge | python/vimsence.py:74-77 | the custom image names join `has_thumbnail`; the custom types join `remap` and override the defaults |
| Icons.CustomIconWins | python/vimsence.py:74-77 | a custom file type has an icon, and it is the custom image |
| Icons.CustomKeysNotThumbnails | python/vimsence.py:76 | a custom file type key does not itself enter `has_thumbnail` |
| Icons.DefaultIcons | python/vimsence.py:42-68 | python shows `py`; go shows `go`; fortran shows `f` |
| Presence.ScrubDirectories | python/vimsence.py:158-163 | the loop rewrites `directory` and `filedir` entry by entry, as `Scrub` specifies |
| Presence.GatherTags | python/vimsence.py:135-143 | the observations read in order are the tags `Observe` defines, or none when `get_filesize` raises |
| Presence.ComputeCycle | python/vimsence.py:130-269 | the step-by-step cycle ends exactly as `Cycle` says (size error, baseline re-send, or published fields) |
| Presence.ResolveFields | python/vimsence.py:184-262 | the templates and the five cases assign the fields `Dispatch` gives for the selected case |
| Presence.ApplyFileTypeGate | python/vimsence.py:145-152 | the file-type gate renames and empties an ignored type when a name is set, and otherwise stops the cycle, as `GateFileType` says |
| Presence.ApplyDirectoryGate | python/vimsence.py:154-169 | the directory gate rewrites by list or by string, or stops the cycle, as `GateDirectory` says |
| Presence.ResolveEditing | python/vimsence.py:184-197 | each editing template is the setting or its default, passed through `parse_tags` |
| Presence.ShowKnownIcon | python/vimsence.py:199-205 | the known-icon case gives the fields `Dispatch` specifies for it |
| Presence.ShowFileExplorer | python/vimsence.py:206-221 | the file-explorer case gives the fields `Dispatch` specifies for it |
| Presence.ShowTerminal | python/vimsence.py:222-240 | the terminal case gives the fields `Dispatch` specifies for it |
| Presence.ShowUnknown | python/vimsence.py:241-247 | the unknown-writable case gives the fields `Dispatch` specifies for it |
| Presence.ShowIdle | python/vimsence.py:249-262 | the idle case gives the fields `Dispatch` specifies for it |
| PresenceProperties.BraceFreeHasNoPlaceholders | python/vimsence.py:173-182 | text without `{` holds none of the eight placeholders |
| PresenceProperties.ExpandAfterFilenameOnlyLast | python/vimsence.py:175-181 | on a text free of the six placeholders between `{filename}` and `{termcmds}`, the seven later replacements reduce to the `{termcmds}` one |
| PresenceProperties.ExpandAfterFilenameIdentity | python/vimsence.py:175-181 | the seven replacements after `{filename}` leave alone a text that holds none of their placeholders |
| PresenceProperties.ParseTagsIdentity | python/vimsence.py:173-182 | `parse_tags` leaves unchanged any text without placeholders, whatever the tag values |
| PresenceProperties.DefaultStateVerbatim | python/vimsence.py:189-192 | the default editing state `Workspace: {}` is sent literally |
| PresenceProperties.ReplaceOnly | python/vimsence.py:174-181 | a single occurrence of a pattern whose first character appears nowhere else is replaced in place |
| PresenceProperties.FilenameTemplate | python/vimsence.py:173-182 | a template whose only placeholder is `{filename}` gets the file name, for a file name without `{` (one holding a later placeholder would be expanded again) |
| PresenceProperties.FiletypeTemplate | python/vimsence.py:173-182 | a template whose only placeholder is `{filetype}` gets the file type, for a file type without `{` |
| PresenceProperties.TermcmdsHoldsNoEarlierPlaceholder | python/vimsence.py:174-180 | `{termcmds}` contains none of the seven earlier placeholders |
| PresenceProperties.TermcmdsTemplate | python/vimsence.py:237-240 | the terminal's default state becomes exactly the terminal command, even when that command holds a placeholder |
| PresenceProperties.LaterPlaceholderExpandedInsideEarlierValue | python/vimsence.py:174-181 | replacements are sequential: a file name reading `{termcmds}` is expanded again by the later step |
| PresenceProperties.IgnoredTypeWithoutNameSendsBaseline | python/vimsence.py:145-152 | an ignored file type with no replacement name ends the cycle with the stored activity, before any dispatch |
| PresenceProperties.IgnoredTypeRenamed | python/vimsence.py:145-149 | with a name, the type is renamed and emptied, and the known-icon case cannot fire afterwards |
| PresenceProperties.DirectoryGateKeepsOtherTags | python/vimsence.py:154-169 | the directory gate changes only `directory` and `filedir` |
| PresenceProperties.ScrubStepIsReplace | python/vimsence.py:160-163 | the `in` test in front of each replacement only skips a replacement that would change nothing |
| PresenceProperties.ScrubAppend | python/vimsence.py:159-163 | entries are applied in list order: rewriting with `xs + ys` is rewriting with `xs` and then with `ys` |
| PresenceProperties.ScrubSingle | python/vimsence.py:159-163 | a single entry replaces all of its occurrences |
| PresenceProperties.ScrubUntouched | python/vimsence.py:159-163 | a text in which no entry occurs is left alone |
| PresenceProperties.StringCaseFiledirFromDirectory | python/vimsence.py:164-166 | in the string case, once `directory` has matched, the original `filedir` has no influence: `filedir` is the rewritten `directory` rewritten again |
| PresenceProperties.StringCaseRewrite | python/vimsence.py:154-166 | in the string case, opened by a match on `directory` or on `filedir`, `directory` is rewritten and `filedir` becomes that rewritten `directory` rewritten again |
| PresenceProperties.FiledirOnlyMatchKeepsDirectory | python/vimsence.py:154-166 | when only `filedir` matched the string, the matched `filedir` is replaced by the unmatched directory name ("proj"/"secret" sends "proj" as both) |
| PresenceProperties.ListCaseRewritesBoth | python/vimsence.py:158-163 | in the list case, both values are rewritten independently with every entry |
| PresenceProperties.IgnoredDirectoryWithoutNameSendsBaseline | python/vimsence.py:145-169 | when the tags that leave the file-type gate (as observed, or renamed) have a `directory` or a `filedir` in the ignored directories and no replacement name is set, the cycle ends with the stored activity |
| PresenceProperties.SelectBranchFirstMatch | python/vimsence.py:199-249 | each of the five cases is chosen exactly when its condition holds and all earlier ones fail |
| PresenceProperties.KnownIconImage | python/vimsence.py:199-205 | a known type shows `remap[filetype]`, or the type itself without a remap entry, with the parsed editing text |
| PresenceProperties.FileExplorerFields | python/vimsence.py:206-221 | the image is always `file-explorer`; the explorer image setting has no effect; without an explorer state the editing state stays |
| PresenceProperties.TerminalFields | python/vimsence.py:222-240 | large_text is not parsed; details are parsed; the default state is the terminal command |
| PresenceProperties.UnknownWithoutType | python/vimsence.py:241-247 | a writable named buffer without a type reads `Unknown`, and the extension has no effect |
| PresenceProperties.IdleFields | python/vimsence.py:249-262 | details repeat large_text (`Nothing` or the idle text); the state defaults to three spaces |
| PresenceProperties.SizeErrorIff | python/vimsence.py:371-376 | a cycle fails on the size exactly when the size exceeds 1024^4, whatever the gates would do |
| PresenceProperties.DefaultEditingText | python/vimsence.py:184-187 | the default editing text reads `Editing a <filetype> file`, for a file type without `{` |
| PresenceProperties.DefaultEditingDetails | python/vimsence.py:194-197 | the default details read `Editing <filename>`, for a file name without `{` |
| PresenceProperties.KnownIconDefaults | python/vimsence.py:184-205 | with no settings, the known-icon case sends the icon and the three default templates |
| PresenceProperties.NothingIgnored | python/vimsence.py:145-169 | with no settings and empty ignore lists, both gates let the observations through to the dispatch, for a file of at most 1024^4 bytes and a matcher that finds nothing in an empty list |
| PresenceProperties.EditingPythonScenario | python/vimsence.py:130-268 | editing `app.py` of type python sends `py`, `Editing a python file`, `Editing app.py`, `Workspace: {}`, for a file of at most 1024^4 bytes and a matcher that finds nothing in an empty list |
| PresenceProperties.PythonBranch | python/vimsence.py:199-205 | the python file selects the known-icon case and its fields |
| PresenceProperties.PythonFields | python/vimsence.py:184-205 | the known-icon fields of the python file with no settings |
| PresenceProperties.PythonTemplates | python/vimsence.py:184-197 | the three default templates for `app.py` of type python |
| PresenceProperties.TerminalScenario | python/vimsence.py:130-268 | a terminal `bash` sends `sh`, `In the terminal`, `Running terminal`, `bash`, for a file of at most 1024^4 bytes and a matcher that finds nothing in an empty list and does not take `bash` for a file explorer |
| PresenceProperties.TerminalBranch | python/vimsence.py:222-240 | the terminal buffer selects the terminal case and its default fields |
| PresenceProperties.TerminalTemplates | python/vimsence.py:232-240 | the default terminal details have no placeholder; the default state becomes the terminal command |
| PresenceProperties.BashCommand | python/vimsence.py:403-414 | the buffer name `bash` is its own terminal command |
| PresenceProperties.IdleScenario | python/vimsence.py:130-268 | an empty unnamed buffer sends `none`, `Nothing`, `Nothing` and three spaces, for a file of at most 1024^4 bytes and a matcher that finds nothing in an empty list and does not take the empty name for a file explorer |
| PresenceProperties.IdleBranch | python/vimsence.py:249-262 | an unnamed, untyped, non-terminal buffer selects the idle case and its default fields |
| Plugin.ActivityDict.constructor | python/vimsence.py:23-33 | the initial activity: details `Nothing`, empty state, the start stamp, the small assets, no large assets |
| Plugin.ActivityDict.Write | python/vimsence.py:265-268 | the four fields replace the previous ones; the other keys stay |
| Plugin.VimSence.constructor | python/vimsence.py:10-103 | the small text, image and client id default unless set; the merged icon tables; ignore lists not loaded; one initial send of the untouched activity when the client exists |
| Plugin.VimSence.UpdatePresence | python/vimsence.py:106-280 | nothing happens without a connected client; otherwise the lists are loaded, one `Cycle` runs, and the outcome is the size error (nothing sent), a re-send of the previous activity, or the written activity sent |
| Plugin.VimSence.LazyLoadIgnoreLists | python/vimsence.py:113-126 | the ignore lists are loaded from the settings, or empty, only while still at the sentinel |
| Plugin.VimSence.Send | python/vimsence.py:264-271 | `base_activity` itself, written or not, is the activity sent |
| Plugin.VimSence.Reconnect | python/vimsence.py:283-290 | without a client nothing changes; a failed reconnect leaves the client disconnected with nothing sent and the ignore lists, icon tables and `base_activity` unchanged; a successful one loads the lists if needed and returns `Cycle` of them, with the same outcomes as `update_presence`: nothing sent on the size error, the stored activity re-sent at a gate, or the fields written into `base_activity` and sent |
| Plugin.VimSence.Disconnect | python/vimsence.py:293-303 | without a client nothing changes; otherwise the client ends disconnected and nothing is sent |

## Left out

- `vim.eval`: editor I/O. Its results are the fields of `Snapshot`, and each `exists("g:…")` test is an `Option` field of `Config`.
- The rpc module (`DiscordIpcClient`) is not part of this model. `for_platform` failing is the constructor's `client` argument being None. `reconnect()` is its result `ok`, after which the client is connected exactly when `ok` holds. `close()` leaves the client disconnected. The `connected` flag after `set_activity` is the input `linkAfter`.
- Exceptions swallowed around the rpc calls (lines 100-103, 270-280, 302-303): which exception kinds are caught is not modelled. A send is recorded as attempted whether or not it failed. The baseline sends at lines 151 and 168 are outside any `try`, so a failing `set_activity` there raises out of `update_presence`; the model records them like the guarded send at 270-280.
- `utils.contains` and `utils.contains_fuzzy` are not part of this model. They are the abstract matchers `contains` and `containsFuzzy` of `Externals`, and no semantics are assumed for them.
- The `%.1f` rendering of the scaled file size is floating-point formatting. It is the abstract `formatOneDecimal`; the model fixes the scaled value exactly, as a real, and the unit.
- Timestamps: `start_time` is a constructor parameter. When `g:vimsence_add_timestamp` is unset, line 21 reads an undefined name and module load raises NameError; the model does not include this.
- `logger`: the messages logged at lines 287 and 297 are left out. Only the absence of any other effect is modelled.
- The `re` engine: only the results of the three patterns are modelled, on `seq<char>`. `\d` is taken as the ASCII digits, not every Unicode decimal digit that Python's `\d` accepts.
- Vim values other than lists and strings for the ignore settings are `IgnoreOther`. The directory gate then leaves both values unchanged, as neither `type(...) is` test matches.
- Plugin.VimSence.UpdatePresence: a size error is returned as an outcome rather than raised out of the call; the lists loaded before it stay loaded, as in the source.
