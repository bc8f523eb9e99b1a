/** The plugin's module state and its three entry points: module load, `update_presence`,
    `reconnect` and `disconnect`. The Discord client is reduced to whether it exists and whether
    it is connected; every `set_activity` call is recorded, in order, with the activity sent. */
module Plugin {
  import opened Wrappers
  import opened Presence
  import Icons

  /** The contents of the `base_activity` dict; the two large-asset keys are absent until the
      first published cycle writes them. */
  datatype Activity = Activity(
    details: string,
    state: string,
    start: int,
    smallText: string,
    smallImage: string,
    largeImage: Option<string>,
    largeText: Option<string>)

  /** The activity after the writes of lines 265-268. */
  function Written(a: Activity, f: Fields): Activity
  {
    a.(largeImage := Some(f.largeImage), largeText := Some(f.largeText), details := f.details, state := f.state)
  }

  /** The dict object `base_activity`; `update_presence` writes into it through its alias `activity`. */
  class ActivityDict {
    var details: string
    var state: string
    var start: int
    var smallText: string
    var smallImage: string
    var largeImage: Option<string>
    var largeText: Option<string>

    function Value(): Activity
      reads this
    {
      Activity(details, state, start, smallText, smallImage, largeImage, largeText)
    }

    /** Lines 265-268: the four fields of a cycle replace the previous ones; the other keys stay. */
    method Write(f: Fields)
      modifies this
      ensures Value() == Written(old(Value()), f)
    {
      largeImage := Some(f.largeImage);
      largeText := Some(f.largeText);
      details := f.details;
      state := f.state;
    }

    /** Lines 23-33. */
    constructor (start: int, smallText: string, smallImage: string)
      ensures Value() == Activity("Nothing", "", start, smallText, smallImage, None, None)
    {
      this.details := "Nothing";
      this.state := "";
      this.start := start;
      this.smallText := smallText;
      this.smallImage := smallImage;
      this.largeImage := None;
      this.largeText := None;
    }
  }

  /** The module globals of the plugin. */
  class VimSence {
    const smallText: string
    const smallImage: string
    const clientId: string
    const startTime: int
    var hasThumbnail: set<string>
    var remap: map<string, string>
    /** `ignored_file_types` and `ignored_directories`; None stands for the sentinel -1. */
    var ignoredFileTypes: Option<IgnoreValue>
    var ignoredDirectories: Option<IgnoreValue>
    /** `rpc_obj is not None`, and the client's `connected` flag. */
    var hasClient: bool
    var connected: bool
    const baseActivity: ActivityDict
    /** Every activity handed to `set_activity`, oldest first. */
    var sent: seq<Activity>

    function Tables(): Icons.IconTables
      reads this
    {
      Icons.IconTables(hasThumbnail, remap)
    }

    /** The ignore lists are loaded together or not at all; there is no connection without a
        client; the fixed keys of the activity keep their load-time values; and the activity
        last sent is exactly what `base_activity` holds, because every send passes that dict. */
    predicate Valid()
      reads this, baseActivity
    {
      && (ignoredFileTypes.None? <==> ignoredDirectories.None?)
      && (!hasClient ==> !connected && sent == [])
      && (hasClient ==> |sent| > 0 && sent[|sent| - 1] == baseActivity.Value())
      && baseActivity.start == startTime
      && baseActivity.smallText == smallText
      && baseActivity.smallImage == smallImage
      && (baseActivity.largeImage.Some? <==> baseActivity.largeText.Some?)
    }

    /** Module load, lines 10-103. `startTime` is the start stamp already computed at line 21.
        `client` is None when `for_platform` raises; otherwise it says whether the client is
        connected after the first `set_activity` of the untouched `base_activity`. */
    constructor (cfg: Config, startTime: int, client: Option<bool>)
      ensures Valid()
      ensures smallText == cfg.smallText.GetOr("Vim") && smallImage == cfg.smallImage.GetOr("vim")
      ensures clientId == cfg.clientId.GetOr("439476230543245312")
      ensures this.startTime == startTime
      ensures Tables() == Icons.Initial(cfg.customIcons)
      ensures ignoredFileTypes.None? && ignoredDirectories.None?
      ensures hasClient == client.Some? && connected == (client == Some(true))
      ensures baseActivity.Value() == Activity("Nothing", "", startTime, smallText, smallImage, None, None)
      ensures sent == if client.Some? then [baseActivity.Value()] else []
      ensures fresh(baseActivity)
    {
      var small := "Vim";
      if cfg.smallText.Some? {
        small := cfg.smallText.value;
      }
      var image := "vim";
      if cfg.smallImage.Some? {
        image := cfg.smallImage.value;
      }
      smallText, smallImage := small, image;
      this.startTime := startTime;
      var base := new ActivityDict(startTime, small, image);
      baseActivity := base;
      var id := "439476230543245312";
      if cfg.clientId.Some? {
        id := cfg.clientId.value;
      }
      clientId := id;
      hasThumbnail := Icons.DEFAULT_THUMBNAILS;
      remap := Icons.DEFAULT_REMAP;
      if cfg.customIcons.Some? {
        var thumbnails := cfg.customIcons.value;
        hasThumbnail := hasThumbnail + thumbnails.Values;
        remap := remap + thumbnails;
      }
      ignoredFileTypes, ignoredDirectories := None, None;
      if client.Some? {
        hasClient := true;
        sent := [base.Value()];
        connected := client.value;
      } else {
        hasClient, connected := false, false;
        sent := [];
      }
    }

    /** Lines 106-280. Nothing happens without a connected client. Otherwise the ignore lists are
        loaded if they were not, one cycle is computed, and:
        - when `get_filesize` raises, the exception leaves before anything is sent;
        - when an ignore gate returns early, `base_activity` is sent as it stands, which is what
          the previous send carried;
        - otherwise the four fields are written into `base_activity` itself and it is sent.
        `linkAfter` is the client's `connected` flag after `set_activity`, whose failures are
        swallowed. */
    method UpdatePresence(cfg: Config, snap: Snapshot, ext: Externals, linkAfter: bool)
      returns (r: Option<CycleResult>)
      requires Valid()
      modifies this, baseActivity
      ensures Valid()
      ensures old(!hasClient || !connected) ==> r.None? && unchanged(this) && unchanged(baseActivity)
      ensures old(hasClient && connected) ==>
        && ignoredFileTypes == Some(old(ignoredFileTypes).GetOr(Presence.LoadIgnoreLists(cfg).fileTypes))
        && ignoredDirectories == Some(old(ignoredDirectories).GetOr(Presence.LoadIgnoreLists(cfg).directories))
        && r == Some(Cycle(cfg, snap, IgnoreLists(ignoredFileTypes.value, ignoredDirectories.value), old(Tables()), ext))
        && hasClient && Tables() == old(Tables())
      ensures r.Some? && r.value.SizeIndexError? ==>
        sent == old(sent) && baseActivity.Value() == old(baseActivity.Value()) && connected
      ensures r.Some? && r.value.SendBaseline? ==>
        && baseActivity.Value() == old(baseActivity.Value())
        && sent == old(sent) + [old(baseActivity.Value())]
        && sent[|sent| - 1] == old(sent[|sent| - 1])
        && connected == linkAfter
      ensures r.Some? && r.value.Publish? ==>
        && baseActivity.Value() == Written(old(baseActivity.Value()), r.value.fields)
        && sent == old(sent) + [baseActivity.Value()]
        && connected == linkAfter
    {
      if !hasClient || !connected {
        return None;
      }
      LazyLoadIgnoreLists(cfg);
      var lists := IgnoreLists(ignoredFileTypes.value, ignoredDirectories.value);
      var result := ComputeCycle(cfg, snap, lists, Tables(), ext);
      r := Some(result);
      if !result.SizeIndexError? {
        Send(result, linkAfter);
      }
    }

    /** Lines 113-126: the lazy load, guarded by the sentinel, happens once. */
    method LazyLoadIgnoreLists(cfg: Config)
      requires Valid()
      modifies this
      ensures Valid()
      ensures ignoredFileTypes == Some(old(ignoredFileTypes).GetOr(Presence.LoadIgnoreLists(cfg).fileTypes))
      ensures ignoredDirectories == Some(old(ignoredDirectories).GetOr(Presence.LoadIgnoreLists(cfg).directories))
      ensures hasClient == old(hasClient) && connected == old(connected) && sent == old(sent)
      ensures Tables() == old(Tables())
    {
      if ignoredFileTypes.None? {
        if cfg.ignoredFileTypes.Some? {
          ignoredFileTypes := cfg.ignoredFileTypes;
        } else {
          ignoredFileTypes := Some(IgnoreList([]));
        }
        if cfg.ignoredDirectories.Some? {
          ignoredDirectories := cfg.ignoredDirectories;
        } else {
          ignoredDirectories := Some(IgnoreList([]));
        }
      }
    }

    /** Lines 128 and 264-280: `activity` is `base_activity` itself; a computed cycle writes its
        fields into it, and either way that dict is what `set_activity` receives. */
    method Send(result: CycleResult, linkAfter: bool)
      requires Valid() && hasClient && !result.SizeIndexError?
      modifies this, baseActivity
      ensures Valid()
      ensures result.SendBaseline? ==> baseActivity.Value() == old(baseActivity.Value())
      ensures result.Publish? ==> baseActivity.Value() == Written(old(baseActivity.Value()), result.fields)
      ensures sent == old(sent) + [baseActivity.Value()]
      ensures connected == linkAfter && hasClient
      ensures ignoredFileTypes == old(ignoredFileTypes) && ignoredDirectories == old(ignoredDirectories)
      ensures Tables() == old(Tables())
    {
      var activity := baseActivity;
      if result.Publish? {
        activity.Write(result.fields);
      }
      sent := sent + [activity.Value()];
      connected := linkAfter;
    }

    /** Lines 283-290. Without a client only an error is logged. Otherwise `ok` is what the
        client's `reconnect()` returns, and the client is connected exactly when it succeeded;
        on failure nothing else changes, and on success one connected cycle of `UpdatePresence`
        runs, with the same outcomes. */
    method Reconnect(ok: bool, cfg: Config, snap: Snapshot, ext: Externals, linkAfter: bool)
      returns (r: Option<CycleResult>)
      requires Valid()
      modifies this, baseActivity
      ensures Valid()
      ensures old(!hasClient) ==> r.None? && unchanged(this) && unchanged(baseActivity)
      ensures old(hasClient) && !ok ==>
        && r.None? && hasClient && !connected && sent == old(sent) && unchanged(baseActivity)
        && ignoredFileTypes == old(ignoredFileTypes) && ignoredDirectories == old(ignoredDirectories)
        && Tables() == old(Tables())
      ensures old(hasClient) && ok ==>
        && ignoredFileTypes == Some(old(ignoredFileTypes).GetOr(Presence.LoadIgnoreLists(cfg).fileTypes))
        && ignoredDirectories == Some(old(ignoredDirectories).GetOr(Presence.LoadIgnoreLists(cfg).directories))
        && r == Some(Cycle(cfg, snap, IgnoreLists(ignoredFileTypes.value, ignoredDirectories.value), old(Tables()), ext))
        && hasClient && Tables() == old(Tables())
      ensures r.Some? && r.value.SizeIndexError? ==>
        sent == old(sent) && baseActivity.Value() == old(baseActivity.Value()) && connected
      ensures r.Some? && r.value.SendBaseline? ==>
        && baseActivity.Value() == old(baseActivity.Value())
        && sent == old(sent) + [old(baseActivity.Value())]
        && sent[|sent| - 1] == old(sent[|sent| - 1])
        && connected == linkAfter
      ensures r.Some? && r.value.Publish? ==>
        && baseActivity.Value() == Written(old(baseActivity.Value()), r.value.fields)
        && sent == old(sent) + [baseActivity.Value()]
        && connected == linkAfter
    {
      r := None;
      if !hasClient {
        return;
      }
      connected := ok;
      if ok {
        r := UpdatePresence(cfg, snap, ext, linkAfter);
      }
    }

    /** Lines 293-303. Without a client only an error is logged; a connected client is closed,
        and a disconnected one is left alone. Nothing is sent. */
    method Disconnect()
      requires Valid()
      modifies this
      ensures Valid()
      ensures !connected
      ensures hasClient == old(hasClient) && sent == old(sent)
      ensures ignoredFileTypes == old(ignoredFileTypes) && ignoredDirectories == old(ignoredDirectories)
      ensures Tables() == old(Tables())
      ensures old(!hasClient || !connected) ==> unchanged(this)
    {
      if !hasClient {
        return;
      }
      if connected {
        connected := false;
      }
    }
  }
}
