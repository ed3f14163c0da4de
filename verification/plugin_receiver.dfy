/**
 PluginReceiver and its PluginService: the broadcast dispatch, the version
 gate and teardown of `onServiceConnected`, and the `sendThemeData` pass that
 turns the asset listing into grants and `putThemeData` calls.

 Everything the service does towards the outside is an `Event` in a trace:
 a read grant, a publish call, the unbind and the stop. The remote Torque
 service is an oracle for its version and for which publish calls fault.
 */
module PluginReceiver {
  import opened JavaLang
  import opened Assets

  /** Broadcast actions the receiver knows. */
  const ThemeQuery := "org.prowl.torque.THEME_QUERY"
  const TorqueQuitting := "org.prowl.torque.APP_QUITTING"

  /** Remote versions below this are refused. */
  const MinTorqueVersion := 35

  /** The package every read grant goes to. */
  const TorquePackage := "org.prowl.torque"

  /** Suffix of a top-level theme description file. */
  const MetadataSuffix := ".txt"

  /** The arguments of one `putThemeData` call. */
  datatype PublishCall = PublishCall(
    appId: string,
    name: string,
    description: string,
    author: string,
    thumbnail: string,
    members: seq<string>)

  /** What the service does towards the outside, in order. */
  datatype Event =
    | Grant(grantee: string, uri: string)   // grantUriPermission with FLAG_GRANT_READ_URI_PERMISSION
    | Publish(call: PublishCall)            // torqueService.putThemeData
    | Unbind                                // unbindService(connection)
    | StopSelf                              // stopSelf()

  /** `getVersion()` either answers or throws a RemoteException. */
  datatype VersionReply = Reported(version: int) | VersionFault

  /**
   The remote Torque service: its version reply, and the indexes (0 for the
   first call of a pass) of the `putThemeData` calls that throw.
   */
  datatype Remote = Remote(versionReply: VersionReply, faultingCalls: set<nat>)

  /** Why a publish pass stopped early. */
  datatype Fault =
    | ListingFault(path: string)     // AssetManager.list failed
    | MetadataFault(file: string)    // AssetManager.open or Properties.load failed
    | PublishFault(call: nat)        // putThemeData threw

  datatype PassOutcome = Completed | Aborted(fault: Fault)

  /** The events of a (part of a) publish pass and how it ended. */
  datatype Pass = Pass(events: seq<Event>, outcome: PassOutcome)

  /** An event of the publish pass itself, as opposed to teardown. */
  predicate IsPassEvent(e: Event) {
    e.Grant? || e.Publish?
  }

  /** The read grants for `uris`, one per URI, in order. */
  function GrantsOf(uris: seq<string>): (g: seq<Event>)
    ensures |g| == |uris|
    ensures forall j :: 0 <= j < |uris| ==> g[j] == Grant(TorquePackage, uris[j])
  {
    seq(|uris|, j requires 0 <= j < |uris| => Grant(TorquePackage, uris[j]))
  }

  // ---------------------------------------------------------------- onReceive

  datatype Dispatch = StartPluginService | NoEffect

  /** `onReceive`: what a broadcast with `action` makes the receiver do. */
  function OnReceive(action: string): (d: Dispatch)
    ensures d == StartPluginService <==> action == ThemeQuery
  {
    if action == ThemeQuery then StartPluginService
    else if action == TorqueQuitting then NoEffect
    else NoEffect
  }

  // ---------------------------------------------------------------- URIs

  /** `makeExportable`: grant read access to `uri`, then hand back its string form. */
  function MakeExportable(uri: string): (r: (Event, string))
    ensures r.0 == Grant(TorquePackage, uri)
    ensures r.1 == uri
  {
    (Grant(TorquePackage, uri), uri)
  }

  /** A theme is announced by a top-level entry ending in ".txt". */
  predicate IsThemeEntry(entry: string) {
    EndsWith(entry, MetadataSuffix)
  }

  /**
   `topFile.substring(0, topFile.indexOf("."))`: the entry name up to its
   first dot. For a theme entry the dot always exists, so this never throws.
   */
  function FolderId(entry: string): (id: string)
    requires IsThemeEntry(entry)
    ensures |id| < |entry| && entry[..|id|] == id
    ensures entry[|id|] == '.' && '.' !in id
  {
    assert entry[|entry| - 4] == MetadataSuffix[0];
    entry[..IndexOf(entry, '.')]
  }

  /** The thumbnail of folder `id`: the asset prefix followed by `id + ".png"`. */
  function ThumbnailUri(appId: string, id: string): (u: string)
    ensures |u| == |AssetLocation(appId)| + |id| + 4
    ensures u[..|AssetLocation(appId)|] == AssetLocation(appId)
    ensures u[|AssetLocation(appId)|..] == id + ".png"
  {
    AssetLocation(appId) + id + ".png"
  }

  /** The file `file` of folder `id`: the asset prefix followed by `id + "/" + file`. */
  function MemberUri(appId: string, id: string, file: string): (u: string)
    ensures |u| == |AssetLocation(appId)| + |id| + 1 + |file|
    ensures u[..|AssetLocation(appId)|] == AssetLocation(appId)
    ensures u[|AssetLocation(appId)|..] == id + "/" + file
  {
    AssetLocation(appId) + id + "/" + file
  }

  /** The exports of the loop over a theme folder: its grants and its URI list. */
  datatype Exported = Exported(grants: seq<Event>, uris: seq<string>)

  /**
   The inner loop of `sendThemeData`: for each file, in order, make
   `base + file` exportable and append the returned URI to the list.
   */
  function ExportMembers(base: string, files: seq<string>): (r: Exported)
    ensures |r.uris| == |files|
    ensures forall j :: 0 <= j < |files| ==> r.uris[j] == base + files[j]
    ensures r.grants == GrantsOf(r.uris)
  {
    if files == [] then Exported([], [])
    else
      var (g, u) := MakeExportable(base + files[0]);
      var rest := ExportMembers(base, files[1..]);
      Exported([g] + rest.grants, [u] + rest.uris)
  }

  // ---------------------------------------------------------------- sendThemeData

  /** The metadata file a theme entry's folder id leads to: `folder + ".txt"`. */
  function MetadataFile(entry: string): string
    requires IsThemeEntry(entry)
  {
    FolderId(entry) + MetadataSuffix
  }

  /** Both reads a theme entry needs succeed: its metadata file and its folder listing. */
  predicate Readable(store: AssetStore, entry: string)
    requires IsThemeEntry(entry)
  {
    MetadataFile(entry) in store.metadata && FolderId(entry) in store.dirs
  }

  /** The `putThemeData` call a readable theme entry leads to. */
  function EntryCall(appId: string, store: AssetStore, entry: string): (c: PublishCall)
    requires IsThemeEntry(entry) && Readable(store, entry)
    ensures c.appId == appId
    ensures c.thumbnail == ThumbnailUri(appId, FolderId(entry))
    ensures var props := store.metadata[MetadataFile(entry)];
      && c.name == (if "name" in props then props["name"] else FolderId(entry))
      && c.description == (if "description" in props then props["description"] else FolderId(entry))
      && c.author == (if "author" in props then props["author"] else FolderId(entry))
    ensures var files := store.dirs[FolderId(entry)];
      && |c.members| == |files|
      && forall j :: 0 <= j < |files| ==> c.members[j] == MemberUri(appId, FolderId(entry), files[j])
  {
    var id := FolderId(entry);
    var props := store.metadata[MetadataFile(entry)];
    var exported := ExportMembers(AssetLocation(appId) + id + "/", store.dirs[id]);
    PublishCall(appId,
      GetProperty(props, "name", id),
      GetProperty(props, "description", id),
      GetProperty(props, "author", id),
      ThumbnailUri(appId, id),
      exported.uris)
  }

  /**
   One iteration of the outer loop of `sendThemeData`, for the entry `entry`
   when `n` publish calls have been issued before it.
   */
  function ProcessEntry(appId: string, store: AssetStore, remote: Remote, entry: string, n: nat): (r: Pass)
    ensures forall i :: 0 <= i < |r.events| ==> IsPassEvent(r.events[i])
  {
    if !IsThemeEntry(entry) then Pass([], Completed)
    else
      var id := FolderId(entry);
      if MetadataFile(entry) !in store.metadata then Pass([], Aborted(MetadataFault(MetadataFile(entry))))
      else
        var thumbnail := ThumbnailUri(appId, id);
        var thumbGrant := MakeExportable(thumbnail).0;
        if id !in store.dirs then Pass([thumbGrant], Aborted(ListingFault(id)))
        else
          var exported := ExportMembers(AssetLocation(appId) + id + "/", store.dirs[id]);
          var call := EntryCall(appId, store, entry);
          var events := [thumbGrant] + exported.grants + [Publish(call)];
          Pass(events, if n in remote.faultingCalls then Aborted(PublishFault(n)) else Completed)
  }

  /**
   The index of the next publish call once `entry` has been processed without
   failure: a theme entry has then issued exactly one call, any other entry none.
   */
  function NextCallIndex(entry: string, n: nat): nat {
    if IsThemeEntry(entry) then n + 1 else n
  }

  /**
   The outer loop of `sendThemeData` over `entries`, `n` publish calls having
   been issued before; the first failure ends the loop.
   */
  function ProcessEntries(appId: string, store: AssetStore, remote: Remote, entries: seq<string>, n: nat): (r: Pass)
    ensures forall i :: 0 <= i < |r.events| ==> IsPassEvent(r.events[i])
    decreases |entries|
  {
    if entries == [] then Pass([], Completed)
    else
      var step := ProcessEntry(appId, store, remote, entries[0], n);
      if step.outcome.Aborted? then step
      else
        var rest := ProcessEntries(appId, store, remote, entries[1..], NextCallIndex(entries[0], n));
        Pass(step.events + rest.events, rest.outcome)
  }

  /** `sendThemeData`: list the top level, then run the outer loop over it. */
  function SendThemeData(appId: string, store: AssetStore, remote: Remote): (r: Pass)
    ensures "" !in store.dirs ==> r == Pass([], Aborted(ListingFault("")))
    ensures forall i :: 0 <= i < |r.events| ==> IsPassEvent(r.events[i])
  {
    if "" !in store.dirs then Pass([], Aborted(ListingFault("")))
    else ProcessEntries(appId, store, remote, store.dirs[""], 0)
  }

  // ---------------------------------------------------------------- the service

  /**
   The plugin service: whether it runs, and whether its connection to the
   Torque service is registered (bound).
   */
  datatype Service = Service(running: bool, bound: bool)

  const Idle := Service(false, false)

  /**
   `onStartCommand`: the service runs and asks to bind to Torque; the bind
   registers the connection only if the platform accepts it (`bindAccepted`),
   and its result is otherwise ignored.
   */
  function OnStartCommand(s: Service, bindAccepted: bool): (s': Service)
    ensures s'.running
    ensures s'.bound <==> s.bound || bindAccepted
  {
    Service(true, s.bound || bindAccepted)
  }

  /** A broadcast arriving at the receiver, followed by the service start it may cause. */
  function Deliver(s: Service, action: string, bindAccepted: bool): (s': Service)
    ensures action != ThemeQuery ==> s' == s
    ensures action == ThemeQuery ==> s'.running && (s'.bound <==> s.bound || bindAccepted)
  {
    match OnReceive(action)
    case StartPluginService => OnStartCommand(s, bindAccepted)
    case NoEffect => s
  }

  /** What `onServiceConnected` did, and the service state after it. */
  datatype Connected = Connected(events: seq<Event>, after: Service)

  /** The gate of `onServiceConnected`: a version was reported and it is recent enough. */
  predicate VersionAccepted(reply: VersionReply): (r: bool)
    ensures !r <==> reply.VersionFault? || reply.version < 35
  {
    reply.Reported? && reply.version >= MinTorqueVersion
  }

  /**
   `unbindService(connection); stopSelf();` inside a catch-all: unbinding a
   connection that is not registered throws, and then `stopSelf` is skipped.
   */
  function Teardown(s: Service): (r: Connected)
    ensures s.bound ==> r == Connected([Unbind, StopSelf], Idle)
    ensures !s.bound ==> r == Connected([], s)
  {
    if s.bound then Connected([Unbind, StopSelf], Idle)
    else Connected([], s)
  }

  /**
   `onServiceConnected`: return early, without unbinding, when the version is
   too old or `getVersion` throws; otherwise run the publish pass, whose
   failures it swallows, and tear down.
   */
  function OnServiceConnected(appId: string, store: AssetStore, remote: Remote, s: Service): (r: Connected)
    ensures !VersionAccepted(remote.versionReply) ==> r == Connected([], s)
    ensures VersionAccepted(remote.versionReply) ==>
      var teardown := Teardown(s);
      r == Connected(SendThemeData(appId, store, remote).events + teardown.events, teardown.after)
  {
    match remote.versionReply
    case VersionFault => Connected([], s)
    case Reported(v) =>
      if v < MinTorqueVersion then Connected([], s)
      else
        var pass := SendThemeData(appId, store, remote);
        var teardown := Teardown(s);
        Connected(pass.events + teardown.events, teardown.after)
  }
}
