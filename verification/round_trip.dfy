/**
 How the two components fit together: every URI the publish pass grants is
 one the content provider resolves back to the relative asset path it was
 built from. Also a few concrete cases of the folder id and a whole session.
 */
module RoundTrip {
  import opened JavaLang
  import opened Assets
  import opened PluginReceiver
  import opened PublishPass
  import opened AssetContentProvider

  /** `u` begins with the asset prefix. */
  predicate UnderAssets(appId: string, u: string) {
    |AssetLocation(appId)| <= |u| && u[..|AssetLocation(appId)|] == AssetLocation(appId)
  }

  lemma PrefixedIsUnderAssets(appId: string, p: string)
    ensures UnderAssets(appId, AssetLocation(appId) + p)
    ensures (AssetLocation(appId) + p)[|AssetLocation(appId)|..] == p
  {
    var u := AssetLocation(appId) + p;
    assert u[..|AssetLocation(appId)|] == AssetLocation(appId);
    assert u[|AssetLocation(appId)|..] == p;
  }

  /** Every grant in `events` goes to Torque for a URI under the asset prefix. */
  predicate GrantsUnderAssets(appId: string, events: seq<Event>) {
    forall i :: 0 <= i < |events| && events[i].Grant? ==>
      events[i].grantee == TorquePackage && UnderAssets(appId, events[i].uri)
  }

  lemma GrantsUnderAssetsConcat(appId: string, a: seq<Event>, b: seq<Event>)
    requires GrantsUnderAssets(appId, a) && GrantsUnderAssets(appId, b)
    ensures GrantsUnderAssets(appId, a + b)
  {
    forall i | 0 <= i < |a + b| && (a + b)[i].Grant?
      ensures (a + b)[i].grantee == TorquePackage && UnderAssets(appId, (a + b)[i].uri)
    {
      if i >= |a| { assert (a + b)[i] == b[i - |a|]; }
    }
  }

  /** The thumbnail URI of folder `id` is served by looking up `id + ".png"`. */
  lemma ThumbnailResolves(appId: string, store: AssetStore, id: string, mode: string)
    ensures UnderAssets(appId, ThumbnailUri(appId, id))
    ensures OpenAssetFile(appId, store, ThumbnailUri(appId, id), mode) == Lookup(store, id + ".png")
  {
    assert ThumbnailUri(appId, id) == AssetLocation(appId) + (id + ".png");
    PrefixedIsUnderAssets(appId, id + ".png");
    OpenRoundTrip(appId, store, id + ".png", mode);
  }

  /** The URI of `file` in folder `id` is served by looking up `id + "/" + file`. */
  lemma MemberResolves(appId: string, store: AssetStore, id: string, file: string, mode: string)
    ensures UnderAssets(appId, MemberUri(appId, id, file))
    ensures OpenAssetFile(appId, store, MemberUri(appId, id, file), mode) == Lookup(store, id + "/" + file)
  {
    assert MemberUri(appId, id, file) == AssetLocation(appId) + (id + "/" + file);
    PrefixedIsUnderAssets(appId, id + "/" + file);
    OpenRoundTrip(appId, store, id + "/" + file, mode);
  }

  lemma EntryGrantsUnderAssets(appId: string, store: AssetStore, remote: Remote, entry: string, n: nat)
    ensures GrantsUnderAssets(appId, ProcessEntry(appId, store, remote, entry, n).events)
  {
    EntryEvents(appId, store, remote, entry, n);
    if IsThemeEntry(entry) && MetadataFile(entry) in store.metadata {
      var id := FolderId(entry);
      ThumbnailResolves(appId, store, id, "r");
      if Readable(store, entry) {
        var call := EntryCall(appId, store, entry);
        var files := store.dirs[id];
        var members := GrantsOf(call.members);
        assert GrantsUnderAssets(appId, members) by {
          forall j | 0 <= j < |members| ensures UnderAssets(appId, members[j].uri) {
            MemberResolves(appId, store, id, files[j], "r");
          }
        }
        GrantsUnderAssetsConcat(appId, [Grant(TorquePackage, call.thumbnail)], members);
        GrantsUnderAssetsConcat(appId, [Grant(TorquePackage, call.thumbnail)] + members, [Publish(call)]);
      }
    }
  }

  lemma {:induction false} PassGrantsUnderAssets(appId: string, store: AssetStore, remote: Remote,
                                                 entries: seq<string>, n: nat)
    ensures GrantsUnderAssets(appId, ProcessEntries(appId, store, remote, entries, n).events)
    decreases |entries|
  {
    if entries != [] {
      var step := ProcessEntry(appId, store, remote, entries[0], n);
      EntryGrantsUnderAssets(appId, store, remote, entries[0], n);
      if step.outcome.Completed? {
        var rest := ProcessEntries(appId, store, remote, entries[1..], NextCallIndex(entries[0], n));
        PassGrantsUnderAssets(appId, store, remote, entries[1..], NextCallIndex(entries[0], n));
        GrantsUnderAssetsConcat(appId, step.events, rest.events);
      }
    }
  }

  /**
   Every URI `sendThemeData` grants goes to Torque, and the provider serves
   it without throwing, by looking up the path after the asset prefix.
   */
  lemma GrantedUrisResolve(appId: string, store: AssetStore, remote: Remote, mode: string)
    ensures var events := SendThemeData(appId, store, remote).events;
      forall i :: 0 <= i < |events| && events[i].Grant? ==>
        && events[i].grantee == TorquePackage
        && UnderAssets(appId, events[i].uri)
        && events[i].uri == AssetLocation(appId) + events[i].uri[|AssetLocation(appId)|..]
        && OpenAssetFile(appId, store, events[i].uri, mode)
           == Lookup(store, events[i].uri[|AssetLocation(appId)|..])
  {
    var events := SendThemeData(appId, store, remote).events;
    if "" in store.dirs {
      PassGrantsUnderAssets(appId, store, remote, store.dirs[""], 0);
    }
    forall i | 0 <= i < |events| && events[i].Grant?
      ensures UnderAssets(appId, events[i].uri)
      ensures events[i].uri == AssetLocation(appId) + events[i].uri[|AssetLocation(appId)|..]
      ensures OpenAssetFile(appId, store, events[i].uri, mode)
           == Lookup(store, events[i].uri[|AssetLocation(appId)|..])
    {
      var u := events[i].uri;
      var p := u[|AssetLocation(appId)|..];
      assert u == u[..|AssetLocation(appId)|] + p;
      OpenRoundTrip(appId, store, p, mode);
    }
  }

  // ---------------------------------------------------------------- concrete cases

  lemma TxtNameIsThemeEntry(stem: string)
    ensures IsThemeEntry(stem + ".txt")
  {
    assert (stem + ".txt")[|stem|..] == ".txt";
  }

  /** A theme entry `id + rest`, where `rest` starts with the first dot, has folder id `id`. */
  lemma FolderIdBeforeFirstDot(id: string, rest: string)
    requires '.' !in id && |rest| > 0 && rest[0] == '.' && IsThemeEntry(id + rest)
    ensures FolderId(id + rest) == id
  {
    var e := id + rest;
    assert e[..|id|] == id;
  }

  /**
   The `.txt` filter: a theme entry is some name followed by ".txt", so it
   holds a dot; every name followed by ".txt" is one, and a name without a
   dot never is.
   */
  lemma ThemeEntryShape(entry: string, stem: string)
    ensures IsThemeEntry(entry) ==> |entry| >= 4 && entry == entry[..|entry| - 4] + ".txt" && '.' in entry
    ensures IsThemeEntry(stem + ".txt")
    ensures '.' !in entry ==> !IsThemeEntry(entry)
  {
    TxtNameIsThemeEntry(stem);
    if IsThemeEntry(entry) {
      assert entry[|entry| - 4] == '.';
    } else if '.' !in entry {
      DotFreeIsNoThemeEntry(entry);
    }
  }

  /**
   The metadata file of a theme entry agrees with the entry up to the first
   dot, which it then replaces by ".txt": it is itself a theme entry of the
   same folder, and its own metadata file is itself.
   */
  lemma MetadataFileShape(entry: string)
    requires IsThemeEntry(entry)
    ensures var f := MetadataFile(entry);
      && |f| <= |entry| && IsThemeEntry(f)
      && f[..|f| - 4] == entry[..|f| - 4] && '.' !in f[..|f| - 4]
      && FolderId(f) == FolderId(entry)
      && MetadataFile(f) == f
  {
    var id := FolderId(entry);
    TxtNameIsThemeEntry(id);
    FolderIdBeforeFirstDot(id, ".txt");
    assert (id + ".txt")[..|id|] == id;
  }

  /**
   The folder id is the text before the first dot: `sunset.txt` gives
   `sunset`, and `a.b.txt` gives `a`, whose metadata is then read from
   `a.txt` rather than from `a.b.txt`.
   */
  lemma FolderIdExamples(id: string, middle: string)
    requires '.' !in id
    ensures IsThemeEntry(id + ".txt") && FolderId(id + ".txt") == id
    ensures IsThemeEntry(id + "." + middle + ".txt")
      && FolderId(id + "." + middle + ".txt") == id
      && MetadataFile(id + "." + middle + ".txt") == id + ".txt"
  {
    TxtNameIsThemeEntry(id);
    FolderIdBeforeFirstDot(id, ".txt");
    var e := id + "." + middle + ".txt";
    TxtNameIsThemeEntry(id + "." + middle);
    assert e == id + ("." + middle + ".txt");
    FolderIdBeforeFirstDot(id, "." + middle + ".txt");
  }

  /** For a theme entry the Java `substring(0, indexOf("."))` returns, never throws, and yields the folder id. */
  lemma FolderIdIsJavaSubstring(entry: string)
    requires IsThemeEntry(entry)
    ensures Substring(entry, 0, IndexOf(entry, '.')) == Returns(NonNull(FolderId(entry)))
  {
    assert entry[|entry| - 4] == MetadataSuffix[0];
    var r := Substring(entry, 0, IndexOf(entry, '.'));
    assert r.value.get == entry[..IndexOf(entry, '.')];
  }

  /** A listing of one non-theme entry and then one theme entry that goes through. */
  lemma OneThemeAfterOther(appId: string, store: AssetStore, remote: Remote, other: string, entry: string)
    requires !IsThemeEntry(other) && IsThemeEntry(entry) && GoesThrough(store, remote, entry, 0)
    ensures ProcessEntries(appId, store, remote, [other, entry], 0)
         == Pass(ProcessEntry(appId, store, remote, entry, 0).events, Completed)
  {
    var step := ProcessEntry(appId, store, remote, entry, 0);
    EntryEvents(appId, store, remote, other, 0);
    EntryEvents(appId, store, remote, entry, 0);
    assert step.outcome == Completed;
    assert [other, entry][0] == other && [other, entry][1..] == [entry];
    assert [entry][0] == entry && [entry][1..] == [];
    assert ProcessEntries(appId, store, remote, [], NextCallIndex(entry, 0)) == Pass([], Completed);
    var last := ProcessEntries(appId, store, remote, [entry], 0);
    assert last == Pass(step.events + [], Completed);
    assert [] + last.events == step.events;
  }

  /**
   The asset store of the sunset scenario, for folder name `id`: the top level
   lists the folder and `id.txt`; the metadata of `id.txt` gives only a name;
   the folder lists two files. (`id` is not empty, else the folder listing
   would be the top one.)
   */
  predicate IsSunsetStore(store: AssetStore, id: string, name: string, bg: string, fg: string) {
    && id != "" && '.' !in id
    && "" in store.dirs && store.dirs[""] == [id, id + ".txt"]
    && id in store.dirs && store.dirs[id] == [bg, fg]
    && id + ".txt" in store.metadata && store.metadata[id + ".txt"] == map["name" := name]
  }

  /** In the sunset store, `id.txt` is readable and leads to a call that falls back to `id` twice. */
  lemma SunsetCall(appId: string, store: AssetStore, id: string, name: string, bg: string, fg: string)
    requires IsSunsetStore(store, id, name, bg, fg)
    ensures IsThemeEntry(id + ".txt") && Readable(store, id + ".txt")
    ensures EntryCall(appId, store, id + ".txt")
         == PublishCall(appId, name, id, id, ThumbnailUri(appId, id),
                        [MemberUri(appId, id, bg), MemberUri(appId, id, fg)])
  {
    FolderIdExamples(id, "");
    var call := EntryCall(appId, store, id + ".txt");
    assert call.members == [MemberUri(appId, id, bg), MemberUri(appId, id, fg)];
  }

  lemma DotFreeIsNoThemeEntry(name: string)
    requires '.' !in name
    ensures !IsThemeEntry(name)
  {
    if |name| >= 4 {
      assert name[|name| - 4..][0] == name[|name| - 4] != '.';
    }
  }

  /** The publish pass of the sunset scenario. */
  lemma SunsetPass(appId: string, store: AssetStore, id: string, name: string, bg: string, fg: string, remote: Remote)
    requires IsSunsetStore(store, id, name, bg, fg) && 0 !in remote.faultingCalls
    ensures SendThemeData(appId, store, remote)
         == Pass([Grant(TorquePackage, ThumbnailUri(appId, id)),
                  Grant(TorquePackage, MemberUri(appId, id, bg)),
                  Grant(TorquePackage, MemberUri(appId, id, fg)),
                  Publish(EntryCall(appId, store, id + ".txt"))], Completed)
  {
    var entry := id + ".txt";
    SunsetCall(appId, store, id, name, bg, fg);
    DotFreeIsNoThemeEntry(id);
    EntryEvents(appId, store, remote, entry, 0);
    var call := EntryCall(appId, store, entry);
    assert GrantsOf(call.members) == [Grant(TorquePackage, MemberUri(appId, id, bg)),
                                      Grant(TorquePackage, MemberUri(appId, id, fg))];
    OneThemeAfterOther(appId, store, remote, id, entry);
  }

  /**
   The sunset scenario: a session past the gate grants the thumbnail, then
   both members, then issues one call whose description and author fall back
   to `id`, and then unbinds and stops.
   */
  lemma SunsetSession(appId: string, store: AssetStore, id: string, name: string, bg: string, fg: string)
    requires IsSunsetStore(store, id, name, bg, fg)
    ensures var call := PublishCall(appId, name, id, id, ThumbnailUri(appId, id),
                                    [MemberUri(appId, id, bg), MemberUri(appId, id, fg)]);
      OnServiceConnected(appId, store, Remote(Reported(35), {}), Service(true, true))
      == Connected([Grant(TorquePackage, ThumbnailUri(appId, id)),
                    Grant(TorquePackage, MemberUri(appId, id, bg)),
                    Grant(TorquePackage, MemberUri(appId, id, fg)),
                    Publish(call), Unbind, StopSelf], Idle)
  {
    SunsetCall(appId, store, id, name, bg, fg);
    SunsetPass(appId, store, id, name, bg, fg, Remote(Reported(35), {}));
  }
}
