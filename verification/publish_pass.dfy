/**
 What a publish pass and a service session promise, stated over whole
 listings: which entries are published and in what order, when the pass
 completes, that the first failure ends it, and when teardown happens.
 */
module PublishPass {
  import opened JavaLang
  import opened Assets
  import opened PluginReceiver

  /** The theme entries of a listing, in listing order. */
  function ThemeEntries(entries: seq<string>): (themes: seq<string>)
    ensures |themes| <= |entries|
    ensures forall k :: 0 <= k < |themes| ==> IsThemeEntry(themes[k])
  {
    if entries == [] then []
    else (if IsThemeEntry(entries[0]) then [entries[0]] else []) + ThemeEntries(entries[1..])
  }

  /** The publish calls of a trace, in order. */
  function Publishes(events: seq<Event>): (calls: seq<PublishCall>)
    ensures |calls| <= |events|
  {
    if events == [] then []
    else (if events[0].Publish? then [events[0].call] else []) + Publishes(events[1..])
  }

  lemma {:induction false} PublishesConcat(a: seq<Event>, b: seq<Event>)
    ensures Publishes(a + b) == Publishes(a) + Publishes(b)
    decreases |a|
  {
    if a == [] {
      assert a + b == b;
    } else {
      assert (a + b)[0] == a[0];
      assert (a + b)[1..] == a[1..] + b;
      PublishesConcat(a[1..], b);
    }
  }

  lemma {:induction false} GrantsPublishNothing(uris: seq<string>)
    ensures Publishes(GrantsOf(uris)) == []
    decreases |uris|
  {
    if uris != [] {
      assert GrantsOf(uris)[1..] == GrantsOf(uris[1..]);
      GrantsPublishNothing(uris[1..]);
    }
  }

  /**
   One iteration of the outer loop: an entry without the ".txt" suffix does
   nothing; a theme entry whose metadata cannot be read fails before any
   grant; one whose folder cannot be listed fails after the thumbnail grant;
   otherwise the thumbnail is granted, then every member in folder order, then
   the call is issued, and the pass goes on unless that call throws.
   */
  lemma EntryEvents(appId: string, store: AssetStore, remote: Remote, entry: string, n: nat)
    ensures var r := ProcessEntry(appId, store, remote, entry, n);
      && (!IsThemeEntry(entry) ==> r == Pass([], Completed))
      && (IsThemeEntry(entry) && MetadataFile(entry) !in store.metadata ==>
            r == Pass([], Aborted(MetadataFault(MetadataFile(entry)))))
      && (IsThemeEntry(entry) && MetadataFile(entry) in store.metadata && FolderId(entry) !in store.dirs ==>
            r == Pass([Grant(TorquePackage, ThumbnailUri(appId, FolderId(entry)))],
                      Aborted(ListingFault(FolderId(entry)))))
      && (IsThemeEntry(entry) && Readable(store, entry) ==>
            var call := EntryCall(appId, store, entry);
            && r.events == [Grant(TorquePackage, call.thumbnail)] + GrantsOf(call.members) + [Publish(call)]
            && r.outcome == (if n in remote.faultingCalls then Aborted(PublishFault(n)) else Completed))
  {
  }

  /** A readable theme entry issues exactly its own publish call; any other entry issues none. */
  lemma EntryPublishes(appId: string, store: AssetStore, remote: Remote, entry: string, n: nat)
    ensures var step := ProcessEntry(appId, store, remote, entry, n);
      && (IsThemeEntry(entry) && Readable(store, entry) ==>
            Publishes(step.events) == [EntryCall(appId, store, entry)])
      && (!(IsThemeEntry(entry) && Readable(store, entry)) ==> Publishes(step.events) == [])
  {
    var step := ProcessEntry(appId, store, remote, entry, n);
    if IsThemeEntry(entry) && Readable(store, entry) {
      var call := EntryCall(appId, store, entry);
      var g := [Grant(TorquePackage, call.thumbnail)];
      PublishesConcat(g + GrantsOf(call.members), [Publish(call)]);
      PublishesConcat(g, GrantsOf(call.members));
      GrantsPublishNothing(call.members);
    } else if IsThemeEntry(entry) && MetadataFile(entry) in store.metadata {
      assert Publishes(step.events) == Publishes(step.events[1..]);
    }
  }

  /** Leaving out the entries that are not theme entries changes nothing about a pass. */
  lemma {:induction false} NonThemeEntriesIgnored(appId: string, store: AssetStore, remote: Remote,
                                                  entries: seq<string>, n: nat)
    ensures ProcessEntries(appId, store, remote, entries, n)
         == ProcessEntries(appId, store, remote, ThemeEntries(entries), n)
    decreases |entries|
  {
    if entries != [] {
      var e := entries[0];
      var themes := ThemeEntries(entries);
      var tail := ThemeEntries(entries[1..]);
      EntryEvents(appId, store, remote, e, n);
      if IsThemeEntry(e) {
        assert themes == [e] + tail;
        assert themes[0] == e && themes[1..] == tail;
        NonThemeEntriesIgnored(appId, store, remote, entries[1..], n + 1);
      } else {
        assert themes == tail;
        NonThemeEntriesIgnored(appId, store, remote, entries[1..], n);
        var rest := ProcessEntries(appId, store, remote, entries[1..], n);
        assert [] + rest.events == rest.events;
      }
    }
  }

  /** Whether a theme entry, processed as publish call `k`, goes through. */
  predicate GoesThrough(store: AssetStore, remote: Remote, entry: string, k: nat) {
    IsThemeEntry(entry) && Readable(store, entry) && k !in remote.faultingCalls
  }

  /** Every theme entry of `themes`, the `k`-th processed as call `n + k`, goes through. */
  predicate AllGoThrough(store: AssetStore, remote: Remote, themes: seq<string>, n: nat) {
    forall k :: 0 <= k < |themes| ==> GoesThrough(store, remote, themes[k], n + k)
  }

  lemma AllGoThroughCons(store: AssetStore, remote: Remote, e: string, tail: seq<string>, n: nat)
    ensures AllGoThrough(store, remote, [e] + tail, n)
        <==> GoesThrough(store, remote, e, n) && AllGoThrough(store, remote, tail, n + 1)
  {
    var themes := [e] + tail;
    if GoesThrough(store, remote, e, n) && AllGoThrough(store, remote, tail, n + 1) {
      forall k | 0 <= k < |themes| ensures GoesThrough(store, remote, themes[k], n + k) {
        if k > 0 { assert themes[k] == tail[k - 1]; }
      }
    }
    if AllGoThrough(store, remote, themes, n) {
      assert GoesThrough(store, remote, themes[0], n + 0);
      forall k | 0 <= k < |tail| ensures GoesThrough(store, remote, tail[k], n + 1 + k) {
        assert themes[k + 1] == tail[k];
      }
    }
  }

  /**
   A pass over `entries` completes exactly when every theme entry can be read
   and none of the publish calls it issues faults.
   */
  lemma {:induction false} CompletesIff(appId: string, store: AssetStore, remote: Remote,
                                        entries: seq<string>, n: nat)
    ensures ProcessEntries(appId, store, remote, entries, n).outcome == Completed
        <==> AllGoThrough(store, remote, ThemeEntries(entries), n)
    decreases |entries|
  {
    if entries != [] {
      var e := entries[0];
      var tail := ThemeEntries(entries[1..]);
      var step := ProcessEntry(appId, store, remote, e, n);
      var rest := ProcessEntries(appId, store, remote, entries[1..], NextCallIndex(e, n));
      EntryEvents(appId, store, remote, e, n);
      CompletesIff(appId, store, remote, entries[1..], NextCallIndex(e, n));
      if IsThemeEntry(e) {
        assert ThemeEntries(entries) == [e] + tail;
        AllGoThroughCons(store, remote, e, tail, n);
        assert step.outcome == Completed <==> GoesThrough(store, remote, e, n);
      } else {
        assert ThemeEntries(entries) == tail;
        assert step == Pass([], Completed);
      }
    }
  }

  /** `calls` are, one for one and in order, the calls the theme entries `themes` lead to. */
  predicate PublishedInOrder(appId: string, store: AssetStore, calls: seq<PublishCall>, themes: seq<string>) {
    && |calls| == |themes|
    && forall k :: 0 <= k < |themes| ==>
         IsThemeEntry(themes[k]) && Readable(store, themes[k]) && calls[k] == EntryCall(appId, store, themes[k])
  }

  lemma PublishedInOrderCons(appId: string, store: AssetStore, calls: seq<PublishCall>, themes: seq<string>, e: string)
    requires IsThemeEntry(e) && Readable(store, e)
    requires PublishedInOrder(appId, store, calls, themes)
    ensures PublishedInOrder(appId, store, [EntryCall(appId, store, e)] + calls, [e] + themes)
  {
    var calls' := [EntryCall(appId, store, e)] + calls;
    var themes' := [e] + themes;
    forall k | 0 <= k < |themes'|
      ensures IsThemeEntry(themes'[k]) && Readable(store, themes'[k]) && calls'[k] == EntryCall(appId, store, themes'[k])
    {
      if k > 0 { assert themes'[k] == themes[k - 1] && calls'[k] == calls[k - 1]; }
    }
  }

  /**
   A completed pass issues one publish call per theme entry, in listing
   order, each the call that entry leads to.
   */
  lemma {:induction false} CompletedPassPublishesEachTheme(appId: string, store: AssetStore, remote: Remote,
                                                           entries: seq<string>, n: nat)
    requires ProcessEntries(appId, store, remote, entries, n).outcome == Completed
    ensures PublishedInOrder(appId, store, Publishes(ProcessEntries(appId, store, remote, entries, n).events),
                             ThemeEntries(entries))
    decreases |entries|
  {
    if entries != [] {
      var e := entries[0];
      var step := ProcessEntry(appId, store, remote, e, n);
      var rest := ProcessEntries(appId, store, remote, entries[1..], NextCallIndex(e, n));
      EntryPublishes(appId, store, remote, e, n);
      CompletedPassPublishesEachTheme(appId, store, remote, entries[1..], NextCallIndex(e, n));
      PublishesConcat(step.events, rest.events);
      if IsThemeEntry(e) {
        EntryEvents(appId, store, remote, e, n);
        PublishedInOrderCons(appId, store, Publishes(rest.events), ThemeEntries(entries[1..]), e);
      }
    }
  }

  /** Once a pass over `xs` has failed, whatever follows `xs` is never looked at. */
  lemma {:induction false} FailureStopsBatch(appId: string, store: AssetStore, remote: Remote,
                                             xs: seq<string>, ys: seq<string>, n: nat)
    requires ProcessEntries(appId, store, remote, xs, n).outcome.Aborted?
    ensures ProcessEntries(appId, store, remote, xs + ys, n) == ProcessEntries(appId, store, remote, xs, n)
    decreases |xs|
  {
    assert xs != [];
    assert (xs + ys)[0] == xs[0];
    assert (xs + ys)[1..] == xs[1..] + ys;
    var step := ProcessEntry(appId, store, remote, xs[0], n);
    if step.outcome.Completed? {
      FailureStopsBatch(appId, store, remote, xs[1..], ys, NextCallIndex(xs[0], n));
    }
  }

  lemma PrefixExtends(a: seq<Event>, before: seq<Event>, all: seq<Event>)
    requires |before| <= |all| && all[..|before|] == before
    ensures |a + before| <= |a + all| && (a + all)[..|a + before|] == a + before
  {
    assert (a + all)[..|a + before|] == a + all[..|before|];
  }

  /**
   Grants and publish calls already issued stay issued: the events of the pass
   over any prefix of the listing begin the events of the pass over all of it.
   */
  lemma {:induction false} EarlierEventsRemain(appId: string, store: AssetStore, remote: Remote,
                                               entries: seq<string>, k: nat, n: nat)
    requires k <= |entries|
    ensures var before := ProcessEntries(appId, store, remote, entries[..k], n).events;
      var all := ProcessEntries(appId, store, remote, entries, n).events;
      |before| <= |all| && all[..|before|] == before
    decreases k
  {
    if k > 0 {
      var e := entries[0];
      assert entries[..k][0] == e;
      assert entries[..k][1..] == entries[1..][..k - 1];
      var step := ProcessEntry(appId, store, remote, e, n);
      if step.outcome.Completed? {
        var n' := NextCallIndex(e, n);
        EarlierEventsRemain(appId, store, remote, entries[1..], k - 1, n');
        PrefixExtends(step.events, ProcessEntries(appId, store, remote, entries[1..][..k - 1], n').events,
                      ProcessEntries(appId, store, remote, entries[1..], n').events);
      }
    }
  }

  /** The whole `sendThemeData` pass: one publish per theme entry, in order, when nothing fails. */
  lemma SendThemeDataPublishesEachTheme(appId: string, store: AssetStore, remote: Remote)
    requires "" in store.dirs
    requires AllGoThrough(store, remote, ThemeEntries(store.dirs[""]), 0)
    ensures SendThemeData(appId, store, remote).outcome == Completed
    ensures PublishedInOrder(appId, store, Publishes(SendThemeData(appId, store, remote).events),
                             ThemeEntries(store.dirs[""]))
  {
    CompletesIff(appId, store, remote, store.dirs[""], 0);
    CompletedPassPublishesEachTheme(appId, store, remote, store.dirs[""], 0);
  }

  // ---------------------------------------------------------------- the session

  /**
   The broadcasts `actions`, delivered in order; `binds[i]` is whether the
   platform accepts the bind that a start caused by `actions[i]` asks for.
   */
  function DeliverAll(s: Service, actions: seq<string>, binds: seq<bool>): Service
    requires |binds| == |actions|
    decreases |actions|
  {
    if actions == [] then s
    else DeliverAll(Deliver(s, actions[0], binds[0]), actions[1..], binds[1..])
  }

  /** Some THEME_QUERY among `actions` had its bind accepted. */
  predicate AcceptedStart(actions: seq<string>, binds: seq<bool>)
    requires |binds| == |actions|
  {
    exists i :: 0 <= i < |actions| && actions[i] == ThemeQuery && binds[i]
  }

  /**
   Only THEME_QUERY starts the service: after any run of broadcasts it runs
   exactly when it already ran or one of them was THEME_QUERY, and it is
   bound exactly when it already was or one such start had its bind accepted.
   APP_QUITTING has no effect.
   */
  lemma {:induction false} BroadcastsStartOnlyOnThemeQuery(s: Service, actions: seq<string>, binds: seq<bool>)
    requires |binds| == |actions|
    ensures OnReceive(TorqueQuitting) == NoEffect
    ensures DeliverAll(s, actions, binds).running <==> s.running || ThemeQuery in actions
    ensures DeliverAll(s, actions, binds).bound <==> s.bound || AcceptedStart(actions, binds)
    decreases |actions|
  {
    if actions != [] {
      BroadcastsStartOnlyOnThemeQuery(Deliver(s, actions[0], binds[0]), actions[1..], binds[1..]);
      assert actions == [actions[0]] + actions[1..];
      if AcceptedStart(actions[1..], binds[1..]) {
        var i :| 0 <= i < |actions[1..]| && actions[1..][i] == ThemeQuery && binds[1..][i];
        assert actions[i + 1] == ThemeQuery && binds[i + 1];
      }
      if AcceptedStart(actions, binds) && !(actions[0] == ThemeQuery && binds[0]) {
        var i :| 0 <= i < |actions| && actions[i] == ThemeQuery && binds[i];
        assert actions[1..][i - 1] == ThemeQuery && binds[1..][i - 1];
      }
    }
  }

  /**
   A too-old version, or a `getVersion` that throws a RemoteException, stops
   the session before any grant or publish: whatever broadcasts started the
   service, it stays as they left it, still bound if one of its binds was
   accepted.
   */
  lemma GateBlocksEverything(appId: string, store: AssetStore, remote: Remote,
                             actions: seq<string>, binds: seq<bool>)
    requires |binds| == |actions|
    requires remote.versionReply.VersionFault? || remote.versionReply.version < MinTorqueVersion
    ensures var s := DeliverAll(Idle, actions, binds);
      && OnServiceConnected(appId, store, remote, s) == Connected([], s)
      && (s.bound <==> AcceptedStart(actions, binds))
  {
    BroadcastsStartOnlyOnThemeQuery(Idle, actions, binds);
  }

  /**
   Past the gate, the publish pass runs to its end (completed or not), then
   the service unbinds and stops, once each, after every grant and publish.
   */
  lemma TeardownOnceAfterPass(appId: string, store: AssetStore, remote: Remote, s: Service)
    requires VersionAccepted(remote.versionReply) && s.bound
    ensures var r := OnServiceConnected(appId, store, remote, s);
      var pass := SendThemeData(appId, store, remote).events;
      && r.after == Idle
      && r.events == pass + [Unbind, StopSelf]
      && multiset(r.events)[Unbind] == 1
      && multiset(r.events)[StopSelf] == 1
      && forall i :: 0 <= i < |r.events| && !IsPassEvent(r.events[i]) ==> i >= |pass|
  {
    var r := OnServiceConnected(appId, store, remote, s);
    var pass := SendThemeData(appId, store, remote).events;
    assert Unbind !in pass && StopSelf !in pass;
    assert multiset(r.events) == multiset(pass) + multiset{Unbind, StopSelf};
  }

  /** The boundary of the gate: version 34 publishes nothing, version 35 runs the pass and tears down. */
  lemma VersionFloorIs35(appId: string, store: AssetStore, faults: set<nat>, s: Service)
    requires s.bound
    ensures OnServiceConnected(appId, store, Remote(Reported(34), faults), s).events == []
    ensures OnServiceConnected(appId, store, Remote(Reported(35), faults), s)
         == Connected(SendThemeData(appId, store, Remote(Reported(35), faults)).events + [Unbind, StopSelf], Idle)
  {
  }

  /**
   A whole session from an idle service: THEME_QUERY arrives, the bind is
   accepted, Torque connects with an accepted version; the service ends idle
   after the pass and its teardown.
   */
  lemma WholeSession(appId: string, store: AssetStore, remote: Remote)
    requires VersionAccepted(remote.versionReply)
    ensures var started := Deliver(Idle, ThemeQuery, true);
      && started == Service(true, true)
      && OnServiceConnected(appId, store, remote, started)
         == Connected(SendThemeData(appId, store, remote).events + [Unbind, StopSelf], Idle)
  {
  }
}
