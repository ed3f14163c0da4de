# Torque theme plugin — verified model

A Dafny model of the logic of the Torque theme example plugin, an Android
app that hands its bundled themes to the Torque app.

- **Publish session** (`PluginReceiver.java`). A `THEME_QUERY` broadcast
  starts `PluginService`, which binds to Torque's remote service. When the
  connection comes up, the service asks for Torque's version. It gives up
  quietly if the version is below 35 or the call throws a RemoteException.
  Otherwise it runs `sendThemeData` and then unbinds and stops.
- **Publish pass** (`sendThemeData`). It lists the top-level assets. Each
  entry ending in `.txt` announces a theme whose folder id is the text before
  the first dot. The pass reads the metadata file `id + ".txt"`. It grants
  read access on the thumbnail `content://<app-id>/assets/<id>.png`, then on
  every file of the folder `<id>` in listing order. Then it calls
  `putThemeData` once, with name, description and author taken from the
  metadata or defaulting to the id. One catch-all around the loop means the
  first failure ends the whole batch.
- **Asset provider** (`AssetContentProvider.java`). It serves those URIs back
  by dropping the first `len("content://<app-id>/assets/")` characters. The
  rest of its surface is inert.

Modelling choices:

- The service's effects form an ordered trace of `Event`s: grants, publish
  calls, unbind, stop.
- The asset store is an abstract value (`Assets.AssetStore`):
  - a map from a path to its listing, where the top level is path `""`;
  - a map from a file name to its metadata properties;
  - the set of names `openFd` can open.
- A path missing from a map is a read that throws an IOException.
- The remote Torque service is a version reply (a number, or a
  RemoteException) plus the set of `putThemeData` call indexes that throw.
- `BuildConfig.APPLICATION_ID` is a parameter, `appId`.
- A `Uri` is modelled as its string form. `Uri.parse(s).toString()` is taken
  to give back `s`.

Files and modules:

| file | module | contents |
|---|---|---|
| `java_lang.dfy` | `JavaLang` | `endsWith`, `indexOf`, `substring`; nullable references and thrown exceptions |
| `assets.dfy` | `Assets` | the asset store, the `content://<app-id>/assets/` prefix, `Properties.getProperty` |
| `plugin_receiver.dfy` | `PluginReceiver` | `onReceive`, `onStartCommand`, `onServiceConnected`, `sendThemeData`, `makeExportable` |
| `publish_pass.dfy` | `PublishPass` | properties of the publish pass and of a session |
| `asset_content_provider.dfy` | `AssetContentProvider` | the provider and its URI round trip |
| `round_trip.dfy` | `RoundTrip` | the provider resolves every granted URI; the folder-id and sunset scenarios |

Facts about the code that the model keeps as they are:

- The batch is aborted on the first failure. No package is isolated from a
  failure in another.
- Unbind and stop happen only after a publish pass. They do not happen on the
  version-too-old path or when `getVersion` throws a RemoteException.
- The folder id is cut at the *first* dot. The metadata is read from
  `id + ".txt"`, so `a.b.txt` reads `a.txt`.
- `putThemeData` receives the plugin's application id, not the theme's
  folder id.
- The provider serves any asset name. It checks no grant itself.

## Model

| member | source | states |
|---|---|---|
| `JavaLang.IndexOf` | app/src/main/java/org/prowl/themeexampleplugin/PluginReceiver.java:175 | the result is -1 exactly when the character is absent; otherwise it is an index holding the character with none before it |
| `JavaLang.EndsWithShape` | app/src/main/java/org/prowl/themeexampleplugin/PluginReceiver.java:174 | `endsWith` holds when the string is the rest of it followed by the suffix, and it holds for every string followed by the suffix |
| `JavaLang.Substring` | app/src/main/java/org/prowl/themeexampleplugin/AssetContentProvider.java:61 | `substring` throws StringIndexOutOfBounds exactly when the indexes are out of range; otherwise it returns a non-null string of the characters in range |
| `Assets.AssetLocation` | app/src/main/java/org/prowl/themeexampleplugin/PluginReceiver.java:58 | the prefix is `content://`, then exactly the application id, then `/assets/` |
| `Assets.GetProperty` | app/src/main/java/org/prowl/themeexampleplugin/PluginReceiver.java:199-201 | a metadata lookup gives the stored value if the key is present, and the default otherwise |
| `PluginReceiver.OnReceive` | app/src/main/java/org/prowl/themeexampleplugin/PluginReceiver.java:67-83 | the service is started if and only if the action is `org.prowl.torque.THEME_QUERY` |
| `PluginReceiver.Deliver` | app/src/main/java/org/prowl/themeexampleplugin/PluginReceiver.java:72-82 | any action other than THEME_QUERY leaves the service state unchanged; THEME_QUERY leaves it running, bound if the bind was accepted or already held |
| `PluginReceiver.OnStartCommand` | app/src/main/java/org/prowl/themeexampleplugin/PluginReceiver.java:96-104 | after a start the service runs, and it is bound exactly when it already was or the platform accepted the bind |
| `PluginReceiver.MakeExportable` | app/src/main/java/org/prowl/themeexampleplugin/PluginReceiver.java:211-215 | one read grant to `org.prowl.torque` for the URI, and the URI itself is returned |
| `PluginReceiver.ThumbnailUri` | app/src/main/java/org/prowl/themeexampleplugin/PluginReceiver.java:185 | the thumbnail URI is the asset prefix followed by exactly `id + ".png"` |
| `PluginReceiver.MemberUri` | app/src/main/java/org/prowl/themeexampleplugin/PluginReceiver.java:193 | a member URI is the asset prefix followed by exactly `id + "/" + file` |
| `PluginReceiver.FolderId` | app/src/main/java/org/prowl/themeexampleplugin/PluginReceiver.java:175 | for a `.txt` entry, the folder id is a proper prefix of the entry, followed in it by a dot, and contains no dot, so it is the text before the first dot |
| `PluginReceiver.ExportMembers` | app/src/main/java/org/prowl/themeexampleplugin/PluginReceiver.java:189-195 | one URI per folder file, in order, each `base + file`, and one read grant for each of those URIs, in the same order |
| `PluginReceiver.EntryCall` | app/src/main/java/org/prowl/themeexampleplugin/PluginReceiver.java:198-203 | the call carries the application id and the thumbnail `prefix + id + ".png"`; name, description and author come from the metadata or fall back to the id; there is one member URI `prefix + id + "/" + file` per folder file, in order |
| `PluginReceiver.ProcessEntry` | app/src/main/java/org/prowl/themeexampleplugin/PluginReceiver.java:171-204 | one loop iteration only grants and publishes; it never unbinds or stops |
| `PluginReceiver.ProcessEntries` | app/src/main/java/org/prowl/themeexampleplugin/PluginReceiver.java:166-208 | the loop inside the catch-all only grants and publishes |
| `PluginReceiver.SendThemeData` | app/src/main/java/org/prowl/themeexampleplugin/PluginReceiver.java:163-209 | if the top-level listing fails, nothing is granted or published; the pass never unbinds or stops |
| `PluginReceiver.VersionAccepted` | app/src/main/java/org/prowl/themeexampleplugin/PluginReceiver.java:131-141 | the gate refuses exactly when `getVersion` throws a RemoteException or reports a version below 35 |
| `PluginReceiver.Teardown` | app/src/main/java/org/prowl/themeexampleplugin/PluginReceiver.java:146-152 | a bound service unbinds, then stops, and ends idle; unbinding an unregistered connection throws, and then nothing happens |
| `PluginReceiver.OnServiceConnected` | app/src/main/java/org/prowl/themeexampleplugin/PluginReceiver.java:128-153 | if no version is reported, or it is below 35, there are no events and no state change; otherwise the publish pass's events come first, then teardown |
| `PublishPass.EntryEvents` | app/src/main/java/org/prowl/themeexampleplugin/PluginReceiver.java:171-204 | a non-`.txt` entry does nothing. An unreadable metadata file fails before any grant. An unlistable folder fails after the thumbnail grant. Otherwise: thumbnail grant, member grants in order, one call, and the pass goes on unless that call throws |
| `PublishPass.EntryPublishes` | app/src/main/java/org/prowl/themeexampleplugin/PluginReceiver.java:198-203 | a readable theme entry issues exactly its own call; any other entry issues none |
| `PublishPass.NonThemeEntriesIgnored` | app/src/main/java/org/prowl/themeexampleplugin/PluginReceiver.java:171-174 | deleting every entry without the `.txt` suffix from the listing leaves the pass identical |
| `PublishPass.CompletesIff` | app/src/main/java/org/prowl/themeexampleplugin/PluginReceiver.java:166-208 | the pass completes if and only if every theme entry is readable and none of its publish calls throws |
| `PublishPass.CompletedPassPublishesEachTheme` | app/src/main/java/org/prowl/themeexampleplugin/PluginReceiver.java:171-203 | a completed pass issues exactly one call per `.txt` entry, in listing order, each the call that entry leads to |
| `PublishPass.FailureStopsBatch` | app/src/main/java/org/prowl/themeexampleplugin/PluginReceiver.java:166-208 | once the pass over some entries has failed, appending any further entries changes nothing |
| `PublishPass.EarlierEventsRemain` | app/src/main/java/org/prowl/themeexampleplugin/PluginReceiver.java:166-208 | the events of the pass over any prefix of the listing are a prefix of the events of the whole pass, so grants and calls already issued remain |
| `PublishPass.SendThemeDataPublishesEachTheme` | app/src/main/java/org/prowl/themeexampleplugin/PluginReceiver.java:163-209 | when every theme is readable and no call throws, `sendThemeData` completes, with one call per theme in order |
| `PublishPass.GateBlocksEverything` | app/src/main/java/org/prowl/themeexampleplugin/PluginReceiver.java:131-141 | after any broadcasts, a `getVersion` that throws a RemoteException or reports below 35 gives zero grants, zero calls, no unbind and no stop; the service stays as the broadcasts left it, bound exactly when one of the THEME_QUERY starts had its own bind accepted |
| `PublishPass.TeardownOnceAfterPass` | app/src/main/java/org/prowl/themeexampleplugin/PluginReceiver.java:143-152 | for a bound service past the gate, however the pass ended, unbind and stop each occur exactly once, after every grant and call, and the service ends idle |
| `PublishPass.VersionFloorIs35` | app/src/main/java/org/prowl/themeexampleplugin/PluginReceiver.java:133 | for a bound service, version 34 produces no events, and version 35 runs the pass and tears down |
| `PublishPass.BroadcastsStartOnlyOnThemeQuery` | app/src/main/java/org/prowl/themeexampleplugin/PluginReceiver.java:67-104 | after any run of broadcasts the service runs exactly when it already ran or one of them was THEME_QUERY, and is bound exactly when it already was or one of those starts had its own bind accepted (each start's `bindService` result is separate); APP_QUITTING does nothing |
| `PublishPass.WholeSession` | app/src/main/java/org/prowl/themeexampleplugin/PluginReceiver.java:96-153 | from an idle service: THEME_QUERY, an accepted bind and an accepted version give the pass's events, then unbind and stop, ending idle |
| `AssetContentProvider.Query` | app/src/main/java/org/prowl/themeexampleplugin/AssetContentProvider.java:29-31 | no cursor for any query |
| `AssetContentProvider.GetType` | app/src/main/java/org/prowl/themeexampleplugin/AssetContentProvider.java:35-37 | no MIME type for any URI |
| `AssetContentProvider.Insert` | app/src/main/java/org/prowl/themeexampleplugin/AssetContentProvider.java:41-43 | nothing inserted: null for every input |
| `AssetContentProvider.Delete` | app/src/main/java/org/prowl/themeexampleplugin/AssetContentProvider.java:46-48 | nothing deleted: 0 for every input |
| `AssetContentProvider.Update` | app/src/main/java/org/prowl/themeexampleplugin/AssetContentProvider.java:51-53 | nothing updated: 0 for every input |
| `AssetContentProvider.OpenAssetFile` | app/src/main/java/org/prowl/themeexampleplugin/AssetContentProvider.java:56-72 | it throws StringIndexOutOfBounds exactly when the URI is shorter than the prefix. Otherwise the name after the prefix is looked up: a descriptor of that name when it opens, null when it does not |
| `AssetContentProvider.Lookup` | app/src/main/java/org/prowl/themeexampleplugin/AssetContentProvider.java:65-71 | `openFd` and its catch never throw out: a descriptor named after the asset when it opens, null when it does not |
| `AssetContentProvider.OpenRoundTrip` | app/src/main/java/org/prowl/themeexampleplugin/AssetContentProvider.java:60-61 | for any relative path `p`, the URI `prefix + p` is served by looking up exactly `p` |
| `AssetContentProvider.PrefixNotChecked` | app/src/main/java/org/prowl/themeexampleplugin/AssetContentProvider.java:61 | URIs that agree after the first `len(prefix)` characters are served alike, whatever those characters are |
| `AssetContentProvider.NullGuardNeverFires` | app/src/main/java/org/prowl/themeexampleplugin/AssetContentProvider.java:61-71 | FileNotFoundException is never thrown; an asset that cannot be opened gives null |
| `AssetContentProvider.ProviderIsReadOnly` | app/src/main/java/org/prowl/themeexampleplugin/AssetContentProvider.java:29-53 | for every input, query, getType and insert give null, and delete and update give 0 |
| `RoundTrip.ThumbnailResolves` | app/src/main/java/org/prowl/themeexampleplugin/PluginReceiver.java:185-186 | the thumbnail URI of folder `id` is under the prefix and is served as the asset `id + ".png"` |
| `RoundTrip.MemberResolves` | app/src/main/java/org/prowl/themeexampleplugin/PluginReceiver.java:193 | the member URI of `file` in folder `id` is under the prefix and is served as the asset `id + "/" + file` |
| `RoundTrip.PassGrantsUnderAssets` | app/src/main/java/org/prowl/themeexampleplugin/PluginReceiver.java:166-208 | every grant of the loop goes to `org.prowl.torque`, for a URI that starts with the asset prefix |
| `RoundTrip.GrantedUrisResolve` | app/src/main/java/org/prowl/themeexampleplugin/PluginReceiver.java:163-209 | every URI `sendThemeData` grants is `prefix + p` for some `p`, and the provider serves it, without throwing, by looking up `p` |
| `RoundTrip.ThemeEntryShape` | app/src/main/java/org/prowl/themeexampleplugin/PluginReceiver.java:174 | a theme entry is a name followed by `.txt` and so holds a dot; every name followed by `.txt` is one; a name without a dot never is |
| `RoundTrip.MetadataFileShape` | app/src/main/java/org/prowl/themeexampleplugin/PluginReceiver.java:175-180 | the metadata file agrees with the entry up to its first dot and ends in `.txt`; it is itself a theme entry of the same folder, and its own metadata file |
| `RoundTrip.FolderIdExamples` | app/src/main/java/org/prowl/themeexampleplugin/PluginReceiver.java:175-180 | `id.txt` gives folder `id`, and `id.x.txt` gives folder `id` with metadata read from `id.txt` (`sunset.txt` gives `sunset`; `a.b.txt` gives `a` and reads `a.txt`) |
| `RoundTrip.FolderIdIsJavaSubstring` | app/src/main/java/org/prowl/themeexampleplugin/PluginReceiver.java:175 | for a `.txt` entry, `substring(0, indexOf("."))` returns the folder id and cannot throw |
| `RoundTrip.SunsetCall` | app/src/main/java/org/prowl/themeexampleplugin/PluginReceiver.java:179-203 | in the sunset store, `id.txt` is readable; its call has the stored name, falls back to `id` for description and author, and lists both member URIs |
| `RoundTrip.SunsetPass` | app/src/main/java/org/prowl/themeexampleplugin/PluginReceiver.java:163-209 | the sunset pass completes with the thumbnail grant, two member grants and one call, in that order |
| `RoundTrip.SunsetSession` | app/src/main/java/org/prowl/themeexampleplugin/PluginReceiver.java:128-153 | a sunset session at version 35 gives exactly those four events, then unbind and stop, and ends idle |

## Left out

- Foreground service, notification channel and notification building
  (`onCreate`, `getNotification`, `createNotificationChannel`), and the
  `Build.VERSION` branches. These are platform lifecycle and UI: starting the
  service is one `StartPluginService` dispatch either way.
- `bindService` asynchrony. `onStartCommand` is one step whose bind the
  platform accepts or not, and `onServiceConnected` is a later, separate
  synchronous step. A bind that never calls back leaves the service running
  and bound.
- `ITorqueService.Stub.asInterface`, `onBind` (returns null),
  `onServiceDisconnected` (empty) and the provider's `onCreate` (returns
  false). These carry no logic.
- `Properties.load` parsing. The metadata of a file is given as a key/value
  map. A failing open and a failing load are the same `MetadataFault`.
- `AssetManager.list`, `open` and `openFd`, and `grantUriPermission`. These
  are foreign I/O, so they become lookups in the asset store and `Grant`
  events. A grant is assumed to succeed: a SecurityException from
  `grantUriPermission` is not modelled.
- `Uri.parse`. It is assumed to round-trip the string. The modelled URI is the
  string.
- A runtime exception thrown by `putThemeData` behaves like the modelled
  publish fault, because that catch is for any Throwable.
- PluginReceiver.OnServiceConnected: does not model an unchecked exception
  from `getVersion` (a SecurityException or IllegalStateException rethrown by
  the binder). Only RemoteException is caught there, so such an exception
  leaves `onServiceConnected` and goes to the platform. The model knows only
  a reported version or a RemoteException.
- PluginReceiver.OnStartCommand: does not model a SecurityException from
  `bindService`. It is not caught and would leave `onStartCommand`. The model
  knows only a bind that is accepted or refused.
- AssetContentProvider.OpenAssetFile: strings are sequences of Unicode code
  points, while Java's `length()` and `substring` count UTF-16 code units. A
  URI with a supplementary character among its first len(prefix) positions is
  therefore cut at a different place than in Java, and `PrefixNotChecked`
  states the code-point cut. URIs with an ASCII prefix, such as every URI the
  plugin grants, are cut the same way.
- Logging (`Debug.w`, `Debug.e`, `Log.d`, the `NAME` tag) and the
  `RemovableInRelease` annotation. They have no effect on behaviour.
- The access `mode` of `openAssetFile` is only logged, so it is a parameter
  the model ignores.
- Concurrency between the provider and the service, and the platform's
  single-instance service semantics, are not modelled.
