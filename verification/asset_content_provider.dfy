/**
 AssetContentProvider: the content provider through which Torque reads the
 granted assets. Only `openAssetFile` does anything; it recovers the asset
 name by dropping as many characters from the front of the URI as the
 asset prefix has, without looking at them. A URI is modelled as its string
 form (`uri.toString()`).
 */
module AssetContentProvider {
  import opened JavaLang
  import opened Assets

  /** An open handle on one asset, as `AssetManager.openFd` returns it. */
  datatype AssetFileDescriptor = AssetFileDescriptor(assetName: string)

  /** Stand-ins for the Android types the inert operations take or return. */
  datatype Cursor = Cursor(rows: seq<seq<string>>)
  datatype ContentValues = ContentValues(values: map<string, string>)

  /** `query`: no rows, ever. */
  function Query(uri: string, projection: Nullable<seq<string>>, selection: Nullable<string>,
                 selectionArgs: Nullable<seq<string>>, sortOrder: Nullable<string>): (r: Nullable<Cursor>)
    ensures r == Null
  {
    Null
  }

  /** `getType`: no MIME type is reported for any URI. */
  function GetType(uri: string): (r: Nullable<string>)
    ensures r == Null
  {
    Null
  }

  /** `insert`: nothing is inserted, so no URI of a new row comes back. */
  function Insert(uri: string, values: Nullable<ContentValues>): (r: Nullable<string>)
    ensures r == Null
  {
    Null
  }

  /** `delete`: no row is deleted. */
  function Delete(uri: string, selection: Nullable<string>, selectionArgs: Nullable<seq<string>>): (r: int)
    ensures r == 0
  {
    0
  }

  /** `update`: no row is updated. */
  function Update(uri: string, values: Nullable<ContentValues>, selection: Nullable<string>,
                  selectionArgs: Nullable<seq<string>>): (r: int)
    ensures r == 0
  {
    0
  }

  /**
   `openAssetFile`: `uri.substring(ASSET.length())` names the asset (throwing
   when the URI is shorter than the prefix); the null check after it throws
   FileNotFoundException; an asset `openFd` cannot open yields null. The
   access mode is only logged.
   */
  function OpenAssetFile(appId: string, store: AssetStore, uri: string, mode: string)
    : (r: Outcome<Nullable<AssetFileDescriptor>>)
    ensures r.Throws? <==> |uri| < |AssetLocation(appId)|
    ensures r.Throws? ==> r.exception == StringIndexOutOfBounds
    ensures r.Returns? ==>
      var name := uri[|AssetLocation(appId)|..];
      && (r.value.NonNull? <==> name in store.openable)
      && (r.value.NonNull? ==> r.value.get == AssetFileDescriptor(name))
  {
    var fileName := Substring(uri, |AssetLocation(appId)|, |uri|);
    match fileName
    case Throws(e) => Throws(e)
    case Returns(Null) => Throws(FileNotFound)
    case Returns(NonNull(name)) =>
      assert name == uri[|AssetLocation(appId)|..];
      if name in store.openable then Returns(NonNull(AssetFileDescriptor(name)))
      else Returns(Null)
  }

  /** What looking up the asset `name` gives: its descriptor, or null when it cannot be opened. */
  function Lookup(store: AssetStore, name: string): (r: Outcome<Nullable<AssetFileDescriptor>>)
    ensures r.Returns?
    ensures r.value.NonNull? <==> name in store.openable
    ensures r.value.NonNull? ==> r.value.get.assetName == name
  {
    if name in store.openable then Returns(NonNull(AssetFileDescriptor(name))) else Returns(Null)
  }

  /** Round trip: the URI `prefix + p` is served by looking up exactly `p`. */
  lemma {:induction false} OpenRoundTrip(appId: string, store: AssetStore, p: string, mode: string)
    ensures OpenAssetFile(appId, store, AssetLocation(appId) + p, mode) == Lookup(store, p)
  {
    var uri := AssetLocation(appId) + p;
    assert uri[|AssetLocation(appId)|..] == p;
  }

  /**
   The prefix is not checked: two URIs that agree after
   the first `len(prefix)` characters are served alike, whatever those first
   characters are.
   */
  lemma PrefixNotChecked(appId: string, store: AssetStore, u: string, v: string, mode: string)
    requires |u| >= |AssetLocation(appId)| && |v| >= |AssetLocation(appId)|
    requires u[|AssetLocation(appId)|..] == v[|AssetLocation(appId)|..]
    ensures OpenAssetFile(appId, store, u, mode) == OpenAssetFile(appId, store, v, mode)
  {
  }

  /**
   The null check after `substring` never fires: `openAssetFile` never throws
   FileNotFoundException, and an asset that cannot be opened gives null.
   */
  lemma NullGuardNeverFires(appId: string, store: AssetStore, uri: string, mode: string)
    ensures OpenAssetFile(appId, store, uri, mode) != Throws(FileNotFound)
    ensures |uri| >= |AssetLocation(appId)| && uri[|AssetLocation(appId)|..] !in store.openable ==>
      OpenAssetFile(appId, store, uri, mode) == Returns(Null)
  {
  }

  /** The provider is read-only: every operation but `openAssetFile` is inert for every input. */
  lemma ProviderIsReadOnly(uri: string, values: Nullable<ContentValues>, projection: Nullable<seq<string>>,
                           selection: Nullable<string>, selectionArgs: Nullable<seq<string>>,
                           sortOrder: Nullable<string>)
    ensures Query(uri, projection, selection, selectionArgs, sortOrder) == Null
    ensures GetType(uri) == Null
    ensures Insert(uri, values) == Null
    ensures Delete(uri, selection, selectionArgs) == 0
    ensures Update(uri, values, selection, selectionArgs) == 0
  {
  }
}
