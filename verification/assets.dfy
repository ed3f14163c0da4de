/**
 The plugin's bundled assets, as an abstract value, and the content URI
 prefix under which both the receiver and the content provider name them.
 */
module Assets {

  /**
   What the AssetManager would answer.
   - `dirs`: `list(path)` for each path that can be listed; the top-level
     listing is `dirs[""]`. A path absent from the map makes `list` fail with
     an IOException.
   - `metadata`: the key/value pairs `Properties.load` reads from each file
     that can be opened; a name absent from the map makes `open` or `load` fail.
   - `openable`: the names `openFd` can open; any other name makes it fail.
   */
  datatype AssetStore = AssetStore(
    dirs: map<string, seq<string>>,
    metadata: map<string, map<string, string>>,
    openable: set<string>)

  /** `"content://" + APPLICATION_ID + "/assets/"`. */
  function AssetLocation(appId: string): (p: string)
    ensures |p| == |appId| + 18
    ensures p[..10] == "content://" && p[|p| - 8..] == "/assets/"
    ensures p[10..|p| - 8] == appId
  {
    "content://" + appId + "/assets/"
  }

  /** `Properties.getProperty(key, default)`: the stored value, else the default. */
  function GetProperty(props: map<string, string>, key: string, default: string): (v: string)
    ensures key in props ==> v == props[key]
    ensures key !in props ==> v == default
  {
    if key in props then props[key] else default
  }
}
