/** The Expo config plugin of plugins/withAdMobAppId.js: it declares the `tools` XML namespace on the
    Android manifest, replaces the AdMob application id meta-data entry of the first `<application>`
    and sets `GADApplicationIdentifier` in the iOS Info.plist. The manifest is the parsed XML tree the
    config plugins hand over: an element's attributes are the map under `$`. */
module AdMobPlugin {
  import opened Wrappers

  type Attrs = map<string, string>

  const AppIdKey := "com.google.android.gms.ads.APPLICATION_ID"
  const ToolsUri := "http://schemas.android.com/tools"
  const XmlnsTools := "xmlns:tools"
  const AndroidName := "android:name"
  const AndroidValue := "android:value"
  const ToolsReplace := "tools:replace"
  const GadApplicationIdentifier := "GADApplicationIdentifier"

  // ---------------------------------------------------------------------------------------------
  // The tools namespace

  /** `$["xmlns:tools"] || uri` on `$ || {}`: an absent or empty declaration becomes the tools URI,
      any other one is kept, and no other attribute changes. */
  function ToolsNamespaced(attrs: Option<Attrs>): (r: Attrs)
    ensures XmlnsTools in r
    ensures var a := attrs.GetOr(map[]);
      r[XmlnsTools] == if XmlnsTools in a && a[XmlnsTools] != "" then a[XmlnsTools] else ToolsUri
    ensures forall k :: k != XmlnsTools ==> (k in r <==> k in attrs.GetOr(map[]))
    ensures forall k :: k != XmlnsTools && k in r ==> r[k] == attrs.GetOr(map[])[k]
  {
    var a := attrs.GetOr(map[]);
    a[XmlnsTools := if XmlnsTools in a && a[XmlnsTools] != "" then a[XmlnsTools] else ToolsUri]
  }

  /** Declaring the namespace a second time changes nothing. */
  lemma ToolsNamespacedIdempotent(attrs: Option<Attrs>)
    ensures ToolsNamespaced(Some(ToolsNamespaced(attrs))) == ToolsNamespaced(attrs)
  {
    var once := ToolsNamespaced(attrs);
    assert once[XmlnsTools] != "";
    assert ToolsNamespaced(Some(once)) == once[XmlnsTools := once[XmlnsTools]];
  }

  // ---------------------------------------------------------------------------------------------
  // The application id entry

  /** A `meta-data` element as the list holds it: `null`, or an element with or without attributes. */
  datatype MetaEntry = NullEntry | Element(attrs: Option<Attrs>)

  /** `m?.$?.["android:name"] === "com.google.android.gms.ads.APPLICATION_ID"`. */
  predicate IsAppIdEntry(m: MetaEntry) {
    m.Element? && m.attrs.Some? && AndroidName in m.attrs.value && m.attrs.value[AndroidName] == AppIdKey
  }

  /** The entry the plugin appends: the id as the value, and `tools:replace` so that the merged
      manifest takes this value over any a library declares. */
  function AppIdEntry(id: string): (r: MetaEntry)
    ensures IsAppIdEntry(r)
    ensures r.attrs.value.Keys == {AndroidName, AndroidValue, ToolsReplace}
    ensures r.attrs.value[AndroidValue] == id && r.attrs.value[ToolsReplace] == AndroidValue
  {
    Element(Some(map[AndroidName := AppIdKey, AndroidValue := id, ToolsReplace := AndroidValue]))
  }

  /** The `filter` that drops every application id entry. */
  function WithoutAppId(entries: seq<MetaEntry>): (r: seq<MetaEntry>)
    ensures |r| <= |entries|
    ensures forall k :: 0 <= k < |r| ==> !IsAppIdEntry(r[k]) && r[k] in entries
    ensures forall k :: 0 <= k < |entries| && !IsAppIdEntry(entries[k]) ==> entries[k] in r
  {
    if entries == [] then []
    else (if IsAppIdEntry(entries[0]) then [] else [entries[0]]) + WithoutAppId(entries[1..])
  }

  /** The filter works part by part, so the entries it keeps stay in their order. */
  lemma {:induction false} WithoutAppIdAppend(a: seq<MetaEntry>, b: seq<MetaEntry>)
    ensures WithoutAppId(a + b) == WithoutAppId(a) + WithoutAppId(b)
  {
    if a == [] {
      assert a + b == b;
    } else {
      assert (a + b)[1..] == a[1..] + b;
      WithoutAppIdAppend(a[1..], b);
    }
  }

  /** A list without an application id entry passes the filter unchanged. */
  lemma {:induction false} WithoutAppIdKeepsOthers(entries: seq<MetaEntry>)
    requires forall k :: 0 <= k < |entries| ==> !IsAppIdEntry(entries[k])
    ensures WithoutAppId(entries) == entries
  {
    if entries != [] {
      WithoutAppIdKeepsOthers(entries[1..]);
    }
  }

  /** `setAndroidAdMobAppId` on the meta-data list: every application id entry removed, the new one
      pushed. The result holds exactly one application id entry, the last one, and before it the
      other entries in their order. */
  function WithAppId(entries: seq<MetaEntry>, id: string): (r: seq<MetaEntry>)
    ensures |r| >= 1 && r[|r| - 1] == AppIdEntry(id)
    ensures r[..|r| - 1] == WithoutAppId(entries)
    ensures forall k :: 0 <= k < |r| ==> (IsAppIdEntry(r[k]) <==> k == |r| - 1)
  {
    var kept := WithoutAppId(entries);
    assert (kept + [AppIdEntry(id)])[..|kept|] == kept;
    kept + [AppIdEntry(id)]
  }

  /** Patching the list a second time with the same id gives the list of the first patch. */
  lemma WithAppIdIdempotent(entries: seq<MetaEntry>, id: string)
    ensures WithAppId(WithAppId(entries, id), id) == WithAppId(entries, id)
  {
    var kept := WithoutAppId(entries);
    WithoutAppIdAppend(kept, [AppIdEntry(id)]);
    WithoutAppIdKeepsOthers(kept);
    assert WithoutAppId([AppIdEntry(id)]) == [];
  }

  /** Patching with a new id replaces the old one: the other entries are what they were. */
  lemma WithAppIdReplaces(entries: seq<MetaEntry>, oldId: string, newId: string)
    ensures WithAppId(WithAppId(entries, oldId), newId) == WithoutAppId(entries) + [AppIdEntry(newId)]
  {
    var kept := WithoutAppId(entries);
    var once := kept + [AppIdEntry(oldId)];
    assert WithAppId(entries, oldId) == once;
    WithoutAppIdAppend(kept, [AppIdEntry(oldId)]);
    WithoutAppIdKeepsOthers(kept);
    assert WithoutAppId([AppIdEntry(oldId)]) == [];
    assert WithoutAppId(once) == kept;
  }

  // ---------------------------------------------------------------------------------------------
  // The manifest and the plist

  /** An `<application>` element of the manifest; `meta-data` is its list of children of that name. */
  class ManifestApp {
    var metaData: Option<seq<MetaEntry>>

    constructor (metaData: Option<seq<MetaEntry>>)
      ensures this.metaData == metaData
    {
      this.metaData := metaData;
    }
  }

  /** The `<manifest>` element: its attributes and its `<application>` children (an entry may be
      `null`). */
  class Manifest {
    var attrs: Option<Attrs>
    var application: Option<seq<ManifestApp?>>

    constructor (attrs: Option<Attrs>, application: Option<seq<ManifestApp?>>)
      ensures this.attrs == attrs && this.application == application
    {
      this.attrs := attrs;
      this.application := application;
    }
  }

  /** `manifest.application?.[0]`, `null` if there is none. */
  function FirstApp(m: Manifest): ManifestApp?
    reads m
  {
    if m.application.Some? && |m.application.value| > 0 then m.application.value[0] else null
  }

  /** The objects `setAndroidAdMobAppId` may change: the first application, if there is one. */
  function AppFrame(m: Manifest): set<ManifestApp>
    reads m
  {
    if FirstApp(m) == null then {} else {FirstApp(m)}
  }

  /** The iOS Info.plist as a dictionary of its string entries. */
  class InfoPlist {
    var entries: map<string, string>

    constructor (entries: map<string, string>)
      ensures this.entries == entries
    {
      this.entries := entries;
    }
  }

  /** `ensureToolsNamespace`. */
  method EnsureToolsNamespace(m: Manifest)
    modifies m`attrs
    ensures m.attrs == Some(ToolsNamespaced(old(m.attrs)))
  {
    var attrs := m.attrs.GetOr(map[]);
    m.attrs := Some(attrs);
    m.attrs := Some(attrs[XmlnsTools := if XmlnsTools in attrs && attrs[XmlnsTools] != "" then attrs[XmlnsTools] else ToolsUri]);
  }

  /** `setAndroidAdMobAppId`: without a first application nothing changes; otherwise its meta-data
      list (an empty one if it had none) is patched with the id. */
  method SetAndroidAdMobAppId(m: Manifest, androidAppId: string)
    modifies AppFrame(m)
    ensures old(FirstApp(m)) != null ==>
      FirstApp(m).metaData == Some(WithAppId(old(FirstApp(m).metaData).GetOr([]), androidAppId))
  {
    var app := FirstApp(m);
    if app == null {
      return;
    }
    app.metaData := Some(app.metaData.GetOr([]));
    app.metaData := Some(WithoutAppId(app.metaData.value));
    app.metaData := Some(app.metaData.value + [AppIdEntry(androidAppId)]);
  }

  /** An option value JavaScript treats as true: given and not the empty string. */
  predicate Provided(id: Option<string>) {
    id.Some? && id.value != ""
  }

  datatype PluginOutcome = Applied | MissingAppIds

  /** The exported plugin: both ids are required; then the Android manifest gets the namespace and
      the id entry, and the plist gets `GADApplicationIdentifier`. */
  method WithAdMobAppId(m: Manifest, plist: InfoPlist, androidAppId: Option<string>, iosAppId: Option<string>)
      returns (outcome: PluginOutcome)
    modifies m`attrs, AppFrame(m), plist
    ensures outcome == MissingAppIds <==> !Provided(androidAppId) || !Provided(iosAppId)
    ensures outcome == MissingAppIds ==> m.attrs == old(m.attrs) && plist.entries == old(plist.entries)
    ensures outcome == MissingAppIds && old(FirstApp(m)) != null ==> FirstApp(m).metaData == old(FirstApp(m).metaData)
    ensures outcome == Applied ==> m.attrs == Some(ToolsNamespaced(old(m.attrs)))
    ensures outcome == Applied && old(FirstApp(m)) != null ==>
      FirstApp(m).metaData == Some(WithAppId(old(FirstApp(m).metaData).GetOr([]), androidAppId.value))
    ensures outcome == Applied ==> plist.entries == old(plist.entries)[GadApplicationIdentifier := iosAppId.value]
  {
    if !Provided(androidAppId) || !Provided(iosAppId) {
      return MissingAppIds;
    }
    EnsureToolsNamespace(m);
    SetAndroidAdMobAppId(m, androidAppId.value);
    plist.entries := plist.entries[GadApplicationIdentifier := iosAppId.value];
    outcome := Applied;
  }

  /** Running the plugin twice with the same ids leaves the manifest and the plist as one run does. */
  method ApplyTwice(m: Manifest, plist: InfoPlist, androidAppId: string, iosAppId: string)
    requires androidAppId != "" && iosAppId != ""
    modifies m`attrs, AppFrame(m), plist
    ensures m.attrs == Some(ToolsNamespaced(old(m.attrs)))
    ensures old(FirstApp(m)) != null ==>
      FirstApp(m).metaData == Some(WithAppId(old(FirstApp(m).metaData).GetOr([]), androidAppId))
    ensures plist.entries == old(plist.entries)[GadApplicationIdentifier := iosAppId]
  {
    var first := WithAdMobAppId(m, plist, Some(androidAppId), Some(iosAppId));
    var second := WithAdMobAppId(m, plist, Some(androidAppId), Some(iosAppId));
    ToolsNamespacedIdempotent(old(m.attrs));
    if old(FirstApp(m)) != null {
      WithAppIdIdempotent(old(FirstApp(m).metaData).GetOr([]), androidAppId);
    }
  }
}
