/**
 * What the two editor extensions share: editor URIs, the user's `niivue`
 * configuration, tab names, the DICOM-folder message, the workspace
 * access test and the collection of open webview panels.
 */
module HostCommon {
  import opened Common
  import opened Messages

  /** An editor URI: its `path` and its `toString()`. */
  datatype VsUri = VsUri(path: string, text: string)

  /** `Uri.joinPath(u, name)`: one more path segment on both forms. */
  function JoinPath(u: VsUri, name: string): VsUri
  {
    VsUri(u.path + "/" + name, u.text + "/" + name)
  }

  /** The values the user has set under `niivue`; an unset key reads as the caller's default. */
  datatype Config = Config(flags: map<string, bool>, names: map<string, string>)

  function GetFlag(c: Config, key: string, default: bool): (r: bool)
    ensures key !in c.flags ==> r == default
    ensures key in c.flags ==> r == c.flags[key]
  {
    if key in c.flags then c.flags[key] else default
  }

  function GetName(c: Config, key: string, default: string): (r: string)
    ensures key !in c.names ==> r == default
    ensures key in c.names ==> r == c.names[key]
  {
    if key in c.names then c.names[key] else default
  }

  /** `path.split('/').pop()`: the text after the last '/'. */
  function LastSegment(path: string): string
  {
    var parts := Split(path, '/');
    parts[|parts| - 1]
  }

  /** A path ending in '/' has an empty last segment. */
  lemma {:induction false} TrailingSlashEmpty(s: string)
    ensures LastSegment(s + "/") == ""
    decreases |s|
  {
    var t := s + "/";
    var k := IndexOf(t, '/').value;
    if k < |s| {
      assert t[k + 1..] == s[k + 1..] + "/";
      TrailingSlashEmpty(s[k + 1..]);
      var rest := Split(t[k + 1..], '/');
      assert Split(t, '/') == [t[..k]] + rest;
    } else {
      assert t[k + 1..] == "";
      assert Split("", '/') == [""];
      assert Split(t, '/') == [t[..k], ""];
    }
  }

  /** A path without '/' is its own last segment. */
  lemma SlashFreeSegment(s: string)
    requires '/' !in s
    ensures LastSegment(s) == s
  {
  }

  /** `createOrShow`'s tab title: 'web: ' and the file name, or a fixed title when the name is empty. */
  function WebTabName(path: string): string
  {
    var name := LastSegment(path);
    if name == "" then "NiiVue Web Panel" else "web: " + name
  }

  /** `createOrShowDcmFolder`'s tab title: the folder name, or a fixed title when it is empty. */
  function DcmTabName(path: string): string
  {
    var name := LastSegment(path);
    if name == "" then "NiiVue DICOM" else name
  }

  /** How the two titles fall back: a path ending in '/' gets the fixed title; a bare name gets itself. */
  lemma TabNames(s: string, name: string)
    requires '/' !in name && name != ""
    ensures WebTabName(s + "/") == "NiiVue Web Panel" && DcmTabName(s + "/") == "NiiVue DICOM"
    ensures WebTabName(name) == "web: " + name && DcmTabName(name) == name
  {
    TrailingSlashEmpty(s);
    SlashFreeSegment(name);
  }

  /** An `addImage` carrying the file's contents and its URI string. */
  function DataImage(u: VsUri): Message
  {
    AddImage(ImageBody(Plain(u.text), FileBytes(u.path)))
  }

  /**
   * `openDcmFolder(folder)`: one `addImage` whose data is the list of every
   * file of the folder (`listing`, as the directory read returns it) and
   * whose URI is the first file's. An empty folder makes the handler throw
   * on `fileUris[0]`, and nothing is posted.
   */
  function DcmFolderMessages(folder: VsUri, listing: seq<string>): (r: seq<Message>)
    ensures |r| == (if |listing| == 0 then 0 else 1)
    ensures |listing| > 0 ==> r[0].AddImage? && r[0].image.uri == Plain(JoinPath(folder, listing[0]).text)
    ensures |listing| > 0 ==> r[0].image.data.FileList? && |r[0].image.data.paths| == |listing|
    ensures |listing| > 0 ==> forall i :: 0 <= i < |listing| ==> r[0].image.data.paths[i] == JoinPath(folder, listing[i]).path
  {
    if |listing| == 0 then []
    else
      var paths := seq(|listing|, i requires 0 <= i < |listing| => JoinPath(folder, listing[i]).path);
      [AddImage(ImageBody(Plain(JoinPath(folder, listing[0]).text), FileList(paths)))]
  }

  /** A file the webview may load by URL: it lies under one of the open workspace folders. */
  predicate Accessible(folders: Option<seq<string>>, path: string)
  {
    folders.Some? && exists i :: 0 <= i < |folders.value| && StartsWith(path, folders.value[i])
  }

  /**
   * `isUriAccessible`: with no workspace folders, false; otherwise whether
   * some folder's path is a prefix of the URI's path, found by a loop that
   * returns at the first such folder.
   */
  method IsUriAccessible(folders: Option<seq<string>>, path: string) returns (r: bool)
    ensures r == Accessible(folders, path)
  {
    if folders.None? {
      return false;
    }
    var fs := folders.value;
    var i := 0;
    while i < |fs|
      invariant 0 <= i <= |fs|
      invariant forall j :: 0 <= j < i ==> !StartsWith(path, fs[j])
    {
      if StartsWith(path, fs[i]) {
        return true;
      }
      i := i + 1;
    }
    return false;
  }

  /** One registered panel: the URI string it was registered under and the panel. */
  datatype Entry = Entry(resource: string, panel: nat)

  /** The panels registered under `key`, in registration order. */
  function PanelsFor(entries: seq<Entry>, key: string): (r: seq<nat>)
    ensures |r| <= |entries|
  {
    if |entries| == 0 then [] else
      PanelsFor(entries[..|entries| - 1], key)
      + (if entries[|entries| - 1].resource == key then [entries[|entries| - 1].panel] else [])
  }

  /** The entries left after `panel` is disposed: each of its entries deletes itself. */
  function Without(entries: seq<Entry>, panel: nat): (r: seq<Entry>)
    ensures |r| <= |entries|
    ensures forall i :: 0 <= i < |r| ==> r[i].panel != panel
  {
    if |entries| == 0 then [] else
      Without(entries[..|entries| - 1], panel)
      + (if entries[|entries| - 1].panel != panel then [entries[|entries| - 1]] else [])
  }

  /** Drop every occurrence of `p`. */
  function Remove(ps: seq<nat>, p: nat): seq<nat>
  {
    if |ps| == 0 then [] else Remove(ps[..|ps| - 1], p) + (if ps[|ps| - 1] != p then [ps[|ps| - 1]] else [])
  }

  /** Registering a panel adds it last for its own key and leaves every other key's panels alone. */
  lemma PanelsForAdd(entries: seq<Entry>, key: string, panel: nat, other: string)
    requires other != key
    ensures PanelsFor(entries + [Entry(key, panel)], key) == PanelsFor(entries, key) + [panel]
    ensures PanelsFor(entries + [Entry(key, panel)], other) == PanelsFor(entries, other)
  {
    assert (entries + [Entry(key, panel)])[..|entries|] == entries;
  }

  lemma PanelsForSnoc(es: seq<Entry>, e: Entry, key: string)
    ensures PanelsFor(es + [e], key) == PanelsFor(es, key) + (if e.resource == key then [e.panel] else [])
  {
    assert (es + [e])[..|es|] == es;
  }

  lemma WithoutSnoc(es: seq<Entry>, e: Entry, panel: nat)
    ensures Without(es + [e], panel) == Without(es, panel) + (if e.panel != panel then [e] else [])
  {
    assert (es + [e])[..|es|] == es;
  }

  lemma RemoveSnoc(ps: seq<nat>, x: nat, p: nat)
    ensures Remove(ps + [x], p) == Remove(ps, p) + (if x != p then [x] else [])
  {
    assert (ps + [x])[..|ps|] == ps;
  }

  /** Disposing a panel removes exactly that panel from what every key yields, keeping the order. */
  lemma {:induction false} PanelsForWithout(entries: seq<Entry>, key: string, panel: nat)
    ensures PanelsFor(Without(entries, panel), key) == Remove(PanelsFor(entries, key), panel)
  {
    if |entries| > 0 {
      var init := entries[..|entries| - 1];
      var e := entries[|entries| - 1];
      assert entries == init + [e];
      PanelsForWithout(init, key, panel);
      WithoutSnoc(init, e, panel);
      PanelsForSnoc(init, e, key);
      var w := Without(init, panel);
      var ps := PanelsFor(init, key);
      var tail := if e.resource == key then [e.panel] else [];
      assert PanelsFor(entries, key) == ps + tail;
      RemoveSnoc(ps, e.panel, panel);
      assert Remove(ps + tail, panel) == Remove(ps, panel) + (if e.resource == key && e.panel != panel then [e.panel] else []) by {
        if e.resource != key {
          assert ps + tail == ps;
        }
      }
      if e.panel != panel {
        PanelsForSnoc(w, e, key);
      } else {
        assert Without(entries, panel) == w + [];
        assert w + [] == w;
      }
    }
  }

  /** `WebviewCollection`: the set of registered panels, iterated in insertion order. */
  class WebviewCollection {
    var entries: seq<Entry>

    constructor ()
      ensures entries == []
    {
      entries := [];
    }

    /** `add(uri, panel)`: a new entry, which the panel's disposal deletes again. */
    method Add(uri: VsUri, panel: nat)
      modifies this
      ensures entries == old(entries) + [Entry(uri.text, panel)]
    {
      entries := entries + [Entry(uri.text, panel)];
    }

    /** The panel's dispose listeners: each of its entries deletes itself. */
    method Dispose(panel: nat)
      modifies this
      ensures entries == Without(old(entries), panel)
    {
      entries := Without(entries, panel);
    }

    /** `get(uri)`: the panels registered under the URI's string, by a loop over the entries. */
    method Get(uri: VsUri) returns (panels: seq<nat>)
      ensures panels == PanelsFor(entries, uri.text)
    {
      panels := [];
      var i := 0;
      while i < |entries|
        invariant 0 <= i <= |entries|
        invariant panels == PanelsFor(entries[..i], uri.text)
      {
        assert entries[..i + 1][..i] == entries[..i];
        if entries[i].resource == uri.text {
          panels := panels + [entries[i].panel];
        }
        i := i + 1;
      }
      assert entries[..i] == entries;
    }
  }
}
