/**
 * The file explorer's view logic: the highlighting language from a file
 * name, which breadcrumb segments to show, and the selected file with its
 * guarded update and the guard on showing its content.
 */
module FileExplorer {
  import opened Wrappers
  import Text
  import TreeView

  /**
   * `getLanguageFromExtension`: the lower-cased piece after the last ".",
   * or "text" when that piece is empty.
   */
  function LanguageFromExtension(filename: string): (lang: string)
    ensures var extension := Text.AfterLast(filename, '.');
      lang == if extension == "" then "text" else Text.Lower(extension)
  {
    var pieces := Text.Split(filename, '.');
    Text.SplitLast(filename, '.');
    assert pieces[|pieces| - 1] == Text.AfterLast(filename, '.');
    var extension := Text.Lower(pieces[|pieces| - 1]);
    if extension == "" then "text" else extension
  }

  /** A name without "." is its own extension. */
  lemma NoDotLanguage(filename: string)
    requires '.' !in filename && filename != ""
    ensures LanguageFromExtension(filename) == Text.Lower(filename)
  {
  }

  /** An empty name, or one ending in ".", is plain text. */
  lemma EmptyExtensionLanguage(filename: string)
    requires filename == "" || filename[|filename| - 1] == '.'
    ensures LanguageFromExtension(filename) == "text"
  {
  }

  /** The extension is read after the last ".", whatever precedes it. */
  lemma LastDotWins(stem: string, extension: string)
    requires '.' !in extension && extension != ""
    ensures LanguageFromExtension(stem + "." + extension) == Text.Lower(extension)
  {
    var s := stem + "." + extension;
    Text.SepFreeSuffixUnique(s, '.', extension, Text.AfterLast(s, '.'));
  }

  // ---------------------------------------------------------------------------
  // FileBreadcrumb
  // ---------------------------------------------------------------------------

  /** What the breadcrumb list shows, in order. */
  datatype Crumb = Muted(text: string) | Page(text: string) | Ellipsis | Separator

  /** `maxSegments`: 2 on a small screen, 3 otherwise. */
  function MaxSegments(isMobile: bool): (n: nat)
    ensures 2 <= n <= 3
    ensures isMobile ==> n < MaxSegments(false)
  {
    if isMobile then 2 else 3
  }

  /** Every segment, the last one as the page, a separator after each other one. */
  function AllSegments(segments: seq<string>): (crumbs: seq<Crumb>)
    requires |segments| >= 1
    ensures |crumbs| >= 1
    ensures crumbs[|crumbs| - 1] == Page(segments[|segments| - 1])
  {
    if |segments| == 1 then [Page(segments[0])]
    else [Muted(segments[0]), Separator] + AllSegments(segments[1..])
  }

  /** `FileBreadcrumb` for `filepath`. */
  function FileBreadcrumb(filepath: string, isMobile: bool): (crumbs: seq<Crumb>)
    ensures var segments := Text.Split(filepath, '/');
      && |crumbs| >= 1
      && crumbs[|crumbs| - 1] == Page(segments[|segments| - 1])
      && (|segments| > 1 ==> crumbs[0] == Muted(segments[0]))
  {
    var segments := Text.Split(filepath, '/');
    if |segments| <= MaxSegments(isMobile) then AllSegments(segments)
    else [Muted(segments[0]), Separator, Ellipsis, Separator, Page(segments[|segments| - 1])]
  }

  /** The crumbs other than separators. */
  function Items(crumbs: seq<Crumb>): seq<Crumb>
  {
    if crumbs == [] then []
    else (if crumbs[0].Separator? then [] else [crumbs[0]]) + Items(crumbs[1..])
  }

  /** How many separators there are. */
  function SeparatorCount(crumbs: seq<Crumb>): nat
  {
    if crumbs == [] then 0 else (if crumbs[0].Separator? then 1 else 0) + SeparatorCount(crumbs[1..])
  }

  /** The item shown for segment `k` of `n` when all are shown. */
  function SegmentItem(segments: seq<string>, k: nat): Crumb
    requires k < |segments|
  {
    if k == |segments| - 1 then Page(segments[k]) else Muted(segments[k])
  }

  lemma {:induction false} AllSegmentsShape(segments: seq<string>)
    requires |segments| >= 1
    ensures |Items(AllSegments(segments))| == |segments|
    ensures forall k :: 0 <= k < |segments| ==> Items(AllSegments(segments))[k] == SegmentItem(segments, k)
    ensures SeparatorCount(AllSegments(segments)) == |segments| - 1
  {
    if |segments| > 1 {
      var crumbs, rest := AllSegments(segments), AllSegments(segments[1..]);
      AllSegmentsShape(segments[1..]);
      assert crumbs == [Muted(segments[0]), Separator] + rest;
      assert crumbs[1..][1..] == rest && crumbs[1..][0] == Separator;
      assert Items(crumbs[1..]) == Items(rest) && SeparatorCount(crumbs[1..]) == 1 + SeparatorCount(rest);
      assert Items(crumbs) == [Muted(segments[0])] + Items(rest);
      assert SeparatorCount(crumbs) == 1 + SeparatorCount(rest);
      forall k | 0 < k < |segments|
        ensures Items(AllSegments(segments))[k] == SegmentItem(segments, k)
      {
        assert SegmentItem(segments[1..], k - 1) == SegmentItem(segments, k);
      }
    }
  }

  /** The text of the items. */
  function Labels(items: seq<Crumb>): seq<string>
  {
    if items == [] then []
    else (if items[0].Muted? || items[0].Page? then [items[0].text] else []) + Labels(items[1..])
  }

  /**
   * With at most `maxSegments` segments every segment is shown in order,
   * only the last as the page, with one separator fewer than segments; the
   * labels joined by "/" give back the path.
   */
  lemma BreadcrumbShowsAll(filepath: string, isMobile: bool)
    requires |Text.Split(filepath, '/')| <= MaxSegments(isMobile)
    ensures var segments := Text.Split(filepath, '/');
      var items := Items(FileBreadcrumb(filepath, isMobile));
      && |items| == |segments|
      && (forall k :: 0 <= k < |segments| - 1 ==> items[k] == Muted(segments[k]))
      && items[|segments| - 1] == Page(segments[|segments| - 1])
      && SeparatorCount(FileBreadcrumb(filepath, isMobile)) == |segments| - 1
      && Text.Join(Labels(items), "/") == filepath
  {
    var segments := Text.Split(filepath, '/');
    AllSegmentsShape(segments);
    var items := Items(AllSegments(segments));
    LabelsOfSegments(segments, items);
  }

  lemma {:induction false} LabelsOfSegments(segments: seq<string>, items: seq<Crumb>)
    requires |items| == |segments| >= 1
    requires forall k :: 0 <= k < |segments| ==> items[k] == SegmentItem(segments, k)
    ensures Labels(items) == segments
  {
    if |segments| > 1 {
      forall k | 0 <= k < |segments| - 1 ensures items[1..][k] == SegmentItem(segments[1..], k) {
        assert SegmentItem(segments, k + 1) == SegmentItem(segments[1..], k);
      }
      LabelsOfSegments(segments[1..], items[1..]);
    } else {
      assert Labels(items) == [items[0].text] + Labels([]);
    }
  }

  /** With more segments, only the first, an ellipsis and the last are shown. */
  lemma BreadcrumbCollapses(filepath: string, isMobile: bool)
    requires |Text.Split(filepath, '/')| > MaxSegments(isMobile)
    ensures var segments := Text.Split(filepath, '/');
      && Items(FileBreadcrumb(filepath, isMobile)) == [Muted(segments[0]), Ellipsis, Page(segments[|segments| - 1])]
      && SeparatorCount(FileBreadcrumb(filepath, isMobile)) == 2
  {
    var segments := Text.Split(filepath, '/');
    var crumbs := [Muted(segments[0]), Separator, Ellipsis, Separator, Page(segments[|segments| - 1])];
    assert FileBreadcrumb(filepath, isMobile) == crumbs;
    var c1, c2, c3, c4 := crumbs[1..], crumbs[2..], crumbs[3..], crumbs[4..];
    assert c4[1..] == [] && c3[1..] == c4 && c2[1..] == c3 && c1[1..] == c2;
    assert Items(c4) == [c4[0]] && SeparatorCount(c4) == 0;
    assert Items(c2) == [Ellipsis] + Items(c3);
    assert Items(crumbs) == [Muted(segments[0])] + Items(c1);
    assert SeparatorCount(c3) == 1 && SeparatorCount(c2) == 1 && SeparatorCount(c1) == 2;
  }

  // ---------------------------------------------------------------------------
  // The explorer's state
  // ---------------------------------------------------------------------------

  /** The files shown, `Object.keys(files)` in order, and the selected path. */
  datatype Explorer = Explorer(files: map<string, string>, keys: seq<string>, selected: Option<string>)

  /** `keys` lists each key of `files` once. */
  ghost predicate KeysOf(files: map<string, string>, keys: seq<string>)
  {
    && (forall i, j :: 0 <= i < j < |keys| ==> keys[i] != keys[j])
    && (forall p :: p in files <==> p in keys)
  }

  /**
   * The members every plain object inherits from `Object.prototype`. Looking
   * one of them up on `files` when it is not a key yields a function (for
   * `__proto__`, the prototype object), never `undefined`.
   */
  const InheritedNames: set<string> :=
    {"constructor", "toString", "toLocaleString", "valueOf", "hasOwnProperty", "isPrototypeOf",
     "propertyIsEnumerable", "__proto__", "__defineGetter__", "__defineSetter__",
     "__lookupGetter__", "__lookupSetter__"}

  /** What `files[path]` yields: an own entry, an inherited member, or `undefined`. */
  datatype Lookup = Own(content: string) | Inherited(name: string) | Undefined

  function Get(files: map<string, string>, path: string): Lookup
  {
    if path in files then Own(files[path]) else if path in InheritedNames then Inherited(path) else Undefined
  }

  /** JavaScript truthiness of a lookup: a non-empty string or any inherited member. */
  predicate IsTruthy(v: Lookup)
  {
    v.Inherited? || (v.Own? && v.content != "")
  }

  /**
   * `files[path]` is truthy: an own key with non-empty content, or a name that
   * is no key but is inherited by every object.
   */
  predicate HasContent(files: map<string, string>, path: string)
    ensures HasContent(files, path) ==> path in files || path in InheritedNames
    ensures path in files ==> (HasContent(files, path) <==> files[path] != "")
    ensures path !in files ==> (HasContent(files, path) <==> path in InheritedNames)
  {
    IsTruthy(Get(files, path))
  }

  /** The initial `selectedFile`: the first key, or null when there is none. */
  function Init(files: map<string, string>, keys: seq<string>): (e: Explorer)
    requires KeysOf(files, keys)
    ensures e.files == files && e.keys == keys
    ensures e.selected.None? <==> files == map[]
    ensures e.selected.Some? ==> e.selected.value == keys[0] && e.selected.value in files
  {
    if |keys| > 0 then
      assert keys[0] in files;
      Explorer(files, keys, Some(keys[0]))
    else
      assert forall p :: p !in files;
      Explorer(files, keys, None)
  }

  /** `handleSelectFile(path)`: the selection moves only to a file with content. */
  function HandleSelectFile(e: Explorer, path: string): (e': Explorer)
    ensures e'.files == e.files && e'.keys == e.keys
    ensures e'.selected != e.selected ==> HasContent(e.files, path) && e'.selected == Some(path)
    ensures HasContent(e.files, path) ==> e'.selected == Some(path)
  {
    if IsTruthy(Get(e.files, path)) then e.(selected := Some(path)) else e
  }

  /**
   * The invariant of the explorer: there is a selection whenever there are
   * files, and it is a key or an inherited name (the only other paths whose
   * lookup is truthy). It stands on its own: `InitValid` and `SelectValid`
   * show that mounting establishes it and every selection keeps it; the
   * other lemmas about the explorer do not need it.
   */
  ghost predicate Valid(e: Explorer)
  {
    && KeysOf(e.files, e.keys)
    && (e.files != map[] ==> e.selected.Some?)
    && (e.selected.Some? ==> e.selected.value in e.files || e.selected.value in InheritedNames)
  }

  lemma InitValid(files: map<string, string>, keys: seq<string>)
    requires KeysOf(files, keys)
    ensures Valid(Init(files, keys))
  {
  }

  lemma SelectValid(e: Explorer, path: string)
    requires Valid(e)
    ensures Valid(HandleSelectFile(e, path))
  {
  }

  /** Selecting the same path twice is selecting it once. */
  lemma SelectIdempotent(e: Explorer, path: string)
    ensures HandleSelectFile(HandleSelectFile(e, path), path) == HandleSelectFile(e, path)
  {
  }

  /** A file with empty content can never become the selection. */
  lemma EmptyFileNotSelectable(e: Explorer, path: string)
    requires path in e.files && e.files[path] == ""
    ensures HandleSelectFile(e, path) == e
  {
  }

  /** The display guard `selectedFile && files[selectedFile]`: an empty path is falsy too. */
  predicate ShowsContent(e: Explorer)
    ensures ShowsContent(e) ==> e.selected.Some? && e.selected.value != ""
    ensures ShowsContent(e) ==> e.selected.value in e.files || e.selected.value in InheritedNames
    ensures e.selected.Some? && e.selected.value in e.files ==>
      (ShowsContent(e) <==> e.selected.value != "" && e.files[e.selected.value] != "")
  {
    e.selected.Some? && e.selected.value != "" && HasContent(e.files, e.selected.value)
  }

  /** The code pane: breadcrumb, what `files[selectedFile]` holds, and the language. */
  datatype Pane = Pane(breadcrumb: seq<Crumb>, code: Lookup, language: string)

  function CodePane(e: Explorer, isMobile: bool): (pane: Option<Pane>)
    ensures pane.Some? <==> e.selected.Some? && e.selected.value != "" && HasContent(e.files, e.selected.value)
    ensures pane.Some? && e.selected.value in e.files ==>
      pane.value.code == Own(e.files[e.selected.value]) && e.files[e.selected.value] != ""
    ensures pane.Some? && e.selected.value !in e.files ==> pane.value.code == Inherited(e.selected.value)
    ensures pane.Some? ==> && pane.value.breadcrumb == FileBreadcrumb(e.selected.value, isMobile)
                           && pane.value.language == LanguageFromExtension(e.selected.value)
  {
    if ShowsContent(e) then
      var path := e.selected.value;
      Some(Pane(FileBreadcrumb(path, isMobile), Get(e.files, path), LanguageFromExtension(path)))
    else None
  }

  /** The first file is selected at first even when empty, but then it is not shown. */
  lemma EmptyFirstFileSelectedNotShown(files: map<string, string>, keys: seq<string>, isMobile: bool)
    requires KeysOf(files, keys) && |keys| > 0 && files[keys[0]] == ""
    ensures Init(files, keys).selected == Some(keys[0])
    ensures CodePane(Init(files, keys), isMobile) == None
  {
  }

  /** A file stored under the empty path can be selected but is never shown. */
  lemma EmptyPathNotShown(e: Explorer, isMobile: bool)
    requires HasContent(e.files, "")
    ensures HandleSelectFile(e, "").selected == Some("")
    ensures CodePane(HandleSelectFile(e, ""), isMobile) == None
  {
  }

  /**
   * A name such as "toString" that is no key is still truthy on `files`: it
   * is selected, and the pane shows the inherited member instead of a file.
   */
  lemma InheritedNameSelected(e: Explorer, name: string, isMobile: bool)
    requires name in InheritedNames && name !in e.files
    ensures HandleSelectFile(e, name).selected == Some(name)
    ensures CodePane(HandleSelectFile(e, name), isMobile)
         == Some(Pane(FileBreadcrumb(name, isMobile), Inherited(name), LanguageFromExtension(name)))
  {
    assert name != "" by { InheritedNamesNonEmpty(name); }
  }

  /** No inherited member is named "". */
  lemma InheritedNamesNonEmpty(name: string)
    requires name in InheritedNames
    ensures |name| > 0
  {
  }

  /**
   * Clicking the `k`-th file of the tree selects it when it has content:
   * the tree then marks that row active and, unless its path is empty, the
   * pane shows its content. Otherwise nothing changes.
   */
  lemma TreeClickSelects(e: Explorer, data: seq<TreeView.TreeItem>, k: nat)
    requires k < |TreeView.FilesOf(TreeView.View(data, e.selected))|
    ensures var row := TreeView.FilesOf(TreeView.View(data, e.selected))[k];
      var e' := HandleSelectFile(e, row.path);
      && TreeView.OnClick(row) == Some(row.path)
      && (HasContent(e.files, row.path) ==>
            |TreeView.FilesOf(TreeView.View(data, e'.selected))| > k
            && TreeView.FilesOf(TreeView.View(data, e'.selected))[k].isActive
            && (row.path != "" ==> ShowsContent(e')))
      && (!HasContent(e.files, row.path) ==> e' == e)
  {
    var row := TreeView.FilesOf(TreeView.View(data, e.selected))[k];
    var e' := HandleSelectFile(e, row.path);
    TreeView.ViewPathsStable(data, e.selected, e'.selected, k);
    TreeView.ForestFiles(data, "", e'.selected);
  }
}
