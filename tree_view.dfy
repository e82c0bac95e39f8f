/**
 * The file tree of the explorer: a recursive walk over nested items that
 * builds each node's slash-joined path, shows childless nodes as files and
 * marks the file whose path is the selected value.
 */
module TreeView {
  import opened Wrappers
  import Text

  /** A `TreeItem`: a bare name, or an array `[name, ...items]`. */
  datatype TreeItem = Name(name: string) | Nested(name: string, items: seq<TreeItem>)

  /** What `Tree` renders: a file button, or a folder around its children. */
  datatype Row =
    | FileRow(name: string, path: string, isActive: bool)
    | FolderRow(name: string, rows: seq<Row>)

  /** `currentPath`: the name alone when `parentPath` is "", else `parentPath/name`. */
  function CurrentPath(parentPath: string, name: string): (path: string)
    ensures parentPath == "" ==> path == name
    ensures parentPath != "" ==> && |path| == |parentPath| + 1 + |name|
                                 && path[..|parentPath|] == parentPath && path[|parentPath|] == '/'
                                 && path[|parentPath| + 1..] == name
  {
    if parentPath == "" then name else parentPath + "/" + name
  }

  /** A node is shown as a file exactly when nothing follows its name. */
  predicate IsFile(item: TreeItem)
  {
    item.Name? || item.items == []
  }

  /** The `Tree` component for one item below `parentPath`. */
  function Tree(item: TreeItem, parentPath: string, selectedValue: Option<string>): (r: Row)
    ensures r.FileRow? <==> IsFile(item)
    ensures r.name == item.name
    decreases item
  {
    var path := CurrentPath(parentPath, item.name);
    match item
    case Name(name) => FileRow(name, path, selectedValue == Some(path))
    case Nested(name, items) =>
      if items == [] then FileRow(name, path, selectedValue == Some(path))
      else FolderRow(name, Forest(items, path, selectedValue))
  }

  /** `items.map(subItem => <Tree parentPath={...} />)`. */
  function Forest(items: seq<TreeItem>, parentPath: string, selectedValue: Option<string>): (rows: seq<Row>)
    ensures |rows| == |items|
    ensures forall k :: 0 <= k < |items| ==> rows[k] == Tree(items[k], parentPath, selectedValue)
    decreases items
  {
    if items == [] then [] else [Tree(items[0], parentPath, selectedValue)] + Forest(items[1..], parentPath, selectedValue)
  }

  /** `TreeView`: every top-level item starts from the empty `parentPath`. */
  function View(data: seq<TreeItem>, value: Option<string>): (rows: seq<Row>)
    ensures |rows| == |data|
    ensures forall k :: 0 <= k < |data| ==> rows[k].name == data[k].name
    ensures forall k :: 0 <= k < |data| && rows[k].FileRow? ==>
      rows[k] == FileRow(data[k].name, data[k].name, value == Some(data[k].name))
  {
    Forest(data, "", value)
  }

  /** What a click hands to `onSelect`: a file its path; a folder only toggles open. */
  function OnClick(row: Row): (selected: Option<string>)
    ensures selected.Some? <==> row.FileRow?
    ensures row.FileRow? ==> selected.value == row.path
  {
    if row.FileRow? then Some(row.path) else None
  }

  /** The file rows of a rendered row, in display order. */
  function Files(row: Row): (files: seq<Row>)
    ensures forall k :: 0 <= k < |files| ==> files[k].FileRow?
    decreases row
  {
    match row
    case FileRow(_, _, _) => [row]
    case FolderRow(_, rows) => FilesOf(rows)
  }

  function FilesOf(rows: seq<Row>): (files: seq<Row>)
    ensures forall k :: 0 <= k < |files| ==> files[k].FileRow?
    decreases rows
  {
    if rows == [] then [] else Files(rows[0]) + FilesOf(rows[1..])
  }

  /** The names from an item down to each of its files, in order. */
  function Routes(item: TreeItem): seq<seq<string>>
    decreases item
  {
    match item
    case Name(name) => [[name]]
    case Nested(name, items) => if items == [] then [[name]] else Under(name, RoutesOf(items))
  }

  function RoutesOf(items: seq<TreeItem>): seq<seq<string>>
    decreases items
  {
    if items == [] then [] else Routes(items[0]) + RoutesOf(items[1..])
  }

  /** Each route with `name` put in front. */
  function Under(name: string, routes: seq<seq<string>>): (r: seq<seq<string>>)
    ensures |r| == |routes|
    ensures forall k :: 0 <= k < |routes| ==> r[k] == [name] + routes[k]
  {
    if routes == [] then [] else [[name] + routes[0]] + Under(name, routes[1..])
  }

  /** The path `Tree` builds when it walks `route` below `parentPath`. */
  function PathOf(parentPath: string, route: seq<string>): string
    decreases route
  {
    if route == [] then parentPath else PathOf(CurrentPath(parentPath, route[0]), route[1..])
  }

  /**
   * `rows` are file rows, one per route, each named after the route's last
   * name, with the path of the route below `parentPath` and marked active
   * exactly when that path is the selected value.
   */
  ghost predicate Matches(rows: seq<Row>, routes: seq<seq<string>>, parentPath: string, selectedValue: Option<string>)
  {
    && |rows| == |routes|
    && forall k :: 0 <= k < |routes| ==>
         && routes[k] != []
         && rows[k] == FileRow(routes[k][|routes[k]| - 1], PathOf(parentPath, routes[k]), selectedValue == Some(PathOf(parentPath, routes[k])))
  }

  lemma MatchesAppend(a: seq<Row>, ra: seq<seq<string>>, b: seq<Row>, rb: seq<seq<string>>, p: string, v: Option<string>)
    requires Matches(a, ra, p, v) && Matches(b, rb, p, v)
    ensures Matches(a + b, ra + rb, p, v)
  {
    forall k | 0 <= k < |ra + rb|
      ensures (ra + rb)[k] != []
      ensures (a + b)[k] == FileRow((ra + rb)[k][|(ra + rb)[k]| - 1], PathOf(p, (ra + rb)[k]), v == Some(PathOf(p, (ra + rb)[k])))
    {
      if k >= |ra| {
        assert (ra + rb)[k] == rb[k - |ra|] && (a + b)[k] == b[k - |ra|];
      }
    }
  }

  lemma MatchesUnder(rows: seq<Row>, routes: seq<seq<string>>, p: string, name: string, v: Option<string>)
    requires Matches(rows, routes, CurrentPath(p, name), v)
    ensures Matches(rows, Under(name, routes), p, v)
  {
    forall k | 0 <= k < |routes|
      ensures PathOf(p, Under(name, routes)[k]) == PathOf(CurrentPath(p, name), routes[k])
    {
      assert Under(name, routes)[k][1..] == routes[k];
    }
  }

  /**
   * The file rows of a rendered item are exactly its routes: in order, each
   * named after its leaf, with the route's path, active exactly when that
   * path is the selected value.
   */
  lemma {:induction false} TreeFiles(item: TreeItem, p: string, v: Option<string>)
    ensures Matches(Files(Tree(item, p, v)), Routes(item), p, v)
    decreases item
  {
    match item
    case Name(name) =>
    case Nested(name, items) =>
      if items != [] {
        ForestFiles(items, CurrentPath(p, name), v);
        MatchesUnder(FilesOf(Forest(items, CurrentPath(p, name), v)), RoutesOf(items), p, name, v);
      }
  }

  lemma {:induction false} ForestFiles(items: seq<TreeItem>, p: string, v: Option<string>)
    ensures Matches(FilesOf(Forest(items, p, v)), RoutesOf(items), p, v)
    decreases items
  {
    if items != [] {
      var rows := Forest(items, p, v);
      assert rows[0] == Tree(items[0], p, v) && rows[1..] == Forest(items[1..], p, v);
      TreeFiles(items[0], p, v);
      ForestFiles(items[1..], p, v);
      MatchesAppend(Files(rows[0]), Routes(items[0]), FilesOf(rows[1..]), RoutesOf(items[1..]), p, v);
    }
  }

  /** `route` with its leading empty names removed. */
  function DropLeadingEmpty(route: seq<string>): seq<string>
  {
    if route != [] && route[0] == "" then DropLeadingEmpty(route[1..]) else route
  }

  /** Below a non-empty parent, the names are appended with "/" each. */
  lemma {:induction false} PathBelow(p: string, route: seq<string>)
    requires p != "" && route != []
    ensures PathOf(p, route) == p + "/" + Text.Join(route, "/")
    decreases route
  {
    if |route| > 1 {
      PathBelow(p + "/" + route[0], route[1..]);
    }
  }

  /**
   * From the top, a path is the "/"-join of the route's names once its
   * leading empty names are dropped (an empty name further down still
   * leaves an empty segment).
   */
  lemma {:induction false} PathFromTop(route: seq<string>)
    ensures PathOf("", route) == Text.Join(DropLeadingEmpty(route), "/")
  {
    if route != [] {
      if route[0] == "" {
        PathFromTop(route[1..]);
      } else if |route| > 1 {
        PathBelow(route[0], route[1..]);
      }
    }
  }

  /**
   * What the explorer's tree shows: one file row per route of the data, in
   * order, with the path built from the top, active exactly when it is the
   * selected value; a click on it hands that path to `onSelect`.
   */
  lemma ViewFiles(data: seq<TreeItem>, value: Option<string>, k: nat)
    requires k < |RoutesOf(data)|
    ensures |FilesOf(View(data, value))| == |RoutesOf(data)|
    ensures var row := FilesOf(View(data, value))[k];
      var route := RoutesOf(data)[k];
      && row.path == Text.Join(DropLeadingEmpty(route), "/")
      && (row.isActive <==> value == Some(row.path))
      && OnClick(row) == Some(row.path)
  {
    ForestFiles(data, "", value);
    PathFromTop(RoutesOf(data)[k]);
  }

  /** The paths of the file rows do not depend on which value is selected. */
  lemma ViewPathsStable(data: seq<TreeItem>, v: Option<string>, w: Option<string>, k: nat)
    requires k < |FilesOf(View(data, v))|
    ensures |FilesOf(View(data, w))| == |FilesOf(View(data, v))|
    ensures FilesOf(View(data, v))[k].path == FilesOf(View(data, w))[k].path
  {
    ForestFiles(data, "", v);
    ForestFiles(data, "", w);
  }

  /** Folders never call `onSelect`. */
  lemma FoldersDoNotSelect(item: TreeItem, p: string, v: Option<string>)
    requires !IsFile(item)
    ensures OnClick(Tree(item, p, v)) == None
  {
  }
}
