/**
 The daemon's directory walks.  Both recurse through one shared list and count;
 what they add is the beginning of a depth-first listing of the tree.
 */
module DirWalk {
  import opened Sequences

  const PATH_MAX := 4096

  /** A directory entry as the system calls show it. */
  datatype Node = Node(
    name: string,
    statOk: bool,      // `lstat` succeeds
    isDir: bool,
    opens: bool,       // `opendir` succeeds
    size: int,
    mtime: int,
    children: seq<Node>)

  datatype Found = Listed(path: string, isDir: bool, size: int, mtime: int) | Matched(path: string)

  /** One thing a walk comes across: something to report, or a reason to give up. */
  datatype Item = Entry(found: Found) | Stop

  datatype Walk = List(recursive: bool) | Search(matches: string -> bool)

  // Paths

  function Full(path: string, name: string): string { path + "/" + name }

  /** `path_is_within`. */
  predicate Within(root: string, path: string) {
    path == root || (|root| < |path| && path[..|root|] == root && path[|root|] == '/')
  }

  /** `relpath_from_allowed_root`, for a path within the root. */
  function Rel(root: string, path: string): string
    requires Within(root, path)
  {
    if path == root then "." else path[|root| + 1..]
  }

  /** What lies in a directory within the root is within it too, under the directory's own relative path. */
  lemma WithinBelow(root: string, path: string, name: string)
    requires Within(root, path)
    ensures Within(root, Full(path, name))
    ensures Rel(root, Full(path, name)) == if path == root then name else Rel(root, path) + "/" + name
    ensures Rel(root, root) == "."
  {
  }

  // The depth-first listing

  function Items(w: Walk, root: string, path: string, nodes: seq<Node>): seq<Item>
    decreases nodes
  {
    if nodes == [] then [] else NodeItems(w, root, path, nodes[0]) + Items(w, root, path, nodes[1..])
  }

  function NodeItems(w: Walk, root: string, path: string, n: Node): seq<Item>
    decreases n, 1
  {
    if n.name == "." || n.name == ".." then []
    else if |Full(path, n.name)| >= PATH_MAX then [Stop]
    else if !n.statOk then []
    else
      match w
      case List(recursive) =>
        if !Within(root, Full(path, n.name)) then []
        else
          [Entry(Listed(Rel(root, Full(path, n.name)), n.isDir, n.size, n.mtime))]
          + if recursive && n.isDir then DirItems(w, root, Full(path, n.name), n) else []
      case Search(matches) =>
        (if matches(n.name) && Within(root, Full(path, n.name)) then [Entry(Matched(Rel(root, Full(path, n.name))))]
         else [])
        + if n.isDir then DirItems(w, root, Full(path, n.name), n) else []
  }

  function DirItems(w: Walk, root: string, path: string, dir: Node): seq<Item>
    decreases dir, 0
  {
    if !dir.opens then [Stop] else Items(w, root, path, dir.children)
  }

  // What ends a walk

  /** The walk goes into the directory. */
  predicate Descends(w: Walk, n: Node) { n.isDir && (w.List? ==> w.recursive) }

  /** A name that is too long, or a directory that cannot be opened, at the node or below it. */
  predicate Fails(w: Walk, path: string, n: Node)
    decreases n
  {
    n.name != "." && n.name != ".." &&
    (|path| + 1 + |n.name| >= 4096
     || (n.statOk && Descends(w, n)
         && (!n.opens || exists i :: 0 <= i < |n.children| && Fails(w, Full(path, n.name), n.children[i]))))
  }

  /** A walk meets something that ends it exactly if a node on its way fails; unexaminable nodes are passed over. */
  lemma {:induction false} StopsAtFailure(w: Walk, root: string, path: string, n: Node)
    requires Within(root, path)
    ensures Stop in NodeItems(w, root, path, n) <==> Fails(w, path, n)
    decreases n, 1
  {
    var full := Full(path, n.name);
    WithinBelow(root, path, n.name);
    if Descends(w, n) && n.opens { StopsBelow(w, root, full, n.children); }
  }

  lemma {:induction false} StopsBelow(w: Walk, root: string, path: string, nodes: seq<Node>)
    requires Within(root, path)
    ensures Stop in Items(w, root, path, nodes) <==> exists i :: 0 <= i < |nodes| && Fails(w, path, nodes[i])
    decreases nodes, 0
  {
    if nodes != [] {
      StopsAtFailure(w, root, path, nodes[0]);
      StopsBelow(w, root, path, nodes[1..]);
      assert forall i :: 0 < i < |nodes| ==> nodes[i] == nodes[1..][i - 1];
    }
  }

  // Its beginning

  /** What is reported before the room runs out or something stops the walk. */
  function Taken(items: seq<Item>, room: int): seq<Found> {
    if items == [] || room <= 0 || items[0].Stop? then [] else [items[0].found] + Taken(items[1..], room - 1)
  }

  /** Something stops the walk while there is room. */
  predicate Stops(items: seq<Item>, room: int) {
    items != [] && room > 0 && (items[0].Stop? || Stops(items[1..], room - 1))
  }

  /** What is left of the room after a stretch. */
  function Left(items: seq<Item>, room: int): int { room - |Taken(items, room)| }

  lemma Uncons(a: seq<Item>, b: seq<Item>)
    requires a != []
    ensures (a + b)[0] == a[0] && (a + b)[1..] == a[1..] + b
  {
  }

  lemma {:induction false} StopsConcat(a: seq<Item>, b: seq<Item>, room: int)
    ensures Stops(a + b, room) == (Stops(a, room) || Stops(b, Left(a, room)))
    decreases |a|
  {
    if a == [] {
      assert a + b == b;
    } else {
      Uncons(a, b);
      if room > 0 && a[0].Entry? { StopsConcat(a[1..], b, room - 1); }
    }
  }

  lemma {:induction false} TakenConcat(a: seq<Item>, b: seq<Item>, room: int)
    ensures Taken(a + b, room) == Taken(a, room) + if Stops(a, room) then [] else Taken(b, Left(a, room))
    decreases |a|
  {
    if a == [] {
      assert a + b == b;
    } else {
      Uncons(a, b);
      if room > 0 && a[0].Entry? { TakenConcat(a[1..], b, room - 1); }
    }
  }

  predicate NoStop(items: seq<Item>) { forall i :: 0 <= i < |items| ==> items[i].Entry? }

  /** Everything a complete walk would report. */
  function Reports(items: seq<Item>): seq<Found>
    requires NoStop(items)
  {
    if items == [] then [] else [items[0].found] + Reports(items[1..])
  }

  function Clamp(room: int, n: nat): nat { if room <= 0 then 0 else if room < n then room else n }

  /** With nothing to stop it, a walk reports the first `room` entries of the listing. */
  lemma {:induction false} TakenIsFirst(items: seq<Item>, room: int)
    requires NoStop(items)
    ensures |Reports(items)| == |items| && !Stops(items, room)
    ensures Taken(items, room) == Reports(items)[..Clamp(room, |items|)]
  {
    if items != [] { TakenIsFirst(items[1..], room - 1); }
  }

  /** The result of a walk: the list, whether it gave up, and by how much the count is ahead of the list. */
  datatype Outcome = Outcome(found: seq<Found>, stopped: bool, offset: int)

  ghost function Walked(found: seq<Found>, count: int, items: seq<Item>, limit: int): Outcome {
    Outcome(found + Taken(items, limit - count), Stops(items, limit - count), count - |found|)
  }

  lemma WalkedSkip(found: seq<Found>, count: int, items: seq<Item>, rest: seq<Item>, limit: int)
    requires count >= limit
    ensures Walked(found, count, items + rest, limit) == Walked(found, count, rest, limit)
  {
  }

  lemma WalkedStop(found: seq<Found>, count: int, rest: seq<Item>, limit: int)
    requires count < limit
    ensures Walked(found, count, [Stop] + rest, limit) == Outcome(found, true, count - |found|)
  {
  }

  lemma WalkedAdd(found: seq<Found>, count: int, f: Found, rest: seq<Item>, limit: int)
    requires count < limit
    ensures Walked(found, count, [Entry(f)] + rest, limit) == Walked(found + [f], count + 1, rest, limit)
  {
  }

  /** A walk over two stretches is the second one after the first, unless the first stops it. */
  lemma WalkedConcat(found: seq<Found>, count: int, a: seq<Item>, b: seq<Item>, limit: int)
    ensures var o := Walked(found, count, a, limit);
            Walked(found, count, a + b, limit)
            == if o.stopped then o else Walked(o.found, o.offset + |o.found|, b, limit)
  {
    TakenConcat(a, b, limit - count);
    StopsConcat(a, b, limit - count);
    var t := Taken(a, limit - count);
    assert found + (t + Taken(b, limit - count - |t|)) == found + t + Taken(b, limit - count - |t|);
    assert t + [] == t;
  }

  lemma ItemsStep(w: Walk, root: string, path: string, nodes: seq<Node>, i: nat)
    requires i < |nodes|
    ensures Items(w, root, path, nodes[i..])
            == NodeItems(w, root, path, nodes[i]) + Items(w, root, path, nodes[i + 1..])
  {
  }

  /** The list and the count that a walk and its recursive calls share. */
  class Listing {
    var found: seq<Found>
    var count: int

    constructor ()
      ensures found == [] && count == 0
    {
      found, count := [], 0;
    }

    /** Walking `items` from here ends in `whole`. */
    ghost predicate Leads(items: seq<Item>, limit: int, whole: Outcome)
      reads this
    {
      Walked(found, count, items, limit) == whole
    }

    /** The walk is over, with this return code. */
    ghost predicate Ended(rc: int, whole: Outcome)
      reads this
    {
      whole == Outcome(found, rc != 0, count - |found|) && (rc == 0 || rc == -1)
    }

    method Add(f: Found, limit: int, ghost items: seq<Item>, ghost whole: Outcome)
      requires count < limit && Leads([Entry(f)] + items, limit, whole)
      modifies this
      ensures Leads(items, limit, whole)
    {
      WalkedAdd(found, count, f, items, limit);
      found, count := found + [f], count + 1;
    }

    /** One entry of a directory that `add_list_entries` is reading. */
    method ListEntry(root: string, path: string, n: Node, recursive: bool, limit: int,
                     ghost rest: seq<Item>, ghost whole: Outcome)
      returns (rc: int)
      requires count < limit && Leads(NodeItems(List(recursive), root, path, n) + rest, limit, whole)
      modifies this
      ensures rc == 0 ==> Leads(rest, limit, whole)
      ensures rc != 0 ==> Ended(rc, whole)
      decreases n, 2
    {
      if n.name == "." || n.name == ".." { assert [] + rest == rest; return 0; }
      var full := Full(path, n.name);
      if |full| >= PATH_MAX { WalkedStop(found, count, rest, limit); return -1; }
      if !n.statOk { assert [] + rest == rest; return 0; }
      if !Within(root, full) { assert [] + rest == rest; return 0; }
      ghost var sub := if recursive && n.isDir then DirItems(List(recursive), root, full, n) else [];
      var f := Listed(Rel(root, full), n.isDir, n.size, n.mtime);
      Assoc([Entry(f)], sub, rest);
      Add(f, limit, sub + rest, whole);
      if recursive && n.isDir {
        if count < limit {
          WalkedConcat(found, count, sub, rest, limit);
          WalkedStop(found, count, [], limit);
          rc := AddListEntries(root, full, n, recursive, limit);
          return if rc != 0 then -1 else 0;
        }
        WalkedSkip(found, count, sub, rest, limit);
        return 0;
      }
      assert [] + rest == rest;
      return 0;
    }

    /**
     `add_list_entries`: an unreadable directory is refused; otherwise the
     listing's beginning is added, as far as the limit and any stop allow.
     */
    method AddListEntries(root: string, path: string, dir: Node, recursive: bool, limit: int) returns (rc: int)
      modifies this
      ensures !dir.opens ==> rc == -1 && found == old(found) && count == old(count)
      ensures dir.opens ==>
                Ended(rc, Walked(old(found), old(count), Items(List(recursive), root, path, dir.children), limit))
      decreases dir, 1
    {
      if !dir.opens { return -1; }
      ghost var w := List(recursive);
      ghost var whole := Walked(found, count, Items(w, root, path, dir.children), limit);
      assert dir.children[0..] == dir.children;
      rc := 0;
      var i := 0;
      while rc == 0 && i < |dir.children| && count < limit
        invariant 0 <= i <= |dir.children|
        invariant rc == 0 ==> Leads(Items(w, root, path, dir.children[i..]), limit, whole)
        invariant rc != 0 ==> Ended(rc, whole)
        decreases rc == 0, |dir.children| - i
      {
        ItemsStep(w, root, path, dir.children, i);
        rc := ListEntry(root, path, dir.children[i], recursive, limit,
                        Items(w, root, path, dir.children[i + 1..]), whole);
        i := i + 1;
      }
      assert rc == 0 ==> found + [] == found;
    }

    /** One entry of a directory that `search_file_names` is reading. */
    method SearchEntry(root: string, path: string, n: Node, matches: string -> bool, limit: int,
                       ghost rest: seq<Item>, ghost whole: Outcome)
      returns (rc: int)
      requires count < limit && Leads(NodeItems(Search(matches), root, path, n) + rest, limit, whole)
      modifies this
      ensures rc == 0 ==> Leads(rest, limit, whole)
      ensures rc != 0 ==> Ended(rc, whole)
      decreases n, 2
    {
      if n.name == "." || n.name == ".." { assert [] + rest == rest; return 0; }
      var full := Full(path, n.name);
      if |full| >= PATH_MAX { WalkedStop(found, count, rest, limit); return -1; }
      if !n.statOk { assert [] + rest == rest; return 0; }
      ghost var sub := if n.isDir then DirItems(Search(matches), root, full, n) else [];
      if matches(n.name) && Within(root, full) {
        Assoc([Entry(Matched(Rel(root, full)))], sub, rest);
        Add(Matched(Rel(root, full)), limit, sub + rest, whole);
      } else {
        assert [] + sub == sub;
      }
      if n.isDir {
        if count < limit {
          WalkedConcat(found, count, sub, rest, limit);
          WalkedStop(found, count, [], limit);
          rc := SearchFileNames(root, full, n, matches, limit);
          return if rc != 0 then -1 else 0;
        }
        WalkedSkip(found, count, sub, rest, limit);
        return 0;
      }
      assert [] + rest == rest;
      return 0;
    }

    /** `search_file_names`; `matches` is the substring or regular expression test on the entry's name. */
    method SearchFileNames(root: string, path: string, dir: Node, matches: string -> bool, limit: int) returns (rc: int)
      modifies this
      ensures !dir.opens ==> rc == -1 && found == old(found) && count == old(count)
      ensures dir.opens ==>
                Ended(rc, Walked(old(found), old(count), Items(Search(matches), root, path, dir.children), limit))
      decreases dir, 1
    {
      if !dir.opens { return -1; }
      ghost var w := Search(matches);
      ghost var whole := Walked(found, count, Items(w, root, path, dir.children), limit);
      assert dir.children[0..] == dir.children;
      rc := 0;
      var i := 0;
      while rc == 0 && i < |dir.children| && count < limit
        invariant 0 <= i <= |dir.children|
        invariant rc == 0 ==> Leads(Items(w, root, path, dir.children[i..]), limit, whole)
        invariant rc != 0 ==> Ended(rc, whole)
        decreases rc == 0, |dir.children| - i
      {
        ItemsStep(w, root, path, dir.children, i);
        rc := SearchEntry(root, path, dir.children[i], matches, limit,
                          Items(w, root, path, dir.children[i + 1..]), whole);
        i := i + 1;
      }
      assert rc == 0 ==> found + [] == found;
    }
  }

  // A simpler account, for trees where nothing fails

  /** A node met on the way, with its full path. */
  datatype Visit = Visit(full: string, node: Node)

  /** The tree in depth-first order, or just its first level. */
  function Preorder(path: string, nodes: seq<Node>, deep: bool): seq<Visit>
    decreases nodes
  {
    if nodes == [] then []
    else Below(path, nodes[0], deep) + Preorder(path, nodes[1..], deep)
  }

  function Below(path: string, n: Node, deep: bool): seq<Visit>
    decreases n
  {
    if n.name == "." || n.name == ".." then []
    else [Visit(Full(path, n.name), n)] + if deep && n.isDir then Preorder(Full(path, n.name), n.children, deep) else []
  }

  /** No name is too long, every entry can be examined and every directory opened. */
  predicate Clean(path: string, nodes: seq<Node>)
    decreases nodes
  {
    forall i :: 0 <= i < |nodes| ==> CleanNode(path, nodes[i])
  }

  predicate CleanNode(path: string, n: Node)
    decreases n
  {
    n.name == "." || n.name == ".." ||
    (|Full(path, n.name)| < PATH_MAX && n.statOk && (n.isDir ==> n.opens && Clean(Full(path, n.name), n.children)))
  }

  predicate AllWithin(root: string, vs: seq<Visit>) { forall i :: 0 <= i < |vs| ==> Within(root, vs[i].full) }

  /** Every node visited, as an item of a listing. */
  function Lists(root: string, vs: seq<Visit>): seq<Item>
    requires AllWithin(root, vs)
  {
    if vs == [] then []
    else
      var v := vs[0];
      [Entry(Listed(Rel(root, v.full), v.node.isDir, v.node.size, v.node.mtime))] + Lists(root, vs[1..])
  }

  /** The nodes visited whose name matches, as items of a search. */
  function Finds(root: string, matches: string -> bool, vs: seq<Visit>): seq<Item>
    requires AllWithin(root, vs)
  {
    if vs == [] then []
    else
      var v := vs[0];
      (if matches(v.node.name) then [Entry(Matched(Rel(root, v.full)))] else []) + Finds(root, matches, vs[1..])
  }

  lemma {:induction false} ListsConcat(root: string, a: seq<Visit>, b: seq<Visit>)
    requires AllWithin(root, a) && AllWithin(root, b)
    ensures AllWithin(root, a + b) && Lists(root, a + b) == Lists(root, a) + Lists(root, b)
    decreases |a|
  {
    if a == [] {
      assert a + b == b;
    } else {
      ListsConcat(root, a[1..], b);
      assert (a + b)[1..] == a[1..] + b && (a + b)[0] == a[0];
    }
  }

  lemma {:induction false} FindsConcat(root: string, matches: string -> bool, a: seq<Visit>, b: seq<Visit>)
    requires AllWithin(root, a) && AllWithin(root, b)
    ensures AllWithin(root, a + b) && Finds(root, matches, a + b) == Finds(root, matches, a) + Finds(root, matches, b)
    decreases |a|
  {
    if a == [] {
      assert a + b == b;
    } else {
      FindsConcat(root, matches, a[1..], b);
      assert (a + b)[1..] == a[1..] + b && (a + b)[0] == a[0];
      Assoc(if matches(a[0].node.name) then [Entry(Matched(Rel(root, a[0].full)))] else [],
              Finds(root, matches, a[1..]), Finds(root, matches, b));
    }
  }

  lemma {:induction false} PreorderWithin(root: string, path: string, nodes: seq<Node>, deep: bool)
    requires Within(root, path)
    ensures AllWithin(root, Preorder(path, nodes, deep))
    decreases nodes, 0
  {
    if nodes != [] {
      BelowWithin(root, path, nodes[0], deep);
      PreorderWithin(root, path, nodes[1..], deep);
    }
  }

  lemma {:induction false} BelowWithin(root: string, path: string, n: Node, deep: bool)
    requires Within(root, path)
    ensures AllWithin(root, Below(path, n, deep))
    decreases n, 1
  {
    WithinBelow(root, path, n.name);
    if deep && n.isDir { PreorderWithin(root, Full(path, n.name), n.children, deep); }
  }

  /** Without failures a listing is the depth-first order of the tree, or its first level. */
  lemma {:induction false} ListItems(root: string, path: string, nodes: seq<Node>, recursive: bool)
    requires Clean(path, nodes) && Within(root, path)
    ensures AllWithin(root, Preorder(path, nodes, recursive))
    ensures Items(List(recursive), root, path, nodes) == Lists(root, Preorder(path, nodes, recursive))
    decreases nodes, 0
  {
    PreorderWithin(root, path, nodes, recursive);
    if nodes != [] {
      BelowWithin(root, path, nodes[0], recursive);
      PreorderWithin(root, path, nodes[1..], recursive);
      ListNode(root, path, nodes[0], recursive);
      ListItems(root, path, nodes[1..], recursive);
      ListsConcat(root, Below(path, nodes[0], recursive), Preorder(path, nodes[1..], recursive));
    }
  }

  lemma {:induction false} ListNode(root: string, path: string, n: Node, recursive: bool)
    requires CleanNode(path, n) && Within(root, path) && AllWithin(root, Below(path, n, recursive))
    ensures NodeItems(List(recursive), root, path, n) == Lists(root, Below(path, n, recursive))
    decreases n, 1
  {
    if n.name != "." && n.name != ".." {
      var full := Full(path, n.name);
      var rest := if recursive && n.isDir then Preorder(full, n.children, recursive) else [];
      WithinBelow(root, path, n.name);
      if recursive && n.isDir { ListItems(root, full, n.children, recursive); }
      assert Below(path, n, recursive)[1..] == rest;
    }
  }

  /** Without failures a search is the depth-first order of the tree, filtered by name. */
  lemma {:induction false} SearchItems(root: string, path: string, nodes: seq<Node>, matches: string -> bool)
    requires Clean(path, nodes) && Within(root, path)
    ensures AllWithin(root, Preorder(path, nodes, true))
    ensures Items(Search(matches), root, path, nodes) == Finds(root, matches, Preorder(path, nodes, true))
    decreases nodes, 0
  {
    PreorderWithin(root, path, nodes, true);
    if nodes != [] {
      BelowWithin(root, path, nodes[0], true);
      PreorderWithin(root, path, nodes[1..], true);
      SearchNode(root, path, nodes[0], matches);
      SearchItems(root, path, nodes[1..], matches);
      FindsConcat(root, matches, Below(path, nodes[0], true), Preorder(path, nodes[1..], true));
    }
  }

  lemma {:induction false} SearchNode(root: string, path: string, n: Node, matches: string -> bool)
    requires CleanNode(path, n) && Within(root, path) && AllWithin(root, Below(path, n, true))
    ensures NodeItems(Search(matches), root, path, n) == Finds(root, matches, Below(path, n, true))
    decreases n, 1
  {
    if n.name != "." && n.name != ".." {
      var full := Full(path, n.name);
      var rest := if n.isDir then Preorder(full, n.children, true) else [];
      WithinBelow(root, path, n.name);
      if n.isDir { SearchItems(root, full, n.children, matches); }
      assert Below(path, n, true)[1..] == rest;
    }
  }

  lemma {:induction false} ListsNoStop(root: string, vs: seq<Visit>)
    requires AllWithin(root, vs)
    ensures NoStop(Lists(root, vs)) && |Lists(root, vs)| == |vs|
    decreases |vs|
  {
    if vs != [] { ListsNoStop(root, vs[1..]); }
  }

  lemma {:induction false} FindsNoStop(root: string, matches: string -> bool, vs: seq<Visit>)
    requires AllWithin(root, vs)
    ensures NoStop(Finds(root, matches, vs))
    decreases |vs|
  {
    if vs != [] { FindsNoStop(root, matches, vs[1..]); }
  }

  /**
   A listing of a clean tree: the first `limit` entries in depth-first order
   (or of the first level), all of them counted, and no error.
   */
  method ListFiles(root: string, path: string, dir: Node, recursive: bool, limit: int)
    returns (rc: int, found: seq<Found>, count: int)
    requires Within(root, path) && dir.opens && Clean(path, dir.children)
    ensures AllWithin(root, Preorder(path, dir.children, recursive))
    ensures var all := Lists(root, Preorder(path, dir.children, recursive));
            NoStop(all) && found == Reports(all)[..Clamp(limit, |Reports(all)|)] && count == |found| && rc == 0
  {
    ListItems(root, path, dir.children, recursive);
    ghost var all := Lists(root, Preorder(path, dir.children, recursive));
    ListsNoStop(root, Preorder(path, dir.children, recursive));
    TakenIsFirst(all, limit);
    var l := new Listing();
    rc := l.AddListEntries(root, path, dir, recursive, limit);
    found, count := l.found, l.count;
    assert [] + Taken(all, limit) == Taken(all, limit);
  }

  /** A search of a clean tree: the first `limit` matches in depth-first order. */
  method SearchFiles(root: string, path: string, dir: Node, matches: string -> bool, limit: int)
    returns (rc: int, found: seq<Found>, count: int)
    requires Within(root, path) && dir.opens && Clean(path, dir.children)
    ensures AllWithin(root, Preorder(path, dir.children, true))
    ensures var all := Finds(root, matches, Preorder(path, dir.children, true));
            NoStop(all) && found == Reports(all)[..Clamp(limit, |Reports(all)|)] && count == |found| && rc == 0
  {
    SearchItems(root, path, dir.children, matches);
    ghost var all := Finds(root, matches, Preorder(path, dir.children, true));
    FindsNoStop(root, matches, Preorder(path, dir.children, true));
    TakenIsFirst(all, limit);
    var l := new Listing();
    rc := l.SearchFileNames(root, path, dir, matches, limit);
    found, count := l.found, l.count;
    assert [] + Taken(all, limit) == Taken(all, limit);
  }
}
