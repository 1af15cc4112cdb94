/** The trie that `List` builds in place from a flat range of etcd keys. */
module DirTree {

  import opened Prelude
  import opened Strings

  type Bytes = seq<bv8>

  // ---------- the tree ----------

  class Node {
    var value: Option<Bytes>
    var children: map<string, Node>

    constructor ()
      ensures value.None? && children == map[]
    {
      value, children := None, map[];
    }
  }

  type Path = seq<string>

  /** A tree drawn on paper: the node at each path, its children, and back from nodes to paths. */
  datatype Plan = Plan(nodes: map<Path, Node>, kids: map<Path, map<string, Node>>, paths: map<Node, Path>)

  ghost predicate ChildNamed(t: Plan, p: Path, d: string)
  {
    p in t.nodes && p in t.kids && d in t.kids[p] ==> p + [d] in t.nodes && t.kids[p][d] == t.nodes[p + [d]]
  }

  ghost predicate HasParent(t: Plan, q: Path)
  {
    q in t.nodes && q != [] ==>
      q[..|q| - 1] in t.nodes && q[..|q| - 1] in t.kids && q[|q| - 1] in t.kids[q[..|q| - 1]]
  }

  /** Children are one directory further down, every node but the root has a parent, no node has two paths. */
  ghost predicate IsTree(t: Plan)
  {
    && [] in t.nodes
    && t.kids.Keys == t.nodes.Keys
    && (forall p :: p in t.nodes ==> t.nodes[p] in t.paths && t.paths[t.nodes[p]] == p)
    && (forall p, d {:trigger ChildNamed(t, p, d)} :: ChildNamed(t, p, d))
    && (forall q {:trigger HasParent(t, q)} :: HasParent(t, q))
  }

  /** The heap below `root` is as planned. */
  ghost predicate Built(root: Node, t: Plan)
    reads t.paths.Keys
  {
    && IsTree(t) && t.nodes[[]] == root
    && forall p :: p in t.nodes ==> t.nodes[p].children == t.kids[p]
  }

  lemma ChildIffNamed(t: Plan, p: Path, d: string)
    requires IsTree(t) && p in t.nodes
    ensures d in t.kids[p] <==> p + [d] in t.nodes
    ensures d in t.kids[p] ==> t.kids[p][d] == t.nodes[p + [d]]
  {
    assert ChildNamed(t, p, d);
    assert HasParent(t, p + [d]);
    assert (p + [d])[..|p|] == p;
  }

  /** Every prefix of a named path is named. */
  lemma {:induction false} NamedPrefix(t: Plan, p: Path, k: nat)
    requires IsTree(t) && p in t.nodes && k <= |p|
    ensures p[..k] in t.nodes
    decreases |p| - k
  {
    if k < |p| {
      NamedPrefix(t, p, k + 1);
      var q := p[..k + 1];
      assert HasParent(t, q);
      assert q[..|q| - 1] == p[..k];
    } else {
      assert p[..k] == p;
    }
  }

  /** Following directories down from a node. */
  ghost function Walk(n: Node, p: Path): Option<Node>
    reads *
    decreases |p|
  {
    if p == [] then Some(n)
    else if p[0] in n.children then Walk(n.children[p[0]], p[1..])
    else None
  }

  /** Walking finds exactly the planned nodes. */
  lemma {:induction false} WalkFindsPlanned(root: Node, t: Plan, p: Path, q: Path)
    requires Built(root, t) && p in t.nodes
    ensures Walk(t.nodes[p], q) == if p + q in t.nodes then Some(t.nodes[p + q]) else None
    decreases |q|
  {
    if q == [] {
      assert p + q == p;
    } else {
      var d := q[0];
      assert p + q == (p + [d]) + q[1..];
      ChildIffNamed(t, p, d);
      if d in t.kids[p] {
        WalkFindsPlanned(root, t, p + [d], q[1..]);
      } else if p + q in t.nodes {
        assert (p + q)[..|p| + 1] == p + [d];
        NamedPrefix(t, p + q, |p| + 1);
      }
    }
  }

  // ---------- growing the tree ----------

  function Hang(t: Plan, p: Path, d: string, next: Node): Plan
    requires p in t.kids
  {
    Plan(t.nodes[p + [d] := next], t.kids[p := t.kids[p][d := next]][p + [d] := map[]], t.paths[next := p + [d]])
  }

  /** Hanging a new empty node under `p`, where there was none, keeps it a tree. */
  lemma HangKeepsTree(t: Plan, p: Path, d: string, next: Node)
    requires IsTree(t) && p in t.nodes && p + [d] !in t.nodes
    requires forall q :: q in t.nodes ==> t.nodes[q] != next
    ensures IsTree(Hang(t, p, d, next))
  {
    var u := Hang(t, p, d, next);
    forall q, e ensures ChildNamed(u, q, e) {
      assert ChildNamed(t, q, e);
      ChildIffNamed(t, p, d);
      assert q == p + [d] ==> u.kids[q] == map[];
    }
    forall q ensures HasParent(u, q) {
      assert HasParent(t, q);
      assert (p + [d])[..|p|] == p;
    }
  }

  /** The old nodes are where they were; the new ones are on the way to `dirs`. */
  ghost predicate Extended(t: Plan, u: Plan, dirs: Path)
  {
    && (forall p :: p in t.nodes ==> p in u.nodes && u.nodes[p] == t.nodes[p])
    && (forall p :: p in u.nodes && p !in t.nodes ==> p <= dirs)
  }

  /** One directory further down; the node is created if it is missing. */
  method Descend(root: Node, p: Path, dir: string, current: Node, ghost t: Plan) returns (next: Node, ghost u: Plan)
    requires Built(root, t) && p in t.nodes && current == t.nodes[p]
    modifies current`children
    ensures Built(root, u)
    ensures p + [dir] in u.nodes && next == u.nodes[p + [dir]]
    ensures u == t || (p + [dir] !in t.nodes && u == Hang(t, p, dir, next) && fresh(next) && next.value.None?)
  {
    ChildIffNamed(t, p, dir);
    if dir in current.children {
      next, u := current.children[dir], t;
    } else {
      next := new Node();
      u := Hang(t, p, dir, next);
      HangKeepsTree(t, p, dir, next);
      current.children := current.children[dir := next];
    }
  }

  lemma ExtendedStep(t: Plan, u: Plan, v: Plan, dirs: Path, i: nat, next: Node)
    requires Extended(t, u, dirs) && i < |dirs| && dirs[..i] in u.kids
    requires v == u || (v == Hang(u, dirs[..i], dirs[i], next) && dirs[..i] + [dirs[i]] !in u.nodes)
    ensures Extended(t, v, dirs)
    ensures dirs[..i + 1] == dirs[..i] + [dirs[i]]
  {
  }

  /** The walk that creates what is missing; `t` is the tree before and `u` the tree after. */
  method ParseToDirTree(root: Node, dirs: Path, ghost t: Plan) returns (leaf: Node, ghost u: Plan)
    requires Built(root, t)
    modifies t.paths.Keys`children
    ensures Built(root, u) && Extended(t, u, dirs)
    ensures dirs in u.nodes && leaf == u.nodes[dirs]
    ensures fresh(u.paths.Keys - t.paths.Keys)
    ensures forall p :: p in u.nodes && p !in t.nodes ==> u.nodes[p].value.None?
  {
    var i := 0;
    leaf, u := root, t;
    while i < |dirs|
      invariant 0 <= i <= |dirs|
      invariant Built(root, u) && Extended(t, u, dirs) && dirs[..i] in u.nodes && leaf == u.nodes[dirs[..i]]
      invariant fresh(u.paths.Keys - t.paths.Keys)
      invariant forall p :: p in u.nodes && p !in t.nodes ==> u.nodes[p].value.None?
    {
      leaf, u := Next(root, dirs, i, leaf, t, u);
      i := i + 1;
    }
    assert dirs[..|dirs|] == dirs;
  }

  /** One turn of that walk. */
  method Next(root: Node, dirs: Path, i: nat, current: Node, ghost t: Plan, ghost u: Plan)
    returns (next: Node, ghost v: Plan)
    requires Built(root, u) && Extended(t, u, dirs)
    requires i < |dirs| && dirs[..i] in u.nodes && current == u.nodes[dirs[..i]]
    modifies current`children
    ensures Built(root, v) && Extended(t, v, dirs)
    ensures dirs[..i + 1] in v.nodes && next == v.nodes[dirs[..i + 1]]
    ensures v == u || (v.nodes == u.nodes[dirs[..i + 1] := next] && v.paths.Keys == u.paths.Keys + {next})
    ensures v != u ==> fresh(next) && next.value.None?
  {
    next, v := Descend(root, dirs[..i], dirs[i], current, u);
    ExtendedStep(t, u, v, dirs, i, next);
  }

  // ---------- listing a range of keys ----------

  datatype KeyValue = KeyValue(key: string, value: Bytes)

  /** The part of a key below the listed directory; a key that is no longer than it is skipped. */
  predicate Listed(kv: KeyValue, length: nat)
  {
    length < |kv.key|
  }

  function PathOf(kv: KeyValue, length: nat): Path
    requires Listed(kv, length)
  {
    Split(kv.key[length..], '/')
  }

  /** The value the flat keys give to a path: that of the last one listed there. */
  function ValueAt(kvs: seq<KeyValue>, length: nat, p: Path): Option<Bytes>
  {
    if kvs == [] then None
    else
      var last := kvs[|kvs| - 1];
      if Listed(last, length) && PathOf(last, length) == p then Some(last.value)
      else ValueAt(kvs[..|kvs| - 1], length, p)
  }

  /** Some key is listed at or below `p`. */
  ghost predicate OnTheWay(kvs: seq<KeyValue>, length: nat, p: Path)
  {
    exists i :: 0 <= i < |kvs| && Listed(kvs[i], length) && p <= PathOf(kvs[i], length)
  }

  lemma ValueAtNext(kvs: seq<KeyValue>, i: nat, length: nat, p: Path)
    requires i < |kvs|
    ensures ValueAt(kvs[..i + 1], length, p) ==
            if Listed(kvs[i], length) && PathOf(kvs[i], length) == p then Some(kvs[i].value) else ValueAt(kvs[..i], length, p)
  {
    assert kvs[..i + 1][..i] == kvs[..i];
  }

  lemma OnTheWayNext(kvs: seq<KeyValue>, i: nat, length: nat, p: Path)
    requires i < |kvs|
    ensures OnTheWay(kvs[..i + 1], length, p) <==>
            OnTheWay(kvs[..i], length, p) || (Listed(kvs[i], length) && p <= PathOf(kvs[i], length))
  {
    var now, next := kvs[..i], kvs[..i + 1];
    if k :| 0 <= k < |now| && Listed(now[k], length) && p <= PathOf(now[k], length) {
      assert next[k] == now[k];
    }
    if k :| 0 <= k < |next| && Listed(next[k], length) && p <= PathOf(next[k], length) {
      assert k < i ==> now[k] == next[k];
    }
    assert next[i] == kvs[i];
  }

  lemma {:induction false} ValueIsOnTheWay(kvs: seq<KeyValue>, length: nat, p: Path)
    requires ValueAt(kvs, length, p).Some?
    ensures OnTheWay(kvs, length, p)
    decreases |kvs|
  {
    var n := |kvs| - 1;
    assert kvs[..n + 1] == kvs;
    if !(Listed(kvs[n], length) && PathOf(kvs[n], length) == p) {
      ValueIsOnTheWay(kvs[..n], length, p);
    }
    OnTheWayNext(kvs, n, length, p);
  }

  /** `t` holds exactly the paths of the keys seen so far. */
  ghost predicate Covers(kvs: seq<KeyValue>, length: nat, t: Plan)
  {
    forall p {:trigger p in t.nodes} {:trigger OnTheWay(kvs, length, p)} :: p in t.nodes <==> p == [] || OnTheWay(kvs, length, p)
  }

  /** ... with their values. */
  ghost predicate Labelled(kvs: seq<KeyValue>, length: nat, t: Plan)
    requires IsTree(t)
    reads t.paths.Keys
  {
    forall p :: p in t.nodes ==> t.nodes[p].value == ValueAt(kvs, length, p)
  }

  lemma CoversNext(kvs: seq<KeyValue>, i: nat, length: nat, t: Plan, u: Plan)
    requires i < |kvs| && Covers(kvs[..i], length, t)
    requires if Listed(kvs[i], length) then
               IsTree(u) && Extended(t, u, PathOf(kvs[i], length)) && PathOf(kvs[i], length) in u.nodes
             else u == t
    ensures Covers(kvs[..i + 1], length, u)
  {
    forall p ensures p in u.nodes <==> p == [] || OnTheWay(kvs[..i + 1], length, p) {
      OnTheWayNext(kvs, i, length, p);
      if Listed(kvs[i], length) && p <= PathOf(kvs[i], length) {
        NamedPrefix(u, PathOf(kvs[i], length), |p|);
        assert PathOf(kvs[i], length)[..|p|] == p;
      }
    }
  }

  /** A path that is not in the tree yet has no value yet. */
  lemma NoValueYet(kvs: seq<KeyValue>, length: nat, t: Plan, p: Path)
    requires Covers(kvs, length, t) && p !in t.nodes
    ensures ValueAt(kvs, length, p).None?
  {
    if ValueAt(kvs, length, p).Some? {
      ValueIsOnTheWay(kvs, length, p);
    }
  }

  /** The tree `t` below `root` represents the keys `kvs`. */
  ghost predicate Represents(root: Node, t: Plan, kvs: seq<KeyValue>, length: nat)
    reads t.paths.Keys
  {
    Built(root, t) && Covers(kvs, length, t) && Labelled(kvs, length, t)
  }

  /** One listed key: its leaf, with everything else as it was. */
  method Insert(root: Node, kvs: seq<KeyValue>, i: nat, length: nat, ghost t: Plan) returns (ghost u: Plan)
    requires i < |kvs| && Listed(kvs[i], length) && Represents(root, t, kvs[..i], length)
    modifies t.paths.Keys
    ensures Represents(root, u, kvs[..i + 1], length)
    ensures fresh(u.paths.Keys - t.paths.Keys)
    ensures forall p :: p in t.nodes ==> p in u.nodes && u.nodes[p] == t.nodes[p]
  {
    var leaf: Node;
    leaf, u := ParseToDirTree(root, PathOf(kvs[i], length), t);
    leaf.value := Some(kvs[i].value);
    forall p | p in u.nodes ensures u.nodes[p].value == ValueAt(kvs[..i + 1], length, p) {
      ValueAtNext(kvs, i, length, p);
      if p !in t.nodes {
        NoValueYet(kvs[..i], length, t, p);
      }
    }
    CoversNext(kvs, i, length, t, u);
  }

  /** A key that is not listed changes nothing. */
  lemma Skipped(root: Node, t: Plan, kvs: seq<KeyValue>, i: nat, length: nat)
    requires i < |kvs| && !Listed(kvs[i], length) && Represents(root, t, kvs[..i], length)
    ensures Represents(root, t, kvs[..i + 1], length)
  {
    CoversNext(kvs, i, length, t, t);
    forall p | p in t.nodes ensures t.nodes[p].value == ValueAt(kvs[..i + 1], length, p) {
      ValueAtNext(kvs, i, length, p);
    }
  }

  method Empty(length: nat) returns (root: Node, ghost t: Plan)
    ensures Represents(root, t, [], length)
    ensures fresh(t.paths.Keys)
  {
    root := new Node();
    t := Plan(map[[] := root], map[[] := map[]], map[root := []]);
  }

  /** What a reader finds below `root`: a node exactly on the way to a listed key, with the value listed there. */
  ghost predicate ShowsAt(root: Node, kvs: seq<KeyValue>, length: nat, p: Path)
    reads *
  {
    && (Walk(root, p).Some? <==> p == [] || OnTheWay(kvs, length, p))
    && (Walk(root, p).Some? ==> Walk(root, p).value.value == ValueAt(kvs, length, p))
  }

  lemma RepresentsShows(root: Node, t: Plan, kvs: seq<KeyValue>, length: nat, p: Path)
    requires Represents(root, t, kvs, length)
    ensures ShowsAt(root, kvs, length, p)
  {
    WalkFindsPlanned(root, t, [], p);
    assert [] + p == p;
  }

  method List(kvs: seq<KeyValue>, length: nat) returns (root: Node)
    ensures forall p :: ShowsAt(root, kvs, length, p)
  {
    ghost var t: Plan;
    root, t := Build(kvs, length);
    forall p ensures ShowsAt(root, kvs, length, p) {
      RepresentsShows(root, t, kvs, length, p);
    }
  }

  method Build(kvs: seq<KeyValue>, length: nat) returns (root: Node, ghost t: Plan)
    ensures Represents(root, t, kvs, length)
  {
    root, t := Empty(length);
    var i := 0;
    while i < |kvs|
      invariant 0 <= i <= |kvs|
      invariant Represents(root, t, kvs[..i], length)
      invariant fresh(t.paths.Keys)
    {
      if Listed(kvs[i], length) {
        t := Insert(root, kvs, i, length, t);
      } else {
        Skipped(root, t, kvs, i, length);
      }
      i := i + 1;
    }
    assert kvs[..|kvs|] == kvs;
  }

  // ---------- what a reader of the tree finds ----------

  /** The keys of one etcd range: all below the same directory, no key twice. */
  ghost predicate Range(kvs: seq<KeyValue>, dir: string)
  {
    && (forall i :: 0 <= i < |kvs| ==> dir <= kvs[i].key)
    && (forall i, j :: 0 <= i < j < |kvs| ==> kvs[i].key != kvs[j].key)
  }

  lemma KeysApart(a: KeyValue, b: KeyValue, dir: string)
    requires dir <= a.key && dir <= b.key && a.key != b.key && Listed(a, |dir|) && Listed(b, |dir|)
    ensures PathOf(a, |dir|) != PathOf(b, |dir|)
  {
    assert a.key == dir + a.key[|dir|..] && b.key == dir + b.key[|dir|..];
    if PathOf(a, |dir|) == PathOf(b, |dir|) {
      SplitInjective(a.key[|dir|..], b.key[|dir|..], '/');
    }
  }

  lemma {:induction false} ValueAtKey(kvs: seq<KeyValue>, dir: string, i: nat)
    requires Range(kvs, dir) && i < |kvs| && Listed(kvs[i], |dir|)
    ensures ValueAt(kvs, |dir|, PathOf(kvs[i], |dir|)) == Some(kvs[i].value)
    decreases |kvs|
  {
    var n := |kvs| - 1;
    if i < n {
      var rest := kvs[..n];
      ValueAtKey(rest, dir, i);
      if Listed(kvs[n], |dir|) {
        KeysApart(kvs[n], kvs[i], dir);
      }
    }
  }

  lemma {:induction false} KeyOfValue(kvs: seq<KeyValue>, length: nat, p: Path) returns (i: nat)
    requires ValueAt(kvs, length, p).Some?
    ensures i < |kvs| && Listed(kvs[i], length) && PathOf(kvs[i], length) == p
    ensures ValueAt(kvs, length, p) == Some(kvs[i].value)
    decreases |kvs|
  {
    i := |kvs| - 1;
    if !(Listed(kvs[i], length) && PathOf(kvs[i], length) == p) {
      i := KeyOfValue(kvs[..i], length, p);
    }
  }

  /**
   The tree agrees with the flat keys: walking the split of a key reaches its value,
   and a walk that reaches a value has walked the split of a key with that value.
   */
  lemma WalkAgreesWithKeys(root: Node, kvs: seq<KeyValue>, dir: string)
    requires Range(kvs, dir) && forall p :: ShowsAt(root, kvs, |dir|, p)
    ensures forall i :: 0 <= i < |kvs| && Listed(kvs[i], |dir|) ==>
              var n := Walk(root, PathOf(kvs[i], |dir|));
              n.Some? && n.value.value == Some(kvs[i].value)
    ensures forall p :: Walk(root, p).Some? && Walk(root, p).value.value.Some? ==>
              exists i :: 0 <= i < |kvs| && Listed(kvs[i], |dir|) && PathOf(kvs[i], |dir|) == p
                          && Walk(root, p).value.value == Some(kvs[i].value)
  {
    forall i | 0 <= i < |kvs| && Listed(kvs[i], |dir|)
      ensures Walk(root, PathOf(kvs[i], |dir|)).Some?
      ensures Walk(root, PathOf(kvs[i], |dir|)).value.value == Some(kvs[i].value)
    {
      var p := PathOf(kvs[i], |dir|);
      ValueAtKey(kvs, dir, i);
      assert OnTheWay(kvs, |dir|, p) && ShowsAt(root, kvs, |dir|, p);
    }
    forall p | Walk(root, p).Some? && Walk(root, p).value.value.Some?
      ensures exists i :: 0 <= i < |kvs| && Listed(kvs[i], |dir|) && PathOf(kvs[i], |dir|) == p
                          && Walk(root, p).value.value == Some(kvs[i].value)
    {
      assert ShowsAt(root, kvs, |dir|, p);
      var i := KeyOfValue(kvs, |dir|, p);
    }
  }

  /** The key of a path below a directory. */
  function KeyAt(dir: string, p: Path): string
    requires p != []
  {
    dir + Join(p, '/')
  }

  lemma PathOfKey(kv: KeyValue, dir: string, p: Path)
    requires p != [] && Clean(p, '/') && dir <= kv.key && Listed(kv, |dir|)
    ensures PathOf(kv, |dir|) == p <==> kv.key == KeyAt(dir, p)
  {
    SplitExactly(kv.key[|dir|..], p, '/');
    assert kv.key == dir + kv.key[|dir|..];
  }

  /** The key of the directory itself is not in the tree, although its remainder splits into one empty name. */
  lemma {:induction false} OwnKeySkipped(kvs: seq<KeyValue>, length: nat)
    ensures ValueAt(kvs, length, [""]).None?
    decreases |kvs|
  {
    if kvs != [] {
      var last := kvs[|kvs| - 1];
      OwnKeySkipped(kvs[..|kvs| - 1], length);
      if Listed(last, length) {
        JoinSplit(last.key[length..], '/');
      }
    }
  }

  /**
   The law of the tree, on keys: walking directories that hold no slash reaches a value if
   and only if the key made of them is there, with that value; and then every directory on
   the way has a node.
   */
  lemma KeyIsWalk(root: Node, kvs: seq<KeyValue>, dir: string, p: Path)
    requires Range(kvs, dir) && forall q :: ShowsAt(root, kvs, |dir|, q)
    requires p != [] && Clean(p, '/') && Join(p, '/') != ""
    ensures forall i :: 0 <= i < |kvs| && kvs[i].key == KeyAt(dir, p) ==>
              Walk(root, p).Some? && Walk(root, p).value.value == Some(kvs[i].value)
    ensures Walk(root, p).Some? && Walk(root, p).value.value.Some? ==>
              exists i :: 0 <= i < |kvs| && kvs[i].key == KeyAt(dir, p) && Walk(root, p).value.value == Some(kvs[i].value)
    ensures forall i, k :: 0 <= i < |kvs| && kvs[i].key == KeyAt(dir, p) && 0 <= k <= |p| ==> Walk(root, p[..k]).Some?
  {
    WalkAgreesWithKeys(root, kvs, dir);
    forall i | 0 <= i < |kvs| && kvs[i].key == KeyAt(dir, p)
      ensures Listed(kvs[i], |dir|) && PathOf(kvs[i], |dir|) == p
    {
      PathOfKey(kvs[i], dir, p);
    }
    if Walk(root, p).Some? && Walk(root, p).value.value.Some? {
      var i :| 0 <= i < |kvs| && Listed(kvs[i], |dir|) && PathOf(kvs[i], |dir|) == p
               && Walk(root, p).value.value == Some(kvs[i].value);
      PathOfKey(kvs[i], dir, p);
    }
    forall i, k | 0 <= i < |kvs| && kvs[i].key == KeyAt(dir, p) && 0 <= k <= |p| ensures Walk(root, p[..k]).Some? {
      assert OnTheWay(kvs, |dir|, p[..k]) && ShowsAt(root, kvs, |dir|, p[..k]);
    }
  }
}
