/**
 json_filter: the in-place stack walk and the recursive prune it amounts to.
 The walk goes down through dicts only. Objects may be shared; one that is
 reached both through a list and around it is filtered in both places.
 */
module JsonFilter {
  import opened OrderedDict
  import opened EventTree
  import opened Sequences

  // fnmatch.fnmatch(name, pattern)
  type Glob = (string, string) -> bool

  datatype Filter = Filter(excludeKeys: seq<string>, includeKeys: seq<string>, glob: Glob)

  predicate MatchesAny(item: string, patterns: seq<string>, glob: Glob) {
    exists i :: 0 <= i < |patterns| && glob(item, patterns[i])
  }

  predicate ShouldInclude(item: string, f: Filter) {
    item in f.includeKeys || MatchesAny(item, f.includeKeys, f.glob)
  }

  predicate ShouldExclude(item: string, f: Filter) {
    item in f.excludeKeys || MatchesAny(item, f.excludeKeys, f.glob)
  }

  // Which keys stay.
  type Keep = string -> bool

  function KeepOf(f: Filter): Keep {
    item => ShouldInclude(item, f) || !ShouldExclude(item, f)
  }

  function Kept<V>(e: seq<(string, V)>, keep: Keep): seq<(string, V)> {
    if e == [] then []
    else (if keep(e[0].0) then [e[0]] else []) + Kept(e[1..], keep)
  }

  lemma {:induction false} KeptMembers<V>(e: seq<(string, V)>, keep: Keep, i: nat)
    requires i < |Kept(e, keep)|
    ensures Kept(e, keep)[i] in e && keep(Kept(e, keep)[i].0)
  {
    var skip := if keep(e[0].0) then 1 else 0;
    if i >= skip {
      KeptMembers(e[1..], keep, i - skip);
    }
  }

  lemma {:induction false} KeptAll<V>(e: seq<(string, V)>, keep: Keep)
    requires forall i :: 0 <= i < |e| ==> keep(e[i].0)
    ensures Kept(e, keep) == e
  {
    if e != [] {
      KeptAll(e[1..], keep);
    }
  }

  lemma {:induction false} KeptHas<V>(e: seq<(string, V)>, keep: Keep, i: nat)
    requires i < |e| && keep(e[i].0)
    ensures e[i] in Kept(e, keep)
    decreases |e|
  {
    if i > 0 {
      KeptHas(e[1..], keep, i - 1);
    } else {
      assert Kept(e, keep)[0] == e[0];
    }
  }

  // --- The recursive prune -----------------------------------------------------

  // Every value pruned, no key dropped yet.
  function PruneBelow(j: Json, keep: Keep): (r: seq<(string, Json)>)
    requires j.Object?
    decreases j, 0
    ensures |r| == |j.entries| && forall i :: 0 <= i < |r| ==> r[i] == (j.entries[i].0, Prune(j.entries[i].1, keep))
  {
    seq(|j.entries|, i requires 0 <= i < |j.entries| => (j.entries[i].0, Prune(j.entries[i].1, keep)))
  }

  // Through dicts, not through lists.
  function Prune(j: Json, keep: Keep): Json
    decreases j, 1
  {
    if j.Object? then Object(Kept(PruneBelow(j, keep), keep)) else j
  }

  // An excluded key survives only if it is included; under dicts, at any depth.
  predicate Clean(j: Json, keep: Keep) {
    j.Object? ==> forall i :: 0 <= i < |j.entries| ==> keep(j.entries[i].0) && Clean(j.entries[i].1, keep)
  }

  lemma {:induction false} PruneClean(j: Json, keep: Keep)
    ensures Clean(Prune(j, keep), keep)
  {
    if j.Object? {
      var below := PruneBelow(j, keep);
      forall i | 0 <= i < |Kept(below, keep)|
        ensures keep(Kept(below, keep)[i].0) && Clean(Kept(below, keep)[i].1, keep)
      {
        KeptMembers(below, keep, i);
        var k :| 0 <= k < |below| && below[k] == Kept(below, keep)[i];
        PruneClean(j.entries[k].1, keep);
      }
    }
  }

  lemma {:induction false} CleanUnchanged(j: Json, keep: Keep)
    requires Clean(j, keep)
    ensures Prune(j, keep) == j
  {
    if j.Object? {
      forall i | 0 <= i < |j.entries| ensures PruneBelow(j, keep)[i] == j.entries[i] {
        CleanUnchanged(j.entries[i].1, keep);
      }
      assert PruneBelow(j, keep) == j.entries;
      KeptAll(j.entries, keep);
    }
  }

  // Filtering twice changes nothing more.
  lemma PruneTwice(j: Json, keep: Keep)
    ensures Prune(Prune(j, keep), keep) == Prune(j, keep)
  {
    PruneClean(j, keep);
    CleanUnchanged(Prune(j, keep), keep);
  }

  // A key is one of these or matches one of them.
  predicate Selects(keys: seq<string>, glob: Glob, item: string) {
    exists key :: key in keys && (item == key || glob(item, key))
  }

  lemma KeptExactly(f: Filter, item: string)
    ensures KeepOf(f)(item) <==> Selects(f.includeKeys, f.glob, item) || !Selects(f.excludeKeys, f.glob, item)
  {
    SelectsExactly(f.includeKeys, f.glob, item);
    SelectsExactly(f.excludeKeys, f.glob, item);
  }

  lemma SelectsExactly(keys: seq<string>, glob: Glob, item: string)
    ensures Selects(keys, glob, item) <==> item in keys || MatchesAny(item, keys, glob)
  {
    if MatchesAny(item, keys, glob) {
      var i :| 0 <= i < |keys| && glob(item, keys[i]);
      assert keys[i] in keys;
    }
    if key :| key in keys && glob(item, key) {
      var i :| 0 <= i < |keys| && keys[i] == key;
    }
  }

  // Of a dict, exactly the keys that are excluded and not included are dropped;
  // the others keep their pruned values.
  lemma PruneDropsExactly(e: seq<(string, Json)>, f: Filter, x: (string, Json))
    ensures x in Prune(Object(e), KeepOf(f)).entries <==>
      exists i ::
        && 0 <= i < |e| && x == (e[i].0, Prune(e[i].1, KeepOf(f)))
        && !(Selects(f.excludeKeys, f.glob, e[i].0) && !Selects(f.includeKeys, f.glob, e[i].0))
  {
    var keep := KeepOf(f);
    var below := PruneBelow(Object(e), keep);
    if x in Kept(below, keep) {
      var i :| 0 <= i < |Kept(below, keep)| && Kept(below, keep)[i] == x;
      KeptMembers(below, keep, i);
      var k :| 0 <= k < |below| && below[k] == x;
      assert x == (e[k].0, Prune(e[k].1, keep));
      KeptExactly(f, e[k].0);
    }
    forall i | 0 <= i < |e| && x == (e[i].0, Prune(e[i].1, keep))
               && !(Selects(f.excludeKeys, f.glob, e[i].0) && !Selects(f.includeKeys, f.glob, e[i].0))
      ensures x in Kept(below, keep)
    {
      KeptExactly(f, e[i].0);
      KeptHas(below, keep, i);
    }
  }

  // --- The walk over objects ---------------------------------------------------

  ghost function Shallow(c: Content, keep: Keep): Content {
    if c.DictOf? then DictOf(Kept(c.entries, keep)) else c
  }

  // The values a dict is left with.
  ghost function Left(h: Snapshot, n: Node, keep: Keep): seq<Value>
    requires n in h && h[n].DictOf?
  {
    Values(Kept(h[n].entries, keep))
  }

  ghost predicate IsDict(h: Snapshot, n: Node) {
    n in h && h[n].DictOf?
  }

  // From dict to dict, through keys that are kept.
  ghost predicate IsPath(h: Snapshot, keep: Keep, older path: seq<Node>) {
    && path != []
    && (forall i :: 0 <= i < |path| ==> IsDict(h, path[i]))
    && (forall i, j :: 0 <= i && j == i + 1 < |path| ==> Ref(path[j]) in Left(h, path[i], keep))
  }

  // The dicts the walk gets to.
  ghost predicate Walked(h: Snapshot, keep: Keep, root: Node, n: Node) {
    exists path :: IsPath(h, keep, path) && path[0] == root && path[|path| - 1] == n
  }

  lemma RootWalked(h: Snapshot, keep: Keep, root: Node)
    requires IsDict(h, root)
    ensures Walked(h, keep, root, root)
  {
    assert IsPath(h, keep, [root]);
  }

  lemma WalkedNext(h: Snapshot, keep: Keep, root: Node, n: Node, c: Node)
    requires Walked(h, keep, root, n) && IsDict(h, n) && IsDict(h, c) && Ref(c) in Left(h, n, keep)
    ensures Walked(h, keep, root, c)
  {
    var path :| IsPath(h, keep, path) && path[0] == root && path[|path| - 1] == n;
    var longer := path + [c];
    assert IsPath(h, keep, longer) && longer[|longer| - 1] == c;
  }

  lemma WalkedBefore(h: Snapshot, keep: Keep, root: Node, n: Node) returns (d: Node)
    requires Walked(h, keep, root, n) && n != root
    ensures Walked(h, keep, root, d) && IsDict(h, d) && Ref(n) in Left(h, d, keep)
  {
    var path :| IsPath(h, keep, path) && path[0] == root && path[|path| - 1] == n;
    var k, last := |path| - 2, |path| - 1;
    d := path[k];
    assert Ref(path[last]) in Left(h, path[k], keep);
    assert IsPath(h, keep, path[..k + 1]) && path[..k + 1][k] == d;
  }

  // done: the dicts filtered so far.
  ghost predicate WalkOk(h0: Snapshot, h: Snapshot, done: set<Node>, queue: seq<Value>, root: Node, keep: Keep) {
    && h.Keys == h0.Keys && done <= h.Keys && root in h0
    && (forall n :: n in h ==> h[n] == if n in done then Shallow(h0[n], keep) else h0[n])
    && (forall n :: n in done ==> h0[n].DictOf? && Walked(h0, keep, root, n))
    && AllWalked(h0, queue, root, keep)
    && (h0[root].DictOf? ==> root in done || Ref(root) in queue)
    && (forall n, v :: n in done && v in Children(h[n]) && v.Ref? && v.node in h0 && h0[v.node].DictOf? ==>
          v.node in done || v in queue)
  }

  ghost predicate AllWalked(h0: Snapshot, queue: seq<Value>, root: Node, keep: Keep) {
    forall i :: 0 <= i < |queue| ==>
      Known(h0, queue[i]) && (queue[i].Ref? && IsDict(h0, queue[i].node) ==> Walked(h0, keep, root, queue[i].node))
  }

  lemma SameBelow(h0: Snapshot, h: Snapshot, n: Node)
    requires WellFounded(h0) && WellFounded(h) && n in h0 && n in h && h[n] == h0[n]
    requires forall c :: c in Children(h0[n]) ==> Known(h, c) && Tree(h, c) == Tree(h0, c)
    ensures Tree(h, Ref(n)) == Tree(h0, Ref(n))
  {
    match h0[n]
    case ListOf(items) => assert Tree(h, Ref(n)).items == Tree(h0, Ref(n)).items;
    case DictOf(entries) =>
      assert forall i :: 0 <= i < |entries| ==> entries[i].1 == Children(h0[n])[i];
      assert Tree(h, Ref(n)).entries == Tree(h0, Ref(n)).entries;
  }

  // --- One dict ------------------------------------------------------------------

  lemma {:induction false} KeptAppend<V>(a: seq<(string, V)>, b: seq<(string, V)>, keep: Keep)
    ensures Kept(a + b, keep) == Kept(a, keep) + Kept(b, keep)
  {
    if a == [] {
      assert a + b == b;
    } else {
      KeptAppend(a[1..], b, keep);
      assert (a + b)[0] == a[0] && (a + b)[1..] == a[1..] + b;
      var first := if keep(a[0].0) then [a[0]] else [];
      Associates(first, Kept(a[1..], keep), Kept(b, keep));
    }
  }

  lemma KeptTwice<V>(e: seq<(string, V)>, keep: Keep)
    ensures Kept(Kept(e, keep), keep) == Kept(e, keep)
  {
    forall i | 0 <= i < |Kept(e, keep)| ensures keep(Kept(e, keep)[i].0) {
      KeptMembers(e, keep, i);
    }
    KeptAll(Kept(e, keep), keep);
  }

  lemma {:induction false} KeptDistinct<V>(e: seq<(string, V)>, keep: Keep)
    requires Distinct(e)
    ensures Distinct(Kept(e, keep))
  {
    if e != [] {
      KeptDistinct(e[1..], keep);
      forall i | 0 <= i < |Kept(e[1..], keep)| ensures Kept(e[1..], keep)[i].0 != e[0].0 {
        KeptMembers(e[1..], keep, i);
      }
    }
  }

  // Where the loop of _process_dict_keys finds the key at hand.
  lemma KeyAtHand<V>(e: seq<(string, V)>, keep: Keep, i: nat)
    requires Distinct(e) && i < |e|
    ensures IndexOf(Kept(e[..i], keep) + e[i..], e[i].0) == |Kept(e[..i], keep)|
  {
    var cur := Kept(e[..i], keep) + e[i..];
    forall j | 0 <= j < |Kept(e[..i], keep)| ensures cur[j].0 != e[i].0 {
      KeptMembers(e[..i], keep, j);
    }
    assert cur[|Kept(e[..i], keep)|] == e[i];
  }

  // The dict after i turns of that loop.
  ghost function Midway<V>(e: seq<(string, V)>, keep: Keep, i: nat): seq<(string, V)>
    requires i <= |e|
  {
    Kept(e[..i], keep) + e[i..]
  }

  // Dropping or keeping the entry between what was gone over and what is to come.
  lemma Between<T>(done: seq<T>, x: T, rest: seq<T>)
    ensures var cur := done + ([x] + rest);
            cur[..|done|] == done && cur[|done|] == x && cur[|done| + 1..] == rest && done + [x] + rest == cur
  {
  }

  // One turn of that loop: drop the key at hand, or keep it.
  lemma FilterTurn<V>(e: seq<(string, V)>, keep: Keep, i: nat)
    requires Distinct(e) && i < |e|
    ensures var cur, next := Midway(e, keep, i), Midway(e, keep, i + 1);
            && HasKey(cur, e[i].0) && Lookup(cur, e[i].0) == e[i].1
            && next == (if keep(e[i].0) then cur else Delete(cur, e[i].0))
            && KeptValues(e, keep, i + 1) == KeptValues(e, keep, i) + if keep(e[i].0) then [e[i].1] else []
  {
    KeyAtHand(e, keep, i);
    KeptSnoc(e, keep, i);
    assert e[i..] == [e[i]] + e[i + 1..];
    Between(Kept(e[..i], keep), e[i], e[i + 1..]);
    ValuesSnoc(Kept(e[..i], keep), e[i]);
    assert Kept(e[..i], keep) + [] == Kept(e[..i], keep);
  }

  lemma ValuesSnoc<V>(e: seq<(string, V)>, x: (string, V))
    ensures Values(e + [x]) == Values(e) + [x.1]
  {
  }

  lemma KeptSnoc<V>(e: seq<(string, V)>, keep: Keep, i: nat)
    requires i < |e|
    ensures Kept(e[..i + 1], keep) == Kept(e[..i], keep) + if keep(e[i].0) then [e[i]] else []
  {
    KeptAppend(e[..i], [e[i]], keep);
    assert e[..i + 1] == e[..i] + [e[i]];
    assert [e[i]][1..] == [];
  }

  // The body of that loop.
  method ProcessKey(n: Node, item: string, queue: seq<Value>, f: Filter) returns (queue': seq<Value>)
    requires n.content.DictOf? && HasKey(n.content.entries, item)
    modifies n
    ensures n.content == if KeepOf(f)(item) then old(n.content) else DictOf(Delete(old(n.content.entries), item))
    ensures queue' == queue + if KeepOf(f)(item) then [Lookup(old(n.content.entries), item)] else []
  {
    queue' := queue;
    if ShouldInclude(item, f) {
      queue' := queue' + [Lookup(n.content.entries, item)];
    } else if ShouldExclude(item, f) {
      n.content := DictOf(Delete(n.content.entries, item));
    } else {
      queue' := queue' + [Lookup(n.content.entries, item)];
    }
  }

  // Exactly the entries whose key is excluded and not included are dropped.
  ghost predicate Drops(e: seq<(string, Value)>, left: seq<(string, Value)>, f: Filter) {
    && (forall i :: 0 <= i < |left| ==> left[i] in e)
    && (forall i :: 0 <= i < |e| ==>
          (e[i] in left <==> !(Selects(f.excludeKeys, f.glob, e[i].0) && !Selects(f.includeKeys, f.glob, e[i].0))))
  }

  // _process_dict_keys
  method ProcessDictKeys(n: Node, queue: seq<Value>, f: Filter) returns (queue': seq<Value>)
    requires n.content.DictOf? && Distinct(n.content.entries)
    modifies n
    ensures n.content == DictOf(Kept(old(n.content.entries), KeepOf(f)))
    ensures queue' == queue + Values(Kept(old(n.content.entries), KeepOf(f)))
    ensures Drops(old(n.content.entries), n.content.entries, f)
  {
    KeepsExactly(n.content.entries, f);
    ghost var e, keep := n.content.entries, KeepOf(f);
    var keys := Keys(n.content.entries);
    queue' := queue;
    MidwayEnds(e, keep);
    for i := 0 to |keys|
      invariant n.content == DictOf(Midway(e, keep, i))
      invariant queue' == queue + KeptValues(e, keep, i)
    {
      FilterTurn(e, keep, i);
      Associates(queue, KeptValues(e, keep, i), if keep(e[i].0) then [e[i].1] else []);
      queue' := ProcessKey(n, keys[i], queue', f);
    }
  }

  lemma KeepsExactly(e: seq<(string, Value)>, f: Filter)
    ensures Drops(e, Kept(e, KeepOf(f)), f)
  {
    var keep := KeepOf(f);
    forall i | 0 <= i < |Kept(e, keep)| ensures Kept(e, keep)[i] in e && keep(Kept(e, keep)[i].0) {
      KeptMembers(e, keep, i);
    }
    forall i | 0 <= i < |e|
      ensures e[i] in Kept(e, keep) <==>
              !(Selects(f.excludeKeys, f.glob, e[i].0) && !Selects(f.includeKeys, f.glob, e[i].0))
    {
      KeptExactly(f, e[i].0);
      if keep(e[i].0) {
        KeptHas(e, keep, i);
      }
    }
  }

  // The values pushed after i turns.
  ghost function KeptValues<V>(e: seq<(string, V)>, keep: Keep, i: nat): seq<V>
    requires i <= |e|
  {
    Values(Kept(e[..i], keep))
  }

  lemma MidwayEnds<V>(e: seq<(string, V)>, keep: Keep)
    ensures Midway(e, keep, 0) == e && KeptValues(e, keep, 0) == []
    ensures Midway(e, keep, |e|) == Kept(e, keep) && KeptValues(e, keep, |e|) == Values(Kept(e, keep))
  {
    assert e[..0] == [] && [] + e == e && e[..|e|] == e;
  }

  // --- The result of the walk ------------------------------------------------------

  ghost function TreeEntries(h: Snapshot, e: seq<(string, Value)>): (r: seq<(string, Json)>)
    requires WellFounded(h) && AllKnown(h, Values(e))
    ensures |r| == |e| && forall i :: 0 <= i < |e| ==> Known(h, e[i].1) && r[i] == (e[i].0, Tree(h, e[i].1))
  {
    assert forall i :: 0 <= i < |e| ==> Values(e)[i] == e[i].1;
    seq(|e|, i requires 0 <= i < |e| => (e[i].0, Tree(h, e[i].1)))
  }

  // Reading off the kept entries is keeping of the pruned ones.
  lemma {:induction false} KeptTrees(h: Snapshot, e: seq<(string, Value)>, pruned: seq<(string, Json)>, keep: Keep)
    requires WellFounded(h) && |pruned| == |e|
    requires forall i :: 0 <= i < |e| ==> Known(h, e[i].1) && pruned[i].0 == e[i].0
    requires forall i :: 0 <= i < |e| && keep(e[i].0) ==> pruned[i].1 == Tree(h, e[i].1)
    ensures AllKnown(h, Values(Kept(e, keep))) && TreeEntries(h, Kept(e, keep)) == Kept(pruned, keep)
    decreases |e|
  {
    if e != [] {
      var first, rest := e[0], e[1..];
      KeptTrees(h, rest, pruned[1..], keep);
      if keep(first.0) {
        TreeEntriesCons(h, first, Kept(rest, keep));
        assert pruned[0] == (first.0, Tree(h, first.1));
      }
    }
  }

  lemma TreeEntriesCons(h: Snapshot, first: (string, Value), rest: seq<(string, Value)>)
    requires WellFounded(h) && Known(h, first.1) && AllKnown(h, Values(rest))
    ensures AllKnown(h, Values([first] + rest))
    ensures TreeEntries(h, [first] + rest) == [(first.0, Tree(h, first.1))] + TreeEntries(h, rest)
  {
    ValuesCons(first, rest);
  }

  lemma WalkKeepsWellFounded(h0: Snapshot, h: Snapshot, done: set<Node>, queue: seq<Value>, root: Node, keep: Keep)
    requires WellFounded(h0) && WalkOk(h0, h, done, queue, root, keep)
    ensures WellFounded(h)
  {
    forall n | n in h
      ensures forall v :: v in Children(h[n]) ==> Known(h, v) && Height(v) < Height(Ref(n))
      ensures h[n].DictOf? ==> Distinct(h[n].entries)
    {
      if n in done {
        KeptDistinct(h0[n].entries, keep);
        KeptChildren(h0[n].entries, keep);
      }
    }
  }

  lemma KeptChildren(e: seq<(string, Value)>, keep: Keep)
    ensures forall v :: v in Values(Kept(e, keep)) ==> v in Values(e)
  {
    forall v | v in Values(Kept(e, keep)) ensures v in Values(e) {
      var i :| 0 <= i < |Kept(e, keep)| && Kept(e, keep)[i].1 == v;
      KeptMembers(e, keep, i);
      var j :| 0 <= j < |e| && e[j] == Kept(e, keep)[i];
      assert Values(e)[j] == v;
    }
  }

  // A child left under a filtered dict was its child before.
  lemma ChildBefore(h0: Snapshot, n: Node, keep: Keep, c: Value)
    requires WellFounded(h0) && n in h0 && h0[n].DictOf? && c in Values(Kept(h0[n].entries, keep))
    ensures Known(h0, c) && Height(c) < Height(Ref(n))
  {
    KeptChildren(h0[n].entries, keep);
    assert c in Children(h0[n]);
  }

  // A kept entry is among the children that are left.
  lemma KeptIsChild(e: seq<(string, Value)>, keep: Keep, i: nat)
    requires i < |e| && keep(e[i].0)
    ensures e[i].1 in Values(Kept(e, keep))
  {
    KeptHas(e, keep, i);
    var j :| 0 <= j < |Kept(e, keep)| && Kept(e, keep)[j] == e[i];
    assert Values(Kept(e, keep))[j] == e[i].1;
  }

  lemma DictTree(h0: Snapshot, h: Snapshot, n: Node, keep: Keep)
    requires WellFounded(h0) && WellFounded(h) && h.Keys == h0.Keys && n in h0 && h0[n].DictOf?
    requires h[n] == DictOf(Kept(h0[n].entries, keep))
    requires forall c :: c in Children(h[n]) ==> Known(h0, c) && Known(h, c) && Tree(h, c) == Prune(Tree(h0, c), keep)
    ensures Tree(h, Ref(n)) == Prune(Tree(h0, Ref(n)), keep)
  {
    var e, json := h0[n].entries, Tree(h0, Ref(n));
    assert forall i :: 0 <= i < |e| ==> e[i].1 == Children(h0[n])[i];
    var pruned := PruneBelow(json, keep);
    assert forall i :: 0 <= i < |e| ==> pruned[i] == (e[i].0, Prune(Tree(h0, e[i].1), keep));
    forall i | 0 <= i < |e| && keep(e[i].0) ensures pruned[i].1 == Tree(h, e[i].1) {
      KeptIsChild(e, keep, i);
    }
    KeptTrees(h, e, pruned, keep);
    var left := Tree(h, Ref(n)).entries;
    assert forall j :: 0 <= j < |Kept(e, keep)| ==> Kept(e, keep)[j].1 == Children(h[n])[j];
    assert left == TreeEntries(h, Kept(e, keep));
  }

  // What the walk leaves: the dicts it gets to are filtered, nothing else is
  // changed.
  ghost predicate Filtered(h0: Snapshot, h: Snapshot, root: Node, keep: Keep) {
    h.Keys == h0.Keys
    && forall n :: n in h0 ==> h[n] == if Walked(h0, keep, root, n) then Shallow(h0[n], keep) else h0[n]
  }

  lemma {:induction false} PathDone(h0: Snapshot, h: Snapshot, done: set<Node>, root: Node, keep: Keep, path: seq<Node>)
    requires WalkOk(h0, h, done, [], root, keep) && IsPath(h0, keep, path) && path[0] == root
    ensures path[|path| - 1] in done
    decreases |path|
  {
    if |path| > 1 {
      var k, last := |path| - 2, |path| - 1;
      assert IsPath(h0, keep, path[..k + 1]);
      PathDone(h0, h, done, root, keep, path[..k + 1]);
      assert Ref(path[last]) in Left(h0, path[k], keep) && Left(h0, path[k], keep) == Children(h[path[k]]);
    }
  }

  lemma WalkIsFiltered(h0: Snapshot, h: Snapshot, done: set<Node>, root: Node, keep: Keep)
    requires WalkOk(h0, h, done, [], root, keep)
    ensures Filtered(h0, h, root, keep)
  {
    forall n | n in h0 && Walked(h0, keep, root, n) ensures n in done {
      var path :| IsPath(h0, keep, path) && path[0] == root && path[|path| - 1] == n;
      PathDone(h0, h, done, root, keep, path);
    }
  }

  // --- The tree after the walk -----------------------------------------------------

  // n is the object of v or some object below it.
  ghost predicate Below(h: Snapshot, v: Value, n: Node)
    requires WellFounded(h) && Known(h, v)
    decreases Height(v)
  {
    v.Ref? && (v.node == n || exists c :: c in Children(h[v.node]) && Below(h, c, n))
  }

  // A list that is left under a dict the walk gets to.
  ghost predicate LeftList(h: Snapshot, root: Node, keep: Keep, l: Node) {
    && l in h && h[l].ListOf?
    && exists d :: d in h && Walked(h, keep, root, d) && IsDict(h, d) && Ref(l) in Left(h, d, keep)
  }

  // No key is dropped inside such a list: what is in there and is walked by
  // another way has no key to drop.
  ghost predicate ListsKept(h: Snapshot, root: Node, keep: Keep)
    requires WellFounded(h)
  {
    forall l, n :: l in h && n in h && LeftList(h, root, keep, l) && Below(h, Ref(l), n) && Walked(h, keep, root, n) ==>
      Shallow(h[n], keep) == h[n]
  }

  // Where nothing below was changed, the tree is the same.
  lemma {:induction false} SameTree(h0: Snapshot, h: Snapshot, v: Value)
    requires WellFounded(h0) && WellFounded(h) && h.Keys == h0.Keys && Known(h0, v)
    requires forall n :: n in h0 && Below(h0, v, n) ==> h[n] == h0[n]
    ensures Tree(h, v) == Tree(h0, v)
    decreases Height(v)
  {
    if v.Ref? {
      var m := v.node;
      assert Below(h0, v, m);
      forall c | c in Children(h0[m]) ensures Tree(h, c) == Tree(h0, c) {
        forall n | n in h0 && Below(h0, c, n) ensures h[n] == h0[n] {
          assert Below(h0, v, n);
        }
        SameTree(h0, h, c);
      }
      SameBelow(h0, h, m);
    }
  }

  // Where something below was changed, the tree is another one.
  lemma {:induction false} OtherTree(h0: Snapshot, h: Snapshot, root: Node, keep: Keep, v: Value, n: Node)
    requires WellFounded(h0) && WellFounded(h) && Filtered(h0, h, root, keep) && Known(h0, v)
    requires n in h0 && Below(h0, v, n) && h[n] != h0[n]
    ensures Tree(h, v) != Tree(h0, v)
    decreases Height(v)
  {
    var m := v.node;
    if h[m] != h0[m] {
      KeptFewer(h0[m].entries, keep);
      assert |Tree(h, v).entries| == |h[m].entries| && |Tree(h0, v).entries| == |h0[m].entries|;
    } else {
      var c :| c in Children(h0[m]) && Below(h0, c, n);
      OtherTree(h0, h, root, keep, c, n);
      OtherChild(h0, h, m, c);
    }
  }

  lemma {:induction false} KeptFewer<V>(e: seq<(string, V)>, keep: Keep)
    ensures |Kept(e, keep)| <= |e| && (|Kept(e, keep)| == |e| ==> Kept(e, keep) == e)
  {
    if e != [] {
      KeptFewer(e[1..], keep);
      assert e == [e[0]] + e[1..];
    }
  }

  lemma OtherChild(h0: Snapshot, h: Snapshot, m: Node, c: Value)
    requires WellFounded(h0) && WellFounded(h) && m in h0 && m in h && h[m] == h0[m]
    requires c in Children(h0[m]) && Tree(h, c) != Tree(h0, c)
    ensures Tree(h, Ref(m)) != Tree(h0, Ref(m))
  {
    var i :| 0 <= i < |Children(h0[m])| && Children(h0[m])[i] == c;
    match h0[m]
    case ListOf(items) => assert Tree(h, Ref(m)).items[i] != Tree(h0, Ref(m)).items[i];
    case DictOf(entries) =>
      assert entries[i].1 == c;
      assert Tree(h, Ref(m)).entries[i].1 != Tree(h0, Ref(m)).entries[i].1;
  }

  // A value left under a walked dict, or the root: it reads as pruned.
  ghost predicate ReadsPruned(h0: Snapshot, h: Snapshot, keep: Keep, v: Value)
    requires WellFounded(h0) && WellFounded(h)
  {
    Known(h0, v) && Known(h, v) && Tree(h, v) == Prune(Tree(h0, v), keep)
  }

  // If no key is dropped inside a list, everything reads as pruned.
  lemma {:induction false} WalkedTree(h0: Snapshot, h: Snapshot, root: Node, keep: Keep, v: Value)
    requires WellFounded(h0) && WellFounded(h) && Filtered(h0, h, root, keep) && ListsKept(h0, root, keep)
    requires Known(h0, v) && (v.Ref? && IsDict(h0, v.node) ==> Walked(h0, keep, root, v.node))
    requires v.Ref? && !IsDict(h0, v.node) ==> LeftList(h0, root, keep, v.node)
    ensures ReadsPruned(h0, h, keep, v)
    decreases Height(v)
  {
    if v.Ref? && IsDict(h0, v.node) {
      forall c | c in Children(h[v.node]) ensures ReadsPruned(h0, h, keep, c) {
        ChildBefore(h0, v.node, keep, c);
        if c.Ref? && IsDict(h0, c.node) {
          WalkedNext(h0, keep, root, v.node, c.node);
        }
        WalkedTree(h0, h, root, keep, c);
      }
      DictTree(h0, h, v.node, keep);
    } else if v.Ref? {
      SameTree(h0, h, v);
    }
  }

  // If a value left under a walked dict does not read as pruned, neither does
  // the dict.
  lemma {:induction false} NotPrunedAbove(h0: Snapshot, h: Snapshot, root: Node, keep: Keep, d: Node, c: Value)
    requires WellFounded(h0) && WellFounded(h) && Filtered(h0, h, root, keep)
    requires Walked(h0, keep, root, d) && IsDict(h0, d) && c in Left(h0, d, keep) && !ReadsPruned(h0, h, keep, c)
    ensures !ReadsPruned(h0, h, keep, Ref(d))
  {
    ChildBefore(h0, d, keep, c);
    var e, json := h0[d].entries, Tree(h0, Ref(d));
    assert forall i :: 0 <= i < |e| ==> e[i].1 == Children(h0[d])[i];
    var pruned := PruneBelow(json, keep);
    assert forall i :: 0 <= i < |e| ==> pruned[i] == (e[i].0, Prune(Tree(h0, e[i].1), keep));
    var j :| 0 <= j < |Left(h0, d, keep)| && Left(h0, d, keep)[j] == c;
    KeptAligned(e, pruned, keep, j);
    assert Kept(e, keep)[j].1 == Children(h[d])[j];
    assert Tree(h, Ref(d)).entries[j].1 == Tree(h, c);
  }

  // Keeping picks the same places of two lists with the same keys.
  lemma {:induction false} KeptAligned<V, W>(e: seq<(string, V)>, f: seq<(string, W)>, keep: Keep, j: nat)
    requires |e| == |f| && (forall i :: 0 <= i < |e| ==> e[i].0 == f[i].0) && j < |Kept(e, keep)|
    ensures |Kept(f, keep)| == |Kept(e, keep)|
    ensures exists i :: 0 <= i < |e| && Kept(e, keep)[j] == e[i] && Kept(f, keep)[j] == f[i]
    decreases |e|
  {
    var skip := if keep(e[0].0) then 1 else 0;
    if j >= skip {
      KeptAligned(e[1..], f[1..], keep, j - skip);
      var i :| 0 <= i < |e[1..]| && Kept(e[1..], keep)[j - skip] == e[1..][i]
               && Kept(f[1..], keep)[j - skip] == f[1..][i];
      var k := i + 1;
      assert Kept(e, keep)[j] == e[k] && Kept(f, keep)[j] == f[k];
    } else {
      SameKept(e[1..], f[1..], keep);
      assert Kept(e, keep)[j] == e[0] && Kept(f, keep)[j] == f[0];
    }
  }

  lemma {:induction false} SameKept<V, W>(e: seq<(string, V)>, f: seq<(string, W)>, keep: Keep)
    requires |e| == |f| && forall i :: 0 <= i < |e| ==> e[i].0 == f[i].0
    ensures |Kept(f, keep)| == |Kept(e, keep)|
    decreases |e|
  {
    if e != [] {
      SameKept(e[1..], f[1..], keep);
    }
  }

  lemma {:induction false} NotPrunedAtRoot(h0: Snapshot, h: Snapshot, root: Node, keep: Keep, path: seq<Node>)
    requires WellFounded(h0) && WellFounded(h) && Filtered(h0, h, root, keep)
    requires IsPath(h0, keep, path) && path[0] == root && !ReadsPruned(h0, h, keep, Ref(path[|path| - 1]))
    ensures !ReadsPruned(h0, h, keep, Ref(root))
    decreases |path|
  {
    if |path| > 1 {
      var k, last := |path| - 2, |path| - 1;
      var shorter := path[..k + 1];
      assert IsPath(h0, keep, shorter) && shorter[0] == root && shorter[k] == path[k];
      assert Walked(h0, keep, root, path[k]);
      assert Ref(path[last]) in Left(h0, path[k], keep);
      NotPrunedAbove(h0, h, root, keep, path[k], Ref(path[last]));
      NotPrunedAtRoot(h0, h, root, keep, shorter);
    }
  }

  // One key dropped inside a list shows in the event.
  lemma {:induction false} DroppedInList(h0: Snapshot, h: Snapshot, root: Node, keep: Keep, l: Node, n: Node)
    requires WellFounded(h0) && WellFounded(h) && Filtered(h0, h, root, keep)
    requires LeftList(h0, root, keep, l) && n in h0 && Below(h0, Ref(l), n) && h[n] != h0[n]
    ensures !ReadsPruned(h0, h, keep, Ref(root))
  {
    OtherTree(h0, h, root, keep, Ref(l), n);
    assert Prune(Tree(h0, Ref(l)), keep) == Tree(h0, Ref(l));
    var d :| d in h0 && Walked(h0, keep, root, d) && IsDict(h0, d) && Ref(l) in Left(h0, d, keep);
    NotPrunedAbove(h0, h, root, keep, d, Ref(l));
    var path :| IsPath(h0, keep, path) && path[0] == root && path[|path| - 1] == d;
    NotPrunedAtRoot(h0, h, root, keep, path);
  }

  lemma {:induction false} NotPrunedWhen(h0: Snapshot, h: Snapshot, root: Node, keep: Keep)
    requires WellFounded(h0) && WellFounded(h) && Filtered(h0, h, root, keep) && !ListsKept(h0, root, keep)
    ensures !ReadsPruned(h0, h, keep, Ref(root))
  {
    var l, n :| l in h0 && n in h0 && LeftList(h0, root, keep, l) && Below(h0, Ref(l), n)
                && Walked(h0, keep, root, n) && Shallow(h0[n], keep) != h0[n];
    DroppedInList(h0, h, root, keep, l, n);
  }

  // The event reads as the recursive prune exactly when no key is dropped
  // inside a list.
  lemma {:induction false} PrunedExactlyWhen(h0: Snapshot, h: Snapshot, root: Node, keep: Keep)
    requires WellFounded(h0) && WellFounded(h) && Filtered(h0, h, root, keep) && IsDict(h0, root)
    ensures ReadsPruned(h0, h, keep, Ref(root)) <==> ListsKept(h0, root, keep)
  {
    if ListsKept(h0, root, keep) {
      RootWalked(h0, keep, root);
      WalkedTree(h0, h, root, keep, Ref(root));
    } else {
      NotPrunedWhen(h0, h, root, keep);
    }
  }

  // A dict under one key of an event, and in a list under another one.
  ghost function SharedHeap(root: Node, l: Node, d: Node, a: string, b: string, x: string): Snapshot {
    map[root := DictOf([(a, Ref(d)), (b, Ref(l))]), l := ListOf([Ref(d)]), d := DictOf([(x, Leaf(Null))])]
  }

  lemma SharedWellFounded(root: Node, l: Node, d: Node, a: string, b: string, x: string)
    requires d.height < l.height < root.height && a != b
    ensures WellFounded(SharedHeap(root, l, d, a, b, x))
  {
    assert Values([(a, Ref(d)), (b, Ref(l))]) == [Ref(d), Ref(l)];
    assert Values([(x, Leaf(Null))]) == [Leaf(Null)];
  }

  // The key dropped from it is missing from the list too.
  lemma {:induction false} SharedWithList(root: Node, l: Node, d: Node, keep: Keep, a: string, b: string, x: string)
    requires d.height < l.height < root.height && a != b && keep(a) && keep(b) && !keep(x)
    ensures WellFounded(SharedHeap(root, l, d, a, b, x)) && !ListsKept(SharedHeap(root, l, d, a, b, x), root, keep)
  {
    var h := SharedHeap(root, l, d, a, b, x);
    SharedWellFounded(root, l, d, a, b, x);
    KeptAll(h[root].entries, keep);
    var left := Left(h, root, keep);
    assert left[0] == Ref(d) && left[1] == Ref(l);
    RootWalked(h, keep, root);
    WalkedNext(h, keep, root, root, d);
    assert LeftList(h, root, keep, l);
    assert Below(h, Ref(d), d) && Ref(d) in Children(h[l]);
    assert Below(h, Ref(l), d);
    KeptFewer(h[d].entries, keep);
    assert Shallow(h[d], keep) != h[d] by {
      assert |Kept(h[d].entries, keep)| == 0;
    }
  }

  // Every object but the root has the one parent `parent` names.
  ghost predicate IsTree(h: Snapshot, root: Node, parent: map<Node, Node>) {
    && root in h && root !in parent
    && (forall n, v :: n in h && v in Children(h[n]) && v.Ref? ==> v.node in parent && parent[v.node] == n)
  }

  // In a tree whatever is above a walked dict is a walked dict.
  lemma {:induction false} AboveWalked(h: Snapshot, root: Node, parent: map<Node, Node>, keep: Keep, v: Value, n: Node)
    requires WellFounded(h) && IsTree(h, root, parent) && Known(h, v) && Below(h, v, n) && Walked(h, keep, root, n)
    ensures IsDict(h, v.node) && Walked(h, keep, root, v.node)
    decreases Height(v)
  {
    if v.node == n {
      var path :| IsPath(h, keep, path) && path[0] == root && path[|path| - 1] == n;
      assert IsDict(h, path[|path| - 1]);
    } else {
      var c :| c in Children(h[v.node]) && Below(h, c, n);
      AboveWalked(h, root, parent, keep, c, n);
      var d := WalkedBefore(h, keep, root, c.node);
      KeptChildren(h[d].entries, keep);
      assert c in Children(h[d]);
    }
  }

  // So for events that are trees the walk is the recursive prune.
  lemma TreesKeepLists(h: Snapshot, root: Node, parent: map<Node, Node>, keep: Keep)
    requires WellFounded(h) && IsTree(h, root, parent)
    ensures ListsKept(h, root, keep)
  {
    forall l, n | l in h && n in h && LeftList(h, root, keep, l) && Below(h, Ref(l), n)
      ensures !Walked(h, keep, root, n)
    {
      if Walked(h, keep, root, n) {
        AboveWalked(h, root, parent, keep, Ref(l), n);
      }
    }
  }

  // --- The walk ------------------------------------------------------------------

  lemma WalkNode(h0: Snapshot, h: Snapshot, done: set<Node>, front: seq<Value>, n: Node, pushed: seq<Value>,
                 root: Node, keep: Keep)
    requires WellFounded(h0) && WalkOk(h0, h, done, front + [Ref(n)], root, keep)
    requires n in h0 && h0[n].DictOf? && pushed == Left(h0, n, keep)
    ensures WalkOk(h0, h[n := Shallow(h0[n], keep)], done + {n}, front + pushed, root, keep)
  {
    PushedWalked(h0, front, n, pushed, root, keep);
    DoneMore(h0, h, done, front, n, root, keep);
    PendingBelow(h0, h, done, front, n, pushed, root, keep);
    if h0[root].DictOf? {
      RootPending(h0, h, done, front, n, pushed, root, keep);
    }
  }

  lemma RootPending(h0: Snapshot, h: Snapshot, done: set<Node>, front: seq<Value>, n: Node, pushed: seq<Value>,
                    root: Node, keep: Keep)
    requires WalkOk(h0, h, done, front + [Ref(n)], root, keep) && h0[root].DictOf?
    ensures root in done + {n} || Ref(root) in front + pushed
  {
    assert Ref(root) in front + [Ref(n)] ==> Ref(root) in front || root == n;
  }

  // The popped dict is filtered like the others.
  lemma DoneMore(h0: Snapshot, h: Snapshot, done: set<Node>, front: seq<Value>, n: Node, root: Node, keep: Keep)
    requires WalkOk(h0, h, done, front + [Ref(n)], root, keep) && n in h0 && h0[n].DictOf?
    ensures forall m :: m in done + {n} ==> m in h0 && h0[m].DictOf? && Walked(h0, keep, root, m)
    ensures var h' := h[n := Shallow(h0[n], keep)];
            && h'.Keys == h0.Keys && done + {n} <= h'.Keys
            && forall m :: m in h' ==> h'[m] == if m in done + {n} then Shallow(h0[m], keep) else h0[m]
  {
    assert (front + [Ref(n)])[|front|] == Ref(n);
  }

  // What is below the dicts gone over, the popped one included, is done or pushed.
  lemma PendingBelow(h0: Snapshot, h: Snapshot, done: set<Node>, front: seq<Value>, n: Node, pushed: seq<Value>,
                     root: Node, keep: Keep)
    requires WalkOk(h0, h, done, front + [Ref(n)], root, keep)
    requires n in h0 && h0[n].DictOf? && pushed == Left(h0, n, keep)
    ensures var h' := h[n := Shallow(h0[n], keep)];
            forall m, v :: m in done + {n} && v in Children(h'[m]) && v.Ref? && v.node in h0 && h0[v.node].DictOf? ==>
              v.node in done + {n} || v in front + pushed
  {
    var h' := h[n := Shallow(h0[n], keep)];
    forall m, v | m in done + {n} && v in Children(h'[m]) && v.Ref? && v.node in h0 && h0[v.node].DictOf?
      ensures v.node in done + {n} || v in front + pushed
    {
      if m != n {
        assert h'[m] == h[m];
        assert v.node in done || v in front + [Ref(n)];
      }
    }
  }

  lemma PushedWalked(h0: Snapshot, front: seq<Value>, n: Node, pushed: seq<Value>, root: Node, keep: Keep)
    requires WellFounded(h0) && n in h0 && h0[n].DictOf? && pushed == Left(h0, n, keep)
    requires AllWalked(h0, front + [Ref(n)], root, keep)
    ensures AllWalked(h0, front + pushed, root, keep) && Walked(h0, keep, root, n)
  {
    assert (front + [Ref(n)])[|front|] == Ref(n);
    KeptChildren(h0[n].entries, keep);
    forall i | 0 <= i < |front + pushed|
      ensures Known(h0, (front + pushed)[i])
      ensures (front + pushed)[i].Ref? && IsDict(h0, (front + pushed)[i].node) ==>
                Walked(h0, keep, root, (front + pushed)[i].node)
    {
      if i < |front| {
        assert (front + [Ref(n)])[i] == front[i];
      } else {
        var v := pushed[i - |front|];
        assert v in Children(h0[n]) && v in pushed;
        if v.Ref? && IsDict(h0, v.node) {
          WalkedNext(h0, keep, root, n, v.node);
        }
      }
    }
  }

  lemma WalkOther(h0: Snapshot, h: Snapshot, done: set<Node>, front: seq<Value>, v: Value, root: Node, keep: Keep)
    requires WellFounded(h0) && WalkOk(h0, h, done, front + [v], root, keep)
    requires v.Ref? ==> v.node in h0 && h0[v.node].ListOf?
    ensures WalkOk(h0, h, done, front, root, keep)
  {
    var queue := front + [v];
    assert forall i :: 0 <= i < |front| ==> queue[i] == front[i];
    assert forall x :: x in queue ==> x in front || x == v;
  }

  // A dict weighs more than what it keeps.
  lemma KeptWeighs(h: Snapshot, n: Node, keep: Keep)
    requires WellFounded(h) && n in h && h[n].DictOf?
    ensures AllKnown(h, Values(Kept(h[n].entries, keep)))
    ensures Sum(Weights(h, Values(Kept(h[n].entries, keep)))) < Weight(h, Ref(n))
  {
    NodeWeight(h, n);
    KeptSum(h, h[n].entries, keep);
  }

  lemma ValuesCons<V>(x: (string, V), e: seq<(string, V)>)
    ensures Values([x] + e) == [x.1] + Values(e)
  {
  }

  lemma {:induction false} KeptSum(h: Snapshot, e: seq<(string, Value)>, keep: Keep)
    requires WellFounded(h) && AllKnown(h, Values(e))
    ensures AllKnown(h, Values(Kept(e, keep)))
    ensures Sum(Weights(h, Values(Kept(e, keep)))) <= Sum(Weights(h, Values(e)))
  {
    if e != [] {
      var first, rest := e[0], e[1..];
      assert Values(e)[0] == first.1;
      assert forall i :: 0 <= i < |rest| ==> Values(rest)[i] == Values(e)[i + 1];
      KeptSum(h, rest, keep);
      assert e == [first] + rest;
      ValuesCons(first, rest);
      ConsWeighs(h, first.1, Values(rest));
      if keep(first.0) {
        ValuesCons(first, Kept(rest, keep));
        ConsWeighs(h, first.1, Values(Kept(rest, keep)));
      } else {
        assert Kept(e, keep) == Kept(rest, keep);
      }
    }
  }

  // Popping a dict, whether it was filtered before or not.
  lemma DictTurn(h0: Snapshot, h: Snapshot, done: set<Node>, front: seq<Value>, n: Node,
                 root: Node, keep: Keep) returns (pushed: seq<Value>)
    requires WellFounded(h0) && WalkOk(h0, h, done, front + [Ref(n)], root, keep)
    requires n in h && h[n].DictOf? && AllKnown(h0, front + [Ref(n)])
    ensures Distinct(h[n].entries) && pushed == Values(Kept(h[n].entries, keep))
    ensures WalkOk(h0, h[n := DictOf(Kept(h[n].entries, keep))], done + {n}, front + pushed, root, keep)
    ensures AllKnown(h0, front + pushed)
    ensures Sum(Weights(h0, front + pushed)) < Sum(Weights(h0, front + [Ref(n)]))
  {
    KeptTwice(h0[n].entries, keep);
    KeptDistinct(h0[n].entries, keep);
    KeptWeighs(h0, n, keep);
    pushed := Values(Kept(h0[n].entries, keep));
    assert (front + [Ref(n)])[..|front|] == front;
    PopWeighs(h0, front + [Ref(n)]);
    PushWeighs(h0, front, pushed);
    WalkNode(h0, h, done, front, n, pushed, root, keep);
  }

  // _process_dict_keys leaves every other object as it is.
  method FilterOne(n: Node, front: seq<Value>, f: Filter, ghost nodes: set<Node>) returns (queue': seq<Value>)
    requires n in nodes && n.content.DictOf? && Distinct(n.content.entries)
    modifies n
    ensures Heap(nodes) == old(Heap(nodes))[n := DictOf(Kept(old(n.content.entries), KeepOf(f)))]
    ensures queue' == front + Values(Kept(old(n.content.entries), KeepOf(f)))
  {
    queue' := ProcessDictKeys(n, front, f);
  }

  // One turn of main's loop, for a dict.
  method FilterDict(n: Node, front: seq<Value>, f: Filter, ghost nodes: set<Node>, ghost h0: Snapshot,
                    ghost done: set<Node>, ghost root: Node)
    returns (queue': seq<Value>)
    requires WellFounded(h0) && AllKnown(h0, front + [Ref(n)]) && h0.Keys == nodes
    requires n in nodes && n.content.DictOf?
    requires WalkOk(h0, Heap(nodes), done, front + [Ref(n)], root, KeepOf(f))
    modifies n
    ensures WalkOk(h0, Heap(nodes), done + {n}, queue', root, KeepOf(f)) && AllKnown(h0, queue')
    ensures Sum(Weights(h0, queue')) < Sum(Weights(h0, front + [Ref(n)]))
  {
    ghost var h, keep := Heap(nodes), KeepOf(f);
    ghost var pushed := DictTurn(h0, h, done, front, n, root, keep);
    queue' := FilterOne(n, front, f, nodes);
  }

  // One turn of main's loop.
  method FilterNext(queue: seq<Value>, f: Filter, ghost nodes: set<Node>, ghost h0: Snapshot, ghost done: set<Node>,
                    ghost root: Node)
    returns (queue': seq<Value>, ghost done': set<Node>)
    requires queue != [] && WellFounded(h0) && AllKnown(h0, queue) && h0.Keys == nodes
    requires WalkOk(h0, Heap(nodes), done, queue, root, KeepOf(f))
    modifies nodes
    ensures WalkOk(h0, Heap(nodes), done', queue', root, KeepOf(f)) && AllKnown(h0, queue')
    ensures Sum(Weights(h0, queue')) < Sum(Weights(h0, queue))
  {
    var obj := queue[|queue| - 1];
    var rest := queue[..|queue| - 1];
    assert queue == rest + [obj];
    done' := done;
    if obj.Ref? && obj.node.content.DictOf? {
      queue' := FilterDict(obj.node, rest, f, nodes, h0, done, root);
      done' := done + {obj.node};
    } else {
      PopWeighs(h0, queue);
      WalkOther(h0, Heap(nodes), done, rest, obj, root, KeepOf(f));
      queue' := rest;
    }
  }

  // main
  method FilterInPlace(event: Node, f: Filter, ghost nodes: set<Node>)
    requires event in nodes && event.content.DictOf? && WellFounded(Heap(nodes))
    modifies nodes
    ensures WellFounded(Heap(nodes)) && Filtered(old(Heap(nodes)), Heap(nodes), event, KeepOf(f))
    ensures Tree(Heap(nodes), Ref(event)) == Prune(Tree(old(Heap(nodes)), Ref(event)), KeepOf(f))
            <==> ListsKept(old(Heap(nodes)), event, KeepOf(f))
  {
    ghost var h0, keep := Heap(nodes), KeepOf(f);
    ghost var done: set<Node> := {};
    var queue := [Ref(event)];
    RootWalked(h0, keep, event);
    while queue != []
      invariant WalkOk(h0, Heap(nodes), done, queue, event, keep) && AllKnown(h0, queue)
      decreases Sum(Weights(h0, queue))
    {
      queue, done := FilterNext(queue, f, nodes, h0, done, event);
    }
    WalkKeepsWellFounded(h0, Heap(nodes), done, [], event, keep);
    WalkIsFiltered(h0, Heap(nodes), done, event, keep);
    PrunedExactlyWhen(h0, Heap(nodes), event, keep);
  }
}
