/**
 Events: JSON values, and the same values as mutable objects. A snapshot is the
 content of every object at one moment; Tree reads a value off a snapshot.
 */
module EventTree {
  import opened OrderedDict

  datatype Scalar = Null | Flag(b: bool) | Number(n: real) | Text(s: string)

  datatype Json =
    | Atom(s: Scalar)
    | Object(entries: seq<(string, Json)>)
    | Array(items: seq<Json>)

  // Keys are distinct in every dict.
  predicate DistinctEverywhere(j: Json) {
    match j
    case Atom(_) => true
    case Object(entries) => Distinct(entries) && forall i :: 0 <= i < |entries| ==> DistinctEverywhere(entries[i].1)
    case Array(items) => forall i :: 0 <= i < |items| ==> DistinctEverywhere(items[i])
  }

  datatype Value = Leaf(s: Scalar) | Ref(node: Node)

  datatype Content = DictOf(entries: seq<(string, Value)>) | ListOf(items: seq<Value>)

  // A dict or a list. The height bounds the depth below it: events hold no
  // cycles.
  class Node {
    var content: Content
    ghost const height: nat

    constructor (content: Content, ghost height: nat)
      ensures this.content == content && this.height == height
    {
      this.content, this.height := content, height;
    }
  }

  type Snapshot = map<Node, Content>

  ghost function Heap(nodes: set<Node>): (h: Snapshot)
    reads nodes
    ensures h.Keys == nodes && forall n :: n in nodes ==> h[n] == n.content
  {
    map n | n in nodes :: n.content
  }

  function Children(c: Content): seq<Value> {
    match c
    case DictOf(entries) => Values(entries)
    case ListOf(items) => items
  }

  ghost function Height(v: Value): nat {
    if v.Leaf? then 0 else 1 + v.node.height
  }

  ghost predicate Known(h: Snapshot, v: Value) {
    v.Ref? ==> v.node in h
  }

  // Children are known and lower than their parent; dict keys are distinct.
  ghost predicate WellFounded(h: Snapshot) {
    forall n :: n in h ==>
      && (forall v :: v in Children(h[n]) ==> Known(h, v) && Height(v) < Height(Ref(n)))
      && (h[n].DictOf? ==> Distinct(h[n].entries))
  }

  ghost function Tree(h: Snapshot, v: Value): Json
    requires WellFounded(h) && Known(h, v)
    decreases Height(v)
  {
    match v
    case Leaf(s) => Atom(s)
    case Ref(n) =>
      match h[n]
      case DictOf(entries) =>
        assert forall i :: 0 <= i < |entries| ==> entries[i].1 == Children(h[n])[i];
        Object(seq(|entries|, i requires 0 <= i < |entries| => (entries[i].0, Tree(h, entries[i].1))))
      case ListOf(items) =>
        assert forall i :: 0 <= i < |items| ==> items[i] in Children(h[n]);
        Array(seq(|items|, i requires 0 <= i < |items| => Tree(h, items[i])))
  }

  // --- Weights, to measure a stack of values by ---------------------------------

  function Sum(w: seq<nat>): nat {
    if w == [] then 0 else w[0] + Sum(w[1..])
  }

  lemma {:induction false} SumAppend(a: seq<nat>, b: seq<nat>)
    ensures Sum(a + b) == Sum(a) + Sum(b)
  {
    if a == [] {
      assert a + b == b;
    } else {
      SumAppend(a[1..], b);
      assert (a + b)[1..] == a[1..] + b;
    }
  }

  // 1 for the value itself, and twice its children: each can be pushed twice.
  ghost function Weight(h: Snapshot, v: Value): nat
    requires WellFounded(h) && Known(h, v)
    decreases Height(v)
  {
    if v.Leaf? then 1 else 1 + 2 * WeightBelow(h, Children(h[v.node]), Height(v))
  }

  ghost function WeightBelow(h: Snapshot, vs: seq<Value>, bound: nat): nat
    requires WellFounded(h) && forall v :: v in vs ==> Known(h, v) && Height(v) < bound
    decreases bound, |vs|
  {
    if vs == [] then 0
    else
      assert vs[0] in vs && forall v :: v in vs[1..] ==> v in vs;
      Weight(h, vs[0]) + WeightBelow(h, vs[1..], bound)
  }

  ghost predicate AllKnown(h: Snapshot, vs: seq<Value>) {
    forall i :: 0 <= i < |vs| ==> Known(h, vs[i])
  }

  ghost function Weights(h: Snapshot, vs: seq<Value>): (w: seq<nat>)
    requires WellFounded(h) && AllKnown(h, vs)
    ensures |w| == |vs| && forall i :: 0 <= i < |w| ==> w[i] == Weight(h, vs[i])
  {
    seq(|vs|, i requires 0 <= i < |vs| => Weight(h, vs[i]))
  }

  lemma {:induction false} WeightBelowIsSum(h: Snapshot, vs: seq<Value>, bound: nat)
    requires WellFounded(h) && forall v :: v in vs ==> Known(h, v) && Height(v) < bound
    ensures AllKnown(h, vs) && WeightBelow(h, vs, bound) == Sum(Weights(h, vs))
  {
    assert forall i :: 0 <= i < |vs| ==> vs[i] in vs;
    if vs != [] {
      assert forall v :: v in vs[1..] ==> v in vs;
      WeightBelowIsSum(h, vs[1..], bound);
      assert vs == [vs[0]] + vs[1..];
      ConsWeighs(h, vs[0], vs[1..]);
    }
  }

  lemma NodeWeight(h: Snapshot, n: Node)
    requires WellFounded(h) && n in h
    ensures AllKnown(h, Children(h[n])) && Weight(h, Ref(n)) == 1 + 2 * Sum(Weights(h, Children(h[n])))
  {
    WeightBelowIsSum(h, Children(h[n]), Height(Ref(n)));
  }

  lemma PopWeighs(h: Snapshot, stack: seq<Value>)
    requires WellFounded(h) && AllKnown(h, stack) && stack != []
    ensures AllKnown(h, stack[..|stack| - 1])
    ensures Sum(Weights(h, stack)) == Sum(Weights(h, stack[..|stack| - 1])) + Weight(h, stack[|stack| - 1])
    ensures Weight(h, stack[|stack| - 1]) >= 1
  {
    var front, last := stack[..|stack| - 1], stack[|stack| - 1];
    assert Weights(h, stack) == Weights(h, front) + [Weight(h, last)];
    SumAppend(Weights(h, front), [Weight(h, last)]);
  }

  lemma WeightsAppend(h: Snapshot, stack: seq<Value>, pushed: seq<Value>)
    requires WellFounded(h) && AllKnown(h, stack) && AllKnown(h, pushed)
    ensures AllKnown(h, stack + pushed)
    ensures Weights(h, stack + pushed) == Weights(h, stack) + Weights(h, pushed)
  {
    var all, n := stack + pushed, |stack|;
    forall i | 0 <= i < |all| ensures Known(h, all[i]) {
      assert all[i] == if i < n then stack[i] else pushed[i - n];
    }
    var w, parts := Weights(h, all), Weights(h, stack) + Weights(h, pushed);
    forall i | 0 <= i < |all| ensures w[i] == parts[i] {
      assert all[i] == if i < n then stack[i] else pushed[i - n];
    }
  }

  lemma {:induction false} PushWeighs(h: Snapshot, stack: seq<Value>, pushed: seq<Value>)
    requires WellFounded(h) && AllKnown(h, stack) && AllKnown(h, pushed)
    ensures AllKnown(h, stack + pushed)
    ensures Sum(Weights(h, stack + pushed)) == Sum(Weights(h, stack)) + Sum(Weights(h, pushed))
  {
    WeightsAppend(h, stack, pushed);
    SumAppend(Weights(h, stack), Weights(h, pushed));
  }

  lemma ConsWeighs(h: Snapshot, v: Value, vs: seq<Value>)
    requires WellFounded(h) && Known(h, v) && AllKnown(h, vs)
    ensures AllKnown(h, [v] + vs)
    ensures Sum(Weights(h, [v] + vs)) == Weight(h, v) + Sum(Weights(h, vs))
  {
    assert Weights(h, [v] + vs)[1..] == Weights(h, vs);
  }
}
