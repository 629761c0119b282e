/** Python dictionaries as sequences of pairs in insertion order. */
module OrderedDict {
  // The first position of a key, or the length when there is none.
  function IndexOf<V>(e: seq<(string, V)>, k: string): (i: nat)
    ensures i <= |e| && (i < |e| ==> e[i].0 == k)
    ensures forall j :: 0 <= j < i ==> e[j].0 != k
  {
    if e == [] || e[0].0 == k then 0 else 1 + IndexOf(e[1..], k)
  }

  predicate HasKey<V>(e: seq<(string, V)>, k: string) {
    IndexOf(e, k) < |e|
  }

  function Lookup<V>(e: seq<(string, V)>, k: string): V
    requires HasKey(e, k)
  {
    e[IndexOf(e, k)].1
  }

  function Delete<V>(e: seq<(string, V)>, k: string): seq<(string, V)> {
    var i := IndexOf(e, k);
    if i < |e| then e[..i] + e[i + 1..] else e
  }

  // Assignment: an existing key keeps its place, a new one goes to the end.
  function Put<V>(e: seq<(string, V)>, k: string, v: V): seq<(string, V)> {
    var i := IndexOf(e, k);
    if i < |e| then e[i := (k, v)] else e + [(k, v)]
  }

  function Keys<V>(e: seq<(string, V)>): (keys: seq<string>)
    ensures |keys| == |e| && forall i :: 0 <= i < |e| ==> keys[i] == e[i].0
  {
    seq(|e|, i requires 0 <= i < |e| => e[i].0)
  }

  predicate Distinct<V>(e: seq<(string, V)>) {
    forall i, j :: 0 <= i < j < |e| ==> e[i].0 != e[j].0
  }

  predicate DistinctKeys(keys: seq<string>) {
    forall i, j :: 0 <= i < j < |keys| ==> keys[i] != keys[j]
  }

  lemma PositionOf<V>(e: seq<(string, V)>, i: nat)
    requires Distinct(e) && i < |e|
    ensures IndexOf(e, e[i].0) == i
  {
  }

  lemma DeleteFacts<V>(e: seq<(string, V)>, k: string)
    requires Distinct(e)
    ensures Distinct(Delete(e, k)) && !HasKey(Delete(e, k), k)
    ensures forall t :: t != k ==> (HasKey(Delete(e, k), t) <==> HasKey(e, t))
    ensures forall t :: t != k && HasKey(e, t) ==> Lookup(Delete(e, k), t) == Lookup(e, t)
  {
    var i, d := IndexOf(e, k), Delete(e, k);
    if i < |e| {
      assert forall j :: 0 <= j < |d| ==> d[j] == if j < i then e[j] else e[j + 1];
      forall t | t != k && HasKey(e, t) ensures HasKey(d, t) && Lookup(d, t) == Lookup(e, t) {
        var j := IndexOf(e, t);
        var j' := if j < i then j else j - 1;
        assert d[j'] == e[j];
        PositionOf(d, j');
      }
      forall t | t != k && HasKey(d, t) ensures HasKey(e, t) {
        var j := IndexOf(d, t);
        PositionOf(e, if j < i then j else j + 1);
      }
    }
  }

  lemma PutFacts<V>(e: seq<(string, V)>, k: string, v: V)
    requires Distinct(e)
    ensures Distinct(Put(e, k, v)) && HasKey(Put(e, k, v), k) && Lookup(Put(e, k, v), k) == v
    ensures forall t :: t != k ==> (HasKey(Put(e, k, v), t) <==> HasKey(e, t))
    ensures forall t :: t != k && HasKey(e, t) ==> Lookup(Put(e, k, v), t) == Lookup(e, t)
  {
    var i, p := IndexOf(e, k), Put(e, k, v);
    PositionOf(p, i);
    forall t | t != k && HasKey(e, t) ensures HasKey(p, t) && Lookup(p, t) == Lookup(e, t) {
      PositionOf(p, IndexOf(e, t));
    }
    forall t | t != k && HasKey(p, t) ensures HasKey(e, t) {
      PositionOf(e, IndexOf(p, t));
    }
  }

  lemma PutAt<V>(e: seq<(string, V)>, k: string, v: V, t: string)
    requires Distinct(e)
    ensures if t == k then HasKey(Put(e, k, v), t) && Lookup(Put(e, k, v), t) == v
            else (HasKey(Put(e, k, v), t) <==> HasKey(e, t)) && (HasKey(e, t) ==> Lookup(Put(e, k, v), t) == Lookup(e, t))
  {
    PutFacts(e, k, v);
  }

  // --- Plans: which original entry each key of a rewritten dict shows --------

  type Plan = seq<(string, nat)>

  ghost predicate PlanFits(plan: Plan, n: nat) {
    forall j :: 0 <= j < |plan| ==> plan[j].1 < n
  }

  function Select<V>(values: seq<V>, plan: Plan): (e: seq<(string, V)>)
    requires PlanFits(plan, |values|)
    ensures |e| == |plan| && forall j :: 0 <= j < |e| ==> e[j] == (plan[j].0, values[plan[j].1])
  {
    seq(|plan|, j requires 0 <= j < |plan| => (plan[j].0, values[plan[j].1]))
  }

  function Identity(keys: seq<string>): (plan: Plan)
    ensures |plan| == |keys| && forall i :: 0 <= i < |keys| ==> plan[i] == (keys[i], i)
  {
    seq(|keys|, i requires 0 <= i < |keys| => (keys[i], i))
  }

  // The position of a key among the keys of a dict, or their number.
  function KeyIndex(keys: seq<string>, t: string): nat {
    IndexOf(Identity(keys), t)
  }

  function Values<V>(e: seq<(string, V)>): (values: seq<V>)
    ensures |values| == |e| && forall i :: 0 <= i < |e| ==> values[i] == e[i].1
  {
    seq(|e|, i requires 0 <= i < |e| => e[i].1)
  }

  lemma SelectIdentity<V>(e: seq<(string, V)>)
    ensures Select(Values(e), Identity(Keys(e))) == e
  {
  }

  lemma {:induction false} SelectIndex<V>(values: seq<V>, plan: Plan, k: string)
    requires PlanFits(plan, |values|)
    ensures IndexOf(Select(values, plan), k) == IndexOf(plan, k)
    decreases |plan|
  {
    if plan != [] && plan[0].0 != k {
      assert Select(values, plan)[1..] == Select(values, plan[1..]);
      SelectIndex(values, plan[1..], k);
    }
  }

  lemma SelectPut<V>(values: seq<V>, plan: Plan, k: string, i: nat)
    requires PlanFits(plan, |values|) && i < |values|
    ensures PlanFits(Put(plan, k, i), |values|)
    ensures Select(values, Put(plan, k, i)) == Put(Select(values, plan), k, values[i])
  {
    SelectIndex(values, plan, k);
  }

  lemma SelectAppend<V>(values: seq<V>, a: Plan, b: Plan)
    requires PlanFits(a, |values|) && PlanFits(b, |values|)
    ensures PlanFits(a + b, |values|) && Select(values, a + b) == Select(values, a) + Select(values, b)
  {
  }

  lemma SelectDelete<V>(values: seq<V>, plan: Plan, k: string)
    requires PlanFits(plan, |values|)
    ensures PlanFits(Delete(plan, k), |values|)
    ensures Select(values, Delete(plan, k)) == Delete(Select(values, plan), k)
  {
    SelectIndex(values, plan, k);
    var i := IndexOf(plan, k);
    if i < |plan| {
      SelectAppend(values, plan[..i], plan[i + 1..]);
      assert Select(values, plan[..i]) == Select(values, plan)[..i];
      assert Select(values, plan[i + 1..]) == Select(values, plan)[i + 1..];
    }
  }
}
