/**
 The stack walk of dashes_to_underscores over mutable objects. A value can be
 pushed twice for one dict, and an object can be processed many times; the walk
 still ends, and leaves the tree equal to the recursive rename.
 */
module DashesWalk {
  import opened OrderedDict
  import opened EventTree
  import opened DashesToUnderscores

  // --- What processing one dict pushes ----------------------------------------

  // The indices of the values pushed, from a plan on.
  function PushFrom(plan: Plan, keys: seq<string>, overwrite: bool): seq<nat>
    requires Distinct(plan) && Present(plan, keys)
    decreases |keys|
  {
    if keys == [] then []
    else
      RenameKeepsPresent(plan, keys, overwrite);
      assert keys[0] in keys;
      [Lookup(plan, keys[0])] + PushFrom(RenameKey(plan, keys[0], overwrite), keys[1..], overwrite)
  }

  function Pushes(keys: seq<string>, overwrite: bool): seq<nat>
    requires DistinctKeys(keys)
  {
    IdentityPresent(keys);
    PushFrom(Identity(keys), keys, overwrite)
  }

  lemma RenameKeyFits(plan: Plan, key: string, overwrite: bool, n: nat)
    requires PlanFits(plan, n) && HasKey(plan, key)
    ensures PlanFits(RenameKey(plan, key, overwrite), n)
  {
  }

  lemma {:induction false} PushFits(plan: Plan, keys: seq<string>, overwrite: bool, n: nat)
    requires Distinct(plan) && Present(plan, keys) && PlanFits(plan, n)
    ensures forall p :: p in PushFrom(plan, keys, overwrite) ==> p < n
    decreases |keys|
  {
    if keys != [] {
      assert keys[0] in keys;
      RenameKeepsPresent(plan, keys, overwrite);
      RenameKeyFits(plan, keys[0], overwrite, n);
      PushFits(RenameKey(plan, keys[0], overwrite), keys[1..], overwrite, n);
    }
  }

  // Every value the renamed dict shows was pushed, unless it was shown under a
  // key the run does not go over.
  lemma {:induction false} ShownIsPushed(plan: Plan, keys: seq<string>, overwrite: bool, t: string)
    requires Distinct(plan) && Present(plan, keys) && HasKey(RenameFrom(plan, keys, overwrite), t)
    ensures var i := Lookup(RenameFrom(plan, keys, overwrite), t);
            i in PushFrom(plan, keys, overwrite) || exists u :: HasKey(plan, u) && u !in keys && Lookup(plan, u) == i
    decreases |keys|
  {
    if keys == [] {
      assert HasKey(plan, t) && t !in keys;
    } else {
      var key, rest := keys[0], keys[1..];
      assert key in keys && forall k :: k in keys ==> k == key || k in rest;
      var plan' := RenameKey(plan, key, overwrite);
      RenameKeepsPresent(plan, keys, overwrite);
      ShownIsPushed(plan', rest, overwrite, t);
      var i := Lookup(RenameFrom(plan, keys, overwrite), t);
      if i !in PushFrom(plan', rest, overwrite) && i != Lookup(plan, key) {
        var u :| HasKey(plan', u) && u !in rest && Lookup(plan', u) == i;
        RenameKeyFacts(plan, key, overwrite, u);
        assert HasKey(plan, u) && u !in keys && Lookup(plan, u) == i;
      }
    }
  }

  lemma AllShownArePushed(keys: seq<string>, overwrite: bool, j: nat)
    requires DistinctKeys(keys) && j < |RenamePlan(keys, overwrite)|
    ensures RenamePlan(keys, overwrite)[j].1 in Pushes(keys, overwrite)
  {
    IdentityPresent(keys);
    var plan := RenamePlan(keys, overwrite);
    PositionOf(plan, j);
    ShownIsPushed(Identity(keys), keys, overwrite, plan[j].0);
    forall u | HasKey(Identity(keys), u) ensures u in keys {
      assert keys[IndexOf(Identity(keys), u)] == u;
    }
  }

  // --- The weight of what is pushed -------------------------------------------

  function Total(w: seq<nat>, indices: seq<nat>): nat {
    if indices == [] then 0
    else (if indices[0] < |w| then w[indices[0]] else 0) + Total(w, indices[1..])
  }

  function WeightAt(plan: Plan, key: string, w: seq<nat>): nat {
    if HasKey(plan, key) && Lookup(plan, key) < |w| then w[Lookup(plan, key)] else 0
  }

  // The weight shown under `keys`, all of them or the dashed ones only.
  function KeySum(plan: Plan, keys: seq<string>, w: seq<nat>, dashedOnly: bool): nat {
    if keys == [] then 0
    else (if !dashedOnly || Dashed(keys[0]) then WeightAt(plan, keys[0], w) else 0) + KeySum(plan, keys[1..], w, dashedOnly)
  }

  // What renaming one key does to the weight shown under another.
  lemma OneKeyAfterRename(plan: Plan, plan': Plan, key: string, k: string, overwrite: bool, w: seq<nat>)
    requires HasKey(plan, key) && k != key && RenamedAt(plan, plan', key, overwrite, k)
    ensures WeightAt(plan', k, w)
            <= WeightAt(plan, k, w) + (if Dashed(key) && Underscored(key) == k then WeightAt(plan, key, w) else 0)
  {
  }

  // Renaming one key can only add the weight of its own value to the rest.
  lemma {:induction false} KeySumAfterRename(plan: Plan, plan': Plan, key: string, rest: seq<string>, overwrite: bool,
                                             w: seq<nat>, dashedOnly: bool)
    requires HasKey(plan, key) && DistinctKeys(rest) && key !in rest
    requires forall k :: k in rest ==> RenamedAt(plan, plan', key, overwrite, k)
    ensures KeySum(plan', rest, w, dashedOnly)
            <= KeySum(plan, rest, w, dashedOnly)
               + (if Dashed(key) && !dashedOnly && Underscored(key) in rest then WeightAt(plan, key, w) else 0)
    decreases |rest|
  {
    if rest != [] {
      var k, tail := rest[0], rest[1..];
      assert k in rest && k != key && k !in tail && key !in tail && forall t :: t in tail ==> t in rest;
      OneKeyAfterRename(plan, plan', key, k, overwrite, w);
      KeySumAfterRename(plan, plan', key, tail, overwrite, w, dashedOnly);
      assert rest == [k] + tail;
      assert Underscored(key) in rest <==> Underscored(key) == k || Underscored(key) in tail;
    }
  }

  lemma {:induction false} PushBound(plan: Plan, keys: seq<string>, overwrite: bool, w: seq<nat>)
    requires Distinct(plan) && Present(plan, keys) && PlanFits(plan, |w|)
    ensures Total(w, PushFrom(plan, keys, overwrite)) <= KeySum(plan, keys, w, false) + KeySum(plan, keys, w, true)
    decreases |keys|
  {
    if keys != [] {
      var key, rest := keys[0], keys[1..];
      assert key in keys && forall k :: k in rest ==> k in keys && k != key;
      var plan' := RenameKey(plan, key, overwrite);
      RenameKeepsPresent(plan, keys, overwrite);
      RenameKeyFits(plan, key, overwrite, |w|);
      forall k | k in rest ensures RenamedAt(plan, plan', key, overwrite, k) {
        RenameKeyFacts(plan, key, overwrite, k);
      }
      KeySumAfterRename(plan, plan', key, rest, overwrite, w, false);
      KeySumAfterRename(plan, plan', key, rest, overwrite, w, true);
      PushBound(plan', rest, overwrite, w);
      TotalOfPush(plan, keys, overwrite, w);
    }
  }

  lemma TotalOfPush(plan: Plan, keys: seq<string>, overwrite: bool, w: seq<nat>)
    requires Distinct(plan) && Present(plan, keys) && PlanFits(plan, |w|) && keys != []
    ensures HasKey(plan, keys[0]) && Distinct(RenameKey(plan, keys[0], overwrite))
    ensures Present(RenameKey(plan, keys[0], overwrite), keys[1..])
    ensures Total(w, PushFrom(plan, keys, overwrite))
            == w[Lookup(plan, keys[0])] + Total(w, PushFrom(RenameKey(plan, keys[0], overwrite), keys[1..], overwrite))
  {
    assert keys[0] in keys;
    RenameKeepsPresent(plan, keys, overwrite);
    var rest := PushFrom(RenameKey(plan, keys[0], overwrite), keys[1..], overwrite);
    assert ([Lookup(plan, keys[0])] + rest)[1..] == rest;
  }

  lemma {:induction false} IdentitySum(keys: seq<string>, from: nat, w: seq<nat>, dashedOnly: bool)
    requires DistinctKeys(keys) && |w| == |keys| && from <= |keys|
    ensures KeySum(Identity(keys), keys[from..], w, dashedOnly) <= Sum(w[from..])
    decreases |keys| - from
  {
    IdentityPresent(keys);
    if from < |keys| {
      var tail, below := keys[from..], w[from..];
      assert tail[0] == keys[from] && tail[1..] == keys[from + 1..];
      assert below[0] == w[from] && below[1..] == w[from + 1..];
      assert Lookup(Identity(keys), keys[from]) == from;
      IdentitySum(keys, from + 1, w, dashedOnly);
    }
  }

  // All pushes together weigh at most twice what the entries weigh.
  lemma PushesWeighAtMostDouble(keys: seq<string>, overwrite: bool, w: seq<nat>)
    requires DistinctKeys(keys) && |w| == |keys|
    ensures forall p :: p in Pushes(keys, overwrite) ==> p < |w|
    ensures Total(w, Pushes(keys, overwrite)) <= 2 * Sum(w)
  {
    IdentityPresent(keys);
    PushFits(Identity(keys), keys, overwrite, |w|);
    PushBound(Identity(keys), keys, overwrite, w);
    IdentitySum(keys, 0, w, false);
    IdentitySum(keys, 0, w, true);
    assert keys[0..] == keys && w[0..] == w;
  }

  // --- A renamed dict is not heavier, and renaming it again changes nothing ---

  function Shown(plan: Plan, w: seq<nat>): seq<nat>
    requires PlanFits(plan, |w|)
  {
    seq(|plan|, j requires 0 <= j < |plan| => w[plan[j].1])
  }

  lemma SumSplit(a: seq<nat>, i: nat)
    requires i < |a|
    ensures Sum(a) == Sum(a[..i]) + a[i] + Sum(a[i + 1..])
  {
    assert a == a[..i] + [a[i]] + a[i + 1..];
    SumAppend(a[..i], [a[i]]);
    SumAppend(a[..i] + [a[i]], a[i + 1..]);
  }

  lemma ShownAppend(a: Plan, b: Plan, w: seq<nat>)
    requires PlanFits(a, |w|) && PlanFits(b, |w|)
    ensures PlanFits(a + b, |w|) && Shown(a + b, w) == Shown(a, w) + Shown(b, w)
  {
  }

  lemma ShownDelete(plan: Plan, key: string, w: seq<nat>)
    requires HasKey(plan, key) && PlanFits(plan, |w|)
    ensures PlanFits(Delete(plan, key), |w|)
    ensures var i, all := IndexOf(plan, key), Shown(plan, w);
            all[i] == w[Lookup(plan, key)] && Shown(Delete(plan, key), w) == all[..i] + all[i + 1..]
  {
    var i := IndexOf(plan, key);
    ShownAppend(plan[..i], plan[i + 1..], w);
    assert Shown(plan[..i], w) == Shown(plan, w)[..i];
    assert Shown(plan[i + 1..], w) == Shown(plan, w)[i + 1..];
  }

  lemma DeleteWeighs(plan: Plan, key: string, w: seq<nat>)
    requires HasKey(plan, key) && PlanFits(plan, |w|)
    ensures PlanFits(Delete(plan, key), |w|)
    ensures Sum(Shown(plan, w)) == Sum(Shown(Delete(plan, key), w)) + w[Lookup(plan, key)]
  {
    var i, all := IndexOf(plan, key), Shown(plan, w);
    ShownDelete(plan, key, w);
    SumSplit(all, i);
    SumAppend(all[..i], all[i + 1..]);
  }

  lemma PutWeighs(plan: Plan, key: string, v: nat, w: seq<nat>)
    requires PlanFits(plan, |w|) && v < |w|
    ensures PlanFits(Put(plan, key, v), |w|)
    ensures Sum(Shown(Put(plan, key, v), w)) <= Sum(Shown(plan, w)) + w[v]
  {
    var p, k := Put(plan, key, v), IndexOf(plan, key);
    if k < |plan| {
      SumSplit(Shown(plan, w), k);
      SumSplit(Shown(p, w), k);
      assert Shown(p, w)[..k] == Shown(plan, w)[..k] && Shown(p, w)[k + 1..] == Shown(plan, w)[k + 1..];
    } else {
      SumAppend(Shown(plan, w), [w[v]]);
      assert Shown(p, w) == Shown(plan, w) + [w[v]];
    }
  }

  lemma RenameKeyNotHeavier(plan: Plan, key: string, overwrite: bool, w: seq<nat>)
    requires Distinct(plan) && HasKey(plan, key) && PlanFits(plan, |w|)
    ensures PlanFits(RenameKey(plan, key, overwrite), |w|)
    ensures Sum(Shown(RenameKey(plan, key, overwrite), w)) <= Sum(Shown(plan, w))
  {
    if Dashed(key) {
      DeleteWeighs(plan, key, w);
      PutWeighs(Delete(plan, key), Underscored(key), Lookup(plan, key), w);
    }
  }

  lemma {:induction false} RenameFromNotHeavier(plan: Plan, keys: seq<string>, overwrite: bool, w: seq<nat>)
    requires Distinct(plan) && Present(plan, keys) && PlanFits(plan, |w|)
    ensures PlanFits(RenameFrom(plan, keys, overwrite), |w|)
    ensures Sum(Shown(RenameFrom(plan, keys, overwrite), w)) <= Sum(Shown(plan, w))
    decreases |keys|
  {
    if keys != [] {
      assert keys[0] in keys;
      RenameKeepsPresent(plan, keys, overwrite);
      RenameKeyNotHeavier(plan, keys[0], overwrite, w);
      RenameFromNotHeavier(RenameKey(plan, keys[0], overwrite), keys[1..], overwrite, w);
    }
  }

  lemma {:induction false} NothingToRename(plan: Plan, keys: seq<string>, overwrite: bool)
    requires Distinct(plan) && Present(plan, keys) && forall k :: k in keys ==> !Dashed(k)
    ensures RenameFrom(plan, keys, overwrite) == plan
    decreases |keys|
  {
    if keys != [] {
      assert keys[0] in keys && forall k :: k in keys[1..] ==> k in keys;
      NothingToRename(plan, keys[1..], overwrite);
    }
  }

  lemma RenameTwice<V>(e: seq<(string, V)>, overwrite: bool)
    requires Distinct(e)
    ensures RenameEntries(RenameEntries(e, overwrite), overwrite) == RenameEntries(e, overwrite)
  {
    var r := RenameEntries(e, overwrite);
    PlanFitsKeys(Keys(e), overwrite);
    var plan := RenamePlan(Keys(e), overwrite);
    forall i | 0 <= i < |r| ensures !Dashed(Keys(r)[i]) {
      RenamePlanWinners(Keys(e), overwrite, plan[i].0);
      PositionOf(plan, i);
    }
    IdentityPresent(Keys(r));
    NothingToRename(Identity(Keys(r)), Keys(r), overwrite);
    SelectIdentity(r);
  }

  // --- Picking values by index --------------------------------------------------

  function Pick<V>(values: seq<V>, indices: seq<nat>): (r: seq<V>)
    requires forall p :: p in indices ==> p < |values|
    ensures |r| == |indices| && forall i :: 0 <= i < |r| ==> indices[i] < |values| && r[i] == values[indices[i]]
  {
    assert forall i :: 0 <= i < |indices| ==> indices[i] in indices;
    seq(|indices|, i requires 0 <= i < |indices| => values[indices[i]])
  }

  lemma PickCons<V>(values: seq<V>, i: nat, rest: seq<nat>)
    requires i < |values| && forall p :: p in rest ==> p < |values|
    ensures Pick(values, [i] + rest) == [values[i]] + Pick(values, rest)
  {
  }

  lemma {:induction false} PickWeighs(h: Snapshot, values: seq<Value>, indices: seq<nat>)
    requires WellFounded(h) && AllKnown(h, values) && forall p :: p in indices ==> p < |values|
    ensures AllKnown(h, Pick(values, indices))
    ensures Sum(Weights(h, Pick(values, indices))) == Total(Weights(h, values), indices)
    decreases |indices|
  {
    if indices != [] {
      assert indices[0] in indices && forall p :: p in indices[1..] ==> p in indices;
      PickWeighs(h, values, indices[1..]);
      assert Pick(values, indices)[1..] == Pick(values, indices[1..]);
      assert Weights(h, Pick(values, indices))[1..] == Weights(h, Pick(values, indices[1..]));
    }
  }

  // --- Content before and after -------------------------------------------------

  ghost function Shallow(c: Content, overwrite: bool): Content
    requires c.DictOf? ==> Distinct(c.entries)
  {
    if c.DictOf? then DictOf(RenameEntries(c.entries, overwrite)) else c
  }

  // Processing a dict in its first or in its renamed state leaves it renamed
  // and pushes less weight than the dict had.
  lemma ProcessingPaysOff(h: Snapshot, n: Node, e: seq<(string, Value)>, overwrite: bool)
    requires WellFounded(h) && n in h && h[n].DictOf?
    requires e == h[n].entries || e == RenameEntries(h[n].entries, overwrite)
    ensures Distinct(e) && RenameEntries(e, overwrite) == RenameEntries(h[n].entries, overwrite)
    ensures AllKnown(h, Values(e)) && forall p :: p in Pushes(Keys(e), overwrite) ==> p < |e|
    ensures AllKnown(h, Pick(Values(e), Pushes(Keys(e), overwrite)))
    ensures Sum(Weights(h, Pick(Values(e), Pushes(Keys(e), overwrite)))) < Weight(h, Ref(n))
    ensures forall v :: v in Values(RenameEntries(e, overwrite)) ==> v in Pick(Values(e), Pushes(Keys(e), overwrite))
  {
    var e0 := h[n].entries;
    NodeWeight(h, n);
    RenameTwice(e0, overwrite);
    RenamedWeighs(h, e0, overwrite);
    var w := Weights(h, Values(e));
    PushesWeighAtMostDouble(Keys(e), overwrite, w);
    PickWeighs(h, Values(e), Pushes(Keys(e), overwrite));
    RenamedValuesPushed(e, overwrite);
  }

  lemma RenamedWeighs(h: Snapshot, e: seq<(string, Value)>, overwrite: bool)
    requires WellFounded(h) && Distinct(e) && AllKnown(h, Values(e))
    ensures AllKnown(h, Values(RenameEntries(e, overwrite)))
    ensures Sum(Weights(h, Values(RenameEntries(e, overwrite)))) <= Sum(Weights(h, Values(e)))
  {
    var keys, w := Keys(e), Weights(h, Values(e));
    IdentityPresent(keys);
    PlanFitsKeys(keys, overwrite);
    RenameFromNotHeavier(Identity(keys), keys, overwrite, w);
    var r := RenameEntries(e, overwrite);
    assert Weights(h, Values(r)) == Shown(RenamePlan(keys, overwrite), w);
    assert w == Shown(Identity(keys), w);
  }

  lemma RenamedValuesPushed(e: seq<(string, Value)>, overwrite: bool)
    requires Distinct(e) && forall p :: p in Pushes(Keys(e), overwrite) ==> p < |e|
    ensures forall v :: v in Values(RenameEntries(e, overwrite)) ==> v in Pick(Values(e), Pushes(Keys(e), overwrite))
  {
    PlanFitsKeys(Keys(e), overwrite);
    var plan, pushes := RenamePlan(Keys(e), overwrite), Pushes(Keys(e), overwrite);
    forall v | v in Values(RenameEntries(e, overwrite)) ensures v in Pick(Values(e), pushes) {
      var j :| 0 <= j < |plan| && v == Values(e)[plan[j].1];
      AllShownArePushed(Keys(e), overwrite, j);
      var i :| 0 <= i < |pushes| && pushes[i] == plan[j].1;
      assert Pick(Values(e), pushes)[i] == v;
    }
  }

  // --- One dict, in place --------------------------------------------------------

  lemma SelectCommutes<V>(values: seq<V>, plan: Plan, key: string, overwrite: bool)
    requires PlanFits(plan, |values|) && HasKey(plan, key)
    ensures HasKey(Select(values, plan), key) && Lookup(Select(values, plan), key) == values[Lookup(plan, key)]
    ensures PlanFits(RenameKey(plan, key, overwrite), |values|)
    ensures RenameKey(Select(values, plan), key, overwrite) == Select(values, RenameKey(plan, key, overwrite))
  {
    SelectIndex(values, plan, key);
    if Dashed(key) {
      var d := Delete(plan, key);
      SelectDelete(values, plan, key);
      SelectIndex(values, d, Underscored(key));
      SelectPut(values, d, Underscored(key), Lookup(plan, key));
    }
  }

  // The values pushed, from a plan on.
  ghost function Pushed<V>(values: seq<V>, plan: Plan, keys: seq<string>, overwrite: bool): seq<V>
    requires Distinct(plan) && Present(plan, keys) && PlanFits(plan, |values|)
  {
    PushFits(plan, keys, overwrite, |values|);
    Pick(values, PushFrom(plan, keys, overwrite))
  }

  // One turn of the loop of _process_dict, on the plan.
  lemma ProcessTurn<V>(values: seq<V>, plan: Plan, keys: seq<string>, overwrite: bool)
    requires Distinct(plan) && Present(plan, keys) && PlanFits(plan, |values|) && keys != []
    ensures HasKey(plan, keys[0])
    ensures var plan', rest := RenameKey(plan, keys[0], overwrite), keys[1..];
            && Distinct(plan') && Present(plan', rest) && PlanFits(plan', |values|)
            && RenameFrom(plan, keys, overwrite) == RenameFrom(plan', rest, overwrite)
            && Pushed(values, plan, keys, overwrite)
               == [values[Lookup(plan, keys[0])]] + Pushed(values, plan', rest, overwrite)
  {
    assert keys[0] in keys;
    RenameKeepsPresent(plan, keys, overwrite);
    RenameKeyFits(plan, keys[0], overwrite, |values|);
    var rest := PushFrom(RenameKey(plan, keys[0], overwrite), keys[1..], overwrite);
    PushFits(plan, keys, overwrite, |values|);
    PushFits(RenameKey(plan, keys[0], overwrite), keys[1..], overwrite, |values|);
    assert PushFrom(plan, keys, overwrite) == [Lookup(plan, keys[0])] + rest;
    PickCons(values, Lookup(plan, keys[0]), rest);
  }

  // One key of _process_dict, in place.
  method ProcessKey(n: Node, key: string, overwrite: bool) returns (value: Value)
    requires n.content.DictOf? && HasKey(n.content.entries, key)
    modifies n
    ensures value == Lookup(old(n.content.entries), key)
    ensures n.content == DictOf(RenameKey(old(n.content.entries), key, overwrite))
  {
    value := Lookup(n.content.entries, key);
    if '-' in key {
      var newKey := Underscored(key);
      n.content := DictOf(Delete(n.content.entries, key));
      if (HasKey(n.content.entries, newKey) && overwrite) || !HasKey(n.content.entries, newKey) {
        n.content := DictOf(Put(n.content.entries, newKey, value));
      }
    }
  }

  // _process_dict
  method ProcessDict(n: Node, queue: seq<Value>, overwrite: bool) returns (queue': seq<Value>)
    requires n.content.DictOf? && Distinct(n.content.entries)
    modifies n
    ensures n.content == DictOf(RenameEntries(old(n.content.entries), overwrite))
    ensures forall p :: p in Pushes(Keys(old(n.content.entries)), overwrite) ==> p < |old(n.content.entries)|
    ensures queue' == queue + Pick(Values(old(n.content.entries)), Pushes(Keys(old(n.content.entries)), overwrite))
  {
    ghost var e := n.content.entries;
    var keys := Keys(n.content.entries);
    ghost var plan, values := Identity(keys), Values(e);
    IdentityPresent(keys);
    SelectIdentity(e);
    PushFits(plan, keys, overwrite, |values|);
    ghost var all := queue + Pushed(values, plan, keys, overwrite);
    queue' := queue;
    for i := 0 to |keys|
      invariant MidDict(n.content, values, plan, Rest(keys, i), overwrite, queue', all, RenamePlan(keys, overwrite))
    {
      MidDictTurn(n.content, values, plan, Rest(keys, i), overwrite, queue', all, RenamePlan(keys, overwrite));
      var value := ProcessKey(n, keys[i], overwrite);
      queue' := queue' + [value];
      plan := RenameKey(plan, keys[i], overwrite);
    }
  }

  // Inside the loop of _process_dict: the dict shows `plan`, `rest` is to come,
  // and the result will be `result` with `all` pushed.
  ghost predicate MidDict(c: Content, values: seq<Value>, plan: Plan, rest: seq<string>, overwrite: bool,
                          queue: seq<Value>, all: seq<Value>, result: Plan) {
    && Distinct(plan) && Present(plan, rest) && PlanFits(plan, |values|)
    && c == DictOf(Select(values, plan))
    && RenameFrom(plan, rest, overwrite) == result
    && queue + Pushed(values, plan, rest, overwrite) == all
  }

  lemma MidDictTurn(c: Content, values: seq<Value>, plan: Plan, rest: seq<string>, overwrite: bool,
                    queue: seq<Value>, all: seq<Value>, result: Plan)
    requires MidDict(c, values, plan, rest, overwrite, queue, all, result) && rest != []
    ensures HasKey(plan, rest[0]) && c.DictOf? && HasKey(c.entries, rest[0])
    ensures MidDict(DictOf(RenameKey(c.entries, rest[0], overwrite)), values, RenameKey(plan, rest[0], overwrite),
                    rest[1..], overwrite, queue + [Lookup(c.entries, rest[0])], all, result)
  {
    ProcessTurn(values, plan, rest, overwrite);
    SelectCommutes(values, plan, rest[0], overwrite);
    var tail := Pushed(values, RenameKey(plan, rest[0], overwrite), rest[1..], overwrite);
    assert queue + [Lookup(c.entries, rest[0])] + tail == queue + ([Lookup(c.entries, rest[0])] + tail);
  }

  ghost function Rest(keys: seq<string>, i: nat): (r: seq<string>)
    requires i <= |keys|
    ensures i == 0 ==> r == keys
    ensures i == |keys| ==> r == []
    ensures i < |keys| ==> r != [] && r[0] == keys[i] && r[1..] == Rest(keys, i + 1)
    decreases |keys| - i
  {
    keys[i..]
  }

  // --- The walk -------------------------------------------------------------------

  // h is h0 with the objects in `done` renamed; what is below them is done or
  // on the stack.
  ghost predicate WalkOk(h0: Snapshot, h: Snapshot, done: set<Node>, stack: seq<Value>, root: Node, overwrite: bool)
    requires WellFounded(h0)
  {
    && h.Keys == h0.Keys && done <= h.Keys && root in h
    && (forall n :: n in h ==> h[n] == if n in done then Shallow(h0[n], overwrite) else h0[n])
    && AllKnown(h0, stack)
    && (root in done || Ref(root) in stack)
    && (forall n, v :: n in done && v in Children(h[n]) && v.Ref? ==> v.node in done || v in stack)
  }

  lemma ShallowChildren(c: Content, overwrite: bool)
    requires c.DictOf? ==> Distinct(c.entries)
    ensures forall v :: v in Children(Shallow(c, overwrite)) ==> v in Children(c)
  {
    if c.DictOf? {
      PlanFitsKeys(Keys(c.entries), overwrite);
    }
  }

  lemma WalkKeepsWellFounded(h0: Snapshot, h: Snapshot, done: set<Node>, stack: seq<Value>, root: Node, overwrite: bool)
    requires WellFounded(h0) && WalkOk(h0, h, done, stack, root, overwrite)
    ensures WellFounded(h)
  {
    forall n | n in h
      ensures forall v :: v in Children(h[n]) ==> Known(h, v) && Height(v) < Height(Ref(n))
      ensures h[n].DictOf? ==> Distinct(h[n].entries)
    {
      ShallowChildren(h0[n], overwrite);
    }
  }

  lemma WalkLeaf(h0: Snapshot, h: Snapshot, done: set<Node>, front: seq<Value>, v: Value, root: Node, overwrite: bool)
    requires WellFounded(h0) && WalkOk(h0, h, done, front + [v], root, overwrite) && v.Leaf?
    ensures WalkOk(h0, h, done, front, root, overwrite)
    ensures Sum(Weights(h0, front)) < Sum(Weights(h0, front + [v]))
  {
    var stack := front + [v];
    assert stack[..|stack| - 1] == front;
    PopWeighs(h0, stack);
    assert forall x :: x in stack ==> x in front || x == v;
  }

  // Popping an object, renaming it and pushing values that hold all its
  // children and weigh less than it.
  lemma WalkNode(h0: Snapshot, h: Snapshot, h': Snapshot, done: set<Node>, front: seq<Value>, n: Node, pushed: seq<Value>,
                 root: Node, overwrite: bool)
    requires WellFounded(h0) && WalkOk(h0, h, done, front + [Ref(n)], root, overwrite)
    requires Known(h0, Ref(n)) && h' == h[n := Shallow(h0[n], overwrite)]
    requires AllKnown(h0, pushed) && Sum(Weights(h0, pushed)) < Weight(h0, Ref(n))
    requires forall v :: v in Children(h'[n]) ==> v in pushed
    ensures WalkOk(h0, h', done + {n}, front + pushed, root, overwrite)
    ensures Sum(Weights(h0, front + pushed)) < Sum(Weights(h0, front + [Ref(n)]))
  {
    var stack := front + [Ref(n)];
    assert stack[..|stack| - 1] == front;
    PopWeighs(h0, stack);
    PushWeighs(h0, front, pushed);
    WalkNodeOk(h0, h, h', done, front, n, pushed, root, overwrite);
  }

  lemma WalkNodeOk(h0: Snapshot, h: Snapshot, h': Snapshot, done: set<Node>, front: seq<Value>, n: Node,
                   pushed: seq<Value>, root: Node, overwrite: bool)
    requires WellFounded(h0) && WalkOk(h0, h, done, front + [Ref(n)], root, overwrite)
    requires Known(h0, Ref(n)) && h' == h[n := Shallow(h0[n], overwrite)] && AllKnown(h0, pushed)
    requires forall v :: v in Children(h'[n]) ==> v in pushed
    ensures WalkOk(h0, h', done + {n}, front + pushed, root, overwrite)
  {
    var done' := done + {n};
    assert AllKnown(h0, front) by {
      forall i | 0 <= i < |front| ensures Known(h0, front[i]) {
        assert (front + [Ref(n)])[i] == front[i];
      }
    }
    forall m, v | m in done' && v in Children(h'[m]) && v.Ref? ensures v.node in done' || v in front + pushed {
      if m != n {
        assert h'[m] == h[m];
        assert v.node in done || v in front + [Ref(n)];
      }
    }
  }

  lemma {:induction false} TreeDistinct(h: Snapshot, v: Value)
    requires WellFounded(h) && Known(h, v)
    ensures DistinctEverywhere(Tree(h, v))
    decreases Height(v)
  {
    if v.Ref? {
      forall c | c in Children(h[v.node]) ensures DistinctEverywhere(Tree(h, c)) {
        TreeDistinct(h, c);
      }
      if h[v.node].DictOf? {
        var entries := h[v.node].entries;
        assert forall i :: 0 <= i < |entries| ==> entries[i].1 == Children(h[v.node])[i];
      }
    }
  }

  // Where everything below is done, the tree is the recursive rename.
  lemma {:induction false} DoneTree(h0: Snapshot, h: Snapshot, done: set<Node>, root: Node, overwrite: bool, v: Value)
    requires WellFounded(h0) && WellFounded(h) && WalkOk(h0, h, done, [], root, overwrite)
    requires Known(h0, v) && (v.Ref? ==> v.node in done)
    ensures DistinctEverywhere(Tree(h0, v)) && Tree(h, v) == RenameJson(Tree(h0, v), overwrite)
    decreases Height(v)
  {
    TreeDistinct(h0, v);
    if v.Ref? {
      var n := v.node;
      ShallowChildren(h0[n], overwrite);
      forall c | c in Children(h[n])
        ensures DistinctEverywhere(Tree(h0, c)) && Tree(h, c) == RenameJson(Tree(h0, c), overwrite)
      {
        DoneTree(h0, h, done, root, overwrite, c);
      }
      match h0[n]
      case ListOf(items) =>
        assert Tree(h, v).items == RenameJson(Tree(h0, v), overwrite).items;
      case DictOf(entries) =>
        DictTree(h0, h, n, overwrite);
    }
  }

  lemma DictTree(h0: Snapshot, h: Snapshot, n: Node, overwrite: bool)
    requires WellFounded(h0) && WellFounded(h) && n in h0 && n in h && h0[n].DictOf?
    requires h[n] == Shallow(h0[n], overwrite) && DistinctEverywhere(Tree(h0, Ref(n)))
    requires forall c :: c in Children(h[n]) ==>
      Known(h0, c) && DistinctEverywhere(Tree(h0, c)) && Tree(h, c) == RenameJson(Tree(h0, c), overwrite)
    ensures Tree(h, Ref(n)) == RenameJson(Tree(h0, Ref(n)), overwrite)
  {
    var entries, json := h0[n].entries, Tree(h0, Ref(n)).entries;
    assert forall i :: 0 <= i < |entries| ==> entries[i].1 == Children(h0[n])[i];
    assert Keys(json) == Keys(entries);
    PlanFitsKeys(Keys(entries), overwrite);
    var plan := RenamePlan(Keys(entries), overwrite);
    var left, right := Tree(h, Ref(n)).entries, RenameJson(Tree(h0, Ref(n)), overwrite).entries;
    forall j | 0 <= j < |plan| ensures left[j] == right[j] {
      var k := plan[j].1;
      var c := entries[k].1;
      assert Children(h[n])[j] == c && c in Children(h[n]);
      assert h[n].entries[j] == (plan[j].0, c) && left[j] == (plan[j].0, Tree(h, c));
      assert json[k].1 == Tree(h0, c);
    }
    assert left == right;
  }

  // _process_dict leaves every other object as it is.
  method RenameOne(n: Node, front: seq<Value>, overwrite: bool, ghost nodes: set<Node>) returns (queue': seq<Value>)
    requires n in nodes && n.content.DictOf? && Distinct(n.content.entries)
    modifies n
    ensures Heap(nodes) == old(Heap(nodes))[n := DictOf(RenameEntries(old(n.content.entries), overwrite))]
    ensures forall p :: p in Pushes(Keys(old(n.content.entries)), overwrite) ==> p < |old(n.content.entries)|
    ensures queue' == front + Pick(Values(old(n.content.entries)), Pushes(Keys(old(n.content.entries)), overwrite))
  {
    queue' := ProcessDict(n, front, overwrite);
  }

  // A dict popped is in its first or in its renamed state.
  lemma PoppedDict(h0: Snapshot, h: Snapshot, done: set<Node>, front: seq<Value>, n: Node, root: Node, overwrite: bool)
    requires WellFounded(h0) && WalkOk(h0, h, done, front + [Ref(n)], root, overwrite) && n in h && h[n].DictOf?
    ensures var e := h[n].entries;
            && Distinct(e) && (forall p :: p in Pushes(Keys(e), overwrite) ==> p < |e|)
            && var h', pushed := h[n := DictOf(RenameEntries(e, overwrite))], Pick(Values(e), Pushes(Keys(e), overwrite));
               && WalkOk(h0, h', done + {n}, front + pushed, root, overwrite)
               && AllKnown(h0, front + pushed) && AllKnown(h0, front + [Ref(n)])
               && Sum(Weights(h0, front + pushed)) < Sum(Weights(h0, front + [Ref(n)]))
  {
    var e := h[n].entries;
    ProcessingPaysOff(h0, n, e, overwrite);
    var pushed := Pick(Values(e), Pushes(Keys(e), overwrite));
    WalkNode(h0, h, h[n := DictOf(RenameEntries(e, overwrite))], done, front, n, pushed, root, overwrite);
  }

  lemma PoppedList(h0: Snapshot, h: Snapshot, done: set<Node>, front: seq<Value>, n: Node, root: Node, overwrite: bool)
    requires WellFounded(h0) && WalkOk(h0, h, done, front + [Ref(n)], root, overwrite) && n in h && h[n].ListOf?
    ensures WalkOk(h0, h, done + {n}, front + h[n].items, root, overwrite)
    ensures AllKnown(h0, front + h[n].items) && AllKnown(h0, front + [Ref(n)])
    ensures Sum(Weights(h0, front + h[n].items)) < Sum(Weights(h0, front + [Ref(n)]))
  {
    NodeWeight(h0, n);
    WalkNode(h0, h, h, done, front, n, h[n].items, root, overwrite);
  }

  // One turn of main's loop.
  method RenameNext(queue: seq<Value>, overwrite: bool, ghost nodes: set<Node>, ghost h0: Snapshot, ghost done: set<Node>,
                    ghost root: Node)
    returns (queue': seq<Value>, ghost done': set<Node>)
    requires queue != [] && WellFounded(h0) && h0.Keys == nodes && WalkOk(h0, Heap(nodes), done, queue, root, overwrite)
    modifies nodes
    ensures WalkOk(h0, Heap(nodes), done', queue', root, overwrite)
    ensures Sum(Weights(h0, queue')) < Sum(Weights(h0, queue))
  {
    var obj := queue[|queue| - 1];
    var rest := queue[..|queue| - 1];
    assert queue == rest + [obj];
    done' := done;
    if obj.Leaf? {
      WalkLeaf(h0, Heap(nodes), done, rest, obj, root, overwrite);
      queue' := rest;
    } else if obj.node.content.DictOf? {
      PoppedDict(h0, Heap(nodes), done, rest, obj.node, root, overwrite);
      queue' := RenameOne(obj.node, rest, overwrite, nodes);
      done' := done + {obj.node};
    } else {
      PoppedList(h0, Heap(nodes), done, rest, obj.node, root, overwrite);
      queue' := rest + obj.node.content.items;
      done' := done + {obj.node};
    }
  }

  // main
  method RenameInPlace(event: Node, overwrite: bool, ghost nodes: set<Node>)
    requires event in nodes && WellFounded(Heap(nodes))
    modifies nodes
    ensures WellFounded(Heap(nodes)) && DistinctEverywhere(Tree(old(Heap(nodes)), Ref(event)))
    ensures Tree(Heap(nodes), Ref(event)) == RenameJson(Tree(old(Heap(nodes)), Ref(event)), overwrite)
  {
    ghost var h0 := Heap(nodes);
    ghost var done: set<Node> := {};
    var queue := [Ref(event)];
    while queue != []
      invariant WalkOk(h0, Heap(nodes), done, queue, event, overwrite)
      decreases Sum(Weights(h0, queue))
    {
      queue, done := RenameNext(queue, overwrite, nodes, h0, done, event);
    }
    WalkKeepsWellFounded(h0, Heap(nodes), done, [], event, overwrite);
    DoneTree(h0, Heap(nodes), done, event, overwrite, Ref(event));
  }
}
