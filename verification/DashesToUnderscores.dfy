/**
 dashes_to_underscores: the in-place stack walk and the recursive rename it
 amounts to. Objects may be shared; they only must not form cycles.
 */
module DashesToUnderscores {
  import opened OrderedDict
  import opened EventTree

  predicate Dashed(key: string) {
    '-' in key
  }

  // key.replace("-", "_")
  function Underscored(key: string): (r: string)
    ensures |r| == |key| && !Dashed(r)
    ensures forall i :: 0 <= i < |key| ==> r[i] == if key[i] == '-' then '_' else key[i]
  {
    seq(|key|, i requires 0 <= i < |key| => if key[i] == '-' then '_' else key[i])
  }

  // --- What happens to the keys of one dict ---------------------------------

  function RenameKey<V>(e: seq<(string, V)>, key: string, overwrite: bool): seq<(string, V)>
    requires HasKey(e, key)
  {
    if !Dashed(key) then e
    else
      var v, d := Lookup(e, key), Delete(e, key);
      if overwrite || !HasKey(d, Underscored(key)) then Put(d, Underscored(key), v) else d
  }

  predicate Present<V>(e: seq<(string, V)>, keys: seq<string>) {
    DistinctKeys(keys) && forall k :: k in keys ==> HasKey(e, k)
  }

  // e' is e as far as t goes, with one key renamed.
  predicate RenamedAt<V(==)>(e: seq<(string, V)>, e': seq<(string, V)>, key: string, overwrite: bool, t: string)
    requires HasKey(e, key)
  {
    if Dashed(key) && t == key then !HasKey(e', t)
    else if Dashed(key) && t == Underscored(key)
    then HasKey(e', t) && Lookup(e', t) == Lookup(e, if overwrite || !HasKey(e, t) then key else t)
    else (HasKey(e', t) <==> HasKey(e, t)) && (HasKey(e, t) ==> Lookup(e', t) == Lookup(e, t))
  }

  // What one key does to key t.
  lemma RenameKeyFacts<V>(e: seq<(string, V)>, key: string, overwrite: bool, t: string)
    requires Distinct(e) && HasKey(e, key)
    ensures Distinct(RenameKey(e, key, overwrite)) && RenamedAt(e, RenameKey(e, key, overwrite), key, overwrite, t)
  {
    if Dashed(key) {
      DeleteFacts(e, key);
      PutFacts(Delete(e, key), Underscored(key), Lookup(e, key));
    }
  }

  // The keys still to come stay present: the rename only removes the key at hand.
  lemma RenameKeepsPresent<V>(e: seq<(string, V)>, keys: seq<string>, overwrite: bool)
    requires Distinct(e) && keys != [] && Present(e, keys)
    ensures var e' := RenameKey(e, keys[0], overwrite);
            Distinct(e') && Present(e', keys[1..])
  {
    var key := keys[0];
    assert key in keys;
    RenameKeyFacts(e, key, overwrite, key);
    forall k | k in keys[1..] ensures HasKey(RenameKey(e, key, overwrite), k) {
      assert k in keys && k != key;
      RenameKeyFacts(e, key, overwrite, k);
    }
  }

  function RenameFrom(plan: Plan, keys: seq<string>, overwrite: bool): (r: Plan)
    requires Distinct(plan) && Present(plan, keys)
    ensures Distinct(r)
    decreases |keys|
  {
    if keys == [] then plan
    else
      RenameKeepsPresent(plan, keys, overwrite);
      RenameFrom(RenameKey(plan, keys[0], overwrite), keys[1..], overwrite)
  }

  lemma IdentityPresent(keys: seq<string>)
    requires DistinctKeys(keys)
    ensures Distinct(Identity(keys)) && Present(Identity(keys), keys)
    ensures forall i :: 0 <= i < |keys| ==> Lookup(Identity(keys), keys[i]) == i
  {
    forall i | 0 <= i < |keys| ensures HasKey(Identity(keys), keys[i]) && Lookup(Identity(keys), keys[i]) == i {
      PositionOf(Identity(keys), i);
    }
  }

  // For each key of the renamed dict, the index of the entry it shows.
  function RenamePlan(keys: seq<string>, overwrite: bool): (r: Plan)
    requires DistinctKeys(keys)
    ensures Distinct(r)
  {
    IdentityPresent(keys);
    RenameFrom(Identity(keys), keys, overwrite)
  }

  // --- Who wins a collision --------------------------------------------------

  // The last dashed key that becomes t, or |keys|.
  function LastDashed(keys: seq<string>, t: string): (i: nat)
    ensures i <= |keys|
    ensures i < |keys| ==> Dashed(keys[i]) && Underscored(keys[i]) == t
  {
    if keys == [] then 0
    else
      var rest := LastDashed(keys[1..], t);
      if rest < |keys| - 1 then rest + 1
      else if Dashed(keys[0]) && Underscored(keys[0]) == t then 0
      else |keys|
  }

  function FirstDashed(keys: seq<string>, t: string): (i: nat)
    ensures i <= |keys|
    ensures i < |keys| ==> Dashed(keys[i]) && Underscored(keys[i]) == t
  {
    if keys == [] || (Dashed(keys[0]) && Underscored(keys[0]) == t) then 0
    else 1 + FirstDashed(keys[1..], t)
  }

  // No dashed key that becomes t comes after the last or before the first one.
  lemma {:induction false} LastAndFirst(keys: seq<string>, t: string, j: nat)
    requires j < |keys| && Dashed(keys[j]) && Underscored(keys[j]) == t
    ensures FirstDashed(keys, t) <= j <= LastDashed(keys, t) < |keys|
    decreases |keys|
  {
    if j > 0 {
      LastAndFirst(keys[1..], t, j - 1);
    }
  }

  // No dashed key among those a run has gone over is left.
  lemma {:induction false} NoDashLeft(plan: Plan, keys: seq<string>, overwrite: bool, t: string)
    requires Distinct(plan) && Present(plan, keys) && Dashed(t)
    ensures HasKey(RenameFrom(plan, keys, overwrite), t) <==> HasKey(plan, t) && t !in keys
    decreases |keys|
  {
    if keys != [] {
      RenameKeepsPresent(plan, keys, overwrite);
      NoDashLeft(RenameKey(plan, keys[0], overwrite), keys[1..], overwrite, t);
      RenameKeyFacts(plan, keys[0], overwrite, t);
      assert t in keys <==> t == keys[0] || t in keys[1..];
    }
  }

  // The dashed keys still to come keep their entries.
  lemma DashedKeepEntries(plan: Plan, keys: seq<string>, overwrite: bool, i: nat)
    requires Distinct(plan) && Present(plan, keys) && 0 < i < |keys| && Dashed(keys[i])
    ensures HasKey(RenameKey(plan, keys[0], overwrite), keys[i]) && HasKey(plan, keys[i])
    ensures Lookup(RenameKey(plan, keys[0], overwrite), keys[i]) == Lookup(plan, keys[i])
  {
    assert keys[0] in keys && keys[i] in keys;
    RenameKeyFacts(plan, keys[0], overwrite, keys[i]);
  }

  // The first key of a run comes last or first among the dashed ones; what is
  // left decides the rest.
  lemma DashedOfRest(keys: seq<string>, t: string)
    requires keys != []
    ensures var d, rest := LastDashed(keys, t), LastDashed(keys[1..], t);
            if rest < |keys| - 1 then d == rest + 1
            else d == if Dashed(keys[0]) && Underscored(keys[0]) == t then 0 else |keys|
    ensures FirstDashed(keys, t)
            == if Dashed(keys[0]) && Underscored(keys[0]) == t then 0 else 1 + FirstDashed(keys[1..], t)
  {
  }

  // Key t shows what key k of `plan` shows.
  predicate ShowsAs(r: Plan, t: string, plan: Plan, k: string) {
    HasKey(r, t) && HasKey(plan, k) && Lookup(r, t) == Lookup(plan, k)
  }

  predicate ShowsSame(r: Plan, plan: Plan, t: string) {
    (HasKey(r, t) <==> HasKey(plan, t)) && (HasKey(plan, t) ==> Lookup(r, t) == Lookup(plan, t))
  }

  // With overwrite the last dashed key wins, and any of them beats an
  // existing key.
  lemma {:induction false} LastDashedWins(plan: Plan, keys: seq<string>, t: string)
    requires Distinct(plan) && Present(plan, keys) && !Dashed(t)
    ensures var r, d := RenameFrom(plan, keys, true), LastDashed(keys, t);
            if d < |keys| then ShowsAs(r, t, plan, keys[d]) else ShowsSame(r, plan, t)
    decreases |keys|
  {
    if keys != [] {
      assert keys[0] in keys;
      var plan', rest := RenameKey(plan, keys[0], true), LastDashed(keys[1..], t);
      RenameKeepsPresent(plan, keys, true);
      LastDashedWins(plan', keys[1..], t);
      DashedOfRest(keys, t);
      var r := RenameFrom(plan, keys, true);
      assert r == RenameFrom(plan', keys[1..], true);
      if rest < |keys| - 1 {
        DashedKeepEntries(plan, keys, true, rest + 1);
      } else {
        assert ShowsSame(r, plan', t);
        RenameKeyFacts(plan, keys[0], true, t);
      }
    }
  }

  // Without overwrite an existing key wins, else the first dashed key.
  lemma {:induction false} FirstDashedWins(plan: Plan, keys: seq<string>, t: string)
    requires Distinct(plan) && Present(plan, keys) && !Dashed(t)
    ensures var r, d := RenameFrom(plan, keys, false), FirstDashed(keys, t);
            if d < |keys| && !HasKey(plan, t) then ShowsAs(r, t, plan, keys[d]) else ShowsSame(r, plan, t)
    decreases |keys|
  {
    if keys != [] {
      assert keys[0] in keys;
      var plan', d := RenameKey(plan, keys[0], false), FirstDashed(keys, t);
      RenameKeepsPresent(plan, keys, false);
      FirstDashedWins(plan', keys[1..], t);
      RenameKeyFacts(plan, keys[0], false, t);
      DashedOfRest(keys, t);
      if 0 < d < |keys| {
        DashedKeepEntries(plan, keys, false, d);
      }
    }
  }

  // The entry that the renamed dict shows under t, said without running the
  // rename: an index into the original keys, or none.
  function Winner(keys: seq<string>, overwrite: bool, t: string): (i: nat)
    ensures i <= |keys|
  {
    if Dashed(t) then |keys|
    else if overwrite then
      var d := LastDashed(keys, t);
      if d < |keys| then d else KeyIndex(keys, t)
    else if KeyIndex(keys, t) < |keys| then KeyIndex(keys, t)
    else FirstDashed(keys, t)
  }

  lemma RenamePlanWinners(keys: seq<string>, overwrite: bool, t: string)
    requires DistinctKeys(keys)
    ensures var r, w := RenamePlan(keys, overwrite), Winner(keys, overwrite, t);
            (HasKey(r, t) <==> w < |keys|) && (HasKey(r, t) ==> Lookup(r, t) == w)
  {
    var plan := Identity(keys);
    IdentityPresent(keys);
    if Dashed(t) {
      NoDashLeft(plan, keys, overwrite, t);
      if HasKey(plan, t) {
        assert keys[IndexOf(plan, t)] == t;
      }
    } else if overwrite {
      LastDashedWins(plan, keys, t);
    } else {
      FirstDashedWins(plan, keys, t);
    }
  }

  // --- The recursive rename --------------------------------------------------

  lemma {:induction false} RenameFromFits(plan: Plan, keys: seq<string>, overwrite: bool, n: nat)
    requires Distinct(plan) && Present(plan, keys) && PlanFits(plan, n)
    ensures PlanFits(RenameFrom(plan, keys, overwrite), n)
    decreases |keys|
  {
    if keys != [] {
      assert keys[0] in keys;
      RenameKeepsPresent(plan, keys, overwrite);
      RenameFromFits(RenameKey(plan, keys[0], overwrite), keys[1..], overwrite, n);
    }
  }

  lemma PlanFitsKeys(keys: seq<string>, overwrite: bool)
    requires DistinctKeys(keys)
    ensures PlanFits(RenamePlan(keys, overwrite), |keys|)
  {
    IdentityPresent(keys);
    RenameFromFits(Identity(keys), keys, overwrite, |keys|);
  }

  function RenameEntries<V>(e: seq<(string, V)>, overwrite: bool): (r: seq<(string, V)>)
    requires Distinct(e)
    ensures Distinct(r)
  {
    PlanFitsKeys(Keys(e), overwrite);
    Select(Values(e), RenamePlan(Keys(e), overwrite))
  }

  // Every dict, under dicts and lists, with its keys renamed.
  function RenameJson(j: Json, overwrite: bool): Json
    requires DistinctEverywhere(j)
  {
    match j
    case Atom(_) => j
    case Object(entries) =>
      PlanFitsKeys(Keys(entries), overwrite);
      var plan := RenamePlan(Keys(entries), overwrite);
      Object(seq(|plan|, i requires 0 <= i < |plan| => (plan[i].0, RenameJson(entries[plan[i].1].1, overwrite))))
    case Array(items) => Array(seq(|items|, i requires 0 <= i < |items| => RenameJson(items[i], overwrite)))
  }

  predicate DashFree(j: Json) {
    match j
    case Atom(_) => true
    case Object(entries) => forall i :: 0 <= i < |entries| ==> !Dashed(entries[i].0) && DashFree(entries[i].1)
    case Array(items) => forall i :: 0 <= i < |items| ==> DashFree(items[i])
  }

  // No key of any dict keeps a dash.
  lemma {:induction false} RenameLeavesNoDash(j: Json, overwrite: bool)
    requires DistinctEverywhere(j)
    ensures DashFree(RenameJson(j, overwrite))
  {
    match j
    case Atom(_) =>
    case Object(entries) =>
      var keys := Keys(entries);
      PlanFitsKeys(keys, overwrite);
      var plan := RenamePlan(keys, overwrite);
      forall i | 0 <= i < |plan|
        ensures !Dashed(plan[i].0) && DashFree(RenameJson(entries[plan[i].1].1, overwrite))
      {
        RenamePlanWinners(keys, overwrite, plan[i].0);
        PositionOf(plan, i);
        RenameLeavesNoDash(entries[plan[i].1].1, overwrite);
      }
    case Array(items) =>
      forall i | 0 <= i < |items| ensures DashFree(RenameJson(items[i], overwrite)) {
        RenameLeavesNoDash(items[i], overwrite);
      }
  }

  // Which value each key of a renamed dict shows: on collisions the last
  // dashed key with overwrite, an existing key or else the first dashed one
  // without; renamed itself.
  lemma RenamedDictShowsWinner(entries: seq<(string, Json)>, overwrite: bool, t: string)
    requires DistinctEverywhere(Object(entries))
    ensures var r, w := RenameJson(Object(entries), overwrite), Winner(Keys(entries), overwrite, t);
            && (HasKey(r.entries, t) <==> w < |entries|)
            && (HasKey(r.entries, t) ==> Lookup(r.entries, t) == RenameJson(entries[w].1, overwrite))
  {
    var keys := Keys(entries);
    PlanFitsKeys(keys, overwrite);
    var plan, r := RenamePlan(keys, overwrite), RenameJson(Object(entries), overwrite);
    RenamePlanWinners(keys, overwrite, t);
    assert Keys(r.entries) == Keys(plan);
    SameKeysSameIndex(r.entries, plan, t);
  }

  lemma {:induction false} SameKeysSameIndex<V, W>(a: seq<(string, V)>, b: seq<(string, W)>, t: string)
    requires Keys(a) == Keys(b)
    ensures IndexOf(a, t) == IndexOf(b, t)
    decreases |a|
  {
    assert |a| == |Keys(a)| == |b|;
    if a != [] {
      assert Keys(a)[0] == Keys(b)[0];
      assert Keys(a[1..]) == Keys(a)[1..] == Keys(b[1..]);
      SameKeysSameIndex(a[1..], b[1..], t);
    }
  }
}
