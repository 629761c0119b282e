/**
 normalize_keys: every run of characters that are no word characters becomes one
 underscore, in the keys of every dict. What a word character is, is a
 parameter; the underscore is one.
 */
module NormalizeKeys {
  import opened OrderedDict
  import opened EventTree
  import opened Sequences

  type Word = char -> bool

  predicate Normal(key: string, word: Word) {
    forall c :: c in key ==> word(c)
  }

  // How many characters the match of \W+ at the start takes.
  function RunLength(key: string, word: Word): (n: nat)
    ensures n <= |key|
    ensures forall i :: 0 <= i < n ==> !word(key[i])
    ensures n < |key| ==> word(key[n])
  {
    if key == "" || word(key[0]) then 0 else 1 + RunLength(key[1..], word)
  }

  // normalize_regex.sub("_", key)
  function NormalKey(key: string, word: Word): string
    decreases |key|
  {
    if key == "" then ""
    else if word(key[0]) then [key[0]] + NormalKey(key[1..], word)
    else "_" + NormalKey(key[RunLength(key, word)..], word)
  }

  // What the substitution makes of a run: whatever is around it, the run is
  // replaced by one underscore.
  lemma {:induction false} RunBecomesUnderscore(a: string, run: string, b: string, word: Word)
    requires run != "" && forall c :: c in run ==> !word(c)
    requires (a == "" || word(a[|a| - 1])) && (b == "" || word(b[0]))
    ensures NormalKey(a + run + b, word) == NormalKey(a, word) + "_" + NormalKey(b, word)
    decreases |a|
  {
    Associates(a, run, b);
    if a == "" {
      RunAtStart(run, b, word);
      assert a + (run + b) == run + b && "" + "_" == "_";
    } else {
      var n := FirstPiece(a, word);
      PieceByPiece(a, run + b, word);
      RunBecomesUnderscore(a[n..], run, b, word);
      Associates(a[n..], run, b);
      Prepend(if word(a[0]) then [a[0]] else "_", NormalKey(a[n..], word), NormalKey(b, word));
    }
  }

  // How much of a key the first turn of the substitution takes.
  function FirstPiece(key: string, word: Word): (n: nat)
    requires key != ""
    ensures 1 <= n <= |key|
  {
    if word(key[0]) then 1 else RunLength(key, word)
  }

  // What follows a word character does not matter for what is before it.
  lemma {:induction false} PieceByPiece(a: string, rest: string, word: Word)
    requires a != "" && word(a[|a| - 1])
    ensures var n, first := FirstPiece(a, word), if word(a[0]) then [a[0]] else "_";
            && (a[n..] == "" || word(a[n..][|a[n..]| - 1]))
            && NormalKey(a, word) == first + NormalKey(a[n..], word)
            && NormalKey(a + rest, word) == first + NormalKey(a[n..] + rest, word)
  {
    var n := FirstPiece(a, word);
    RunWithin(a, rest, word);
    assert (a + rest)[0] == a[0] && (a + rest)[n..] == a[n..] + rest;
  }

  lemma Prepend(first: string, x: string, y: string)
    ensures first + (x + "_" + y) == first + x + "_" + y
  {
  }

  lemma RunAtStart(run: string, b: string, word: Word)
    requires run != "" && forall c :: c in run ==> !word(c)
    requires b == "" || word(b[0])
    ensures NormalKey(run + b, word) == "_" + NormalKey(b, word)
  {
    WholeRun(run, b, word);
    assert run[0] in run && (run + b)[|run|..] == b;
  }

  lemma {:induction false} WholeRun(run: string, b: string, word: Word)
    requires (forall c :: c in run ==> !word(c)) && (b == "" || word(b[0]))
    ensures RunLength(run + b, word) == |run|
  {
    if run == "" {
      assert run + b == b;
    } else {
      assert run[0] in run && forall c :: c in run[1..] ==> c in run;
      WholeRun(run[1..], b, word);
      assert (run + b)[1..] == run[1..] + b;
    }
  }

  lemma {:induction false} RunWithin(a: string, rest: string, word: Word)
    requires a != "" && word(a[|a| - 1])
    ensures RunLength(a + rest, word) == RunLength(a, word) < |a|
    ensures !word(a[0]) ==> RunLength(a, word) >= 1
  {
    if !word(a[0]) {
      assert (a + rest)[1..] == a[1..] + rest;
      RunWithin(a[1..], rest, word);
    }
  }

  lemma {:induction false} NormalKeyIsNormal(key: string, word: Word)
    requires word('_')
    ensures Normal(NormalKey(key, word), word)
    decreases |key|
  {
    if key != "" {
      NormalKeyIsNormal(if word(key[0]) then key[1..] else key[RunLength(key, word)..], word);
    }
  }

  lemma {:induction false} NormalKeyKeepsNormal(key: string, word: Word)
    ensures NormalKey(key, word) == key <== Normal(key, word)
    decreases |key|
  {
    if key != "" && Normal(key, word) {
      assert key[0] in key && forall c :: c in key[1..] ==> c in key;
      NormalKeyKeepsNormal(key[1..], word);
      assert key == [key[0]] + key[1..];
    }
  }

  // --- One dict --------------------------------------------------------------

  // Whether key i of `keys` is written to the new dict.
  predicate Writes(keys: seq<string>, i: nat, overwrite: bool, word: Word)
    requires i < |keys|
  {
    var newKey := NormalKey(keys[i], word);
    newKey == keys[i] || newKey !in keys || overwrite
  }

  // The new dict after the first n keys: which entry each key shows.
  function NormalPlan(keys: seq<string>, n: nat, overwrite: bool, word: Word): Plan
    requires n <= |keys|
  {
    if n == 0 then []
    else if Writes(keys, n - 1, overwrite, word)
    then Put(NormalPlan(keys, n - 1, overwrite, word), NormalKey(keys[n - 1], word), n - 1)
    else NormalPlan(keys, n - 1, overwrite, word)
  }

  ghost predicate NamedBy(plan: Plan, keys: seq<string>, word: Word) {
    forall j :: 0 <= j < |plan| ==> plan[j].1 < |keys| && plan[j].0 == NormalKey(keys[plan[j].1], word)
  }

  lemma PutNamed(plan: Plan, keys: seq<string>, i: nat, word: Word)
    requires i < |keys| && Distinct(plan) && PlanFits(plan, i) && NamedBy(plan, keys, word)
    ensures var p := Put(plan, NormalKey(keys[i], word), i);
            Distinct(p) && PlanFits(p, i + 1) && NamedBy(p, keys, word)
  {
    PutFacts(plan, NormalKey(keys[i], word), i);
  }

  lemma {:induction false} PlanOk(keys: seq<string>, n: nat, overwrite: bool, word: Word)
    requires n <= |keys|
    ensures var plan := NormalPlan(keys, n, overwrite, word);
            Distinct(plan) && PlanFits(plan, n) && NamedBy(plan, keys, word)
  {
    if n > 0 {
      PlanOk(keys, n - 1, overwrite, word);
      if Writes(keys, n - 1, overwrite, word) {
        PutNamed(NormalPlan(keys, n - 1, overwrite, word), keys, n - 1, word);
      } else {
        assert NormalPlan(keys, n, overwrite, word) == NormalPlan(keys, n - 1, overwrite, word);
      }
    }
  }

  // The last of the first n keys that normalizes to t, or |keys|.
  function LastNormalized(keys: seq<string>, n: nat, t: string, word: Word): (i: nat)
    requires n <= |keys|
    ensures i < n || i == |keys|
    ensures i < n ==> NormalKey(keys[i], word) == t
    ensures forall j :: (if i < n then i + 1 else 0) <= j < n ==> NormalKey(keys[j], word) != t
  {
    if n == 0 then |keys|
    else if NormalKey(keys[n - 1], word) == t then n - 1
    else LastNormalized(keys, n - 1, t, word)
  }

  // The entry the new dict shows under t, said without building it: with
  // overwrite the last one that normalizes to t; without, an original key t
  // that is normal already, and only if there is none the last one.
  function Winner(keys: seq<string>, overwrite: bool, t: string, word: Word): nat {
    if !overwrite && t in keys && Normal(t, word) then KeyIndex(keys, t)
    else LastNormalized(keys, |keys|, t, word)
  }

  lemma PutStep(plan: Plan, k: string, i: nat, t: string)
    requires Distinct(plan)
    ensures var p := Put(plan, k, i);
            if k == t then HasKey(p, t) && Lookup(p, t) == i
            else (HasKey(p, t) <==> HasKey(plan, t)) && (HasKey(p, t) ==> Lookup(p, t) == Lookup(plan, t))
  {
    PutAt(plan, k, i, t);
  }

  // What key n-1 does to key t.
  lemma {:induction false} PlanStep(keys: seq<string>, n: nat, overwrite: bool, t: string, word: Word)
    requires 1 <= n <= |keys|
    ensures var before, plan := NormalPlan(keys, n - 1, overwrite, word), NormalPlan(keys, n, overwrite, word);
            if Writes(keys, n - 1, overwrite, word) && NormalKey(keys[n - 1], word) == t
            then HasKey(plan, t) && Lookup(plan, t) == n - 1
            else (HasKey(plan, t) <==> HasKey(before, t)) && (HasKey(plan, t) ==> Lookup(plan, t) == Lookup(before, t))
  {
    PlanOk(keys, n - 1, overwrite, word);
    if Writes(keys, n - 1, overwrite, word) {
      PutStep(NormalPlan(keys, n - 1, overwrite, word), NormalKey(keys[n - 1], word), n - 1, t);
    }
  }

  lemma {:induction false} LastOfPlan(keys: seq<string>, n: nat, overwrite: bool, t: string, word: Word)
    requires n <= |keys| && (overwrite || t !in keys)
    ensures var plan, w := NormalPlan(keys, n, overwrite, word), LastNormalized(keys, n, t, word);
            (HasKey(plan, t) <==> w < n) && (HasKey(plan, t) ==> Lookup(plan, t) == w)
  {
    if n > 0 {
      LastOfPlan(keys, n - 1, overwrite, t, word);
      PlanStep(keys, n, overwrite, t, word);
    }
  }

  lemma {:induction false} OriginalStays(keys: seq<string>, n: nat, i: nat, word: Word)
    requires DistinctKeys(keys) && n <= |keys| && i < |keys| && NormalKey(keys[i], word) == keys[i]
    ensures var plan := NormalPlan(keys, n, false, word);
            (HasKey(plan, keys[i]) <==> i < n) && (HasKey(plan, keys[i]) ==> Lookup(plan, keys[i]) == i)
  {
    if n > 0 {
      OriginalStays(keys, n - 1, i, word);
      PlanStep(keys, n, false, keys[i], word);
    }
  }

  lemma NormalPlanWinners(keys: seq<string>, overwrite: bool, t: string, word: Word)
    requires DistinctKeys(keys) && word('_')
    ensures var plan, w := NormalPlan(keys, |keys|, overwrite, word), Winner(keys, overwrite, t, word);
            (HasKey(plan, t) <==> w < |keys|) && (HasKey(plan, t) ==> Lookup(plan, t) == w)
  {
    if overwrite || t !in keys {
      LastOfPlan(keys, |keys|, overwrite, t, word);
    } else if Normal(t, word) {
      var i := KeyIndex(keys, t);
      var k :| 0 <= k < |keys| && keys[k] == t;
      assert Identity(keys)[k].0 == t;
      NormalKeyKeepsNormal(t, word);
      OriginalStays(keys, |keys|, i, word);
    } else {
      PlanOk(keys, |keys|, overwrite, word);
      var plan := NormalPlan(keys, |keys|, overwrite, word);
      if HasKey(plan, t) {
        NormalKeyIsNormal(keys[Lookup(plan, t)], word);
      }
      var w := LastNormalized(keys, |keys|, t, word);
      if w < |keys| {
        NormalKeyIsNormal(keys[w], word);
      }
    }
  }

  // --- The whole value ---------------------------------------------------------

  function Normalize(j: Json, overwrite: bool, word: Word): Json {
    match j
    case Atom(_) => j
    case Object(entries) =>
      PlanOk(Keys(entries), |entries|, overwrite, word);
      var plan := NormalPlan(Keys(entries), |entries|, overwrite, word);
      Object(seq(|plan|, i requires 0 <= i < |plan| => (plan[i].0, Normalize(entries[plan[i].1].1, overwrite, word))))
    case Array(items) => Array(seq(|items|, i requires 0 <= i < |items| => Normalize(items[i], overwrite, word)))
  }

  predicate AllNormal(j: Json, word: Word) {
    match j
    case Atom(_) => true
    case Object(entries) => forall i :: 0 <= i < |entries| ==> Normal(entries[i].0, word) && AllNormal(entries[i].1, word)
    case Array(items) => forall i :: 0 <= i < |items| ==> AllNormal(items[i], word)
  }

  // Only word-character keys are left, at every depth, and keys are distinct.
  lemma {:induction false} NormalizeLeavesNormal(j: Json, overwrite: bool, word: Word)
    requires word('_')
    ensures AllNormal(Normalize(j, overwrite, word), word) && DistinctEverywhere(Normalize(j, overwrite, word))
  {
    match j
    case Atom(_) =>
    case Object(entries) =>
      PlanOk(Keys(entries), |entries|, overwrite, word);
      var plan := NormalPlan(Keys(entries), |entries|, overwrite, word);
      forall i | 0 <= i < |plan|
        ensures Normal(plan[i].0, word)
        ensures AllNormal(Normalize(entries[plan[i].1].1, overwrite, word), word)
        ensures DistinctEverywhere(Normalize(entries[plan[i].1].1, overwrite, word))
      {
        NormalKeyIsNormal(entries[plan[i].1].0, word);
        NormalizeLeavesNormal(entries[plan[i].1].1, overwrite, word);
      }
    case Array(items) =>
      forall i | 0 <= i < |items|
        ensures AllNormal(Normalize(items[i], overwrite, word), word)
        ensures DistinctEverywhere(Normalize(items[i], overwrite, word))
      {
        NormalizeLeavesNormal(items[i], overwrite, word);
      }
  }

  lemma NewKey(keys: seq<string>, n: nat)
    requires DistinctKeys(keys) && n < |keys|
    ensures Put(Identity(keys)[..n], keys[n], n) == Identity(keys)[..n + 1]
  {
    var before := Identity(keys)[..n];
    assert forall j :: 0 <= j < n ==> before[j].0 == keys[j] != keys[n];
    assert IndexOf(before, keys[n]) == n;
  }

  lemma {:induction false} NormalKeysKept(keys: seq<string>, n: nat, overwrite: bool, word: Word)
    requires DistinctKeys(keys) && n <= |keys| && forall k :: k in keys ==> Normal(k, word)
    ensures NormalPlan(keys, n, overwrite, word) == Identity(keys)[..n]
  {
    if n > 0 {
      NormalKeysKept(keys, n - 1, overwrite, word);
      assert keys[n - 1] in keys;
      NormalKeyKeepsNormal(keys[n - 1], word);
      NewKey(keys, n - 1);
    }
  }

  lemma {:induction false} NormalUnchanged(j: Json, overwrite: bool, word: Word)
    requires AllNormal(j, word) && DistinctEverywhere(j)
    ensures Normalize(j, overwrite, word) == j
  {
    match j
    case Atom(_) =>
    case Object(entries) =>
      forall i | 0 <= i < |entries| ensures Normalize(entries[i].1, overwrite, word) == entries[i].1 {
        NormalUnchanged(entries[i].1, overwrite, word);
      }
      forall k | k in Keys(entries) ensures Normal(k, word) {
        var i :| 0 <= i < |entries| && Keys(entries)[i] == k;
      }
      NormalKeysKept(Keys(entries), |entries|, overwrite, word);
      assert Normalize(j, overwrite, word).entries == entries;
    case Array(items) =>
      forall i | 0 <= i < |items| ensures Normalize(items[i], overwrite, word) == items[i] {
        NormalUnchanged(items[i], overwrite, word);
      }
      assert Normalize(j, overwrite, word).items == items;
  }

  // Normalizing again, with whichever setting, changes nothing.
  lemma NormalizeTwice(j: Json, overwrite: bool, again: bool, word: Word)
    requires word('_')
    ensures Normalize(Normalize(j, overwrite, word), again, word) == Normalize(j, overwrite, word)
  {
    NormalizeLeavesNormal(j, overwrite, word);
    NormalUnchanged(Normalize(j, overwrite, word), again, word);
  }

  // Which value each key of a normalized dict shows, itself normalized.
  lemma NormalizedDictShowsWinner(entries: seq<(string, Json)>, overwrite: bool, t: string, word: Word)
    requires Distinct(entries) && word('_')
    ensures var r, w := Normalize(Object(entries), overwrite, word), Winner(Keys(entries), overwrite, t, word);
            && (HasKey(r.entries, t) <==> w < |entries|)
            && (HasKey(r.entries, t) ==> Lookup(r.entries, t) == Normalize(entries[w].1, overwrite, word))
  {
    PlanOk(Keys(entries), |entries|, overwrite, word);
    var plan := NormalPlan(Keys(entries), |entries|, overwrite, word);
    NormalPlanWinners(Keys(entries), overwrite, t, word);
    var values := seq(|entries|, i requires 0 <= i < |entries| => Normalize(entries[i].1, overwrite, word));
    assert Normalize(Object(entries), overwrite, word).entries == Select(values, plan);
    SelectIndex(values, plan, t);
  }

  ghost function Normalized(entries: seq<(string, Json)>, overwrite: bool, word: Word): (values: seq<Json>)
    ensures |values| == |entries|
    ensures forall i :: 0 <= i < |entries| ==> values[i] == Normalize(entries[i].1, overwrite, word)
  {
    seq(|entries|, i requires 0 <= i < |entries| => Normalize(entries[i].1, overwrite, word))
  }

  // The new dict after the first n keys.
  ghost function Filled(entries: seq<(string, Json)>, n: nat, overwrite: bool, word: Word): seq<(string, Json)>
    requires n <= |entries|
  {
    PlanOk(Keys(entries), n, overwrite, word);
    Select(Normalized(entries, overwrite, word), NormalPlan(Keys(entries), n, overwrite, word))
  }

  lemma {:induction false} NormalizeTurn(entries: seq<(string, Json)>, i: nat, overwrite: bool, word: Word)
    requires i < |entries|
    ensures Filled(entries, i + 1, overwrite, word)
            == if Writes(Keys(entries), i, overwrite, word)
               then Put(Filled(entries, i, overwrite, word), NormalKey(entries[i].0, word),
                        Normalize(entries[i].1, overwrite, word))
               else Filled(entries, i, overwrite, word)
  {
    PlanOk(Keys(entries), i, overwrite, word);
    SelectPut(Normalized(entries, overwrite, word), NormalPlan(Keys(entries), i, overwrite, word),
              NormalKey(entries[i].0, word), i);
  }

  lemma FilledAll(entries: seq<(string, Json)>, overwrite: bool, word: Word)
    ensures Filled(entries, 0, overwrite, word) == []
    ensures Normalize(Object(entries), overwrite, word) == Object(Filled(entries, |entries|, overwrite, word))
  {
    PlanOk(Keys(entries), |entries|, overwrite, word);
    var plan, values := NormalPlan(Keys(entries), |entries|, overwrite, word), Normalized(entries, overwrite, word);
    var all, filled := Normalize(Object(entries), overwrite, word).entries, Filled(entries, |entries|, overwrite, word);
    forall j | 0 <= j < |plan| ensures all[j] == filled[j] {
      assert values[plan[j].1] == Normalize(Object(entries).entries[plan[j].1].1, overwrite, word);
    }
    assert all == filled;
  }

  // _normalize_embedded_keys
  method NormalizeEmbeddedKeys(obj: Json, overwrite: bool, word: Word) returns (r: Json)
    ensures r == Normalize(obj, overwrite, word)
    decreases obj, 1
  {
    match obj
    case Atom(_) => r := obj;
    case Array(items) => r := NormalizeList(obj, overwrite, word);
    case Object(entries) => r := NormalizeDict(obj, overwrite, word);
  }

  // Its list branch.
  method NormalizeList(obj: Json, overwrite: bool, word: Word) returns (r: Json)
    requires obj.Array?
    ensures r == Normalize(obj, overwrite, word)
    decreases obj, 0
  {
    var list: seq<Json> := [];
    for i := 0 to |obj.items|
      invariant |list| == i && forall k :: 0 <= k < i ==> list[k] == Normalize(obj.items[k], overwrite, word)
    {
      var item := NormalizeEmbeddedKeys(obj.items[i], overwrite, word);
      list := list + [item];
    }
    r := Array(list);
  }

  // Its dict branch: a new dict is filled key by key.
  method NormalizeDict(obj: Json, overwrite: bool, word: Word) returns (r: Json)
    requires obj.Object?
    ensures r == Normalize(obj, overwrite, word)
    decreases obj, 0
  {
    var entries := obj.entries;
    var newDict: seq<(string, Json)> := [];
    var keys := Keys(entries);
    FilledAll(entries, overwrite, word);
    for i := 0 to |keys|
      invariant newDict == Filled(entries, i, overwrite, word)
    {
      var newKey := NormalKey(keys[i], word);
      NormalizeTurn(entries, i, overwrite, word);
      if newKey == keys[i] || newKey !in keys {
        var value := NormalizeEmbeddedKeys(obj.entries[i].1, overwrite, word);
        newDict := Put(newDict, newKey, value);
      } else if newKey in keys && overwrite {
        var value := NormalizeEmbeddedKeys(obj.entries[i].1, overwrite, word);
        newDict := Put(newDict, newKey, value);
      }
    }
    r := Object(newDict);
  }
}
