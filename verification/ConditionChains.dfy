/**
 What a chain of `and` and `or` without parentheses comes to mean, from tokens
 to compiled tree. The two operators share one precedence level of the grammar.
 */
module ConditionChains {
  import opened Wrappers
  import opened ConditionTypes
  import opened ConditionParser
  import opened ConditionCompiler
  import opened ConditionMeaning

  // One connective of a chain; values stand around the connectives.
  datatype Connective = Conj | Disj

  function Join(c: Connective, a: bool, b: bool): bool {
    if c == Conj then a && b else a || b
  }

  // Grouped strictly from the left.
  function LeftToRight(ops: seq<Connective>, vals: seq<bool>): bool
    requires |vals| == |ops| + 1
  {
    if ops == [] then vals[0]
    else
      var n := |ops| - 1;
      Join(ops[n], LeftToRight(ops[..n], vals[..n + 1]), vals[n + 1])
  }

  // Value k belongs to the run of conjunctions that begins at j.
  ghost predicate InRun(ops: seq<Connective>, j: nat, k: nat) {
    j <= k <= |ops| && forall m :: j <= m < k ==> ops[m] == Conj
  }

  ghost predicate RunBegins(ops: seq<Connective>, j: nat) {
    j <= |ops| && (j > 0 ==> ops[j - 1] == Disj)
  }

  ghost predicate RunHolds(ops: seq<Connective>, vals: seq<bool>, j: nat)
    requires |vals| == |ops| + 1
  {
    forall k: nat :: InRun(ops, j, k) ==> vals[k]
  }

  // The customary reading, `and` before `or`: some run of conjunctions holds.
  ghost predicate AndFirst(ops: seq<Connective>, vals: seq<bool>)
    requires |vals| == |ops| + 1
  {
    exists j: nat :: RunBegins(ops, j) && RunHolds(ops, vals, j)
  }

  ghost predicate NoAndAfterOr(ops: seq<Connective>) {
    forall i, j :: 0 <= i < j < |ops| && ops[i] == Disj ==> ops[j] == Disj
  }

  lemma {:induction false} AllConjunctions(ops: seq<Connective>, vals: seq<bool>)
    requires |vals| == |ops| + 1 && forall m :: 0 <= m < |ops| ==> ops[m] == Conj
    ensures LeftToRight(ops, vals) <==> forall k :: 0 <= k < |vals| ==> vals[k]
  {
    if ops != [] {
      var n := |ops| - 1;
      AllConjunctions(ops[..n], vals[..n + 1]);
      assert vals == vals[..n + 1] + [vals[n + 1]];
    }
  }

  lemma OneRun(ops: seq<Connective>, vals: seq<bool>)
    requires |vals| == |ops| + 1 && forall m :: 0 <= m < |ops| ==> ops[m] == Conj
    ensures AndFirst(ops, vals) <==> forall k :: 0 <= k < |vals| ==> vals[k]
  {
    if forall k :: 0 <= k < |vals| ==> vals[k] {
      assert RunBegins(ops, 0) && RunHolds(ops, vals, 0);
    }
    if AndFirst(ops, vals) {
      var j: nat :| RunBegins(ops, j) && RunHolds(ops, vals, j);
      forall k | 0 <= k < |vals| ensures vals[k] {
        assert InRun(ops, j, k);
      }
    }
  }

  // A final `or` adds a run of its own.
  lemma LastDisjunction(ops: seq<Connective>, vals: seq<bool>)
    requires |vals| == |ops| + 1 && ops != [] && ops[|ops| - 1] == Disj
    ensures AndFirst(ops, vals) <==> AndFirst(ops[..|ops| - 1], vals[..|ops|]) || vals[|ops|]
  {
    var n := |ops| - 1;
    var before, seen := ops[..n], vals[..n + 1];
    forall j: nat | j <= n
      ensures RunBegins(ops, j) <==> RunBegins(before, j)
      ensures RunHolds(ops, vals, j) <==> RunHolds(before, seen, j)
    {
      forall k: nat ensures InRun(ops, j, k) <==> InRun(before, j, k) {
        assert k > n ==> !InRun(ops, j, k) by {
          assert ops[n] == Disj;
        }
      }
    }
    var m := n + 1;
    assert InRun(ops, m, m) && forall k: nat :: InRun(ops, m, k) ==> k == m;
    assert RunBegins(ops, m) && (RunHolds(ops, vals, m) <==> vals[m]);
    if AndFirst(ops, vals) {
      var j: nat :| RunBegins(ops, j) && RunHolds(ops, vals, j);
      assert j <= n ==> RunBegins(before, j) && RunHolds(before, seen, j);
    }
    if AndFirst(before, seen) {
      var j: nat :| RunBegins(before, j) && RunHolds(before, seen, j);
      assert RunBegins(ops, j) && RunHolds(ops, vals, j);
    }
  }

  lemma {:induction false} OrderedChainAgrees(ops: seq<Connective>, vals: seq<bool>)
    requires |vals| == |ops| + 1 && NoAndAfterOr(ops)
    ensures LeftToRight(ops, vals) == AndFirst(ops, vals)
  {
    var n := |ops| - 1;
    if ops == [] || ops[n] == Conj {
      AllConjunctions(ops, vals);
      OneRun(ops, vals);
    } else {
      OrderedChainAgrees(ops[..n], vals[..n + 1]);
      LastDisjunction(ops, vals);
    }
  }

  lemma {:induction false} StaysFalse(ops: seq<Connective>, vals: seq<bool>, j: nat)
    requires |vals| == |ops| + 1 && j < |ops| && ops[j] == Conj
    requires forall k :: j < k < |vals| ==> !vals[k]
    ensures !LeftToRight(ops, vals)
  {
    var n := |ops| - 1;
    if j < n {
      StaysFalse(ops[..n], vals[..n + 1], j);
    }
  }

  // When an `and` follows an `or`, true up to the first `or` and false after it
  // tells the two readings apart.
  lemma DisorderedChainDiffers(ops: seq<Connective>, i: nat, j: nat, vals: seq<bool>)
    requires i < j < |ops| && ops[i] == Disj && ops[j] == Conj
    requires forall m :: 0 <= m < i ==> ops[m] == Conj
    requires |vals| == |ops| + 1 && forall k :: 0 <= k < |vals| ==> vals[k] == (k <= i)
    ensures AndFirst(ops, vals) && !LeftToRight(ops, vals)
  {
    StaysFalse(ops, vals, j);
    assert RunBegins(ops, 0);
    forall k: nat | InRun(ops, 0, k) ensures vals[k] {
      assert !(0 <= i < k);
    }
  }

  function FirstDisjunction(ops: seq<Connective>): (i: nat)
    requires Disj in ops
    ensures i < |ops| && ops[i] == Disj && forall m :: 0 <= m < i ==> ops[m] == Conj
  {
    if ops[0] == Disj then 0 else 1 + FirstDisjunction(ops[1..])
  }

  // A chain means what `and` before `or` would make of it, for all values,
  // exactly when no `and` comes after an `or`.
  lemma PrecedenceKeptExactlyWhen(ops: seq<Connective>)
    ensures NoAndAfterOr(ops)
            <==> forall vals: seq<bool> :: |vals| == |ops| + 1 ==> LeftToRight(ops, vals) == AndFirst(ops, vals)
  {
    if NoAndAfterOr(ops) {
      forall vals: seq<bool> | |vals| == |ops| + 1 ensures LeftToRight(ops, vals) == AndFirst(ops, vals) {
        OrderedChainAgrees(ops, vals);
      }
    } else {
      var a, j :| 0 <= a < j < |ops| && ops[a] == Disj && ops[j] == Conj;
      assert ops[a] in ops;
      var i := FirstDisjunction(ops);
      var vals := seq(|ops| + 1, k => k <= i);
      DisorderedChainDiffers(ops, i, j, vals);
    }
  }

  // ---------- from tokens to the compiled tree ----------

  function ConnectiveOf(link: Link): Connective {
    if link.operator == "and" then Conj else Disj
  }

  function Connectives(links: seq<Link>): seq<Connective> {
    seq(|links|, i requires 0 <= i < |links| => ConnectiveOf(links[i]))
  }

  predicate IsChain(links: seq<Link>) {
    forall i :: 0 <= i < |links| ==> links[i].operator == "and" || links[i].operator == "or"
  }

  // A condition of its own that is b in this world.
  ghost predicate Holds(c: Cond, env: Env, w: World, b: bool) {
    Supported(c, env) && Meaning(c, env, w, w.truth) == VBool(b)
  }

  ghost predicate Truths(first: Cond, links: seq<Link>, env: Env, w: World, vals: seq<bool>) {
    && |vals| == |links| + 1
    && Holds(first, env, w, vals[0])
    && (forall i :: 0 <= i < |links| ==> Holds(links[i].right, env, w, vals[i + 1]))
  }

  // The engine reads `and` and `or` as conjunction and disjunction.
  ghost predicate ReadsConnectives(w: World) {
    forall a: bool, b: bool ::
      && w.apply(And, VBool(a), VBool(b)) == VBool(a && b)
      && w.apply(Or, VBool(a), VBool(b)) == VBool(a || b)
  }

  lemma ConnectiveForm(operator: string, right: Cond)
    requires operator == "and" || operator == "or"
    ensures FormOf(Word(operator), right) == Binary(if operator == "and" then And else Or)
    ensures Word(operator) != Word("<<")
  {
    assert operator[0] != '<';
  }

  // One more link keeps a chain supported, and joins its value to the chain's.
  lemma OneLink(before: Cond, link: Link, env: Env, w: World, a: bool, b: bool)
    requires (link.operator == "and" || link.operator == "or") && ReadsConnectives(w)
    requires Holds(before, env, w, a) && Holds(link.right, env, w, b)
    ensures Holds(OperatorExpression(before, Word(link.operator), link.right), env, w, Join(ConnectiveOf(link), a, b))
  {
    ConnectiveForm(link.operator, link.right);
  }

  lemma TruthsBefore(first: Cond, links: seq<Link>, env: Env, w: World, vals: seq<bool>)
    requires links != [] && IsChain(links) && Truths(first, links, env, w, vals)
    ensures IsChain(links[..|links| - 1]) && Truths(first, links[..|links| - 1], env, w, vals[..|links|])
  {
  }

  lemma LastLink(first: Cond, links: seq<Link>, vals: seq<bool>)
    requires links != [] && |vals| == |links| + 1
    ensures var n := |links| - 1;
            && LeftFold(first, links)
               == OperatorExpression(LeftFold(first, links[..n]), Word(links[n].operator), links[n].right)
            && |Connectives(links[..n])| == n
            && LeftToRight(Connectives(links), vals)
               == Join(ConnectiveOf(links[n]), LeftToRight(Connectives(links[..n]), vals[..n + 1]), vals[n + 1])
  {
    assert Connectives(links)[..|links| - 1] == Connectives(links[..|links| - 1]);
  }

  lemma {:induction false} FoldMeans(first: Cond, links: seq<Link>, env: Env, w: World, vals: seq<bool>)
    requires IsChain(links) && ReadsConnectives(w) && Truths(first, links, env, w, vals)
    ensures Holds(LeftFold(first, links), env, w, LeftToRight(Connectives(links), vals))
    decreases |links|
  {
    if links != [] {
      var n := |links| - 1;
      TruthsBefore(first, links, env, w, vals);
      FoldMeans(first, links[..n], env, w, vals[..n + 1]);
      LastLink(first, links, vals);
      OneLink(LeftFold(first, links[..n]), links[n], env, w,
              LeftToRight(Connectives(links[..n]), vals[..n + 1]), vals[n + 1]);
    }
  }

  // For every chain of `and` and `or` over single-token operands: its tokens
  // fold, the fold compiles, and the compiled tree evaluates to the chain
  // grouped strictly from the left.
  lemma ChainMeans(first: Cond, links: seq<Link>, env: Env, w: World, vals: seq<bool>)
    requires links != [] && IsChain(links) && ReadsConnectives(w) && Truths(first, links, env, w, vals)
    ensures Folded(ChainTokens(first, links)).Ok? && Folded(ChainTokens(first, links)).value.Some?
    ensures var c := Folded(ChainTokens(first, links)).value.value;
            && VisitCondition(c, env).Ok?
            && Evaluate(VisitCondition(c, env).value, w) == VBool(LeftToRight(Connectives(links), vals))
  {
    ChainGroupsLeft(first, links);
    FoldMeans(first, links, env, w, vals);
    TreeMeansCondition(LeftFold(first, links), env, w);
  }
}
