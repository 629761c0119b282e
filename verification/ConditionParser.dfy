/**
 The parse actions of the condition grammar: how the token list of one
 precedence level becomes a tree. The grammar engine itself is not part of the
 model; a token list is whatever it hands over.
 */
module ConditionParser {
  import opened Wrappers
  import opened ConditionTypes

  predicate ValidSelectOperator(s: string) {
    s in ["==", "!=", ">", ">=", "<", "<=", "regex", "search", "match"]
  }

  predicate ValidSelectattrOperator(s: string) {
    ValidSelectOperator(s) || s in ["in", "not in", "contains", "not contains"]
  }

  predicate IsTest(t: Cond) {
    t == Word("is") || t == Word("is not")
  }

  predicate IsSearchKind(t: Cond) {
    t == Word("match") || t == Word("regex") || t == Word("search")
  }

  // as_list
  function AsList(t: Cond): Cond {
    if t.Group? then List(t.items) else t
  }

  function Ungrouped(t: Cond): Cond {
    if t.List? then Group(t.items) else t
  }

  // String(t)
  function StringOf(t: Cond): Cond {
    if t.Word? then Str(t.text) else StrOf(t)
  }

  // ---------- the factories for the special operands ----------

  function Paired(items: seq<Cond>): seq<Cond> {
    seq(|items| / 2, j requires 0 <= j < |items| / 2 => KeywordValue(StringOf(items[2 * j]), items[2 * j + 1]))
  }

  // What SearchTypeFactory makes of the word and the group that follows it.
  function Search(kind: Cond, group: Cond): Result<Cond, Error> {
    if !group.Group? then Err(NotAGroup)
    else if |group.items| % 2 == 0 then Err(IndexError)
    else Ok(SearchType(StringOf(kind), group.items[0], Paired(group.items[1..])))
  }

  method SearchTypeFactory(kind: Cond, group: Cond) returns (r: Result<Cond, Error>)
    ensures r == Search(kind, group)
  {
    if !group.Group? {
      return Err(NotAGroup);
    }
    var tokens := group.items;
    var options: seq<Cond> := [];
    if |tokens| > 1 {
      var i := 1;
      while i < |tokens|
        invariant 1 <= i <= |tokens| && i == 1 + 2 * |options|
        invariant forall j :: 0 <= j < |options| ==>
          options[j] == KeywordValue(StringOf(tokens[1 + 2 * j]), tokens[2 + 2 * j])
      {
        if i + 1 >= |tokens| {
          return Err(IndexError);
        }
        options := options + [KeywordValue(StringOf(tokens[i]), tokens[i + 1])];
        i := i + 2;
      }
    }
    if |tokens| == 0 {
      return Err(IndexError);
    }
    assert options == Paired(tokens[1..]);
    return Ok(SearchType(StringOf(kind), tokens[0], options));
  }

  function SelectattrTypeFactory(group: Cond): Result<Cond, Error> {
    if !group.Group? then Err(NotAGroup)
    else if |group.items| < 2 then Err(IndexError)
    else
      var test := ValueText(group.items[1]);
      if test.None? || !ValidSelectattrOperator(test.value) then Err(SelectattrOperator(group.items[1]))
      else if |group.items| < 3 then Err(IndexError)
      else Ok(SelectattrType(group.items[0], group.items[1], AsList(group.items[2])))
  }

  function SelectTypeFactory(group: Cond): Result<Cond, Error> {
    if !group.Group? then Err(NotAGroup)
    else if |group.items| < 1 then Err(IndexError)
    else
      var test := ValueText(group.items[0]);
      if test.None? || !ValidSelectOperator(test.value) then Err(SelectOperator(group.items[0]))
      else if |group.items| < 2 then Err(IndexError)
      else Ok(SelectType(group.items[0], AsList(group.items[1])))
  }

  // ---------- the fold ----------

  // How many tokens the first step reads: a special operand is two tokens.
  function LeadLength(tokens: seq<Cond>): nat
    requires |tokens| >= 3
  {
    if (IsTest(tokens[1]) && IsSearchKind(tokens[2])) || tokens[2] == Word("selectattr") || tokens[2] == Word("select")
    then 4 else 3
  }

  // What the first step makes of them.
  function Lead(tokens: seq<Cond>): Result<Cond, Error> {
    if |tokens| < 3 || |tokens| < LeadLength(tokens) then Err(IndexError)
    else if IsTest(tokens[1]) && IsSearchKind(tokens[2]) then
      var right :- Search(tokens[2], tokens[3]);
      Ok(OperatorExpression(tokens[0], tokens[1], right))
    else if tokens[2] == Word("selectattr") then
      var right :- SelectattrTypeFactory(tokens[3]);
      Ok(OperatorExpression(tokens[0], tokens[1], right))
    else if tokens[2] == Word("select") then
      var right :- SelectTypeFactory(tokens[3]);
      Ok(OperatorExpression(tokens[0], tokens[1], right))
    else
      Ok(OperatorExpression(AsList(tokens[0]), tokens[1], AsList(tokens[2])))
  }

  // The steps after the first: an operator and an operand at a time, each
  // wrapped around everything to its left.
  function Wrap(tree: Cond, tokens: seq<Cond>): Result<Cond, Error>
    decreases |tokens|
  {
    if tokens == [] then Ok(tree)
    else if |tokens| == 1 then Err(IndexError)
    else Wrap(OperatorExpression(tree, tokens[0], tokens[1]), tokens[2..])
  }

  function Folded(tokens: seq<Cond>): Result<Option<Cond>, Error> {
    if tokens == [] then Ok(None)
    else
      var first :- Lead(tokens);
      var tree :- Wrap(first, tokens[LeadLength(tokens)..]);
      Ok(Some(tree))
  }

  method OperatorExpressionFactory(allTokens: seq<Cond>) returns (r: Result<Option<Cond>, Error>)
    ensures r == Folded(allTokens)
  {
    var returnValue: Option<Cond> := None;
    var tokens := allTokens;
    while tokens != []
      invariant returnValue.None? ==> tokens == allTokens
      invariant returnValue.Some? ==> allTokens != [] && Lead(allTokens).Ok?
      invariant returnValue.Some? ==>
        Wrap(returnValue.value, tokens) == Wrap(Lead(allTokens).value, allTokens[LeadLength(allTokens)..])
      decreases |tokens|
    {
      if returnValue.None? {
        if |tokens| < 3 {
          return Err(IndexError);
        }
        if IsTest(tokens[1]) && IsSearchKind(tokens[2]) {
          if |tokens| < 4 {
            return Err(IndexError);
          }
          var searchType :- SearchTypeFactory(tokens[2], tokens[3]);
          returnValue := Some(OperatorExpression(tokens[0], tokens[1], searchType));
          tokens := tokens[4..];
        } else if tokens[2] == Word("selectattr") {
          if |tokens| < 4 {
            return Err(IndexError);
          }
          var selectattrType :- SelectattrTypeFactory(tokens[3]);
          returnValue := Some(OperatorExpression(tokens[0], tokens[1], selectattrType));
          tokens := tokens[4..];
        } else if tokens[2] == Word("select") {
          if |tokens| < 4 {
            return Err(IndexError);
          }
          var selectType :- SelectTypeFactory(tokens[3]);
          returnValue := Some(OperatorExpression(tokens[0], tokens[1], selectType));
          tokens := tokens[4..];
        } else {
          returnValue := Some(OperatorExpression(AsList(tokens[0]), tokens[1], AsList(tokens[2])));
          tokens := tokens[3..];
        }
      } else {
        if |tokens| < 2 {
          return Err(IndexError);
        }
        returnValue := Some(OperatorExpression(returnValue.value, tokens[0], tokens[1]));
        tokens := tokens[2..];
      }
    }
    return Ok(returnValue);
  }

  // ---------- the tree read back ----------

  // The tokens a search option was made from.
  function OptionTokens(options: seq<Cond>): seq<Cond>
    requires forall o :: o in options ==> o.KeywordValue?
  {
    seq(2 * |options|, k requires 0 <= k < 2 * |options| =>
      if k % 2 == 0 then NameToken(options[k / 2].name) else options[k / 2].setting)
  }

  function NameToken(name: Cond): Cond {
    match name
    case Str(v) => Word(v)
    case StrOf(n) => n
    case _ => name
  }

  ghost predicate Readable(right: Cond) {
    right.SearchType? ==> forall o :: o in right.options ==> o.KeywordValue?
  }

  // An operand as the tokens it is spelled with.
  function OperandTokens(right: Cond): seq<Cond>
    requires Readable(right)
  {
    match right
    case SearchType(kind, pattern, options) => [NameToken(kind), Group([pattern] + OptionTokens(options))]
    case SelectattrType(key, test, operand) => [Word("selectattr"), Group([key, test, Ungrouped(operand)])]
    case SelectType(test, operand) => [Word("select"), Group([test, Ungrouped(operand)])]
    case _ => [Ungrouped(right)]
  }

  // The tree has n operators down its left side.
  ghost predicate LeftNested(tree: Cond, n: nat) {
    n > 0 ==> tree.OperatorExpression? && LeftNested(tree.left, n - 1) && (n == 1 ==> Readable(tree.right))
  }

  // The tree read in order, n operators deep on the left.
  function InOrder(tree: Cond, n: nat): seq<Cond>
    requires LeftNested(tree, n)
  {
    if n == 0 then [tree]
    else if n == 1 then [Ungrouped(tree.left), tree.operator] + OperandTokens(tree.right)
    else InOrder(tree.left, n - 1) + [tree.operator, tree.right]
  }

  // How many operators the list holds.
  function Operators(tokens: seq<Cond>): nat
    requires |tokens| >= 3 && |tokens| >= LeadLength(tokens)
  {
    1 + (|tokens| - LeadLength(tokens)) / 2
  }

  // The grammar hands over lists as groups, and it is the factories that make
  // the special operands.
  predicate IsToken(t: Cond) {
    !t.List? && !t.SearchType? && !t.SelectattrType? && !t.SelectType?
  }

  ghost predicate FromGrammar(tokens: seq<Cond>) {
    && (forall t :: t in tokens ==> IsToken(t))
    && (forall t, s :: t in tokens && t.Group? && s in t.items ==> IsToken(s))
  }

  // select and selectattr read two and three arguments and no more.
  predicate DropsArguments(tokens: seq<Cond>)
    requires |tokens| >= 3
  {
    && LeadLength(tokens) == 4 && |tokens| >= 4 && tokens[3].Group?
    && !(IsTest(tokens[1]) && IsSearchKind(tokens[2]))
    && |tokens[3].items| > (if tokens[2] == Word("selectattr") then 3 else 2)
  }

  lemma PairedReadsBack(items: seq<Cond>)
    requires |items| % 2 == 0
    ensures OptionTokens(Paired(items)) == items
  {
    var tokens := OptionTokens(Paired(items));
    assert |tokens| == |items|;
    forall k | 0 <= k < |items| ensures tokens[k] == items[k] {
      var j := k / 2;
      assert Paired(items)[j] == KeywordValue(StringOf(items[2 * j]), items[2 * j + 1]);
      assert k == 2 * j || k == 2 * j + 1;
    }
  }

  lemma {:induction false} WrapReadsBack(tree: Cond, n: nat, tokens: seq<Cond>)
    requires n >= 1 && LeftNested(tree, n) && Wrap(tree, tokens).Ok?
    ensures |tokens| % 2 == 0
    ensures LeftNested(Wrap(tree, tokens).value, n + |tokens| / 2)
    ensures InOrder(Wrap(tree, tokens).value, n + |tokens| / 2) == InOrder(tree, n) + tokens
    decreases |tokens|
  {
    if tokens == [] {
      assert InOrder(tree, n) + tokens == InOrder(tree, n);
    } else {
      var wrapped := OperatorExpression(tree, tokens[0], tokens[1]);
      WrapReadsBack(wrapped, n + 1, tokens[2..]);
      assert n + 1 + |tokens[2..]| / 2 == n + |tokens| / 2;
      assert InOrder(wrapped, n + 1) + tokens[2..] == InOrder(tree, n) + tokens;
    }
  }

  lemma {:induction false} LeadReadsBack(tokens: seq<Cond>)
    requires FromGrammar(tokens) && Lead(tokens).Ok?
    ensures LeftNested(Lead(tokens).value, 1)
    ensures |InOrder(Lead(tokens).value, 1)| == LeadLength(tokens)
    ensures InOrder(Lead(tokens).value, 1) == tokens[..LeadLength(tokens)] <==> !DropsArguments(tokens)
  {
    var tree := Lead(tokens).value;
    assert tokens[0] in tokens && tokens[2] in tokens;
    assert LeftNested(tree, 1);
    var listing := InOrder(tree, 1);
    if LeadLength(tokens) == 3 {
      assert listing == tokens[..3];
    } else {
      assert tokens[3] in tokens && tokens[3].Group?;
      var items := tokens[3].items;
      if IsTest(tokens[1]) && IsSearchKind(tokens[2]) {
        PairedReadsBack(items[1..]);
        assert listing[3] == Group([items[0]] + items[1..]);
        assert [items[0]] + items[1..] == items;
        assert listing == tokens[..4];
      } else if tokens[2] == Word("selectattr") {
        assert items[2] in tokens[3].items && IsToken(items[2]);
        assert listing[3] == Group([items[0], items[1], items[2]]);
        assert |items| == 3 ==> items == [items[0], items[1], items[2]];
        assert |items| == 3 ==> listing == tokens[..4];
        assert |items| != 3 ==> listing[3] != tokens[..4][3];
      } else {
        assert items[1] in tokens[3].items && IsToken(items[1]);
        assert listing[3] == Group([items[0], items[1]]);
        assert |items| == 2 ==> items == [items[0], items[1]];
        assert |items| == 2 ==> listing == tokens[..4];
        assert |items| != 2 ==> listing[3] != tokens[..4][3];
      }
    }
  }

  // Whatever the grammar hands over, the tree is nested to the left, one
  // operator at a time, and read in order it gives the tokens back, exactly
  // unless a select form was given more arguments than it reads.
  lemma {:induction false} FoldReadsBack(tokens: seq<Cond>)
    requires FromGrammar(tokens) && tokens != [] && Folded(tokens).Ok?
    ensures LeftNested(Folded(tokens).value.value, Operators(tokens))
    ensures InOrder(Folded(tokens).value.value, Operators(tokens)) == tokens <==> !DropsArguments(tokens)
  {
    var tree, k := Lead(tokens).value, LeadLength(tokens);
    LeadReadsBack(tokens);
    WrapReadsBack(tree, 1, tokens[k..]);
    var listing := InOrder(tree, 1) + tokens[k..];
    assert tokens == tokens[..k] + tokens[k..];
    assert listing[..k] == InOrder(tree, 1);
    assert tokens[..k] != InOrder(tree, 1) ==> listing != tokens;
  }

  // The lists the fold takes: the leading form reads, and what follows comes in
  // pairs.
  lemma {:induction false} FoldsExactlyWhen(tokens: seq<Cond>)
    ensures Folded(tokens).Ok? <==>
              tokens == [] || (Lead(tokens).Ok? && (|tokens| - LeadLength(tokens)) % 2 == 0)
  {
    if Lead(tokens).Ok? {
      WrapsPairs(Lead(tokens).value, tokens[LeadLength(tokens)..]);
    }
  }

  lemma {:induction false} WrapsPairs(tree: Cond, tokens: seq<Cond>)
    ensures Wrap(tree, tokens).Ok? <==> |tokens| % 2 == 0
    decreases |tokens|
  {
    if |tokens| >= 2 {
      WrapsPairs(OperatorExpression(tree, tokens[0], tokens[1]), tokens[2..]);
    }
  }

  // A select form with an argument too many is accepted and the argument lost.
  lemma ExtraArgumentLost(left: Cond, key: Cond, operand: Cond, extra: Cond)
    requires IsToken(left) && !operand.Group?
    ensures Folded([left, Word("is"), Word("selectattr"), Group([key, Str("=="), operand, extra])])
            == Ok(Some(OperatorExpression(left, Word("is"), SelectattrType(key, Str("=="), operand))))
  {
    var tokens := [left, Word("is"), Word("selectattr"), Group([key, Str("=="), operand, extra])];
    assert "==" in ["==", "!=", ">", ">=", "<", "<=", "regex", "search", "match"];
    assert tokens[LeadLength(tokens)..] == [];
  }

  // A special operand after the first operator is no longer recognised: its
  // word is taken for the operand and its group for an operator with nothing
  // after it.
  lemma SpecialOperandMustLead(a: Cond, op: Cond, b: Cond, test: Cond, kind: Cond, group: Cond)
    requires !(IsTest(op) && IsSearchKind(b)) && b != Word("selectattr") && b != Word("select")
    ensures Folded([a, op, b, test, kind, group]) == Err(IndexError)
  {
    var tokens := [a, op, b, test, kind, group];
    var lead := OperatorExpression(AsList(a), op, AsList(b));
    assert Lead(tokens) == Ok(lead) && tokens[LeadLength(tokens)..] == [test, kind, group];
    assert [test, kind, group][2..] == [group];
    assert Wrap(lead, [test, kind, group]) == Wrap(OperatorExpression(lead, test, kind), [group]);
  }

  // ---------- chains at one level ----------

  datatype Link = Link(operator: string, right: Cond)

  function ChainTokens(first: Cond, links: seq<Link>): seq<Cond>
  {
    if links == [] then [first]
    else
      var last := links[|links| - 1];
      ChainTokens(first, links[..|links| - 1]) + [Word(last.operator), last.right]
  }

  // ((first op right) op right) ...
  function LeftFold(first: Cond, links: seq<Link>): Cond {
    if links == [] then first
    else
      var last := links[|links| - 1];
      OperatorExpression(LeftFold(first, links[..|links| - 1]), Word(last.operator), last.right)
  }

  lemma {:induction false} WrapAppend(tree: Cond, tokens: seq<Cond>, op: Cond, right: Cond)
    requires Wrap(tree, tokens).Ok?
    ensures Wrap(tree, tokens + [op, right]) == Ok(OperatorExpression(Wrap(tree, tokens).value, op, right))
    decreases |tokens|
  {
    var all := tokens + [op, right];
    if tokens == [] {
      assert all == [op, right] && all[2..] == [];
    } else {
      assert all[2..] == tokens[2..] + [op, right];
      WrapAppend(OperatorExpression(tree, tokens[0], tokens[1]), tokens[2..], op, right);
    }
  }

  // Every chain of single-token operands groups strictly to the left, whatever
  // operators of the level it mixes.
  lemma {:induction false} ChainGroupsLeft(first: Cond, links: seq<Link>)
    requires links != [] && !first.Group? && !links[0].right.Group? && !links[0].right.Word?
    ensures Folded(ChainTokens(first, links)) == Ok(Some(LeftFold(first, links)))
    decreases |links|
  {
    var rest, last := links[..|links| - 1], links[|links| - 1];
    if |links| == 1 {
      assert rest == [] && ChainTokens(first, rest) == [first];
      var tokens := ChainTokens(first, links);
      assert tokens == [first, Word(last.operator), last.right];
      assert tokens[3..] == [];
    } else {
      ChainGroupsLeft(first, rest);
      FoldAppend(ChainTokens(first, rest), Word(last.operator), last.right);
    }
  }

  // Another operator and operand wrap whatever was folded.
  lemma FoldAppend(before: seq<Cond>, op: Cond, right: Cond)
    requires before != [] && Folded(before).Ok?
    ensures Folded(before + [op, right]) == Ok(Some(OperatorExpression(Folded(before).value.value, op, right)))
  {
    var tokens, k := before + [op, right], LeadLength(before);
    assert tokens[0] == before[0] && tokens[1] == before[1] && tokens[2] == before[2];
    assert |before| > 3 ==> tokens[3] == before[3];
    assert LeadLength(tokens) == k && Lead(tokens) == Lead(before);
    assert tokens[k..] == before[k..] + [op, right];
    WrapAppend(Lead(before).value, before[k..], op, right);
  }
}
