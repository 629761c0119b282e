/**
 The forms a condition can begin with, spelled out: which token lists are read as
 a search, a selectattr or a select test, what they become, and which fail.
 */
module ConditionForms {
  import opened Wrappers
  import opened ConditionTypes
  import opened ConditionParser

  const SELECT_OPERATORS := ["==", "!=", ">", ">=", "<", "<=", "regex", "search", "match"]
  const LIST_OPERATORS := ["in", "not in", "contains", "not contains"]

  lemma OperatorsAreThese(s: string)
    ensures ValidSelectOperator(s) <==> s in SELECT_OPERATORS
    ensures ValidSelectattrOperator(s) <==> s in SELECT_OPERATORS + LIST_OPERATORS
  {
  }

  // A node that has a text for its value.
  ghost predicate HasText(n: Cond, text: string) {
    n == Str(text) || n == Identifier(text) || n == Boolean(text)
  }

  lemma TextsAreThese(n: Cond)
    ensures ValueText(n).Some? && ValueText(n).value != "" ==> HasText(n, ValueText(n).value)
    ensures forall text :: HasText(n, text) ==> ValueText(n) == Some(text)
  {
  }

  // A list of values is a list, anything else is itself.
  lemma AsListReads(t: Cond)
    ensures forall items :: t == Group(items) ==> AsList(t) == List(items)
    ensures !t.Group? ==> AsList(t) == t
  {
  }

  predicate IsTestWord(t: Cond) {
    t in {Word("is"), Word("is not")}
  }

  predicate IsKindWord(t: Cond) {
    t in {Word("match"), Word("regex"), Word("search")}
  }

  // left is [not] match(pattern, name=value, ...): the names and values of the
  // options come in pairs behind the pattern.
  lemma SearchForm(left: Cond, test: Cond, kind: string, items: seq<Cond>, rest: seq<Cond>)
    requires IsTestWord(test) && IsKindWord(Word(kind))
    ensures var tokens := [left, test, Word(kind), Group(items)] + rest;
            && LeadLength(tokens) == 4
            && (|items| % 2 == 0 ==> Lead(tokens) == Err(IndexError))
            && (|items| % 2 == 1 ==>
                  && Lead(tokens).Ok?
                  && var tree := Lead(tokens).value;
                     && tree.OperatorExpression? && tree.left == left && tree.operator == test && tree.right.SearchType?
                     && tree.right.kind == Str(kind) && tree.right.pattern == items[0]
                     && 2 * |tree.right.options| + 1 == |items|
                     && forall j :: 0 <= j < |tree.right.options| ==>
                          var name := items[2 * j + 1];
                          tree.right.options[j]
                          == KeywordValue(if name.Word? then Str(name.text) else StrOf(name), items[2 * j + 2]))
  {
  }

  // left is [not] selectattr(key, test, operand)
  lemma SelectattrForm(left: Cond, operator: Cond, items: seq<Cond>, rest: seq<Cond>)
    ensures var tokens := [left, operator, Word("selectattr"), Group(items)] + rest;
            && LeadLength(tokens) == 4
            && (|items| < 2 ==> Lead(tokens) == Err(IndexError))
            && (|items| >= 2 ==>
                  if !(exists text :: HasText(items[1], text) && text in SELECT_OPERATORS + LIST_OPERATORS)
                  then Lead(tokens) == Err(SelectattrOperator(items[1]))
                  else if |items| == 2 then Lead(tokens) == Err(IndexError)
                  else Lead(tokens)
                       == Ok(OperatorExpression(left, operator, SelectattrType(items[0], items[1], AsList(items[2])))))
  {
    var tokens := [left, operator, Word("selectattr"), Group(items)] + rest;
    NoKind("selectattr");
    assert tokens[2] == Word("selectattr") && tokens[3] == Group(items);
    if |items| >= 2 {
      TestText(items[1], true);
    }
  }

  // left is [not] select(test, operand)
  lemma SelectForm(left: Cond, operator: Cond, items: seq<Cond>, rest: seq<Cond>)
    ensures var tokens := [left, operator, Word("select"), Group(items)] + rest;
            && LeadLength(tokens) == 4
            && (|items| < 1 ==> Lead(tokens) == Err(IndexError))
            && (|items| >= 1 ==>
                  if !(exists text :: HasText(items[0], text) && text in SELECT_OPERATORS)
                  then Lead(tokens) == Err(SelectOperator(items[0]))
                  else if |items| == 1 then Lead(tokens) == Err(IndexError)
                  else Lead(tokens)
                       == Ok(OperatorExpression(left, operator, SelectType(items[0], AsList(items[1])))))
  {
    var tokens := [left, operator, Word("select"), Group(items)] + rest;
    NoKind("select");
    assert tokens[2] == Word("select") && tokens[3] == Group(items);
    if |items| >= 1 {
      TestText(items[0], false);
    }
  }

  lemma NoKind(word: string)
    requires word == "selectattr" || word == "select"
    ensures !IsSearchKind(Word(word))
    ensures word == "select" ==> Word(word) != Word("selectattr")
  {
    assert |word| == 10 || word == "select";
    assert word[1] == 'e' && word[2] == 'l';
    assert "search"[2] == 'a' && "match"[1] == 'a' && "regex"[2] == 'g';
  }

  // The text of the operator decides.
  lemma TestText(n: Cond, attribute: bool)
    ensures (ValueText(n).Some? && if attribute then ValidSelectattrOperator(ValueText(n).value)
                                   else ValidSelectOperator(ValueText(n).value))
            <==> exists text :: HasText(n, text)
                                && text in if attribute then SELECT_OPERATORS + LIST_OPERATORS else SELECT_OPERATORS
  {
    TextsAreThese(n);
    if ValueText(n).Some? {
      OperatorsAreThese(ValueText(n).value);
    }
    OperatorsAreThese("");
    assert forall s :: s in SELECT_OPERATORS + LIST_OPERATORS ==> s != "";
  }

  // Anything else is an operand, an operator and an operand.
  lemma PlainForm(tokens: seq<Cond>)
    requires |tokens| >= 3 && !(IsTestWord(tokens[1]) && IsKindWord(tokens[2]))
    requires tokens[2] != Word("selectattr") && tokens[2] != Word("select")
    ensures LeadLength(tokens) == 3
    ensures Lead(tokens) == Ok(OperatorExpression(AsList(tokens[0]), tokens[1], AsList(tokens[2])))
  {
  }

  // A special form without the group of its arguments, or fewer than three
  // tokens, is an error.
  lemma ShortForms(tokens: seq<Cond>)
    ensures |tokens| < 3 ==> Lead(tokens) == Err(IndexError)
    ensures |tokens| >= 3
            && ((IsTestWord(tokens[1]) && IsKindWord(tokens[2])) || tokens[2] in {Word("selectattr"), Word("select")}) ==>
            && (|tokens| == 3 ==> Lead(tokens) == Err(IndexError))
            && (|tokens| > 3 && !tokens[3].Group? ==> Lead(tokens) == Err(NotAGroup))
  {
  }
}
