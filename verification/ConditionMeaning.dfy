/**
 What a condition means and what the compiled tree means, in any world of facts
 and events and for any reading of the operators; and the proof that the two
 agree.
 */
module ConditionMeaning {
  import opened Wrappers
  import opened Strings
  import opened ConditionTypes
  import opened ConditionCompiler

  datatype Operator =
    | NotEquals | Equals | And | Or | Greater | Less | AtLeast | AtMost | Plus | Minus | Assign
    | In | NotIn | Contains | NotContains
    | Matches | NotMatches | SelectsAttr | SelectsNoAttr | Selects | SelectsNone

  datatype Value =
    | VNothing
    | VNull
    | VBool(b: bool)
    | VInt(i: int)
    | VFloat(r: real)
    | VStr(s: string)
    | VList(items: seq<Value>)
    | VSearch(kind: Value, pattern: Value, options: seq<Value>)
    | VSelectattr(key: Value, test: Value, operand: Value)
    | VSelect(test: Value, operand: Value)
    | VOption(name: Value, setting: Value)

  datatype Root = Fact | Event | Events | Facts

  // Facts, events, a reading of every operator, and what the engine makes of a
  // boolean under the key of integers. The compiled tree is given nothing else:
  // no variables.
  datatype World = World(
    look: (Root, string) -> Value,
    apply: (Operator, Value, Value) -> Value,
    defined: (bool, Value) -> Value,
    negate: Value -> Value,
    truth: bool -> Value)

  // ---------- the meaning of a condition, variables looked up ----------

  // The operators a condition is written with.
  function Infix(token: string): Option<Operator> {
    if token == "!=" then Some(NotEquals)
    else if token == "==" then Some(Equals)
    else if token == "and" then Some(And)
    else if token == "or" then Some(Or)
    else if token == ">" then Some(Greater)
    else if token == "<" then Some(Less)
    else if token == ">=" then Some(AtLeast)
    else if token == "<=" then Some(AtMost)
    else if token == "+" then Some(Plus)
    else if token == "-" then Some(Minus)
    else if token == "<<" then Some(Assign)
    else if token == "in" then Some(In)
    else if token == "not in" then Some(NotIn)
    else if token == "contains" then Some(Contains)
    else if token == "not contains" then Some(NotContains)
    else None
  }

  // How an operator expression is to be read. Silent ones mean nothing at all:
  // `is` before anything that is not a test.
  datatype Form = Binary(op: Operator) | Definedness(yes: bool) | Silent | Unknown

  function TestForm(yes: bool, right: Cond): Form {
    match right
    case Str(value) => if value == "defined" then Definedness(yes) else Silent
    case SearchType(_, _, _) => Binary(if yes then Matches else NotMatches)
    case SelectattrType(_, _, _) => Binary(if yes then SelectsAttr else SelectsNoAttr)
    case SelectType(_, _) => Binary(if yes then Selects else SelectsNone)
    case _ => Silent
  }

  function FormBy(infix: Option<Operator>, test: Option<bool>, right: Cond): Form {
    if infix.Some? then Binary(infix.value)
    else if test.Some? then TestForm(test.value, right)
    else Unknown
  }

  function FormOf(operator: Cond, right: Cond): Form {
    FormBy(if operator.Word? then Infix(operator.text) else None,
           if operator == Word("is") then Some(true) else if operator == Word("is not") then Some(false) else None,
           right)
  }

  // How the names a condition can use are spelled.
  ghost predicate Spells(name: string, to: Reference) {
    match to
    case ToFact(path) => name == "fact." + path || (Indexes(path) && name == "fact" + path)
    case ToEvent(path) => name == "event." + path || (Indexes(path) && name == "event" + path)
    case ToEvents(path) => name == "events." + path
    case ToFacts(path) => name == "facts." + path
    case ToVars(key) => name == "vars." + key
    case ToNowhere => false
  }

  predicate Indexes(path: string) {
    path != "" && path[0] == '['
  }

  // What a name refers to; a name spelled otherwise refers to nothing.
  ghost function ReadName(name: string): Reference {
    if to :| Spells(name, to) then to else ToNowhere
  }

  // What a user's truth value means by itself.
  function Truth(b: bool): Value {
    VBool(b)
  }

  // truths says what a truth value among the user's variables is read as.
  function DataValue(d: Data, env: Env, truths: bool -> Value): Value {
    match d
    case DInt(i) => VInt(i)
    case DBool(b) => truths(b)
    case DStr(s) => TextValue(s, env)
    case DFloat(r) => VFloat(r)
    case DNone => VNull
    case DList(items) => VList(seq(|items|, i requires 0 <= i < |items| => DataValue(items[i], env, truths)))
    case DOther => VNothing
  }

  function TextValue(s: string, env: Env): Value {
    var text := env.substitute(s);
    if text.Some? then VStr(text.value) else VNothing
  }

  function ReferenceValue(to: Reference, env: Env, w: World, truths: bool -> Value): Value {
    match to
    case ToFact(path) => w.look(Fact, path)
    case ToEvent(path) => w.look(Event, path)
    case ToEvents(path) => w.look(Events, path)
    case ToFacts(path) => w.look(Facts, path)
    case ToVars(key) => if env.vars(key).Some? then DataValue(env.vars(key).value, env, truths) else VNothing
    case ToNowhere => VNothing
  }

  function FormValue(form: Form, l: Value, r: Value, w: World): Value {
    match form
    case Binary(op) => w.apply(op, l, r)
    case Definedness(yes) => w.defined(yes, l)
    case Silent => VNothing
    case Unknown => VNothing
  }

  ghost function Meaning(c: Cond, env: Env, w: World, truths: bool -> Value): Value
    decreases c
  {
    match c
    case List(items) => VList(seq(|items|, i requires 0 <= i < |items| => Meaning(items[i], env, w, truths)))
    case Condition(inner) => Meaning(inner, env, w, truths)
    case Boolean(value) => VBool(value == "true")
    case Identifier(name) => ReferenceValue(ReadName(name), env, w, truths)
    case Str(value) => TextValue(value, env)
    case Null => VNull
    case Integer(i) => VInt(i)
    case IntegerOfBool(b) => w.truth(b)
    case Float(r) => VFloat(r)
    case SearchType(kind, pattern, options) =>
      VSearch(Meaning(kind, env, w, truths), Meaning(pattern, env, w, truths),
              seq(|options|, i requires 0 <= i < |options| => Meaning(options[i], env, w, truths)))
    case SelectattrType(key, test, operand) =>
      VSelectattr(Meaning(key, env, w, truths), Meaning(test, env, w, truths), Meaning(operand, env, w, truths))
    case SelectType(test, operand) => VSelect(Meaning(test, env, w, truths), Meaning(operand, env, w, truths))
    case KeywordValue(name, setting) => VOption(Meaning(name, env, w, truths), Meaning(setting, env, w, truths))
    case OperatorExpression(left, operator, right) =>
      FormValue(FormOf(operator, right), Meaning(left, env, w, truths), Meaning(right, env, w, truths), w)
    case NegateExpression(negated) => w.negate(Meaning(negated, env, w, truths))
    case StrOf(_) => VNothing
    case Word(_) => VNothing
    case Group(_) => VNothing
  }

  // ---------- the meaning of a compiled tree ----------

  // What the engine reads each key as.
  function Named(key: BinaryKey): Operator {
    match key
    case NotEqualsExpression => NotEquals
    case EqualsExpression => Equals
    case AndExpression => And
    case OrExpression => Or
    case GreaterThanExpression => Greater
    case LessThanExpression => Less
    case GreaterThanOrEqualToExpression => AtLeast
    case LessThanOrEqualToExpression => AtMost
    case AdditionExpression => Plus
    case SubtractionExpression => Minus
    case AssignmentExpression => Assign
    case ItemInListExpression => In
    case ItemNotInListExpression => NotIn
    case ListContainsItemExpression => Contains
    case ListNotContainsItemExpression => NotContains
    case SearchMatchesExpression => Matches
    case SearchNotMatchesExpression => NotMatches
    case SelectAttrExpression => SelectsAttr
    case SelectAttrNotExpression => SelectsNoAttr
    case SelectExpression => Selects
    case SelectNotExpression => SelectsNone
  }

  function Evaluate(a: Ast, w: World): Value {
    match a
    case ANothing => VNothing
    case AList(items) => VList(seq(|items|, i requires 0 <= i < |items| => Evaluate(items[i], w)))
    case ABoolean(b) => VBool(b)
    case AFact(path) => w.look(Fact, path)
    case AEvent(path) => w.look(Event, path)
    case AEvents(path) => w.look(Events, path)
    case AFacts(path) => w.look(Facts, path)
    case AString(text) => VStr(text)
    case AStringOf(_) => VNothing
    case ANull => VNull
    case AInteger(i) => VInt(i)
    case AIntegerOfBool(b) => w.truth(b)
    case AFloat(r) => VFloat(r)
    case ASearch(kind, pattern, options) =>
      VSearch(Evaluate(kind, w), Evaluate(pattern, w),
              seq(|options|, i requires 0 <= i < |options| => Evaluate(options[i], w)))
    case ASelectattr(key, test, operand) => VSelectattr(Evaluate(key, w), Evaluate(test, w), Evaluate(operand, w))
    case ASelect(test, operand) => VSelect(Evaluate(test, w), Evaluate(operand, w))
    case AKeyword(name, setting) => VOption(Evaluate(name, w), Evaluate(setting, w))
    case AUnary(key, inner) =>
      (match key
       case IsDefinedExpression => w.defined(true, Evaluate(inner, w))
       case IsNotDefinedExpression => w.defined(false, Evaluate(inner, w))
       case NegateExpression => w.negate(Evaluate(inner, w)))
    case ABinary(key, lhs, rhs) => w.apply(Named(key), Evaluate(lhs, w), Evaluate(rhs, w))
  }

  // ---------- the two tables agree ----------

  // Every operator a condition is written with reaches the engine under a key
  // the engine reads the same way, and nothing else does.
  lemma MnemonicsKeepOperators(token: string)
    ensures Mnemonic(token).Some? <==> Infix(token).Some?
    ensures Mnemonic(token).Some? ==> Some(Named(Mnemonic(token).value)) == Infix(token)
  {
  }

  // ---------- what compilation reaches ----------

  // The nodes whose trees make up the tree of a node.
  function Reached(c: Cond): (r: seq<Cond>)
    ensures forall n :: n in r ==> (c decreases to n)
  {
    match c
    case List(items) => items
    case Condition(inner) => [inner]
    case SearchType(kind, pattern, options) => [kind, pattern] + options
    case SelectattrType(key, test, operand) => [key, test, operand]
    case SelectType(test, operand) => [test, operand]
    case KeywordValue(name, setting) => [name, setting]
    case OperatorExpression(left, operator, right) =>
      (match FormOf(operator, right)
       case Binary(_) => [left, right]
       case Definedness(_) => [left]
       case Silent => []
       case Unknown => [])
    case NegateExpression(negated) => [negated]
    case _ => []
  }

  // Every part of a node that compiles is among the nodes it reaches.
  lemma ReachesParts(c: Cond)
    ensures match c
            case List(items) => forall i :: 0 <= i < |items| ==> items[i] in Reached(c)
            case Condition(inner) => inner in Reached(c)
            case SearchType(kind, pattern, options) =>
              && kind in Reached(c) && pattern in Reached(c)
              && forall i :: 0 <= i < |options| ==> options[i] in Reached(c)
            case SelectattrType(key, test, operand) => key in Reached(c) && test in Reached(c) && operand in Reached(c)
            case SelectType(test, operand) => test in Reached(c) && operand in Reached(c)
            case KeywordValue(name, setting) => name in Reached(c) && setting in Reached(c)
            case OperatorExpression(left, operator, right) =>
              (match FormOf(operator, right)
               case Binary(_) => left in Reached(c) && right in Reached(c)
               case Definedness(_) => left in Reached(c)
               case _ => true)
            case NegateExpression(negated) => negated in Reached(c)
            case _ => true
  {
    var r := Reached(c);
    assert |r| > 0 ==> r[0] in r;
    assert |r| > 1 ==> r[1] in r;
    assert |r| > 2 ==> r[2] in r;
    if c.SearchType? {
      forall i | 0 <= i < |c.options| ensures c.options[i] in r {
        assert r[i + 2] == c.options[i];
      }
    }
  }

  // A user value that can be inlined.
  ghost predicate Inlines(d: Data, env: Env) {
    match d
    case DStr(s) => env.substitute(s).Some?
    case DList(items) => forall i :: 0 <= i < |items| ==> Inlines(items[i], env)
    case DOther => false
    case _ => true
  }

  ghost predicate ReferenceSupported(to: Reference, env: Env) {
    match to
    case ToVars(key) => env.vars(key).Some? && Inlines(env.vars(key).value, env)
    case ToNowhere => false
    case _ => true
  }

  // A node that is all right by itself, whatever is below it.
  ghost predicate NodeSupported(c: Cond, env: Env) {
    match c
    case Identifier(name) =>
      ReferenceSupported(ReadName(name), env)
    case Str(value) => env.substitute(value).Some?
    case OperatorExpression(left, operator, right) =>
      && (operator == Word("<<") ==> Assignable(left))
      && FormOf(operator, right) != Unknown
    case Word(_) => false
    case Group(_) => false
    case _ => true
  }

  ghost predicate Supported(c: Cond, env: Env)
    decreases c
  {
    && NodeSupported(c, env)
    && (forall n :: n in Reached(c) ==> Supported(n, env))
  }

  // What the form of an operator expression makes of its two sides.
  ghost predicate CompilesAs(form: Form, r: Result<Ast, Error>, lhs: Result<Ast, Error>, rhs: Result<Ast, Error>) {
    match form
    case Binary(op) =>
      if lhs.Ok? && rhs.Ok?
      then r.Ok? && r.value.ABinary? && Named(r.value.binary) == op && r.value.lhs == lhs.value && r.value.rhs == rhs.value
      else r.Err?
    case Definedness(yes) =>
      if lhs.Ok?
      then r == Ok(AUnary(if yes then IsDefinedExpression else IsNotDefinedExpression, lhs.value))
      else r.Err?
    case Silent => r == Ok(ANothing)
    case Unknown => r.Err?
  }

  lemma BranchByForm(c: Cond, key: Option<BinaryKey>, test: Option<bool>, lhs: Result<Ast, Error>, rhs: Result<Ast, Error>)
    requires c.OperatorExpression?
    ensures CompilesAs(FormBy(if key.Some? then Some(Named(key.value)) else None, test, c.right),
                       VisitOperator(c, key, test, Ok(()), lhs, rhs), lhs, rhs)
  {
  }

  // How an operator expression compiles, by its form.
  lemma {:induction false} OperatorByForm(c: Cond, env: Env)
    requires c.OperatorExpression? && (c.operator == Word("<<") ==> Assignable(c.left))
    ensures CompilesAs(FormOf(c.operator, c.right),
                       VisitCondition(c, env), VisitCondition(c.left, env), VisitCondition(c.right, env))
  {
    AssignsExactlyTo(c.left);
    BranchByForm(c, KeyOf(c.operator), TestOf(c.operator), VisitCondition(c.left, env), VisitCondition(c.right, env));
    if c.operator.Word? {
      MnemonicsKeepOperators(c.operator.text);
    }
  }

  // ---------- compilation succeeds exactly on the supported conditions ----------

  // The nodes of a user list are the nodes of its elements.
  lemma ListNodes(d: Data, env: Env)
    requires d.DList?
    ensures ToConditionType(d).Ok? <==> forall i :: 0 <= i < |d.items| ==> ToConditionType(d.items[i]).Ok?
    ensures ToConditionType(d).Ok? ==>
      var node := ToConditionType(d).value;
      && node.List? && |node.items| == |d.items|
      && (forall i :: 0 <= i < |d.items| ==> ToConditionType(d.items[i]) == Ok(node.items[i]))
      && (VisitCondition(node, env).Ok? <==> forall i :: 0 <= i < |d.items| ==> VisitCondition(node.items[i], env).Ok?)
  {
    var nodes := ToConditionTypes(d, 0);
    if nodes.Ok? {
      assert forall i :: 0 <= i < |d.items| ==> ToConditionType(d.items[0 + i]) == Ok(nodes.value[i]);
    }
  }

  lemma {:induction false} DataCompiles(d: Data, env: Env)
    ensures Inlines(d, env) <==> ToConditionType(d).Ok? && VisitCondition(ToConditionType(d).value, env).Ok?
  {
    match d
    case DList(items) =>
      forall i | 0 <= i < |items|
        ensures Inlines(items[i], env) <==>
                ToConditionType(items[i]).Ok? && VisitCondition(ToConditionType(items[i]).value, env).Ok?
      {
        DataCompiles(items[i], env);
      }
      ListNodes(d, env);
    case _ =>
  }

  lemma ReferenceCompiles(c: Cond, to: Reference, env: Env)
    requires c.Identifier?
    ensures VisitReference(c, to, env).Ok? <==> ReferenceSupported(to, env)
  {
    if to.ToVars? && env.vars(to.key).Some? {
      DataCompiles(env.vars(to.key).value, env);
    }
  }

  ghost predicate Agrees(c: Cond, env: Env) {
    VisitCondition(c, env).Ok? <==> Supported(c, env)
  }

  lemma OperatorCompiles(c: Cond, env: Env)
    requires c.OperatorExpression?
    requires forall n :: n in Reached(c) ==> Agrees(n, env)
    ensures Agrees(c, env)
  {
    ReachesParts(c);
    AssignsExactlyTo(c.left);
    if c.operator == Word("<<") ==> Assignable(c.left) {
      OperatorByForm(c, env);
    }
  }

  lemma ListCompiles(c: Cond, env: Env)
    requires c.List? && forall n :: n in c.items ==> Agrees(n, env)
    ensures Agrees(c, env)
  {
    assert Reached(c) == c.items;
    assert forall i :: 0 <= i < |c.items| ==> c.items[i] in c.items;
  }

  lemma SearchCompiles(c: Cond, env: Env)
    requires c.SearchType? && forall n :: n in Reached(c) ==> Agrees(n, env)
    ensures Agrees(c, env)
  {
    ReachesParts(c);
  }

  lemma PartsCompile(c: Cond, env: Env)
    requires !c.Identifier? && !c.OperatorExpression? && !c.List? && !c.SearchType?
    requires forall n :: n in Reached(c) ==> Agrees(n, env)
    ensures Agrees(c, env)
  {
    ReachesParts(c);
  }

  // A condition compiles exactly when every node its tree is made of is
  // supported by itself.
  lemma {:induction false} CompilesExactlyWhen(c: Cond, env: Env)
    ensures VisitCondition(c, env).Ok? <==> Supported(c, env)
    decreases c
  {
    forall n | n in Reached(c) ensures Agrees(n, env) {
      CompilesExactlyWhen(n, env);
    }
    match c
    case Identifier(name) =>
      ResolveReads(name);
      ReferenceCompiles(c, ReadName(name), env);
    case OperatorExpression(_, _, _) => OperatorCompiles(c, env);
    case List(_) => ListCompiles(c, env);
    case SearchType(_, _, _) => SearchCompiles(c, env);
    case _ => PartsCompile(c, env);
  }

  // The errors of nodes that fail by themselves.
  lemma NodeErrors(text: string, items: seq<Cond>, env: Env)
    ensures env.substitute(text).None? ==> VisitCondition(Str(text), env) == Err(TemplateError(text))
    ensures VisitCondition(Word(text), env) == Err(Unhandled(Word(text)))
    ensures VisitCondition(Group(items), env) == Err(Unhandled(Group(items)))
    ensures ToConditionType(DOther) == Err(InvalidType)
  {
  }

  // ---------- the tree means what the condition means ----------

  lemma {:induction false} DataMeans(d: Data, env: Env, w: World)
    requires Inlines(d, env)
    ensures ToConditionType(d).Ok? && VisitCondition(ToConditionType(d).value, env).Ok?
    ensures Evaluate(VisitCondition(ToConditionType(d).value, env).value, w)
            == DataValue(d, env, w.truth)
  {
    DataCompiles(d, env);
    match d
    case DList(items) =>
      forall i | 0 <= i < |items|
        ensures ToConditionType(items[i]).Ok? && VisitCondition(ToConditionType(items[i]).value, env).Ok?
        ensures Evaluate(VisitCondition(ToConditionType(items[i]).value, env).value, w)
                == DataValue(items[i], env, w.truth)
      {
        DataMeans(items[i], env, w);
      }
      ListNodes(d, env);
    case _ =>
  }

  // The tree of this node means, in this world, what the node does.
  ghost predicate Faithful(c: Cond, env: Env, w: World) {
    VisitCondition(c, env).Ok? && Evaluate(VisitCondition(c, env).value, w) == Meaning(c, env, w, w.truth)
  }

  // An expression compiled by its form evaluates by its form.
  lemma FormEvaluates(form: Form, r: Result<Ast, Error>, lhs: Result<Ast, Error>, rhs: Result<Ast, Error>,
                      w: World, left: Value, right: Value)
    requires CompilesAs(form, r, lhs, rhs) && form != Unknown
    requires form.Binary? || form.Definedness? ==> lhs.Ok? && Evaluate(lhs.value, w) == left
    requires form.Binary? ==> rhs.Ok? && Evaluate(rhs.value, w) == right
    ensures r.Ok? && Evaluate(r.value, w) == FormValue(form, left, right, w)
  {
  }

  lemma OperatorFaithful(c: Cond, env: Env, w: World)
    requires c.OperatorExpression? && NodeSupported(c, env)
    requires forall n :: n in Reached(c) ==> Faithful(n, env, w)
    ensures Faithful(c, env, w)
  {
    OperatorByForm(c, env);
    ReachesParts(c);
    FormEvaluates(FormOf(c.operator, c.right), VisitCondition(c, env), VisitCondition(c.left, env),
                  VisitCondition(c.right, env), w, Meaning(c.left, env, w, w.truth), Meaning(c.right, env, w, w.truth));
  }

  lemma ReferenceFaithful(c: Cond, to: Reference, env: Env, w: World)
    requires c.Identifier? && VisitReference(c, to, env).Ok?
    requires to.ToVars? ==> env.vars(to.key).Some? && Inlines(env.vars(to.key).value, env)
    ensures Evaluate(VisitReference(c, to, env).value, w) == ReferenceValue(to, env, w, w.truth)
  {
    if to.ToVars? {
      DataMeans(env.vars(to.key).value, env, w);
    }
  }

  lemma ListFaithful(c: Cond, env: Env, w: World)
    requires c.List? && forall n :: n in c.items ==> Faithful(n, env, w)
    ensures Faithful(c, env, w)
  {
    var asts := VisitAll(c.items, env);
    assert forall i :: 0 <= i < |c.items| ==> c.items[i] in c.items;
    assert VisitCondition(c, env) == Ok(AList(asts.value));
    var left, right := Evaluate(AList(asts.value), w), Meaning(c, env, w, w.truth);
    assert left.items == right.items;
  }

  lemma SearchFaithful(c: Cond, env: Env, w: World)
    requires c.SearchType? && Faithful(c.kind, env, w) && Faithful(c.pattern, env, w)
    requires forall n :: n in c.options ==> Faithful(n, env, w)
    ensures Faithful(c, env, w)
  {
    var asts := VisitAll(c.options, env);
    assert forall i :: 0 <= i < |c.options| ==> c.options[i] in c.options;
    var kind, pattern := VisitCondition(c.kind, env).value, VisitCondition(c.pattern, env).value;
    assert VisitCondition(c, env) == Ok(ASearch(kind, pattern, asts.value));
    var left, right := Evaluate(ASearch(kind, pattern, asts.value), w), Meaning(c, env, w, w.truth);
    assert left.options == right.options;
  }

  lemma SelectFaithful(c: Cond, env: Env, w: World)
    requires c.SelectattrType? || c.SelectType?
    requires c.SelectattrType? ==> Faithful(c.key, env, w)
    requires Faithful(c.test, env, w) && Faithful(c.operand, env, w)
    ensures Faithful(c, env, w)
  {
  }

  lemma KeywordFaithful(c: Cond, env: Env, w: World)
    requires c.KeywordValue? && Faithful(c.name, env, w) && Faithful(c.setting, env, w)
    ensures Faithful(c, env, w)
  {
  }

  lemma WrapperFaithful(c: Cond, env: Env, w: World)
    requires (c.NegateExpression? && Faithful(c.negated, env, w)) || (c.Condition? && Faithful(c.inner, env, w))
    ensures Faithful(c, env, w)
  {
  }

  predicate IsLeaf(c: Cond) {
    c.Boolean? || c.Str? || c.StrOf? || c.Null? || c.Integer? || c.IntegerOfBool? || c.Float?
  }

  lemma LeafFaithful(c: Cond, env: Env, w: World)
    requires IsLeaf(c) && VisitCondition(c, env).Ok?
    ensures Faithful(c, env, w)
  {
  }

  // In every world the tree evaluates to what the condition means there, with
  // variables looked up and their truth values read as the engine reads them.
  lemma {:induction false} TreeMeansCondition(c: Cond, env: Env, w: World)
    requires Supported(c, env)
    ensures VisitCondition(c, env).Ok?
    ensures Evaluate(VisitCondition(c, env).value, w) == Meaning(c, env, w, w.truth)
    decreases c
  {
    CompilesExactlyWhen(c, env);
    forall n | n in Reached(c) ensures Faithful(n, env, w) {
      TreeMeansCondition(n, env, w);
    }
    ReachesParts(c);
    match c
    case Identifier(name) =>
      ResolveReads(name);
      ReferenceFaithful(c, ReadName(name), env, w);
    case OperatorExpression(_, _, _) => OperatorFaithful(c, env, w);
    case List(_) => ListFaithful(c, env, w);
    case SearchType(_, _, _) => SearchFaithful(c, env, w);
    case SelectattrType(_, _, _) => SelectFaithful(c, env, w);
    case SelectType(_, _) => SelectFaithful(c, env, w);
    case KeywordValue(_, _) => KeywordFaithful(c, env, w);
    case NegateExpression(_) => WrapperFaithful(c, env, w);
    case Condition(_) => WrapperFaithful(c, env, w);
    case _ => LeafFaithful(c, env, w);
  }

  // ---------- where booleans become visible ----------

  predicate HasBoolean(d: Data) {
    match d
    case DBool(_) => true
    case DList(items) => exists i :: 0 <= i < |items| && HasBoolean(items[i])
    case _ => false
  }

  predicate ReferenceBooleanFree(to: Reference, env: Env) {
    to.ToVars? && env.vars(to.key).Some? ==> !HasBoolean(env.vars(to.key).value)
  }

  // No variable the condition inlines holds a truth value.
  ghost predicate BooleanFree(c: Cond, env: Env)
    decreases c
  {
    && (c.Identifier? ==> ReferenceBooleanFree(ReadName(c.value), env))
    && (forall n :: n in Reached(c) ==> BooleanFree(n, env))
  }

  // A world in which every operator keeps its operands apart, and no boolean
  // under the key of integers is read as one.
  function FreeWorld(): World {
    World((_, _) => VNothing, (_, l, r) => VList([l, r]), (_, v) => VList([v]), v => VList([v]), _ => VNothing)
  }

  // The engine reads a boolean under the key of integers as that boolean.
  ghost predicate ReadsBooleans(w: World) {
    forall b: bool :: w.truth(b) == Truth(b)
  }

  lemma {:induction false} DataKept(d: Data, env: Env, w: World)
    ensures !HasBoolean(d) || ReadsBooleans(w) ==> DataValue(d, env, Truth) == DataValue(d, env, w.truth)
  {
    match d
    case DList(items) =>
      forall i | 0 <= i < |items|
        ensures !HasBoolean(d) || ReadsBooleans(w) ==>
                DataValue(items[i], env, Truth) == DataValue(items[i], env, w.truth)
      {
        DataKept(items[i], env, w);
      }
    case _ =>
  }

  lemma {:induction false} DataChanges(d: Data, env: Env)
    requires HasBoolean(d)
    ensures DataValue(d, env, Truth) != DataValue(d, env, FreeWorld().truth)
  {
    if d.DList? {
      var i :| 0 <= i < |d.items| && HasBoolean(d.items[i]);
      DataChanges(d.items[i], env);
      var xs, ys := DataValue(d, env, Truth).items, DataValue(d, env, FreeWorld().truth).items;
      assert xs[i] == DataValue(d.items[i], env, Truth) && ys[i] == DataValue(d.items[i], env, FreeWorld().truth);
    }
  }

  // In this world inlining changes nothing.
  ghost predicate Kept(c: Cond, env: Env, w: World) {
    Meaning(c, env, w, Truth) == Meaning(c, env, w, w.truth)
  }

  lemma PartsKept(c: Cond, env: Env, w: World)
    requires !c.Identifier?
    requires forall n :: n in Reached(c) ==> Kept(n, env, w)
    ensures Kept(c, env, w)
  {
    ReachesParts(c);
  }

  lemma FreeOperatorKept(c: Cond, env: Env)
    requires c.OperatorExpression? && Kept(c, env, FreeWorld())
    ensures forall n :: n in Reached(c) ==> Kept(n, env, FreeWorld())
  {
    var w := FreeWorld();
    var l, m := Meaning(c.left, env, w, Truth), Meaning(c.left, env, w, w.truth);
    var r, q := Meaning(c.right, env, w, Truth), Meaning(c.right, env, w, w.truth);
    assert VList([l, r]) == VList([m, q]) ==> VList([l, r]).items[0] == m && VList([l, r]).items[1] == q;
    assert VList([l]) == VList([m]) ==> VList([l]).items[0] == m;
  }

  // In the free world what a node means shows what its parts mean.
  lemma FreePartsKept(c: Cond, env: Env)
    requires !c.Identifier? && Kept(c, env, FreeWorld())
    ensures forall n :: n in Reached(c) ==> Kept(n, env, FreeWorld())
  {
    var w := FreeWorld();
    match c
    case List(items) =>
      var xs, ys := Meaning(c, env, w, Truth).items, Meaning(c, env, w, w.truth).items;
      forall i | 0 <= i < |items| ensures Kept(items[i], env, w) {
        assert xs[i] == Meaning(items[i], env, w, Truth) && ys[i] == Meaning(items[i], env, w, w.truth);
      }
    case SearchType(kind, pattern, options) =>
      var xs, ys := Meaning(c, env, w, Truth).options, Meaning(c, env, w, w.truth).options;
      forall i | 0 <= i < |options| ensures Kept(options[i], env, w) {
        assert xs[i] == Meaning(options[i], env, w, Truth) && ys[i] == Meaning(options[i], env, w, w.truth);
      }
    case NegateExpression(negated) =>
      var m, n := Meaning(negated, env, w, Truth), Meaning(negated, env, w, w.truth);
      assert VList([m]) == VList([n]) ==> VList([m]).items[0] == n;
    case OperatorExpression(_, _, _) => FreeOperatorKept(c, env);
    case _ =>
  }

  lemma {:induction false} KeptWhenBooleanFree(c: Cond, env: Env, w: World)
    requires BooleanFree(c, env) || ReadsBooleans(w)
    ensures Kept(c, env, w)
    decreases c
  {
    forall n | n in Reached(c) ensures Kept(n, env, w) {
      KeptWhenBooleanFree(n, env, w);
    }
    if c.Identifier? {
      var to := ReadName(c.value);
      if to.ToVars? && env.vars(to.key).Some? {
        DataKept(env.vars(to.key).value, env, w);
      }
    } else {
      PartsKept(c, env, w);
    }
  }

  lemma {:induction false} BooleanFreeWhenKept(c: Cond, env: Env)
    requires Kept(c, env, FreeWorld())
    ensures BooleanFree(c, env)
    decreases c
  {
    if c.Identifier? {
      var to := ReadName(c.value);
      if to.ToVars? && env.vars(to.key).Some? && HasBoolean(env.vars(to.key).value) {
        DataChanges(env.vars(to.key).value, env);
      }
    } else {
      FreePartsKept(c, env);
      forall n | n in Reached(c) ensures BooleanFree(n, env) {
        BooleanFreeWhenKept(n, env);
      }
    }
  }

  // The tree means what the condition means in this world.
  ghost predicate MeansTheSame(c: Cond, env: Env, w: World) {
    VisitCondition(c, env).Ok? && Evaluate(VisitCondition(c, env).value, w) == Meaning(c, env, w, Truth)
  }

  lemma SameMeansKept(c: Cond, env: Env, w: World)
    requires Supported(c, env)
    ensures MeansTheSame(c, env, w) <==> Kept(c, env, w)
  {
    TreeMeansCondition(c, env, w);
  }

  // Inlining keeps the meaning of a condition in every world exactly when no
  // variable it inlines holds a truth value; and always in a world whose engine
  // reads a boolean under the key of integers as that boolean.
  lemma {:induction false} MeaningKeptExactlyWhen(c: Cond, env: Env)
    requires Supported(c, env)
    ensures (forall w: World :: MeansTheSame(c, env, w)) <==> BooleanFree(c, env)
    ensures forall w: World :: ReadsBooleans(w) ==> MeansTheSame(c, env, w)
  {
    forall w: World ensures MeansTheSame(c, env, w) <==> Kept(c, env, w) {
      SameMeansKept(c, env, w);
    }
    forall w: World | BooleanFree(c, env) || ReadsBooleans(w) ensures Kept(c, env, w) {
      KeptWhenBooleanFree(c, env, w);
    }
    if MeansTheSame(c, env, FreeWorld()) {
      BooleanFreeWhenKept(c, env);
    }
  }

  lemma NoMnemonicFor(op: string)
    requires op == "*" || op == "/"
    ensures Mnemonic(op) == None
  {
    assert |op| == 1 && op[0] != '+' && op[0] != '-' && op[0] != '<' && op[0] != '>';
  }

  // Products and quotients parse, and never compile.
  lemma ProductsDoNotCompile(left: Cond, op: string, right: Cond, env: Env)
    requires op == "*" || op == "/"
    ensures VisitCondition(OperatorExpression(left, Word(op), right), env)
            == Err(Unhandled(OperatorExpression(left, Word(op), right)))
  {
    NoMnemonicFor(op);
    assert |op| == 1;
  }

  // An operator expression has an empty tree exactly when it is silent.
  lemma EmptyTreeExactlyWhenSilent(c: Cond, env: Env)
    requires c.OperatorExpression? && (c.operator == Word("<<") ==> Assignable(c.left))
    ensures VisitCondition(c, env) == Ok(ANothing) <==> FormOf(c.operator, c.right) == Silent
  {
    OperatorByForm(c, env);
  }

  // The texts an assignment accepts: `events` or `facts`, a dot and one name.
  ghost predicate NamesTarget(value: string) {
    exists name :: '.' !in name && (value == "events" + "." + name || value == "facts" + "." + name)
  }

  lemma AcceptedNamesTarget(value: string)
    requires ValidateAssignment(value).Ok?
    ensures NamesTarget(value)
  {
    var parts := Split(value, '.');
    JoinSplit(value, '.');
    assert parts[1..] == [parts[1]] && parts[1] in parts;
    assert value == parts[0] + "." + parts[1];
  }

  lemma TargetIsAccepted(value: string)
    requires NamesTarget(value)
    ensures ValidateAssignment(value).Ok?
  {
    var name :| '.' !in name && (value == "events" + "." + name || value == "facts" + "." + name);
    var root := if value == "events" + "." + name then "events" else "facts";
    assert '.' !in root && value == root + ['.'] + name;
    SplitTwo(value, '.');
    assert Split(value, '.') == [root, name];
  }

  // What may stand on the left of an assignment: a node whose text names such a
  // target.
  ghost predicate Assignable(left: Cond) {
    exists name :: NamesTarget(name) && (left == Identifier(name) || left == Str(name) || left == Boolean(name))
  }

  lemma AssignsExactlyTo(left: Cond)
    ensures CheckAssignment(left).Ok? <==> Assignable(left)
    ensures CheckAssignment(left).Err? ==>
            CheckAssignment(left).error
            == match left
               case Identifier(text) => InvalidAssignment(text)
               case Str(text) => InvalidAssignment(text)
               case Boolean(text) => InvalidAssignment(text)
               case Group(_) => InvalidAssignment("")
               case _ => NoSuchAttribute
  {
    if ValueText(left).Some? {
      var value := ValueText(left).value;
      if NamesTarget(value) {
        TargetIsAccepted(value);
      } else if ValidateAssignment(value).Ok? {
        AcceptedNamesTarget(value);
      }
    }
    assert !NamesTarget("");
  }

  // ---------- names ----------

  lemma SpelledResolves(name: string, to: Reference)
    requires Spells(name, to)
    ensures Resolve(name) == to
  {
    match to
    case ToFact(path) =>
      if name == "fact." + path {
        assert StartsWith(name, "fact.") && name[5..] == path;
      } else {
        assert name[4] == '[' && !StartsWith(name, "fact.");
        assert StartsWith(name, "fact[") && name[4..] == path;
      }
    case ToEvent(path) =>
      assert name[0] == 'e' && !StartsWith(name, "fact.") && !StartsWith(name, "fact[");
      if name == "event." + path {
        assert StartsWith(name, "event.") && name[6..] == path;
      } else {
        assert name[5] == '[' && !StartsWith(name, "event.");
        assert StartsWith(name, "event[") && name[5..] == path;
      }
    case ToEvents(path) =>
      assert name[0] == 'e' && !StartsWith(name, "fact.") && !StartsWith(name, "fact[");
      assert name[5] == 's' && !StartsWith(name, "event.") && !StartsWith(name, "event[");
      assert StartsWith(name, "events.") && name[7..] == path;
    case ToFacts(path) =>
      assert name[0] == 'f' && name[4] == 's' && !StartsWith(name, "fact.") && !StartsWith(name, "fact[");
      assert !StartsWith(name, "event.") && !StartsWith(name, "event[") && !StartsWith(name, "events.");
      assert StartsWith(name, "facts.") && name[6..] == path;
    case ToVars(key) =>
      assert name[0] == 'v' && !StartsWith(name, "fact.") && !StartsWith(name, "fact[") && !StartsWith(name, "facts.");
      assert !StartsWith(name, "event.") && !StartsWith(name, "event[") && !StartsWith(name, "events.");
      assert StartsWith(name, "vars.") && name[5..] == key;
  }

  lemma ResolvedIsSpelled(name: string)
    ensures Resolve(name) == ToNowhere || Spells(name, Resolve(name))
  {
    var to := Resolve(name);
    match to
    case ToFact(path) =>
      assert StartsWith(name, "fact.") ==> name == "fact." + name[5..];
      assert StartsWith(name, "fact[") ==> name == "fact" + name[4..] && name[4..][0] == '[';
    case ToEvent(path) =>
      assert StartsWith(name, "event.") ==> name == "event." + name[6..];
      assert StartsWith(name, "event[") ==> name == "event" + name[5..] && name[5..][0] == '[';
    case ToEvents(path) => assert name == "events." + name[7..];
    case ToFacts(path) => assert name == "facts." + name[6..];
    case ToVars(key) => assert name == "vars." + name[5..];
    case ToNowhere =>
  }

  // The compiler reads every name as it is spelled.
  lemma ResolveReads(name: string)
    ensures Resolve(name) == ReadName(name)
  {
    ResolvedIsSpelled(name);
    if to :| Spells(name, to) {
      SpelledResolves(name, ReadName(name));
    }
  }

  // The tree of a name, by its spelling.
  lemma NameCompiles(name: string, to: Reference, env: Env)
    requires Spells(name, to)
    ensures match to
            case ToFact(path) => VisitCondition(Identifier(name), env) == Ok(AFact(path))
            case ToEvent(path) => VisitCondition(Identifier(name), env) == Ok(AEvent(path))
            case ToEvents(path) => VisitCondition(Identifier(name), env) == Ok(AEvents(path))
            case ToFacts(path) => VisitCondition(Identifier(name), env) == Ok(AFacts(path))
            case ToVars(key) =>
              env.vars(key).None? ==> VisitCondition(Identifier(name), env) == Err(VarsKeyMissing(key))
  {
    SpelledResolves(name, to);
  }

  // What a name means, by its spelling.
  lemma NameMeans(name: string, to: Reference, env: Env, w: World, truths: bool -> Value)
    requires Spells(name, to)
    ensures match to
            case ToFact(path) => Meaning(Identifier(name), env, w, truths) == w.look(Fact, path)
            case ToEvent(path) => Meaning(Identifier(name), env, w, truths) == w.look(Event, path)
            case ToEvents(path) => Meaning(Identifier(name), env, w, truths) == w.look(Events, path)
            case ToFacts(path) => Meaning(Identifier(name), env, w, truths) == w.look(Facts, path)
            case ToVars(key) =>
              env.vars(key).Some? ==>
                Meaning(Identifier(name), env, w, truths) == DataValue(env.vars(key).value, env, truths)
  {
    SpelledResolves(name, to);
    ResolveReads(name);
  }

  // A name spelled otherwise is an error.
  lemma OtherNamesFail(name: string, env: Env)
    requires forall to :: !Spells(name, to)
    ensures VisitCondition(Identifier(name), env) == Err(InvalidIdentifier(name)) && !Supported(Identifier(name), env)
  {
    ResolvedIsSpelled(name);
  }
}
