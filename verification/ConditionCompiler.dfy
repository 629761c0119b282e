/**
 From a parsed condition to the syntax tree of the rule engine, with variables
 inlined.
 */
module ConditionCompiler {
  import opened Wrappers
  import opened Strings
  import opened ConditionTypes

  // The keys the engine knows operators by.
  datatype BinaryKey =
    | NotEqualsExpression | EqualsExpression | AndExpression | OrExpression
    | GreaterThanExpression | LessThanExpression | GreaterThanOrEqualToExpression | LessThanOrEqualToExpression
    | AdditionExpression | SubtractionExpression | AssignmentExpression
    | ItemInListExpression | ItemNotInListExpression | ListContainsItemExpression | ListNotContainsItemExpression
    | SearchMatchesExpression | SearchNotMatchesExpression
    | SelectAttrExpression | SelectAttrNotExpression | SelectExpression | SelectNotExpression

  datatype UnaryKey = IsDefinedExpression | IsNotDefinedExpression | NegateExpression

  // The JSON tree the engine is given. ABinary and AUnary are dictionaries with
  // that one key; AIntegerOfBool has a boolean under the key of integers;
  // ANothing is a null tree; a search without options has no "options" key.
  datatype Ast =
    | ANothing
    | AList(items: seq<Ast>)
    | ABoolean(b: bool)
    | AFact(path: string)
    | AEvent(path: string)
    | AEvents(path: string)
    | AFacts(path: string)
    | AString(text: string)
    | AStringOf(node: Cond)
    | ANull
    | AInteger(i: int)
    | AIntegerOfBool(b: bool)
    | AFloat(r: real)
    | ASearch(kind: Ast, pattern: Ast, options: seq<Ast>)
    | ASelectattr(key: Ast, test: Ast, operand: Ast)
    | ASelect(test: Ast, operand: Ast)
    | AKeyword(name: Ast, setting: Ast)
    | AUnary(unary: UnaryKey, inner: Ast)
    | ABinary(binary: BinaryKey, lhs: Ast, rhs: Ast)

  // The user's variables by dotted path, and template substitution, which fails
  // on an undefined name.
  datatype Env = Env(vars: string -> Option<Data>, substitute: string -> Option<string>)

  // ---------- identifiers ----------

  datatype Reference =
    | ToFact(path: string)
    | ToEvent(path: string)
    | ToEvents(path: string)
    | ToFacts(path: string)
    | ToVars(key: string)
    | ToNowhere

  predicate StartsWith(s: string, prefix: string) {
    prefix <= s
  }

  function Resolve(name: string): Reference {
    if StartsWith(name, "fact.") then ToFact(name[5..])
    else if StartsWith(name, "fact[") then ToFact(name[4..])
    else if StartsWith(name, "event.") then ToEvent(name[6..])
    else if StartsWith(name, "event[") then ToEvent(name[5..])
    else if StartsWith(name, "events.") then ToEvents(name[7..])
    else if StartsWith(name, "facts.") then ToFacts(name[6..])
    else if StartsWith(name, "vars.") then ToVars(name[5..])
    else ToNowhere
  }

  // ---------- operators ----------

  // OPERATOR_MNEMONIC
  function Mnemonic(token: string): Option<BinaryKey> {
    if token == "!=" then Some(NotEqualsExpression)
    else if token == "==" then Some(EqualsExpression)
    else if token == "and" then Some(AndExpression)
    else if token == "or" then Some(OrExpression)
    else if token == ">" then Some(GreaterThanExpression)
    else if token == "<" then Some(LessThanExpression)
    else if token == ">=" then Some(GreaterThanOrEqualToExpression)
    else if token == "<=" then Some(LessThanOrEqualToExpression)
    else if token == "+" then Some(AdditionExpression)
    else if token == "-" then Some(SubtractionExpression)
    else if token == "<<" then Some(AssignmentExpression)
    else if token == "in" then Some(ItemInListExpression)
    else if token == "not in" then Some(ItemNotInListExpression)
    else if token == "contains" then Some(ListContainsItemExpression)
    else if token == "not contains" then Some(ListNotContainsItemExpression)
    else None
  }

  // ---------- assignment ----------

  // validate_assignment_expression
  function ValidateAssignment(value: string): Result<(), Error> {
    var tokens := Split(value, '.');
    if |tokens| != 2 then Err(InvalidAssignment(value))
    else if tokens[0] != "events" && tokens[0] != "facts" then Err(InvalidAssignment(value))
    else Ok(())
  }

  function CheckAssignment(left: Cond): Result<(), Error> {
    match ValueText(left)
    case None => Err(NoSuchAttribute)
    case Some(value) => ValidateAssignment(value)
  }

  // ---------- visit_condition ----------

  // create_binary_node
  function CreateBinaryNode(name: BinaryKey, lhs: Result<Ast, Error>, rhs: Result<Ast, Error>): Result<Ast, Error> {
    var l :- lhs;
    var r :- rhs;
    Ok(ABinary(name, l, r))
  }

  function CreateUnaryNode(name: UnaryKey, inner: Result<Ast, Error>): Result<Ast, Error> {
    var i :- inner;
    Ok(AUnary(name, i))
  }

  // The key an operator has in the table, if any.
  function KeyOf(operator: Cond): Option<BinaryKey> {
    if operator.Word? then Mnemonic(operator.text) else None
  }

  // `is` or `is not`
  function TestOf(operator: Cond): Option<bool> {
    if operator == Word("is") then Some(true) else if operator == Word("is not") then Some(false) else None
  }

  // The branches for an operator expression, given what its operator is and
  // what its two sides compile to; a side that is not mentioned is not visited.
  function VisitOperator(c: Cond, key: Option<BinaryKey>, test: Option<bool>, assignment: Result<(), Error>,
                         lhs: Result<Ast, Error>, rhs: Result<Ast, Error>): Result<Ast, Error>
    requires c.OperatorExpression?
  {
    if assignment.Err? then Err(assignment.error)
    else if key.Some? then CreateBinaryNode(key.value, lhs, rhs)
    else if test == Some(true) then
      (match c.right
       case Str(value) => if value == "defined" then CreateUnaryNode(IsDefinedExpression, lhs) else Ok(ANothing)
       case SearchType(_, _, _) => CreateBinaryNode(SearchMatchesExpression, lhs, rhs)
       case SelectattrType(_, _, _) => CreateBinaryNode(SelectAttrExpression, lhs, rhs)
       case SelectType(_, _) => CreateBinaryNode(SelectExpression, lhs, rhs)
       case _ => Ok(ANothing))
    else if test == Some(false) then
      (match c.right
       case Str(value) => if value == "defined" then CreateUnaryNode(IsNotDefinedExpression, lhs) else Ok(ANothing)
       case SearchType(_, _, _) => CreateBinaryNode(SearchNotMatchesExpression, lhs, rhs)
       case SelectattrType(_, _, _) => CreateBinaryNode(SelectAttrNotExpression, lhs, rhs)
       case SelectType(_, _) => CreateBinaryNode(SelectNotExpression, lhs, rhs)
       case _ => Ok(ANothing))
    else Err(Unhandled(c))
  }

  function VisitCondition(c: Cond, env: Env): Result<Ast, Error>
    decreases HasIdentifier(c), c
  {
    match c
    case List(items) =>
      var asts :- VisitAll(items, env);
      Ok(AList(asts))
    case Condition(inner) => VisitCondition(inner, env)
    case Boolean(value) => Ok(ABoolean(value == "true"))
    case Identifier(name) => VisitReference(c, Resolve(name), env)
    case Str(value) =>
      (match env.substitute(value)
       case Some(text) => Ok(AString(text))
       case None => Err(TemplateError(value)))
    case StrOf(node) => Ok(AStringOf(node))
    case Null => Ok(ANull)
    case Integer(i) => Ok(AInteger(i))
    case IntegerOfBool(b) => Ok(AIntegerOfBool(b))
    case Float(r) => Ok(AFloat(r))
    case SearchType(kind, pattern, options) =>
      var k :- VisitCondition(kind, env);
      var p :- VisitCondition(pattern, env);
      var o :- VisitAll(options, env);
      Ok(ASearch(k, p, o))
    case SelectattrType(key, test, operand) =>
      var k :- VisitCondition(key, env);
      var t :- VisitCondition(test, env);
      var v :- VisitCondition(operand, env);
      Ok(ASelectattr(k, t, v))
    case SelectType(test, operand) =>
      var t :- VisitCondition(test, env);
      var v :- VisitCondition(operand, env);
      Ok(ASelect(t, v))
    case KeywordValue(name, setting) =>
      var n :- VisitCondition(name, env);
      var v :- VisitCondition(setting, env);
      Ok(AKeyword(n, v))
    case OperatorExpression(left, operator, right) =>
      VisitOperator(c, KeyOf(operator), TestOf(operator),
                    if operator == Word("<<") then CheckAssignment(left) else Ok(()),
                    VisitCondition(left, env), VisitCondition(right, env))
    case NegateExpression(negated) => CreateUnaryNode(UnaryKey.NegateExpression, VisitCondition(negated, env))
    case Word(_) => Err(Unhandled(c))
    case Group(_) => Err(Unhandled(c))
  }

  function VisitReference(c: Cond, to: Reference, env: Env): Result<Ast, Error>
    requires c.Identifier?
    decreases HasIdentifier(c), c, 0
  {
    match to
    case ToFact(path) => Ok(AFact(path))
    case ToEvent(path) => Ok(AEvent(path))
    case ToEvents(path) => Ok(AEvents(path))
    case ToFacts(path) => Ok(AFacts(path))
    case ToVars(key) =>
      // process_vars
      (match env.vars(key)
       case None => Err(VarsKeyMissing(key))
       case Some(data) =>
         var node :- ToConditionType(data);
         VisitCondition(node, env))
    case ToNowhere => Err(InvalidIdentifier(c.value))
  }

  // The list comprehension: the first failing element fails the list.
  function VisitAll(items: seq<Cond>, env: Env): (r: Result<seq<Ast>, Error>)
    ensures r.Ok? ==> |r.value| == |items|
    ensures r.Ok? ==> forall i :: 0 <= i < |items| ==> VisitCondition(items[i], env) == Ok(r.value[i])
    ensures r.Ok? <==> forall i :: 0 <= i < |items| ==> VisitCondition(items[i], env).Ok?
    decreases exists i :: 0 <= i < |items| && HasIdentifier(items[i]), items
  {
    if items == [] then Ok([])
    else
      var first :- VisitCondition(items[0], env);
      var rest :- VisitAll(items[1..], env);
      Ok([first] + rest)
  }
}
