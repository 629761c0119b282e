/**
 What the condition parser builds: the node types of a condition, together with
 the two shapes the grammar hands to its parse actions, bare words and groups.
 */
module ConditionTypes {
  import opened Wrappers

  datatype Cond =
    | Word(text: string)
    | Group(items: seq<Cond>)
    | List(items: seq<Cond>)
    | Integer(i: int)
    // An Integer built around a boolean.
    | IntegerOfBool(b: bool)
    | Float(r: real)
    | Str(value: string)
    // A String built around a node instead of text.
    | StrOf(node: Cond)
    | Boolean(value: string)
    | Null
    | Identifier(value: string)
    | KeywordValue(name: Cond, setting: Cond)
    | SearchType(kind: Cond, pattern: Cond, options: seq<Cond>)
    | SelectattrType(key: Cond, test: Cond, operand: Cond)
    | SelectType(test: Cond, operand: Cond)
    | OperatorExpression(left: Cond, operator: Cond, right: Cond)
    | NegateExpression(negated: Cond)
    | Condition(inner: Cond)

  // A value a user passes in under `vars`. DOther is whatever has no condition
  // type, such as a dictionary.
  datatype Data =
    | DInt(i: int)
    | DBool(b: bool)
    | DStr(s: string)
    | DFloat(r: real)
    | DNone
    | DList(items: seq<Data>)
    | DOther

  datatype Error =
    | IndexError
    | NotAGroup
    | SelectattrOperator(test: Cond)
    | SelectOperator(test: Cond)
    | InvalidType
    | InvalidIdentifier(name: string)
    | VarsKeyMissing(key: string)
    | InvalidAssignment(name: string)
    | NoSuchAttribute
    | TemplateError(text: string)
    | Unhandled(node: Cond)

  // The value attribute of a node, when it is text.
  function ValueText(n: Cond): Option<string> {
    match n
    case Str(v) => Some(v)
    case Boolean(v) => Some(v)
    case Identifier(v) => Some(v)
    case Group(_) => Some("")
    case _ => None
  }

  // Nodes below a node that refer to an event, a fact or a variable.
  ghost predicate HasIdentifier(c: Cond)
    decreases c
  {
    match c
    case Identifier(_) => true
    case Word(_) => false
    case Group(items) => exists i :: 0 <= i < |items| && HasIdentifier(items[i])
    case List(items) => exists i :: 0 <= i < |items| && HasIdentifier(items[i])
    case Integer(_) => false
    case IntegerOfBool(_) => false
    case Float(_) => false
    case Str(_) => false
    case StrOf(node) => HasIdentifier(node)
    case Boolean(_) => false
    case Null => false
    case KeywordValue(name, setting) => HasIdentifier(name) || HasIdentifier(setting)
    case SearchType(kind, pattern, options) =>
      || HasIdentifier(kind) || HasIdentifier(pattern)
      || exists i :: 0 <= i < |options| && HasIdentifier(options[i])
    case SelectattrType(key, test, operand) => HasIdentifier(key) || HasIdentifier(test) || HasIdentifier(operand)
    case SelectType(test, operand) => HasIdentifier(test) || HasIdentifier(operand)
    case OperatorExpression(left, operator, right) =>
      HasIdentifier(left) || HasIdentifier(operator) || HasIdentifier(right)
    case NegateExpression(negated) => HasIdentifier(negated)
    case Condition(inner) => HasIdentifier(inner)
  }

  // to_condition_type: integers are asked for before booleans, and a boolean is
  // an integer, so an Integer is built around it.
  function ToConditionType(d: Data): (r: Result<Cond, Error>)
    ensures r.Ok? ==> !HasIdentifier(r.value)
    decreases d
  {
    match d
    case DInt(i) => Ok(Integer(i))
    case DBool(b) => Ok(IntegerOfBool(b))
    case DStr(s) => Ok(Str(s))
    case DFloat(r) => Ok(Float(r))
    case DNone => Ok(Null)
    case DList(items) =>
      var nodes :- ToConditionTypes(d, 0);
      Ok(List(nodes))
    case DOther => Err(InvalidType)
  }

  // The list comprehension: the first failing element fails the list.
  function ToConditionTypes(d: Data, k: nat): (r: Result<seq<Cond>, Error>)
    requires d.DList? && k <= |d.items|
    ensures r.Ok? ==> |r.value| == |d.items| - k
    ensures r.Ok? ==> forall i :: 0 <= i < |r.value| ==> !HasIdentifier(r.value[i])
    ensures r.Ok? ==> forall i :: 0 <= i < |r.value| ==> ToConditionType(d.items[k + i]) == Ok(r.value[i])
    ensures r.Ok? <==> forall i :: k <= i < |d.items| ==> ToConditionType(d.items[i]).Ok?
    decreases d, |d.items| - k
  {
    if k == |d.items| then Ok([])
    else
      assert d.items[k] < d;
      var first :- ToConditionType(d.items[k]);
      var rest :- ToConditionTypes(d, k + 1);
      Ok([first] + rest)
  }
}
