/**
  Provider classes from the repository's tests, declared through the model of
  the decorators and listed through the model of `get_all_variables`.

  Each scenario takes the two collaborators as an `Env`. It requires that
  `FIELD_NUMERIC` is the string "numeric" and fixes the pretty labels the
  tests compare against; any other label is stated through `env.prettyLabel`.
 */
module VariableScenarios {
  import opened Variables

  /** The schema `[{fieldType: FIELD_NUMERIC, name: "x", label: "X"}, {... "y" ...}]`. */
  function NumericXY(): seq<Param> {
    [Param(Some("X"), Some("x"), Some("numeric"), None),
     Param(Some("Y"), Some("y"), Some("numeric"), None)]
  }

  /** `SomeVariables` of the variables-class tests: a string variable with a
      docstring, an undecorated method, and a boolean variable with a list-form
      schema; only the two decorated methods are listed, in name order. */
  method VariablesClassScenario(env: Env) returns (vars: seq<VariableInfo>)
    requires "numeric" in env.fieldTypes
    requires env.prettyLabel("this_is_rule_1") == "This Is Rule 1"
    ensures |vars| == 2
    ensures vars[0] == VariableInfo("compare", env.prettyLabel("compare"), "boolean", [], None, NumericXY())
    ensures vars[1] == VariableInfo("this_is_rule_1", "This Is Rule 1", "string", [], Some("some docs"), [])
  {
    var rule1 := new Func("this_is_rule_1", {"self"}, Some("some docs"));
    var r1 := Wrapper(RuleVariable(StringType, None, None, NoParams), rule1, env);
    assert rule1.Attributes() == Tags(Some(StringType), true, Some("This Is Rule 1"), Some([]), Some([]));
    var returned := BooleanRuleVariable(NoLabel, ListParams(NumericXY()), env);
    assert CheckParams(NumericXY(), "compare", {"self", "x", "y"}, env.fieldTypes) == None;
    var compare := Declare("compare", {"self", "x", "y"}, returned.decorator, env);
    var nonRule := new Func("non_rule", {"self"}, None);
    var members := [compare, Member("non_rule", nonRule), Member("this_is_rule_1", rule1)];
    assert members[1..] == [Member("non_rule", nonRule), Member("this_is_rule_1", rule1)];
    assert members[1..][1..] == [Member("this_is_rule_1", rule1)];
    vars := GetAllVariables(members);
    assert vars == [InfoOf(members[0])] + GetAllVariables(members[1..]);
    assert GetAllVariables(members[1..]) == GetAllVariables(members[1..][1..]);
    assert GetAllVariables(members[1..][1..]) == [InfoOf(members[2])] + GetAllVariables(members[1..][1..][1..]);
  }

  /** Defines a method without a docstring and applies `d` to it. */
  method Declare(name: string, varNames: set<string>, d: Decorator, env: Env) returns (m: Member)
    requires Decorate(d, name, varNames, env).Ok?
    ensures fresh(m.obj) && m.name == name && m.obj.Valid() && m.obj.docs == None
    ensures m.obj.Attributes() == Decorate(d, name, varNames, env).value
  {
    var f := new Func(name, varNames, None);
    var r := Wrapper(d, f, env);
    m := Member(name, f);
  }

  /** The four decorated methods of `SomeVariables` in the integration tests,
      in name order, each tagged as its decorator says. */
  method DeclareIntegrationVariables(env: Env) returns (members: seq<Member>)
    requires "numeric" in env.fieldTypes
    requires env.prettyLabel("addition") == "Addition"
    requires env.prettyLabel("foo") == "Foo"
    requires env.prettyLabel("true_bool") == "True Bool"
    ensures |members| == 4
    ensures forall i :: 0 <= i < 4 ==> members[i].obj.Valid() && members[i].obj.docs == None
    ensures members[0].name == "addition"
    ensures members[0].obj.Attributes() == Tags(Some(NumericType), true, Some("Addition"), Some([]), Some(NumericXY()))
    ensures members[1].name == "foo"
    ensures members[1].obj.Attributes() == Tags(Some(StringType), true, Some("Foo"), Some([]), Some([]))
    ensures members[2].name == "ten"
    ensures members[2].obj.Attributes() == Tags(Some(NumericType), true, Some("Diez"), Some([]), Some([]))
    ensures members[3].name == "true_bool"
    ensures members[3].obj.Attributes() == Tags(Some(BooleanType), true, Some("True Bool"), Some([]), Some([]))
  {
    var d := StringRuleVariable(NoLabel, NoParams, env);
    var foo := Declare("foo", {"self"}, d.decorator, env);
    d := NumericRuleVariable(Text("Diez"), NoParams, env);
    var ten := Declare("ten", {"self"}, d.decorator, env);
    d := BooleanRuleVariable(NoLabel, NoParams, env);
    var trueBool := Declare("true_bool", {"self"}, d.decorator, env);
    d := NumericRuleVariable(NoLabel, ListParams(NumericXY()), env);
    assert CheckParams(NumericXY(), "addition", {"self", "x", "y"}, env.fieldTypes) == None;
    var addition := Declare("addition", {"self", "x", "y"}, d.decorator, env);
    members := [addition, foo, ten, trueBool];
  }

  /** `get_all_variables` on that class lists exactly the four variables the
      integration tests expect, by name. */
  method IntegrationScenario(env: Env) returns (vars: seq<VariableInfo>)
    requires "numeric" in env.fieldTypes
    requires env.prettyLabel("addition") == "Addition"
    requires env.prettyLabel("foo") == "Foo"
    requires env.prettyLabel("true_bool") == "True Bool"
    ensures vars == [
      VariableInfo("addition", "Addition", "numeric", [], None, NumericXY()),
      VariableInfo("foo", "Foo", "string", [], None, []),
      VariableInfo("ten", "Diez", "numeric", [], None, []),
      VariableInfo("true_bool", "True Bool", "boolean", [], None, [])]
  {
    var members := DeclareIntegrationVariables(env);
    vars := GetAllVariables(members);
    assert vars == [InfoOf(members[0])] + GetAllVariables(members[1..]);
    assert members[1..][0] == members[1] && members[1..][1..] == members[2..];
    assert GetAllVariables(members[1..]) == [InfoOf(members[1])] + GetAllVariables(members[2..]);
    assert members[2..][0] == members[2] && members[2..][1..] == members[3..];
    assert GetAllVariables(members[2..]) == [InfoOf(members[2])] + GetAllVariables(members[3..]);
  }

  /** A dictionary-form schema naming a variable the function does not have:
      the decorator raises the unknown-parameter error and the function is
      left untagged, while the same schema on a function that has the name is
      normalised and stored. */
  method UnknownParameterScenario(env: Env) returns (bad: Result<Func, RegError>, good: Result<Func, RegError>)
    requires "numeric" in env.fieldTypes
    ensures bad == Err(UnknownParamName("z", "total"))
    ensures good.Ok? && good.value.isRuleVariable
    ensures good.value.params == Some([Param(Some(env.prettyLabel("z")), Some("z"), Some("numeric"), None)])
  {
    var total := new Func("total", {"self", "x"}, None);
    var scaled := new Func("scaled", {"self", "z"}, None);
    var d := RuleVariable(NumericType, None, None, DictParams([("z", "numeric")]));
    bad := Wrapper(d, total, env);
    assert !total.isRuleVariable;
    good := Wrapper(d, scaled, env);
    assert Normalize([("z", "numeric")], env.prettyLabel) == [Param(Some(env.prettyLabel("z")), Some("z"), Some("numeric"), None)];
  }

  /** Bare use: `@string_rule_variable` without parentheses decorates the
      function at once, with the pretty label of its name. */
  method BareUseScenario(env: Env) returns (r: Returned)
    requires env.prettyLabel("foo") == "Foo"
    ensures r.ReturnedFunc? && r.result.Ok?
    ensures r.result.value.Attributes() == Tags(Some(StringType), true, Some("Foo"), Some([]), Some([]))
  {
    var foo := new Func("foo", {"self"}, None);
    r := StringRuleVariable(Callable(foo), NoParams, env);
  }
}
