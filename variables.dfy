/**
  Registration of rule variables (business_rules/variables.py).

  A host class declares its rule variables by decorating methods with
  `rule_variable` or one of the typed helpers built on it. Decorating checks
  the declared value kind and the parameter schema and, only when every check
  passes, tags the function object in place with five attributes.
  `get_all_variables` later lists the tagged members of the class in name order.

  Two collaborators of the source are not part of this model and are given as
  parameters instead (see `Env`): the set of `FIELD_*` constants of the
  `fields` module, and `fn_name_to_pretty_label`.
 */
module Variables {

  datatype Option<T> = None | Some(value: T)

  datatype Result<T, E> = Ok(value: T) | Err(error: E)

  /** The value kind handed to `rule_variable`: one of the five `BaseType`
      subclasses, or anything that is not such a class (`shown` is its text). */
  datatype ValueKind =
    | NumericType
    | StringType
    | BooleanType
    | SelectType
    | SelectMultipleType
    | NotBaseType(shown: string)
  {
    predicate IsBaseType() {
      !NotBaseType?
    }
  }

  /** The `name` class attribute of each kind, as exported by `get_all_variables`. */
  function KindName(k: ValueKind): string
    requires k.IsBaseType()
  {
    match k
    case NumericType => "numeric"
    case StringType => "string"
    case BooleanType => "boolean"
    case SelectType => "select"
    case SelectMultipleType => "select_multiple"
  }

  /** The exported name identifies the kind. */
  lemma KindNameIdentifiesKind(a: ValueKind, b: ValueKind)
    requires a.IsBaseType() && b.IsBaseType()
    ensures KindName(a) == KindName(b) <==> a == b
  {
  }

  /** One parameter schema entry, a dictionary in the source. A list-form entry
      may lack any key; `options` is carried through and never inspected. */
  datatype Param = Param(
    displayLabel: Option<string>,
    name: Option<string>,
    fieldType: Option<string>,
    options: Option<seq<string>>)

  /** The `params` argument: absent (`None`), a list of schema entries, or a
      dictionary from parameter name to field type, in insertion order. */
  datatype ParamsArg =
    | NoParams
    | ListParams(entries: seq<Param>)
    | DictParams(items: seq<(string, string)>)

  /** Python truthiness of the `params` argument. */
  predicate FalsyParams(p: ParamsArg) {
    || p.NoParams?
    || (p.ListParams? && p.entries == [])
    || (p.DictParams? && p.items == [])
  }

  /** What `params = params or []` leaves: a list, or a non-empty dictionary. */
  type DefaultedParams = p: ParamsArg | !FalsyParams(p) || p == ListParams([])
    witness ListParams([])

  /** A Python dictionary never holds the same key twice. */
  predicate DistinctKeys(items: seq<(string, string)>) {
    forall i, j :: 0 <= i < j < |items| ==> items[i].0 != items[j].0
  }

  /** Python truthiness of a label: given and not the empty string. */
  predicate TruthyLabel(displayLabel: Option<string>) {
    displayLabel.Some? && displayLabel.value != ""
  }

  /** The collaborators the decorator consults: the values of the `FIELD_*`
      constants, and `fn_name_to_pretty_label`. */
  datatype Env = Env(fieldTypes: set<string>, prettyLabel: string -> string)

  /** The `AssertionError`s of the decorator, with the values their messages
      name, and the `KeyError` of an entry that lacks `name` or `fieldType`. */
  datatype RegError =
    | NotBaseTypeError(shown: string)
    | MissingKey(key: string)
    | UnknownParamName(param: string, variable: string)
    | UnknownFieldType(fieldType: string, variable: string, param: string)

  /** The closure `rule_variable` returns, holding its defaulted arguments. */
  datatype Decorator = Decorator(
    kind: ValueKind,
    displayLabel: Option<string>,
    options: seq<string>,
    params: DefaultedParams)

  /** `rule_variable(field_type, label, options, params)`: defaults `options`
      and `params` to empty lists when falsy; no check happens yet. */
  function RuleVariable(kind: ValueKind, displayLabel: Option<string>, options: Option<seq<string>>,
                        params: ParamsArg): (d: Decorator)
    ensures d.kind == kind && d.displayLabel == displayLabel
    ensures options.Some? ==> d.options == options.value
    ensures options.None? ==> d.options == []
    ensures FalsyParams(params) ==> d.params == ListParams([])
    ensures !FalsyParams(params) ==> d.params == params
  {
    Decorator(kind, displayLabel,
              if options.Some? then options.value else [],
              if FalsyParams(params) then ListParams([]) else params)
  }

  /** The dictionary form of a schema, turned into list form: one entry per
      key, in the dictionary's order. */
  function Normalize(items: seq<(string, string)>, prettyLabel: string -> string): (ps: seq<Param>)
    ensures |ps| == |items|
    ensures forall i :: 0 <= i < |items| ==>
      ps[i] == Param(Some(prettyLabel(items[i].0)), Some(items[i].0), Some(items[i].1), None)
  {
    if items == [] then []
    else [Param(Some(prettyLabel(items[0].0)), Some(items[0].0), Some(items[0].1), None)]
         + Normalize(items[1..], prettyLabel)
  }

  /** Every key of the dictionary yields exactly one entry named after it,
      whose field type is that key's value and whose label is its pretty label. */
  lemma NormalizeOneEntryPerKey(items: seq<(string, string)>, prettyLabel: string -> string)
    requires DistinctKeys(items)
    ensures forall k, v :: (k, v) in items <==>
      Param(Some(prettyLabel(k)), Some(k), Some(v), None) in Normalize(items, prettyLabel)
    ensures forall i, j :: 0 <= i < j < |items| ==>
      Normalize(items, prettyLabel)[i].name != Normalize(items, prettyLabel)[j].name
  {
    var ps := Normalize(items, prettyLabel);
    forall k, v ensures (k, v) in items <==> Param(Some(prettyLabel(k)), Some(k), Some(v), None) in ps {
      if (k, v) in items {
        var i :| 0 <= i < |items| && items[i] == (k, v);
        assert ps[i] == Param(Some(prettyLabel(k)), Some(k), Some(v), None);
      }
      if Param(Some(prettyLabel(k)), Some(k), Some(v), None) in ps {
        var i :| 0 <= i < |ps| && ps[i] == Param(Some(prettyLabel(k)), Some(k), Some(v), None);
        assert items[i] == (k, v);
      }
    }
  }

  /** The schema as the decorator validates and stores it: a dictionary is
      normalised, a list passes through unchanged. */
  function ParamsList(params: DefaultedParams, prettyLabel: string -> string): seq<Param> {
    if params.DictParams? then Normalize(params.items, prettyLabel) else params.entries
  }

  /** An entry is acceptable when it has both keys, names one of the function's
      variable names and carries one of the field-type constants. */
  predicate ParamOk(p: Param, varNames: set<string>, fieldTypes: set<string>) {
    && p.name.Some? && p.fieldType.Some?
    && p.name.value in varNames
    && p.fieldType.value in fieldTypes
  }

  /** The error one entry raises, if any: the keys are read first (`name`
      before `fieldType`), then the name is checked, then the field type. */
  function EntryError(p: Param, variable: string, varNames: set<string>, fieldTypes: set<string>)
    : (r: Option<RegError>)
    ensures r.None? <==> ParamOk(p, varNames, fieldTypes)
    ensures p.name.Some? && p.fieldType.Some? && p.name.value !in varNames ==>
      r == Some(UnknownParamName(p.name.value, variable))
  {
    if p.name.None? then Some(MissingKey("name"))
    else if p.fieldType.None? then Some(MissingKey("fieldType"))
    else if p.name.value !in varNames then Some(UnknownParamName(p.name.value, variable))
    else if p.fieldType.value !in fieldTypes then
      Some(UnknownFieldType(p.fieldType.value, variable, p.name.value))
    else None
  }

  /** The outcome of validating a schema: entries are examined in list order
      and the first bad one decides the error. */
  function CheckParams(ps: seq<Param>, variable: string, varNames: set<string>, fieldTypes: set<string>)
    : (r: Option<RegError>)
    ensures r.None? <==> forall i :: 0 <= i < |ps| ==> ParamOk(ps[i], varNames, fieldTypes)
    ensures r.Some? ==> exists i :: (0 <= i < |ps|
      && (forall j :: 0 <= j < i ==> ParamOk(ps[j], varNames, fieldTypes))
      && r == EntryError(ps[i], variable, varNames, fieldTypes))
  {
    if ps == [] then None
    else match EntryError(ps[0], variable, varNames, fieldTypes)
      case Some(e) => Some(e)
      case None =>
        var rest := CheckParams(ps[1..], variable, varNames, fieldTypes);
        assert forall i :: 1 <= i < |ps| ==> ps[i] == ps[1..][i - 1];
        rest
  }

  /** The five attributes the decorator sets on a function object; an
      attribute that is absent is `None` (`is_rule_variable` reads as false). */
  datatype Tags = Tags(
    fieldType: Option<ValueKind>,
    isRuleVariable: bool,
    displayLabel: Option<string>,
    options: Option<seq<string>>,
    params: Option<seq<Param>>)

  /** A Python function object: its name, the names in `co_varnames` (its
      parameters, `self` included, and its local variables), its cleaned
      docstring, and the attributes the decorator may set. */
  class Func {
    const name: string
    const varNames: set<string>
    const docs: Option<string>
    var fieldType: Option<ValueKind>
    var isRuleVariable: bool
    var displayLabel: Option<string>
    var options: Option<seq<string>>
    var params: Option<seq<Param>>

    /** A freshly defined function carries none of the attributes. */
    constructor (name: string, varNames: set<string>, docs: Option<string>)
      ensures this.name == name && this.varNames == varNames && this.docs == docs
      ensures Attributes() == Tags(None, false, None, None, None)
      ensures Valid()
    {
      this.name := name;
      this.varNames := varNames;
      this.docs := docs;
      fieldType := None;
      isRuleVariable := false;
      displayLabel := None;
      options := None;
      params := None;
    }

    function Attributes(): Tags
      reads this
    {
      Tags(fieldType, isRuleVariable, displayLabel, options, params)
    }

    /** A function tagged as a rule variable carries all five attributes. */
    predicate Valid()
      reads this
    {
      isRuleVariable ==>
        && fieldType.Some? && fieldType.value.IsBaseType()
        && displayLabel.Some? && options.Some? && params.Some?
    }
  }

  /** `_validate_variable_parameters(func, params)`: returns the error it
      raises, or `None` when it returns normally. */
  method ValidateParams(f: Func, params: Option<seq<Param>>, fieldTypes: set<string>)
    returns (err: Option<RegError>)
    ensures params.None? ==> err.None?
    ensures params.Some? ==> err == CheckParams(params.value, f.name, f.varNames, fieldTypes)
  {
    if params.None? {
      return None;
    }
    var ps := params.value;
    var i := 0;
    while i < |ps|
      invariant 0 <= i <= |ps|
      invariant CheckParams(ps, f.name, f.varNames, fieldTypes)
             == CheckParams(ps[i..], f.name, f.varNames, fieldTypes)
    {
      assert ps[i..][0] == ps[i] && ps[i..][1..] == ps[i + 1..];
      var param := ps[i];
      if param.name.None? {
        return Some(MissingKey("name"));
      }
      if param.fieldType.None? {
        return Some(MissingKey("fieldType"));
      }
      var paramName, fieldType := param.name.value, param.fieldType.value;
      if paramName !in f.varNames {
        return Some(UnknownParamName(paramName, f.name));
      }
      if fieldType !in fieldTypes {
        return Some(UnknownFieldType(fieldType, f.name, paramName));
      }
      i := i + 1;
    }
    assert ps[i..] == [];
    return None;
  }

  /** What applying the decorator to a function named `name` with variable
      names `varNames` does: either the error it raises, or the attributes it
      sets. */
  function Decorate(d: Decorator, name: string, varNames: set<string>, env: Env)
    : (r: Result<Tags, RegError>)
    ensures r.Ok? <==>
      && d.kind.IsBaseType()
      && forall p :: p in ParamsList(d.params, env.prettyLabel) ==> ParamOk(p, varNames, env.fieldTypes)
  {
    if !d.kind.IsBaseType() then Err(NotBaseTypeError(d.kind.shown))
    else
      var ps := ParamsList(d.params, env.prettyLabel);
      match CheckParams(ps, name, varNames, env.fieldTypes)
      case Some(e) => Err(e)
      case None =>
        Ok(Tags(Some(d.kind), true,
                Some(if TruthyLabel(d.displayLabel) then d.displayLabel.value else env.prettyLabel(name)),
                Some(d.options), Some(ps)))
  }

  /** The kind is checked before the schema: a kind that is not a `BaseType`
      subclass fails with that error whatever the schema holds. */
  lemma KindCheckedFirst(d: Decorator, name: string, varNames: set<string>, env: Env)
    requires !d.kind.IsBaseType()
    ensures Decorate(d, name, varNames, env) == Err(NotBaseTypeError(d.kind.shown))
  {
  }

  /** With a proper kind, decorating fails with the error of the first bad
      entry of the (normalised) schema. */
  lemma FirstBadEntryDecides(d: Decorator, name: string, varNames: set<string>, env: Env, i: nat)
    requires d.kind.IsBaseType()
    requires i < |ParamsList(d.params, env.prettyLabel)|
    requires !ParamOk(ParamsList(d.params, env.prettyLabel)[i], varNames, env.fieldTypes)
    requires forall j :: 0 <= j < i ==> ParamOk(ParamsList(d.params, env.prettyLabel)[j], varNames, env.fieldTypes)
    ensures Decorate(d, name, varNames, env)
         == Err(EntryError(ParamsList(d.params, env.prettyLabel)[i], name, varNames, env.fieldTypes).value)
  {
    var ps := ParamsList(d.params, env.prettyLabel);
    var r := CheckParams(ps, name, varNames, env.fieldTypes);
    assert r.Some?;
    var k :| 0 <= k < |ps|
      && (forall j :: 0 <= j < k ==> ParamOk(ps[j], varNames, env.fieldTypes))
      && r == EntryError(ps[k], name, varNames, env.fieldTypes);
  }

  /** On success, `rule_variable(kind, label, options, params)` applied to a
      function tags it as a rule variable of that kind, with the defaults:
      an empty options list and schema when none was given, the pretty
      label of the function's name when the label is falsy, and a list-form
      schema stored unchanged. */
  lemma DefaultsOnSuccess(kind: ValueKind, displayLabel: Option<string>, options: Option<seq<string>>,
                          params: ParamsArg, name: string, varNames: set<string>, env: Env)
    requires Decorate(RuleVariable(kind, displayLabel, options, params), name, varNames, env).Ok?
    ensures var t := Decorate(RuleVariable(kind, displayLabel, options, params), name, varNames, env).value;
      && t.isRuleVariable
      && t.fieldType == Some(kind) && kind.IsBaseType()
      && t.options == Some(if options.Some? then options.value else [])
      && (FalsyParams(params) ==> t.params == Some([]))
      && (params.ListParams? ==> t.params == Some(params.entries))
      && (params.DictParams? ==> t.params == Some(Normalize(params.items, env.prettyLabel)))
      && (TruthyLabel(displayLabel) ==> t.displayLabel == displayLabel)
      && (!TruthyLabel(displayLabel) ==> t.displayLabel == Some(env.prettyLabel(name)))
  {
  }

  /** The decorator applied to `f` left `f` and returned `res` as `Decorate`
      says: on success `f` is returned with the five attributes set, on
      failure the error is raised and `f` keeps every attribute it had. */
  twostate predicate AppliedAs(d: Decorator, f: Func, new res: Result<Func, RegError>, env: Env)
    reads f
  {
    match Decorate(d, f.name, f.varNames, env)
    case Ok(tags) => res == Ok(f) && f.Attributes() == tags
    case Err(e) => res == Err(e) && f.Attributes() == old(f.Attributes())
  }

  /** The inner `wrapper` of `rule_variable`: checks the kind, normalises the
      schema, validates it, and only then tags `func` in place. */
  method Wrapper(d: Decorator, f: Func, env: Env) returns (res: Result<Func, RegError>)
    modifies f
    ensures AppliedAs(d, f, res, env)
    ensures res.Ok? ==> f.Valid() && f.isRuleVariable
    ensures old(f.Valid()) ==> f.Valid()
  {
    if !d.kind.IsBaseType() {
      return Err(NotBaseTypeError(d.kind.shown));
    }
    var ps := ParamsList(d.params, env.prettyLabel);
    var err := ValidateParams(f, Some(ps), env.fieldTypes);
    if err.Some? {
      return Err(err.value);
    }
    f.fieldType := Some(d.kind);
    f.isRuleVariable := true;
    f.displayLabel := Some(if TruthyLabel(d.displayLabel) then d.displayLabel.value else env.prettyLabel(f.name));
    f.options := Some(d.options);
    f.params := Some(ps);
    return Ok(f);
  }

  /** The `label` argument of the typed helpers: absent, a text, or the
      decorated function itself when the helper is used without parentheses. */
  datatype LabelArg = NoLabel | Text(text: string) | Callable(target: Func)

  function LabelText(labelArg: LabelArg): Option<string> {
    if labelArg.Text? then Some(labelArg.text) else None
  }

  /** What `_rule_variable_wrapper` hands back: a decorator, or (bare use) the
      outcome of decorating the function at once. */
  datatype Returned = ReturnedDecorator(decorator: Decorator) | ReturnedFunc(result: Result<Func, RegError>)

  /** A callable label is the function to decorate, with the default label and
      no options; any other label is forwarded to `rule_variable`. */
  twostate predicate WrapperOutcome(kind: ValueKind, labelArg: LabelArg, params: ParamsArg, new r: Returned, env: Env)
    reads if labelArg.Callable? then {labelArg.target} else {}
  {
    if labelArg.Callable? then
      r.ReturnedFunc? && AppliedAs(RuleVariable(kind, None, None, params), labelArg.target, r.result, env)
    else
      r == ReturnedDecorator(RuleVariable(kind, LabelText(labelArg), None, params))
  }

  /** `_rule_variable_wrapper(field_type, label, params)`. */
  method RuleVariableWrapper(kind: ValueKind, labelArg: LabelArg, params: ParamsArg, env: Env)
    returns (r: Returned)
    modifies if labelArg.Callable? then {labelArg.target} else {}
    ensures WrapperOutcome(kind, labelArg, params, r, env)
  {
    if labelArg.Callable? {
      var res := Wrapper(RuleVariable(kind, None, None, params), labelArg.target, env);
      r := ReturnedFunc(res);
    } else {
      r := ReturnedDecorator(RuleVariable(kind, LabelText(labelArg), None, params));
    }
  }

  /** `numeric_rule_variable(label, params)`. */
  method NumericRuleVariable(labelArg: LabelArg, params: ParamsArg, env: Env) returns (r: Returned)
    modifies if labelArg.Callable? then {labelArg.target} else {}
    ensures WrapperOutcome(NumericType, labelArg, params, r, env)
  {
    r := RuleVariableWrapper(NumericType, labelArg, params, env);
  }

  /** `string_rule_variable(label, params)`. */
  method StringRuleVariable(labelArg: LabelArg, params: ParamsArg, env: Env) returns (r: Returned)
    modifies if labelArg.Callable? then {labelArg.target} else {}
    ensures WrapperOutcome(StringType, labelArg, params, r, env)
  {
    r := RuleVariableWrapper(StringType, labelArg, params, env);
  }

  /** `boolean_rule_variable(label, params)`. */
  method BooleanRuleVariable(labelArg: LabelArg, params: ParamsArg, env: Env) returns (r: Returned)
    modifies if labelArg.Callable? then {labelArg.target} else {}
    ensures WrapperOutcome(BooleanType, labelArg, params, r, env)
  {
    r := RuleVariableWrapper(BooleanType, labelArg, params, env);
  }

  /** `select_rule_variable(label, options, params)`: no bare use; the kind is
      fixed and everything else goes to `rule_variable`. */
  function SelectRuleVariable(displayLabel: Option<string>, options: Option<seq<string>>, params: ParamsArg)
    : (d: Decorator)
    ensures d.kind == SelectType && d.displayLabel == displayLabel
    ensures d == RuleVariable(SelectType, displayLabel, options, params)
  {
    RuleVariable(SelectType, displayLabel, options, params)
  }

  /** `select_multiple_rule_variable(label, options, params)`. */
  function SelectMultipleRuleVariable(displayLabel: Option<string>, options: Option<seq<string>>, params: ParamsArg)
    : (d: Decorator)
    ensures d.kind == SelectMultipleType && d.displayLabel == displayLabel
    ensures d == RuleVariable(SelectMultipleType, displayLabel, options, params)
  {
    RuleVariable(SelectMultipleType, displayLabel, options, params)
  }

  /** One attribute of a provider class, as `inspect.getmembers` lists it. */
  datatype Member = Member(name: string, obj: Func)

  /** One entry of `get_all_variables`. */
  datatype VariableInfo = VariableInfo(
    name: string,
    displayLabel: string,
    fieldType: string,
    options: seq<string>,
    docs: Option<string>,
    params: seq<Param>)

  function InfoOf(m: Member): VariableInfo
    requires m.obj.isRuleVariable && m.obj.Valid()
    reads m.obj
  {
    VariableInfo(m.name, m.obj.displayLabel.value, KindName(m.obj.fieldType.value),
                 m.obj.options.value, m.obj.docs, m.obj.params.value)
  }

  /** The exported `field_type` of two listed variables agrees exactly when
      their functions were tagged with the same value kind. */
  lemma ExportedKindIdentifiesKind(a: Member, b: Member)
    requires a.obj.isRuleVariable && a.obj.Valid()
    requires b.obj.isRuleVariable && b.obj.Valid()
    ensures InfoOf(a).fieldType == InfoOf(b).fieldType <==> a.obj.fieldType == b.obj.fieldType
  {
    KindNameIdentifiesKind(a.obj.fieldType.value, b.obj.fieldType.value);
  }

  /** Python's ordering of strings: lexicographic by code point. */
  predicate NameLess(a: string, b: string) {
    b != [] && (a == [] || a[0] < b[0] || (a[0] == b[0] && NameLess(a[1..], b[1..])))
  }

  /** No string comes before itself, so strictly ordered names are distinct. */
  lemma {:induction false} NameLessIrreflexive(a: string)
    ensures !NameLess(a, a)
  {
    if a != [] {
      NameLessIrreflexive(a[1..]);
    }
  }

  /** The order `inspect.getmembers` returns: ascending by name. */
  predicate SortedByName(ms: seq<Member>) {
    forall i, j :: 0 <= i < j < |ms| ==> NameLess(ms[i].name, ms[j].name)
  }

  predicate InfoSortedByName(vs: seq<VariableInfo>) {
    forall i, j :: 0 <= i < j < |vs| ==> NameLess(vs[i].name, vs[j].name)
  }

  /** `BaseVariables.get_all_variables`: the members tagged as rule
      variables, in the order of `ms`, each described by name, label, kind
      name, options, docs and schema. */
  function GetAllVariables(ms: seq<Member>): (vs: seq<VariableInfo>)
    requires forall i :: 0 <= i < |ms| ==> ms[i].obj.Valid()
    reads set m | m in ms :: m.obj
    ensures |vs| <= |ms|
  {
    if ms == [] then []
    else
      var rest := GetAllVariables(ms[1..]);
      if ms[0].obj.isRuleVariable then [InfoOf(ms[0])] + rest else rest
  }

  /** Only tagged members are listed, each with its own attributes. */
  lemma {:induction false} OnlyTaggedListed(ms: seq<Member>)
    requires forall i :: 0 <= i < |ms| ==> ms[i].obj.Valid()
    ensures forall v :: v in GetAllVariables(ms) ==>
      exists i :: 0 <= i < |ms| && ms[i].obj.isRuleVariable && v == InfoOf(ms[i])
  {
    if ms != [] {
      OnlyTaggedListed(ms[1..]);
      forall v | v in GetAllVariables(ms)
        ensures exists i :: 0 <= i < |ms| && ms[i].obj.isRuleVariable && v == InfoOf(ms[i])
      {
        if !(ms[0].obj.isRuleVariable && v == InfoOf(ms[0])) {
          assert v in GetAllVariables(ms[1..]);
          var i :| 0 <= i < |ms[1..]| && ms[1..][i].obj.isRuleVariable && v == InfoOf(ms[1..][i]);
          assert ms[1..][i] == ms[i + 1];
        }
      }
    }
  }

  /** Every tagged member is listed. */
  lemma {:induction false} EveryTaggedListed(ms: seq<Member>)
    requires forall i :: 0 <= i < |ms| ==> ms[i].obj.Valid()
    ensures forall i :: 0 <= i < |ms| && ms[i].obj.isRuleVariable ==> InfoOf(ms[i]) in GetAllVariables(ms)
  {
    if ms != [] {
      EveryTaggedListed(ms[1..]);
      forall i | 1 <= i < |ms| && ms[i].obj.isRuleVariable
        ensures InfoOf(ms[i]) in GetAllVariables(ms)
      {
        assert ms[i] == ms[1..][i - 1];
      }
    }
  }

  /** Members listed by name in ascending order give entries in ascending
      name order. */
  lemma {:induction false} ListedInNameOrder(ms: seq<Member>)
    requires forall i :: 0 <= i < |ms| ==> ms[i].obj.Valid()
    requires SortedByName(ms)
    ensures InfoSortedByName(GetAllVariables(ms))
  {
    if ms != [] {
      var rest := GetAllVariables(ms[1..]);
      ListedInNameOrder(ms[1..]);
      OnlyTaggedListed(ms[1..]);
      if ms[0].obj.isRuleVariable {
        forall j | 0 <= j < |rest| ensures NameLess(ms[0].name, rest[j].name) {
          assert rest[j] in rest;
          var i :| 0 <= i < |ms[1..]| && ms[1..][i].obj.isRuleVariable && rest[j] == InfoOf(ms[1..][i]);
          assert ms[1..][i] == ms[i + 1];
        }
      }
    }
  }

  /** A class with no tagged member (such as `BaseVariables` itself) has no
      rule variables, and untagged members never show up. */
  lemma NoTaggedMembersNoVariables(ms: seq<Member>)
    requires forall i :: 0 <= i < |ms| ==> ms[i].obj.Valid() && !ms[i].obj.isRuleVariable
    ensures GetAllVariables(ms) == []
  {
  }

  /** Sorted input gives entries with distinct names. */
  lemma VariableNamesDistinct(ms: seq<Member>, j: nat, k: nat)
    requires forall i :: 0 <= i < |ms| ==> ms[i].obj.Valid()
    requires SortedByName(ms)
    requires j < k < |GetAllVariables(ms)|
    ensures GetAllVariables(ms)[j].name != GetAllVariables(ms)[k].name
  {
    ListedInNameOrder(ms);
    NameLessIrreflexive(GetAllVariables(ms)[j].name);
  }
}
