# Rule-variable registration of business-rules, in Dafny

This project models how a host class of the business-rules engine declares its
*rule variables* (`business_rules/variables.py`):

- `rule_variable(field_type, label, options, params)` builds a decorator. Falsy
  `options` and `params` become empty lists when the decorator is built.
- Applying the decorator to a function does four things, in this order. It checks
  that the value kind is a `BaseType` subclass. It turns a dictionary-form
  parameter schema into list form. It validates every schema entry against the
  function. Only after all of that does it tag the function in place with
  `field_type`, `is_rule_variable`, `label`, `options` and `params`.
- The typed helpers (`numeric_`, `string_`, `boolean_`, `select_` and
  `select_multiple_rule_variable`) each fix the value kind. The first three also
  accept bare use, where the `label` argument is the decorated function itself.
- `BaseVariables.get_all_variables` lists the tagged members of a provider class
  in name order.

Files:

- `variables.dfy`: module `Variables`, the model.
- `scenarios.dfy`: module `VariableScenarios`, the provider classes of the
  repository's tests, declared and listed through the model.

Modelling choices:

- A Python function object is the class `Variables.Func`. Its name, its
  `co_varnames` and its cleaned docstring are constants. The five attributes the
  decorator sets are mutable fields, and an absent attribute is `None`.
- The decorator's inner `wrapper` is the method `Wrapper`. It is specified by the
  pure function `Decorate` through the two-state predicate `AppliedAs`. On
  success, `f` carries the attributes `Decorate` computes. On failure, `f` keeps
  every attribute it had.
- `_validate_variable_parameters` is the loop `ValidateParams`. It is proved
  equal to the recursive specification `CheckParams`, where the first bad entry
  decides the error.
- Two collaborators are not part of this model and are passed in as `Env`. One
  is the set of values of the `FIELD_*` constants (`business_rules/fields.py`).
  The other is `fn_name_to_pretty_label` (`business_rules/utils.py`), passed as an
  arbitrary `string -> string`. The scenarios fix only the labels the tests
  compare against, such as `this_is_rule_1` to `This Is Rule 1`; every other
  label is stated as `env.prettyLabel` of the name.
- Raised exceptions are values of `RegError`, returned in a `Result`.

A schema entry's `name` is checked against `func.__code__.co_varnames`
(`business_rules/variables.py:41`), which also holds `self` and the function's
local variables; `Func.varNames` is that whole set.

## Model

| member | source | states |
|---|---|---|
| `Variables.RuleVariable` | business_rules/variables.py:52-56 | the decorator keeps the kind and the label; falsy options and params become empty lists, and anything else is kept as given |
| `Variables.Normalize` | business_rules/variables.py:64-68 | a dictionary schema becomes one list entry per item, in order: the key as `name`, the value as `fieldType`, and the key's pretty label as `label` |
| `Variables.NormalizeOneEntryPerKey` | business_rules/variables.py:64-68 | for a dictionary (distinct keys), a key/value pair is present iff its normalised entry is present, and no two entries share a name |
| `Variables.EntryError` | business_rules/variables.py:39-49 | an entry raises nothing iff it has both keys, its name is a variable name of the function and its field type is a `FIELD_*` value; a present but unknown name raises the unknown-parameter error even when the field type is also bad |
| `Variables.CheckParams` | business_rules/variables.py:37-49 | a schema passes iff every entry is acceptable; otherwise the error is that of an entry all of whose predecessors are acceptable |
| `Variables.ValidateParams` | business_rules/variables.py:30-49 | the loop returns exactly the error `CheckParams` specifies, and no error when no schema is given |
| `Variables.Decorate` | business_rules/variables.py:58-76 | decorating succeeds iff the kind is a `BaseType` subclass and every entry of the normalised schema is acceptable |
| `Variables.KindCheckedFirst` | business_rules/variables.py:60-62 | a kind that is not a `BaseType` subclass fails with that error, whatever the schema holds |
| `Variables.FirstBadEntryDecides` | business_rules/variables.py:64-69 | with a proper kind, the error raised is the error of the first unacceptable entry of the normalised schema |
| `Variables.DefaultsOnSuccess` | business_rules/variables.py:52-76 | on success, the function is tagged as a rule variable of the given kind; options and params default to empty lists; a list schema is stored unchanged and a dictionary schema in normalised form; the label is the given one if truthy, otherwise the pretty label of the function's name |
| `Variables.Wrapper` | business_rules/variables.py:58-76 | the function is returned and tagged exactly as `Decorate` says, or the error is raised and none of its attributes changes; tagged functions carry all five attributes |
| `Variables.RuleVariableWrapper` | business_rules/variables.py:81-85 | a callable label is decorated at once by `rule_variable(kind, params=params)`, so it gets the default label and no options; any other label yields the decorator `rule_variable(kind, label=label, params=params)` |
| `Variables.NumericRuleVariable` | business_rules/variables.py:88-89 | behaves as the wrapper with the kind fixed to `NumericType` |
| `Variables.StringRuleVariable` | business_rules/variables.py:92-93 | behaves as the wrapper with the kind fixed to `StringType` |
| `Variables.BooleanRuleVariable` | business_rules/variables.py:96-97 | behaves as the wrapper with the kind fixed to `BooleanType` |
| `Variables.SelectRuleVariable` | business_rules/variables.py:100-101 | the decorator has kind `SelectType` and otherwise forwards label, options and params to `rule_variable` |
| `Variables.SelectMultipleRuleVariable` | business_rules/variables.py:104-105 | the decorator has kind `SelectMultipleType` and otherwise forwards label, options and params to `rule_variable` |
| `Variables.ExportedKindIdentifiesKind` | business_rules/variables.py:23 | two listed variables export the same `field_type` name iff their functions were tagged with the same value kind |
| `Variables.GetAllVariables` | business_rules/variables.py:18-27 | lists at most one entry per member |
| `Variables.OnlyTaggedListed` | business_rules/variables.py:21-27 | every listed entry is the name, label, kind name, options, docs and params of a member tagged `is_rule_variable` |
| `Variables.EveryTaggedListed` | business_rules/variables.py:21-27 | every member tagged `is_rule_variable` is listed |
| `Variables.ListedInNameOrder` | business_rules/variables.py:19-27 | members in ascending name order, as `inspect.getmembers` returns them, give entries in ascending name order |
| `Variables.VariableNamesDistinct` | business_rules/variables.py:19-27 | no two listed entries share a name |
| `Variables.NoTaggedMembersNoVariables` | business_rules/variables.py:21-27 | a class without tagged members, such as `BaseVariables`, lists nothing |
| `VariableScenarios.VariablesClassScenario` | tests/test_variables_class.py:13-40 | the test's class lists two variables; the second is `this_is_rule_1`, labelled `This Is Rule 1`, of kind `string`, with docs `some docs` and no options; the undecorated method is left out |
| `VariableScenarios.DeclareIntegrationVariables` | tests/test_integration.py:9-28 | the four decorated methods of the integration tests carry the kinds, labels and schemas their decorators give |
| `VariableScenarios.IntegrationScenario` | tests/test_integration.py:145-176 | that class lists exactly `addition`, `foo`, `ten` (labelled `Diez`) and `true_bool`, in this order, with the expected kinds, options, docs and params |
| `VariableScenarios.UnknownParameterScenario` | business_rules/variables.py:39-44 | a dictionary schema naming a variable the function lacks raises the unknown-parameter error; on a function that has that variable, the same schema is stored in normalised form |
| `VariableScenarios.BareUseScenario` | business_rules/variables.py:81-84 | `string_rule_variable` applied to a function directly tags it with the string kind, its pretty name as label, and empty options and params |

## Left out

- Condition evaluation, the typed operators, the rule runner, the action
  registry and the metadata export (`business_rules/engine.py`,
  `operators.py`, `actions.py`, `utils.export_rule_data`) are not part of this
  model.
- `business_rules/__init__.py` only re-exports names and sets a version; there is
  nothing to model.
- `fn_name_to_pretty_label` and the `FIELD_*` constants are not part of this
  model; they are parameters (`Env`).
- Value kinds: only the five `BaseType` subclasses this file imports are modelled,
  plus one case for everything that fails the check. `BaseType` itself and other
  subclasses of it pass the check in the source; they are not modelled.
- Error messages are modelled as the error kind and the values the message
  names. The message text itself is not modelled.
- Schema entries are records with optional `label`, `name`, `fieldType` and
  `options`, and names and field types are strings. An entry that is not a
  dictionary (a `TypeError` in the source) is not modelled.
- Aliasing: one decorator shares its `options` and `params` lists with every
  function it decorates. The model stores values, so later mutation of a shared
  list is not captured.
- Truthiness: only `None` and empty lists, dictionaries and strings are
  modelled as falsy arguments. Other falsy values, such as `0`, are not.
- `inspect.getmembers` and `inspect.getdoc` are not modelled. The member list is
  an input, and its name order is a hypothesis of `ListedInNameOrder`. Docs are
  the already-cleaned docstring. The call through an instance is the same
  function and is not modelled separately.
- Options: the `options` argument and attribute are modelled as a list of
  strings. The source stores any list unchanged, including lists of
  dictionaries; other element types are not modelled.
- `GetAllVariables` requires every member to carry all five attributes when it
  is tagged (`Func.Valid`). A member whose `is_rule_variable` was set by hand
  without the other attributes, which raises `AttributeError` at
  `business_rules/variables.py:22-26`, is not modelled; in the model only the
  decorator tags a function.
- `select_rule_variable` and `select_multiple_rule_variable` take the label as
  text only. The source has no bare-use branch for them.
- The dictionary comprehension at lines 65-68 binds its own `field_type`. The
  model follows Python 3 scoping, where that name does not leak into `wrapper`.
