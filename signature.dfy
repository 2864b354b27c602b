/** The description of a Python callable that the generator consumes, in
    place of the reflection the Python generator performs (`inspect.signature`,
    `__name__`, `__kwdefaults__`, `__doc__`). */
module Signature {
  import opened Wrappers

  /** The five kinds of `inspect.Parameter`. */
  datatype ParamKind =
    | PositionalOnly
    | PositionalOrKeyword
    | VarPositional
    | KeywordOnly
    | VarKeyword

  /** One parameter. `inKwDefaults` says whether the name is a key of the
      callable's `__kwdefaults__` (which holds keyword-only defaults only);
      defaults of positional parameters are not part of the description. */
  datatype Param = Param(name: string, kind: ParamKind, inKwDefaults: bool)

  /** One callable: its `__name__`, its parameters in declaration order and
      its docstring, already normalised (dedented and stripped), if any. */
  datatype Func = Func(name: string, params: seq<Param>, doc: Option<string>)

  /** The `funcs` argument of `generate_extmod`: a single callable or a list. */
  datatype FuncsArg = Single(func: Func) | Many(funcs: seq<Func>)

  /** `callable(funcs)` turns a single callable into a one-element list. */
  function FuncList(a: FuncsArg): (fs: seq<Func>)
    ensures a.Single? ==> fs == [a.func]
    ensures a.Many? ==> fs == a.funcs
  {
    match a
    case Single(f) => [f]
    case Many(fs) => fs
  }
}
