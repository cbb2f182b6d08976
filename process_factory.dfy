/**
 * Process-level helpers of the Nextflow translator
 * (janis_core/translations/nextflow/process/factory.py): the optional imports and
 * functions blocks, the argument list of a Python code tool's script, and the name
 * and inputs of a code-tool process.  Entity tracing and the data-source registry are
 * not part of this model; they are parameters.
 */
module ProcessFactory {
  import opened Wrappers
  import opened Text
  import J = JanisTypes
  import C = CmdtoolOutputs
  import P = ParsingProcessInputs
  import TaskInputs

  datatype ImportsBlock = ImportsBlock(imports: seq<string>, declarations: seq<string>)

  /** The functions a process may need; only the primary-files helper exists. */
  datatype ProcessFunction = GetPrimaryFiles
  datatype FunctionsBlock = FunctionsBlock(funcs: seq<ProcessFunction>)

  /** should_add_json_slurper: some output's selector uses ReadJsonOperator. */
  method ShouldAddJsonSlurper(selectors: seq<C.Collector>, traceEntityCounts: C.Collector -> set<string>)
    returns (r: bool)
    ensures r <==> exists k :: 0 <= k < |selectors| && "ReadJsonOperator" in traceEntityCounts(selectors[k])
  {
    var k := 0;
    while k < |selectors|
      invariant 0 <= k <= |selectors|
      invariant forall j :: 0 <= j < k ==> "ReadJsonOperator" !in traceEntityCounts(selectors[j])
    {
      var entityCounts := traceEntityCounts(selectors[k]);
      if "ReadJsonOperator" in entityCounts {
        return true;
      }
      k := k + 1;
    }
    return false;
  }

  /** gen_imports_for_process: the JsonSlurper import and declaration, or no block at all. */
  method GenImportsForProcess(selectors: seq<C.Collector>, traceEntityCounts: C.Collector -> set<string>)
    returns (r: Option<ImportsBlock>)
    ensures r.Some? <==> exists k :: 0 <= k < |selectors| && "ReadJsonOperator" in traceEntityCounts(selectors[k])
    ensures r.Some? ==> r.value == ImportsBlock(["groovy.json.JsonSlurper"], ["jsonSlurper = new JsonSlurper()"])
  {
    var imports: seq<string> := [];
    var declarations: seq<string> := [];
    var add := ShouldAddJsonSlurper(selectors, traceEntityCounts);
    if add {
      imports := imports + ["groovy.json.JsonSlurper"];
      declarations := declarations + ["jsonSlurper = new JsonSlurper()"];
    }
    if |imports| > 0 {
      r := Some(ImportsBlock(imports, declarations));
    } else {
      r := None;
    }
  }

  /** should_add_get_primary_files: some tool input is an array of files with secondaries. */
  method ShouldAddGetPrimaryFiles(inputTypes: seq<J.DataType>) returns (r: bool)
    ensures r <==> exists k :: 0 <= k < |inputTypes| && J.IsSecondaryArrayType(inputTypes[k])
  {
    var k := 0;
    while k < |inputTypes|
      invariant 0 <= k <= |inputTypes|
      invariant forall j :: 0 <= j < k ==> !J.IsSecondaryArrayType(inputTypes[j])
    {
      if J.IsSecondaryArrayType(inputTypes[k]) {
        return true;
      }
      k := k + 1;
    }
    return false;
  }

  /** gen_functions_for_process: the get_primary_files helper, or no block at all. */
  method GenFunctionsForProcess(inputTypes: seq<J.DataType>) returns (r: Option<FunctionsBlock>)
    ensures r.Some? <==> exists k :: 0 <= k < |inputTypes| && J.IsSecondaryArrayType(inputTypes[k])
    ensures r.Some? ==> r.value == FunctionsBlock([GetPrimaryFiles])
  {
    var funcs: seq<ProcessFunction> := [];
    var add := ShouldAddGetPrimaryFiles(inputTypes);
    if add {
      funcs := funcs + [GetPrimaryFiles];
    }
    if |funcs| > 0 {
      r := Some(FunctionsBlock(funcs));
    } else {
      r := None;
    }
  }

  /** An input of a Python code tool: its tag, id, type and default (rendered as text). */
  datatype PyInput = PyInput(tag: string, id: string, intype: J.DataType, default: Option<string>)

  /** What data_sources.get_variable returns: one name or a list of names. */
  datatype VariableName = OneName(name: string) | NameList(names: seq<string>)

  /** The scope's data sources as prepare_script_for_python_code_tool reads them. */
  datatype DataSources = DataSources(
    processInputs: set<string>,
    paramInputs: set<string>,
    variable: PyInput -> VariableName)

  datatype ScriptError = NotImplemented | IndexError

  /** Types whose values are written without quotes: arrays, numbers and booleans. */
  predicate Unquoted(t: J.DataType)
  {
    t.Array? || t.Int? || t.Float? || t.Double? || t.Boolean?
  }

  /** A Groovy interpolation of a variable. */
  function VarRef(name: string): (r: string)
    ensures |r| == |name| + 3 && r[..2] == "${" && r[|r| - 1] == '}'
  {
    "${" + name + "}"
  }

  /** The `tag=value` argument of one input. */
  function PythonArgument(inp: PyInput, ds: DataSources): Result<string, ScriptError>
  {
    var value: Result<string, ScriptError> :=
      if inp.id in ds.processInputs || inp.id in ds.paramInputs then
        var v := ds.variable(inp);
        if v.NameList? && |v.names| == 0 then Err(IndexError)
        else
          var varname := if v.NameList? then v.names[0] else v.name;
          Ok(if inp.intype.Array? then "\"" + VarRef(varname) + "\".split(\" \")" else VarRef(varname))
      else if inp.default.Some? then Ok(inp.default.value)
      else if inp.intype.optional then Ok("None")
      else Err(NotImplemented);
    match value
    case Err(e) => Err(e)
    case Ok(v) => Ok(inp.tag + "=" + (if Unquoted(inp.intype) then v else "\"" + v + "\""))
  }

  /**
   * The rendering rules of one argument: a fed input refers to its variable (the first
   * name of a list), an array splits the quoted reference, quotes surround everything
   * but arrays, numbers and booleans, and an unfed input falls back to its default,
   * then to None when optional, and fails otherwise.
   */
  lemma PythonArgumentRules(inp: PyInput, ds: DataSources)
    ensures var fed := inp.id in ds.processInputs || inp.id in ds.paramInputs;
            var r := PythonArgument(inp, ds);
            && (fed && ds.variable(inp).OneName? ==>
                  r == Ok(inp.tag + "=" +
                          (if inp.intype.Array? then "\"" + VarRef(ds.variable(inp).name) + "\".split(\" \")"
                           else if Unquoted(inp.intype) then VarRef(ds.variable(inp).name)
                           else "\"" + VarRef(ds.variable(inp).name) + "\"")))
            && (fed && ds.variable(inp).NameList? ==> (r.Ok? <==> |ds.variable(inp).names| > 0))
            && (fed && ds.variable(inp).NameList? && |ds.variable(inp).names| > 0 ==>
                  r == Ok(inp.tag + "=" +
                          (if inp.intype.Array? then "\"" + VarRef(ds.variable(inp).names[0]) + "\".split(\" \")"
                           else if Unquoted(inp.intype) then VarRef(ds.variable(inp).names[0])
                           else "\"" + VarRef(ds.variable(inp).names[0]) + "\"")))
            && (!fed ==> (r.Err? <==> inp.default.None? && !inp.intype.optional))
            && (!fed && inp.default.Some? ==>
                  r == Ok(inp.tag + "=" + (if Unquoted(inp.intype) then inp.default.value else "\"" + inp.default.value + "\"")))
            && (!fed && inp.default.None? && inp.intype.optional ==>
                  r == Ok(inp.tag + "=" + (if Unquoted(inp.intype) then "None" else "\"" + "None" + "\"")))
  {
  }

  function PythonArguments(inputs: seq<PyInput>, ds: DataSources): Result<seq<string>, ScriptError>
  {
    if |inputs| == 0 then Ok([])
    else
      match PythonArguments(inputs[..|inputs| - 1], ds)
      case Err(e) => Err(e)
      case Ok(init) =>
        match PythonArgument(inputs[|inputs| - 1], ds)
        case Err(e) => Err(e)
        case Ok(a) => Ok(init + [a])
  }

  /** One argument per input, in input order. */
  lemma {:induction false} PythonArgumentsInOrder(inputs: seq<PyInput>, ds: DataSources)
    requires PythonArguments(inputs, ds).Ok?
    ensures |PythonArguments(inputs, ds).value| == |inputs|
    ensures forall k :: 0 <= k < |inputs| ==> PythonArgument(inputs[k], ds) == Ok(PythonArguments(inputs, ds).value[k])
  {
    if |inputs| > 0 {
      var init := inputs[..|inputs| - 1];
      PythonArgumentsInOrder(init, ds);
      assert forall k :: 0 <= k < |init| ==> inputs[k] == init[k];
    }
  }

  /**
   * prepare_script_for_python_code_tool, up to the argument string: the arguments of
   * code_block(...) joined by ", ".
   */
  method PrepareScriptArguments(inputs: seq<PyInput>, ds: DataSources) returns (r: Result<string, ScriptError>)
    ensures PythonArguments(inputs, ds).Err? ==> r == Err(PythonArguments(inputs, ds).error)
    ensures PythonArguments(inputs, ds).Ok? ==> r == Ok(Join(", ", PythonArguments(inputs, ds).value))
  {
    var args: seq<string> := [];
    var k := 0;
    while k < |inputs|
      invariant 0 <= k <= |inputs|
      invariant PythonArguments(inputs[..k], ds) == Ok(args)
    {
      var inp := inputs[k];
      var value: string;
      if inp.id in ds.processInputs || inp.id in ds.paramInputs {
        var varname := ds.variable(inp);
        var name: string;
        if varname.NameList? {
          if |varname.names| == 0 {
            assert inputs[..k + 1][..k] == inputs[..k];
            ArgumentsStopAtError(inputs, ds, k + 1);
            return Err(IndexError);
          }
          name := varname.names[0];
        } else {
          name := varname.name;
        }
        value := VarRef(name);
        if inp.intype.Array? {
          value := "\"" + value + "\".split(\" \")";
        }
      } else if inp.default.Some? {
        value := inp.default.value;
      } else if inp.intype.optional {
        value := "None";
      } else {
        assert inputs[..k + 1][..k] == inputs[..k];
        ArgumentsStopAtError(inputs, ds, k + 1);
        return Err(NotImplemented);
      }
      if !Unquoted(inp.intype) {
        value := "\"" + value + "\"";
      }
      assert inputs[..k + 1][..k] == inputs[..k];
      args := args + [inp.tag + "=" + value];
      k := k + 1;
    }
    assert inputs[..k] == inputs;
    r := Ok(Join(", ", args));
  }

  lemma {:induction false} ArgumentsStopAtError(inputs: seq<PyInput>, ds: DataSources, n: nat)
    requires 0 < n <= |inputs|
    requires PythonArguments(inputs[..n], ds).Err?
    ensures PythonArguments(inputs, ds) == PythonArguments(inputs[..n], ds)
    decreases |inputs| - n
  {
    if n < |inputs| {
      assert inputs[..n + 1][..n] == inputs[..n];
      ArgumentsStopAtError(inputs, ds, n + 1);
    } else {
      assert inputs[..n] == inputs;
    }
  }

  /** The name of a code-tool process: the scope's current entity when it has labels. */
  function CodeToolProcessName(scopeLabels: seq<string>, currentEntity: string, toolId: string): string
  {
    if |scopeLabels| > 0 then currentEntity else toolId
  }

  /** The inputs of a code-tool process: the code file, then the tool's own inputs. */
  function CodeToolProcessInputs(codeFileSymbol: string, orderedInputs: seq<TaskInputs.Input>,
                                 registry: TaskInputs.Input -> TaskInputs.TaskInputValue)
    : Result<seq<P.ProcessInput>, TaskInputs.InputError>
  {
    match P.CreateAll(orderedInputs, registry)
    case Err(e) => Err(e)
    case Ok(created) => Ok([P.PathInput(codeFileSymbol, None, None)] + created)
  }

  /**
   * A code-tool process is named after its scope only inside a labelled scope, and its
   * first input is always the code file, followed by one input per tool input.
   */
  lemma CodeToolProcessShape(scopeLabels: seq<string>, currentEntity: string, toolId: string,
                             codeFileSymbol: string, orderedInputs: seq<TaskInputs.Input>,
                             registry: TaskInputs.Input -> TaskInputs.TaskInputValue)
    ensures |scopeLabels| == 0 ==> CodeToolProcessName(scopeLabels, currentEntity, toolId) == toolId
    ensures |scopeLabels| > 0 ==> CodeToolProcessName(scopeLabels, currentEntity, toolId) == currentEntity
    ensures var r := CodeToolProcessInputs(codeFileSymbol, orderedInputs, registry);
            && (r.Ok? <==> P.CreateAll(orderedInputs, registry).Ok?)
            && (r.Ok? ==> |r.value| == |orderedInputs| + 1 && r.value[0] == P.PathInput(codeFileSymbol, None, None)
                          && r.value[1..] == P.CreateAll(orderedInputs, registry).value)
  {
    if P.CreateAll(orderedInputs, registry).Ok? {
      P.CreateAllOnePerInput(orderedInputs, registry);
    }
  }
}
