/**
 * Process inputs for a tool (janis_core/translations/nextflow/generate/process/inputs.py).
 *
 * The generator holds the list of process inputs it builds and the tool input it is
 * currently looking at; a Python tool gets its code-file input before all others.
 */
module GenerateProcessInputs {
  import opened Wrappers
  import opened TaskInputs
  import J = JanisTypes

  datatype ProcessInput =
    | PythonCodeFileInput(name: string, tinputId: string, dtype: J.DataType)
    | PathInput(name: string, tinputId: string, dtype: J.DataType, presentsAs: Option<string>)
    | ValInput(name: string, tinputId: string, dtype: J.DataType)
    | TupleInput(name: string, tinputId: string, dtype: J.DataType, qualifiers: seq<string>, subnames: seq<string>)

  /** The create_input cascade: the first test the input's type passes. */
  function KindOf(dtype: J.DataType): InputKind
  {
    var basetype := J.BaseType(dtype);
    if J.IsSecondaryArrayType(dtype) then SecondariesArray
    else if J.IsSecondaryType(dtype) then Secondaries
    else if J.IsFilePairArrayType(dtype) then FilePairArray
    else if J.IsFilePairType(dtype) then FilePair
    else if dtype.Array? && J.IsFileLike(basetype) then FileArray
    else if J.IsFileLike(basetype) then SingleFile
    else if dtype.Array? then NonFileArray
    else NonFile
  }

  /**
   * Every file-based type gets a path input or a tuple, and only non-file types reach
   * the val branch; so the presents_as refusal of create_val_input is never reached.
   */
  lemma KindsFollowTypes(dtype: J.DataType)
    ensures KindOf(dtype) == Secondaries <==> J.IsSecondaryType(dtype)
    ensures IsPathKind(KindOf(dtype)) <==> J.IsFileType(dtype) && !J.IsSecondaryType(dtype)
    ensures KindOf(dtype) in {NonFileArray, NonFile} <==> !J.IsFileType(dtype)
    ensures KindOf(dtype) in {NonFileArray, NonFile} ==> !dtype.File?
  {
  }

  /** The process input built for one tool input, given its registry value. */
  function CreateInputFor(inp: Input, value: TaskInputValue): (r: Result<ProcessInput, InputError>)
  {
    match KindOf(inp.dtype)
    case SecondariesArray =>
      if value.NameValue? then Ok(PathInput(value.name, inp.id, inp.dtype, None)) else Err(AssertionFailed)
    case Secondaries =>
      if value.NameList? then Ok(TupleInput(inp.id, inp.id, inp.dtype, PathQualifiers(|value.names|), value.names))
      else Err(AssertionFailed)
    case NonFileArray => ValInputFor(inp, value)
    case NonFile => ValInputFor(inp, value)
    case _ =>
      if value.NameValue? then Ok(PathInput(value.name, inp.id, inp.dtype, PresentsAsOf(inp))) else Err(AssertionFailed)
  }

  /** create_val_input: refuses a File input presenting under another name. */
  function ValInputFor(inp: Input, value: TaskInputValue): Result<ProcessInput, InputError>
  {
    if inp.dtype.File? && PresentsAs(inp) then Err(NotImplemented)
    else if value.NameValue? then Ok(ValInput(value.name, inp.id, inp.dtype))
    else Err(AssertionFailed)
  }

  /** `['path'] * n`. */
  function PathQualifiers(n: nat): (r: seq<string>)
    ensures |r| == n && forall k :: 0 <= k < n ==> r[k] == "path"
  {
    if n == 0 then [] else PathQualifiers(n - 1) + ["path"]
  }

  /**
   * What create_input promises: a tuple has one `path` qualifier per sub-name, path and
   * val inputs need a single registry name, the refusal of presents_as never happens,
   * and every input keeps its tool input's id and type.
   */
  lemma CreatedInputShape(inp: Input, value: TaskInputValue)
    ensures CreateInputFor(inp, value) != Err(NotImplemented)
    ensures var r := CreateInputFor(inp, value);
            && (r.Ok? ==> r.value.tinputId == inp.id && r.value.dtype == inp.dtype)
            && (r.Ok? && r.value.TupleInput? ==>
                  |r.value.qualifiers| == |r.value.subnames| &&
                  forall k :: 0 <= k < |r.value.qualifiers| ==> r.value.qualifiers[k] == "path")
            && (KindOf(inp.dtype) == Secondaries ==> (r.Ok? <==> value.NameList?))
            && (KindOf(inp.dtype) != Secondaries ==> (r.Ok? <==> value.NameValue?))
            && (r.Ok? && !r.value.TupleInput? ==> r.value.name == value.name)
  {
    KindsFollowTypes(inp.dtype);
  }

  /** create_input with the registry's value for each tool input. */
  function Creator(registry: Input -> TaskInputValue): Input -> Result<ProcessInput, InputError>
  {
    inp => CreateInputFor(inp, registry(inp))
  }

  /** The process inputs for a list of tool inputs, in order; the first failure stops them. */
  function CreateAll(inputs: seq<Input>, registry: Input -> TaskInputValue): Result<seq<ProcessInput>, InputError>
  {
    CreateEach(inputs, Creator(registry))
  }

  /** One process input per tool input, the k-th built from the k-th tool input. */
  lemma CreateAllOnePerInput(inputs: seq<Input>, registry: Input -> TaskInputValue)
    requires CreateAll(inputs, registry).Ok?
    ensures |CreateAll(inputs, registry).value| == |inputs|
    ensures forall k :: 0 <= k < |inputs| ==>
              CreateInputFor(inputs[k], registry(inputs[k])) == Ok(CreateAll(inputs, registry).value[k])
  {
    CreateEachOnePerInput(inputs, Creator(registry));
  }

  /** The input generator of one tool: `processInputs` grows, `tinput` is the current tool input. */
  class ProcessInputGenerator {
    const toolId: string
    const isPythonTool: bool
    const registry: Input -> TaskInputValue
    var processInputs: seq<ProcessInput>
    var tinput: Option<Input>

    /** __init__ with generate_code_file: a Python tool starts with its code-file input. */
    constructor (toolId: string, isPythonTool: bool, registry: Input -> TaskInputValue, codeFileSymbol: string)
      ensures this.toolId == toolId && this.isPythonTool == isPythonTool && this.registry == registry
      ensures tinput.None?
      ensures isPythonTool ==> processInputs == [PythonCodeFileInput(codeFileSymbol, codeFileSymbol, J.File("File", [], [], false))]
      ensures !isPythonTool ==> processInputs == []
    {
      this.toolId := toolId;
      this.isPythonTool := isPythonTool;
      this.registry := registry;
      processInputs := [];
      tinput := None;
      if isPythonTool {
        processInputs := processInputs + [PythonCodeFileInput(codeFileSymbol, codeFileSymbol, J.File("File", [], [], false))];
      }
    }

    /** create_input: the cascade applied to the current tool input. */
    method CreateInput() returns (r: Result<ProcessInput, InputError>)
      requires tinput.Some?
      ensures r == CreateInputFor(tinput.value, registry(tinput.value))
    {
      var inp := tinput.value;
      var value := registry(inp);
      var dtype := inp.dtype;
      if J.IsSecondaryArrayType(dtype) {
        if !value.NameValue? {
          return Err(AssertionFailed);
        }
        r := Ok(PathInput(value.name, inp.id, dtype, None));
      } else if J.IsSecondaryType(dtype) {
        if !value.NameList? {
          return Err(AssertionFailed);
        }
        r := Ok(TupleInput(inp.id, inp.id, dtype, PathQualifiers(|value.names|), value.names));
      } else if J.IsFilePairArrayType(dtype) || J.IsFilePairType(dtype)
             || (dtype.Array? && J.IsFileLike(J.BaseType(dtype))) || J.IsFileLike(J.BaseType(dtype)) {
        if !value.NameValue? {
          return Err(AssertionFailed);
        }
        r := Ok(PathInput(value.name, inp.id, dtype, PresentsAsOf(inp)));
      } else {
        if dtype.File? && inp.isToolInput && PresentsAs(inp) {
          return Err(NotImplemented);
        }
        if !value.NameValue? {
          return Err(AssertionFailed);
        }
        r := Ok(ValInput(value.name, inp.id, dtype));
      }
    }

    /**
     * generate(): one process input per selected tool input, appended in order after
     * whatever the constructor put first; the result is the whole list.
     */
    method Generate(toolInputs: seq<Input>, tinputIds: set<string>) returns (r: Result<seq<ProcessInput>, InputError>)
      modifies this
      ensures var expected := CreateAll(ItemsWithId(toolInputs, tinputIds), registry);
              && (expected.Err? ==> r == Err(expected.error))
              && (expected.Ok? ==> processInputs == old(processInputs) + expected.value && r == Ok(processInputs))
    {
      var tinputs := ItemsWithId(toolInputs, tinputIds);
      r := AppendInputs(tinputs);
    }

    /** The loop of generate(): each tool input in turn becomes the current one and is appended. */
    method AppendInputs(tinputs: seq<Input>) returns (r: Result<seq<ProcessInput>, InputError>)
      modifies this
      ensures var expected := CreateAll(tinputs, registry);
              && (expected.Err? ==> r == Err(expected.error))
              && (expected.Ok? ==> processInputs == old(processInputs) + expected.value && r == Ok(processInputs))
    {
      var k := 0;
      while k < |tinputs|
        invariant 0 <= k <= |tinputs|
        invariant CreateAll(tinputs[..k], registry).Ok?
        invariant processInputs == old(processInputs) + CreateAll(tinputs[..k], registry).value
      {
        tinput := Some(tinputs[k]);
        var newInput := CreateInput();
        CreateAllStep(tinputs, registry, k);
        if newInput.Err? {
          CreateAllStopsAtError(tinputs, registry, k + 1);
          return Err(newInput.error);
        }
        processInputs := processInputs + [newInput.value];
        k := k + 1;
      }
      assert tinputs[..k] == tinputs;
      r := Ok(processInputs);
    }
  }

  lemma CreateAllStep(inputs: seq<Input>, registry: Input -> TaskInputValue, k: nat)
    requires k < |inputs| && CreateAll(inputs[..k], registry).Ok?
    ensures var c := CreateInputFor(inputs[k], registry(inputs[k]));
            CreateAll(inputs[..k + 1], registry)
            == (if c.Ok? then Ok(CreateAll(inputs[..k], registry).value + [c.value]) else Err(c.error))
  {
    CreateEachStep(inputs, Creator(registry), k);
  }

  /** Once one tool input fails, the whole list fails with that error. */
  lemma CreateAllStopsAtError(inputs: seq<Input>, registry: Input -> TaskInputValue, n: nat)
    requires 0 < n <= |inputs|
    requires CreateAll(inputs[..n], registry).Err?
    ensures CreateAll(inputs, registry) == CreateAll(inputs[..n], registry)
  {
    CreateEachStopsAtError(inputs, Creator(registry), n);
  }
}
