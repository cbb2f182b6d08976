/**
 * Process inputs for a tool in a scope
 * (janis_core/translations/nextflow/parsing/process/inputs.py): the same cascade as
 * generate/process/inputs.py over the data-source registry, producing leaner inputs.
 * order_process_inputs is not part of this model; Generate receives its result.
 */
module ParsingProcessInputs {
  import opened Wrappers
  import opened TaskInputs
  import J = JanisTypes
  import G = GenerateProcessInputs

  datatype ProcessInput =
    | PathInput(name: string, dtype: Option<J.DataType>, presentsAs: Option<string>)
    | ValInput(name: string)
    | TupleInput(name: string, qualifiers: seq<string>, subnames: seq<string>)

  /** is_filepair_type: the base type is one of Janis's paired-read types. */
  predicate IsFilepairType(dtype: J.DataType)
  {
    J.Name(J.BaseType(dtype)) in ["FastqPair", "FastqGzPair"]
  }

  /** The create_input cascade, with the file-pair-array test written as the source writes it. */
  function KindOf(dtype: J.DataType): InputKind
  {
    var basetype := J.BaseType(dtype);
    if J.IsSecondaryArrayType(dtype) then SecondariesArray
    else if J.IsSecondaryType(dtype) then Secondaries
    else if J.Name(dtype) == "Array" && IsFilepairType(dtype) then FilePairArray
    else if IsFilepairType(dtype) then FilePair
    else if dtype.Array? && J.IsFileLike(basetype) then FileArray
    else if J.IsFileLike(basetype) then SingleFile
    else if dtype.Array? then NonFileArray
    else NonFile
  }

  /**
   * The two cascades classify every type alike: testing `name() == 'Array'` here picks
   * the same types as the array test of the other generator, because no read-pair type
   * is named "Array".
   */
  lemma CascadesAgree(dtype: J.DataType)
    ensures KindOf(dtype) == G.KindOf(dtype)
    ensures (J.Name(dtype) == "Array" && IsFilepairType(dtype)) <==> J.IsFilePairArrayType(dtype)
  {
  }

  /** The process input built for one tool input, given its data-source value. */
  function CreateInputFor(inp: Input, value: TaskInputValue): (r: Result<ProcessInput, InputError>)
  {
    match KindOf(inp.dtype)
    case SecondariesArray => if value.NameValue? then Ok(PathInput(value.name, None, None)) else Err(AssertionFailed)
    case Secondaries =>
      if value.NameList? then Ok(TupleInput(inp.id, G.PathQualifiers(|value.names|), value.names))
      else Err(AssertionFailed)
    case NonFileArray => if value.NameValue? then Ok(ValInput(value.name)) else Err(AssertionFailed)
    case NonFile => if value.NameValue? then Ok(ValInput(value.name)) else Err(AssertionFailed)
    case _ =>
      if value.NameValue? then Ok(PathInput(value.name, Some(inp.dtype), PresentsAsOf(inp))) else Err(AssertionFailed)
  }

  /** A tuple has exactly one `path` qualifier per sub-name; other inputs take the registry's name. */
  lemma CreatedInputShape(inp: Input, value: TaskInputValue)
    ensures var r := CreateInputFor(inp, value);
            && (r.Ok? && r.value.TupleInput? ==>
                  |r.value.qualifiers| == |r.value.subnames| == |value.names| &&
                  forall k :: 0 <= k < |r.value.qualifiers| ==> r.value.qualifiers[k] == "path")
            && (r.Ok? && !r.value.TupleInput? ==> r.value.name == value.name)
            && (r.Ok? <==> (if KindOf(inp.dtype) == Secondaries then value.NameList? else value.NameValue?))
  {
  }

  /** create_input with the registry's value for each tool input. */
  function Creator(registry: Input -> TaskInputValue): Input -> Result<ProcessInput, InputError>
  {
    inp => CreateInputFor(inp, registry(inp))
  }

  /** The process inputs of the ordered tool inputs; the first failure stops them. */
  function CreateAll(inputs: seq<Input>, registry: Input -> TaskInputValue): Result<seq<ProcessInput>, InputError>
  {
    CreateEach(inputs, Creator(registry))
  }

  /** One process input per ordered tool input, the k-th from the k-th. */
  lemma CreateAllOnePerInput(inputs: seq<Input>, registry: Input -> TaskInputValue)
    requires CreateAll(inputs, registry).Ok?
    ensures |CreateAll(inputs, registry).value| == |inputs|
    ensures forall k :: 0 <= k < |inputs| ==>
              CreateInputFor(inputs[k], registry(inputs[k])) == Ok(CreateAll(inputs, registry).value[k])
  {
    CreateEachOnePerInput(inputs, Creator(registry));
  }

  /** generate(): the inputs of the ordered tool inputs, appended one by one. */
  method Generate(orderedInputs: seq<Input>, registry: Input -> TaskInputValue)
    returns (r: Result<seq<ProcessInput>, InputError>)
    ensures r == CreateAll(orderedInputs, registry)
  {
    var processInputs: seq<ProcessInput> := [];
    var k := 0;
    while k < |orderedInputs|
      invariant 0 <= k <= |orderedInputs|
      invariant CreateAll(orderedInputs[..k], registry) == Ok(processInputs)
    {
      var created := CreateInputFor(orderedInputs[k], registry(orderedInputs[k]));
      CreateEachStep(orderedInputs, Creator(registry), k);
      if created.Err? {
        StopsAtError(orderedInputs, registry, k + 1);
        return Err(created.error);
      }
      processInputs := processInputs + [created.value];
      k := k + 1;
    }
    assert orderedInputs[..k] == orderedInputs;
    r := Ok(processInputs);
  }

  /** Once one tool input fails, the whole list fails with that error. */
  lemma StopsAtError(inputs: seq<Input>, registry: Input -> TaskInputValue, n: nat)
    requires 0 < n <= |inputs|
    requires CreateAll(inputs[..n], registry).Err?
    ensures CreateAll(inputs, registry) == CreateAll(inputs[..n], registry)
  {
    CreateEachStopsAtError(inputs, Creator(registry), n);
  }
}
