/**
 * The tool inputs a Nextflow process is built from, and what the task-input registry
 * (nextflow/task_inputs, nextflow/data_sources) records for each of them.  The
 * registry itself is not part of this model: process-input generators receive it as a
 * function.
 */
module TaskInputs {
  import opened Wrappers
  import J = JanisTypes

  /**
   * A ToolInput or TInput: its id, its type (input_type of a ToolInput, intype of a
   * TInput) and, for a ToolInput only, its presents_as name.
   */
  datatype Input = Input(id: string, dtype: J.DataType, isToolInput: bool, presentsAs: Option<string>)

  /** The `value` of a registry entry: one channel or param name, a list of names, or neither. */
  datatype TaskInputValue = NameValue(name: string) | NameList(names: seq<string>) | OtherValue

  datatype InputError =
    | AssertionFailed       // the registry value had the wrong shape
    | NotImplemented        // presents_as on a File input reaching the val branch

  /** A ToolInput whose presents_as is set (and, being a str, not empty). */
  predicate PresentsAs(i: Input)
  {
    i.isToolInput && i.presentsAs.Some? && i.presentsAs.value != ""
  }

  /** presents_as as create_path_input passes it on: only a ToolInput has one. */
  function PresentsAsOf(i: Input): Option<string>
  {
    if i.isToolInput then i.presentsAs else None
  }

  /** nfgen_utils.items_with_id: the items whose id is selected, in their own order. */
  function ItemsWithId(items: seq<Input>, ids: set<string>): (r: seq<Input>)
  {
    if |items| == 0 then []
    else (if items[0].id in ids then [items[0]] else []) + ItemsWithId(items[1..], ids)
  }

  /** The selected items are exactly the items whose id is selected. */
  lemma {:induction false} ItemsWithIdMembers(items: seq<Input>, ids: set<string>)
    ensures |ItemsWithId(items, ids)| <= |items|
    ensures forall x :: x in ItemsWithId(items, ids) <==> x in items && x.id in ids
  {
    if |items| > 0 {
      ItemsWithIdMembers(items[1..], ids);
      assert forall x :: x in items <==> x == items[0] || x in items[1..];
    }
  }

  /** The branches of the process-input cascades, one per comment in the source. */
  datatype InputKind =
    | SecondariesArray | Secondaries | FilePairArray | FilePair | FileArray | SingleFile
    | NonFileArray | NonFile

  /** The kinds that become a `path` input. */
  predicate IsPathKind(k: InputKind)
  {
    k in {SecondariesArray, FilePairArray, FilePair, FileArray, SingleFile}
  }

  /**
   * The loop both process-input generators run: one created value per input, in
   * order, and the first failure stops the list with its error.
   */
  function CreateEach<P>(inputs: seq<Input>, create: Input -> Result<P, InputError>): Result<seq<P>, InputError>
  {
    if |inputs| == 0 then Ok([])
    else
      match CreateEach(inputs[..|inputs| - 1], create)
      case Err(e) => Err(e)
      case Ok(init) =>
        match create(inputs[|inputs| - 1])
        case Err(e) => Err(e)
        case Ok(p) => Ok(init + [p])
  }

  /** One created value per input, the k-th from the k-th. */
  lemma {:induction false} CreateEachOnePerInput<P>(inputs: seq<Input>, create: Input -> Result<P, InputError>)
    requires CreateEach(inputs, create).Ok?
    ensures |CreateEach(inputs, create).value| == |inputs|
    ensures forall k :: 0 <= k < |inputs| ==> create(inputs[k]) == Ok(CreateEach(inputs, create).value[k])
  {
    if |inputs| > 0 {
      var init := inputs[..|inputs| - 1];
      CreateEachOnePerInput(init, create);
      assert forall k :: 0 <= k < |init| ==> inputs[k] == init[k];
    }
  }

  /** One more input: its created value is appended, or its error ends the list. */
  lemma CreateEachStep<P>(inputs: seq<Input>, create: Input -> Result<P, InputError>, k: nat)
    requires k < |inputs| && CreateEach(inputs[..k], create).Ok?
    ensures var c := create(inputs[k]);
            CreateEach(inputs[..k + 1], create)
            == (if c.Ok? then Ok(CreateEach(inputs[..k], create).value + [c.value]) else Err(c.error))
  {
    assert inputs[..k + 1][..k] == inputs[..k];
  }

  /** Once a prefix fails, the whole list fails with the same error. */
  lemma {:induction false} CreateEachStopsAtError<P>(inputs: seq<Input>, create: Input -> Result<P, InputError>, n: nat)
    requires 0 < n <= |inputs|
    requires CreateEach(inputs[..n], create).Err?
    ensures CreateEach(inputs, create) == CreateEach(inputs[..n], create)
    decreases |inputs| - n
  {
    if n < |inputs| {
      assert inputs[..n + 1][..n] == inputs[..n];
      CreateEachStopsAtError(inputs, create, n + 1);
    } else {
      assert inputs[..n] == inputs;
    }
  }
}
