/**
 * Assembly of a Nextflow task call inside a workflow body
 * (janis_core/translations/nextflow/generate/workflow/call.py).
 *
 * A call passes one argument per task input, in the order of the called process's
 * inputs or the called subworkflow's take channels.  Each argument is the unwrapped
 * source expression, with at most one suffix: an edge-case suffix, or failing that a
 * datatype-mismatch plumbing suffix.  The expression renderer, the source tracer and
 * the edge-case and mismatch helpers are not part of this model; they are fields of
 * CallEnv.
 */
module TaskCall {
  import opened Wrappers
  import opened Text
  import J = JanisTypes

  /** The task being called: a process with its inputs' ids, a workflow with its take ids. */
  datatype Task =
    | NFProcess(inputIds: seq<string>)
    | NFWorkflow(takeIds: seq<string>)
    | OtherTask

  /** A step edge feeding a task input; what it carries is read through CallEnv. */
  datatype Source = Source(edge: string)

  /** What unwrap_expression returns for a source in the workflow context. */
  datatype Unwrapped = NoText | Text(text: string) | TextList(items: seq<string>)

  datatype CallError =
    | RuntimeError          // a task that is neither a process nor a workflow
    | NotImplemented        // an argument that unwraps to a list
    | NoSuchToolInput(id: string)  // IndexError: no tool input with this id
    | AssertionFailed       // assert(dtype): the source's type could not be traced

  /** The step being translated: its tool's inputs by id, its edges, its scatter fields. */
  datatype Step = Step(
    toolInputs: map<string, J.DataType>,
    sources: map<string, Source>,
    scatter: Option<set<string>>)

  datatype CallEnv = CallEnv(
    unwrap: Option<Source> -> Unwrapped,
    truthy: Source -> bool,
    traceSourceDatatype: Source -> Option<J.DataType>,
    satisfiesEdgeCase: Source -> bool,
    handleEdgeCase: Source -> string,
    isDatatypeMismatch: (J.DataType, J.DataType, bool) -> bool,
    mismatchPlumbing: (J.DataType, J.DataType, bool) -> string)

  /** ordered_task_input_ids: a process's inputs or a workflow's takes, else RuntimeError. */
  function OrderedTaskInputIds(task: Task): (r: Result<seq<string>, CallError>)
    ensures r.Err? <==> task.OtherTask?
    ensures task.NFProcess? ==> r == Ok(task.inputIds)
    ensures task.NFWorkflow? ==> r == Ok(task.takeIds)
  {
    match task
    case NFProcess(ids) => Ok(ids)
    case NFWorkflow(ids) => Ok(ids)
    case OtherTask => Err(RuntimeError)
  }

  /** The source feeding a task input, or None when the step has no edge for it. */
  function SourceFor(step: Step, tinputId: string): Option<Source>
  {
    if tinputId in step.sources then Some(step.sources[tinputId]) else None
  }

  /**
   * dest_scatter: the step scatters and this input is one of its scatter fields; an
   * unscattered step never has a scattered destination.
   */
  function DestScatter(step: Step, tinputId: string): (b: bool)
    ensures step.scatter.None? ==> !b
    ensures step.scatter.Some? ==> (b <==> tinputId in step.scatter.value)
  {
    step.scatter.Some? && tinputId in step.scatter.value
  }

  /**
   * srctype: the traced type of a truthy source, a Stdout narrowed to its subtype; a
   * truthy source whose type cannot be traced fails the assertion.
   */
  function SrcType(env: CallEnv, src: Option<Source>): (r: Result<Option<J.DataType>, CallError>)
    ensures r.Err? <==> src.Some? && env.truthy(src.value) && env.traceSourceDatatype(src.value).None?
    ensures r.Err? ==> r.error == AssertionFailed
    ensures r == Ok(None) <==> src.None? || !env.truthy(src.value)
    ensures r.Ok? && r.value.Some? ==> !env.traceSourceDatatype(src.value).value.Stdout? ==>
              r.value.value == env.traceSourceDatatype(src.value).value
    ensures r.Ok? && r.value.Some? ==> env.traceSourceDatatype(src.value).value.Stdout? ==>
              r.value.value == env.traceSourceDatatype(src.value).value.subtype
  {
    if src.Some? && env.truthy(src.value) then
      match env.traceSourceDatatype(src.value)
      case None => Err(AssertionFailed)
      case Some(dtype) => if dtype.Stdout? then Ok(Some(dtype.subtype)) else Ok(Some(dtype))
    else Ok(None)
  }

  /** TaskCallArgumentGenerator.generate as a value: the argument that feeds one task input. */
  function CallArgument(env: CallEnv, step: Step, tinputId: string): Result<string, CallError>
  {
    match env.unwrap(SourceFor(step, tinputId))
    case NoText => WithSuffix(env, step, tinputId, "null")
    case Text(t) => WithSuffix(env, step, tinputId, t)
    case TextList(_) => Err(NotImplemented)
  }

  /** The unwrapped argument followed by the edge-case suffix or, failing that, the plumbing suffix. */
  function WithSuffix(env: CallEnv, step: Step, tinputId: string, arg: string): Result<string, CallError>
  {
    var src := SourceFor(step, tinputId);
    if src.Some? && env.satisfiesEdgeCase(src.value) then Ok(arg + env.handleEdgeCase(src.value))
    else
      match SrcType(env, src)
      case Err(e) => Err(e)
      case Ok(None) => Ok(arg)
      case Ok(Some(srctype)) =>
        if tinputId !in step.toolInputs then Err(NoSuchToolInput(tinputId))
        else
          var desttype, scatter := step.toolInputs[tinputId], DestScatter(step, tinputId);
          if env.isDatatypeMismatch(srctype, desttype, scatter) then Ok(arg + env.mismatchPlumbing(srctype, desttype, scatter))
          else Ok(arg)
  }

  /**
   * An argument is the unwrapped text ("null" for None) with at most one suffix, and the
   * edge-case suffix wins over the mismatch suffix.
   */
  lemma ArgumentHasAtMostOneSuffix(env: CallEnv, step: Step, tinputId: string)
    requires CallArgument(env, step, tinputId).Ok?
    ensures var src := SourceFor(step, tinputId);
            var base := if env.unwrap(src).NoText? then "null" else env.unwrap(src).text;
            var r := CallArgument(env, step, tinputId).value;
            var st := SrcType(env, src);
            && (src.Some? && env.satisfiesEdgeCase(src.value) ==> r == base + env.handleEdgeCase(src.value))
            && (!(src.Some? && env.satisfiesEdgeCase(src.value)) ==>
                  r == base ||
                  (st.Ok? && st.value.Some? &&
                   env.isDatatypeMismatch(st.value.value, step.toolInputs[tinputId], DestScatter(step, tinputId)) &&
                   r == base + env.mismatchPlumbing(st.value.value, step.toolInputs[tinputId], DestScatter(step, tinputId))))
  {
  }

  /**
   * The type of a source is traced only when no edge case applies; a truthy source whose
   * type cannot be traced then fails the assertion.
   */
  lemma UntracedSourceFails(env: CallEnv, step: Step, tinputId: string)
    requires !env.unwrap(SourceFor(step, tinputId)).TextList?
    ensures var src := SourceFor(step, tinputId);
            (CallArgument(env, step, tinputId) == Err(AssertionFailed)) <==>
              (src.Some? && !env.satisfiesEdgeCase(src.value) && env.truthy(src.value)
               && env.traceSourceDatatype(src.value).None?)
  {
  }

  /** An argument unwrapped to None and needing no suffix is the Nextflow literal null. */
  lemma NoneArgumentIsNull(env: CallEnv, step: Step, tinputId: string)
    requires env.unwrap(SourceFor(step, tinputId)).NoText?
    requires tinputId !in step.sources
    ensures CallArgument(env, step, tinputId) == Ok("null")
  {
  }

  /** A list-valued argument is never emitted. */
  lemma ListArgumentFails(env: CallEnv, step: Step, tinputId: string)
    ensures env.unwrap(SourceFor(step, tinputId)).TextList? <==> CallArgument(env, step, tinputId) == Err(NotImplemented)
  {
  }

  /** The argument generator for one task input, as the source's object. */
  class TaskCallArgumentGenerator {
    const tinputId: string
    const step: Step
    const env: CallEnv
    const src: Option<Source>

    constructor (tinputId: string, step: Step, env: CallEnv)
      ensures this.tinputId == tinputId && this.step == step && this.env == env
      ensures Valid()
    {
      this.tinputId := tinputId;
      this.step := step;
      this.env := env;
      if tinputId in step.sources {
        this.src := Some(step.sources[tinputId]);
      } else {
        this.src := None;
      }
    }

    predicate Valid()
    {
      src == SourceFor(step, tinputId)
    }

    /** generate(): unwrap, default to null, then append at most one suffix. */
    method Generate() returns (r: Result<string, CallError>)
      requires Valid()
      ensures r == CallArgument(env, step, tinputId)
    {
      var unwrapped := env.unwrap(src);
      var arg: string;
      match unwrapped {
        case NoText => arg := "null";
        case Text(t) => arg := t;
        case TextList(_) => return Err(NotImplemented);
      }
      if src.Some? && env.satisfiesEdgeCase(src.value) {
        var suffix := env.handleEdgeCase(src.value);
        arg := arg + suffix;
      } else {
        var srctype := SrcType(env, src);
        if srctype.Err? {
          return Err(srctype.error);
        }
        if srctype.value.Some? {
          if tinputId !in step.toolInputs {
            return Err(NoSuchToolInput(tinputId));
          }
          var desttype := step.toolInputs[tinputId];
          var destScatter := DestScatter(step, tinputId);
          if env.isDatatypeMismatch(srctype.value.value, desttype, destScatter) {
            var suffix := env.mismatchPlumbing(srctype.value.value, desttype, destScatter);
            arg := arg + suffix;
          }
        }
      }
      r := Ok(arg);
    }
  }

  /** The arguments of a call, one per id, in order; the first failing id stops it. */
  function CallArguments(env: CallEnv, step: Step, ids: seq<string>): (r: Result<seq<string>, CallError>)
  {
    if |ids| == 0 then Ok([])
    else
      match CallArguments(env, step, ids[..|ids| - 1])
      case Err(e) => Err(e)
      case Ok(init) =>
        match CallArgument(env, step, ids[|ids| - 1])
        case Err(e) => Err(e)
        case Ok(a) => Ok(init + [a])
  }

  /** Exactly one argument per ordered id, the k-th produced for the k-th id. */
  lemma {:induction false} CallArgumentsOnePerId(env: CallEnv, step: Step, ids: seq<string>)
    requires CallArguments(env, step, ids).Ok?
    ensures |CallArguments(env, step, ids).value| == |ids|
    ensures forall k :: 0 <= k < |ids| ==> CallArgument(env, step, ids[k]) == Ok(CallArguments(env, step, ids).value[k])
  {
    if |ids| > 0 {
      var init := ids[..|ids| - 1];
      CallArgumentsOnePerId(env, step, init);
      forall k | 0 <= k < |ids| - 1
        ensures ids[k] == init[k]
      {
      }
    }
  }

  /** The call arguments succeed exactly when every argument does. */
  lemma {:induction false} CallArgumentsFailIffSomeArgumentFails(env: CallEnv, step: Step, ids: seq<string>)
    ensures CallArguments(env, step, ids).Ok? <==> forall k :: 0 <= k < |ids| ==> CallArgument(env, step, ids[k]).Ok?
  {
    if |ids| > 0 {
      var init := ids[..|ids| - 1];
      CallArgumentsFailIffSomeArgumentFails(env, step, init);
      assert forall k :: 0 <= k < |ids| - 1 ==> ids[k] == init[k];
    }
  }

  /** The call text before indentation: `alias()`, or `alias(`, one line per argument, `)`. */
  function CallLines(alias: string, nfIndent: string, args: seq<string>): seq<string>
  {
    if |args| == 0 then [alias + "()"]
    else [alias + "("] + ArgLines(nfIndent, args) + [")"]
  }

  /** The indented argument lines, each but the last ending in a comma. */
  function ArgLines(nfIndent: string, args: seq<string>): (r: seq<string>)
    requires |args| > 0
  {
    if |args| == 1 then [nfIndent + args[0]]
    else [nfIndent + args[0] + ","] + ArgLines(nfIndent, args[1..])
  }

  /** The layout of a call with arguments: n + 2 lines, commas on all argument lines but the last. */
  lemma {:induction false} CallLayout(alias: string, nfIndent: string, args: seq<string>)
    ensures |args| == 0 ==> CallLines(alias, nfIndent, args) == [alias + "()"]
    ensures |args| > 0 ==>
      var lines := CallLines(alias, nfIndent, args);
      && |lines| == |args| + 2
      && lines[0] == alias + "(" && lines[|lines| - 1] == ")"
      && (forall k :: 0 <= k < |args| - 1 ==> lines[k + 1] == nfIndent + args[k] + ",")
      && lines[|args|] == nfIndent + args[|args| - 1]
  {
    if |args| > 0 {
      ArgLinesLayout(nfIndent, args);
    }
  }

  lemma {:induction false} ArgLinesLayout(nfIndent: string, args: seq<string>)
    requires |args| > 0
    ensures |ArgLines(nfIndent, args)| == |args|
    ensures forall k :: 0 <= k < |args| - 1 ==> ArgLines(nfIndent, args)[k] == nfIndent + args[k] + ","
    ensures ArgLines(nfIndent, args)[|args| - 1] == nfIndent + args[|args| - 1]
  {
    if |args| > 1 {
      ArgLinesLayout(nfIndent, args[1..]);
    }
  }

  /**
   * textwrap.indent applied to one line: the prefix goes before it unless it is made only
   * of spaces, tabs, newlines and carriage returns.  textwrap.indent itself splits its
   * argument into lines and tests each with str.strip, which knows more whitespace
   * characters; every text indented here is a single line, and at the default level 0
   * the prefix is empty, so the difference never shows.
   */
  function Indent(line: string, prefix: string): (r: string)
    ensures r == line || r == prefix + line
  {
    if forall k :: 0 <= k < |line| ==> line[k] in {' ', '\t', '\n', '\r'} then line else prefix + line
  }

  function IndentAll(lines: seq<string>, prefix: string): (r: seq<string>)
    ensures |r| == |lines|
    ensures forall k :: 0 <= k < |lines| ==> r[k] == Indent(lines[k], prefix)
  {
    if |lines| == 0 then [] else [Indent(lines[0], prefix)] + IndentAll(lines[1..], prefix)
  }

  /** At the default indentation level 0 the lines are left as they are. */
  lemma {:induction false} IndentZeroIsIdentity(lines: seq<string>, nfIndent: string)
    ensures IndentAll(lines, Repeat(nfIndent, 0)) == lines
  {
    forall k | 0 <= k < |lines|
      ensures IndentAll(lines, Repeat(nfIndent, 0))[k] == lines[k]
    {
      assert "" + lines[k] == lines[k];
    }
  }

  /** The generator of one call: its arguments and call lines are filled in by Generate. */
  class TaskCallGenerator {
    const alias: string
    const task: Task
    const step: Step
    const env: CallEnv
    const nfIndent: string
    var args: seq<string>
    var call: seq<string>

    constructor (alias: string, task: Task, step: Step, env: CallEnv, nfIndent: string)
      ensures this.alias == alias && this.task == task && this.step == step && this.env == env
      ensures this.nfIndent == nfIndent
      ensures args == [] && call == []
    {
      this.alias := alias;
      this.task := task;
      this.step := step;
      this.env := env;
      this.nfIndent := nfIndent;
      args := [];
      call := [];
    }

    /** get_call_arguments: one argument per ordered task input id. */
    method GetCallArguments() returns (r: Result<seq<string>, CallError>)
      ensures OrderedTaskInputIds(task).Err? ==> r == Err(RuntimeError)
      ensures OrderedTaskInputIds(task).Ok? ==> r == CallArguments(env, step, OrderedTaskInputIds(task).value)
    {
      var ordered := OrderedTaskInputIds(task);
      if ordered.Err? {
        return Err(ordered.error);
      }
      var ids := ordered.value;
      var callArgs: seq<string> := [];
      var k := 0;
      while k < |ids|
        invariant 0 <= k <= |ids|
        invariant CallArguments(env, step, ids[..k]) == Ok(callArgs)
      {
        var generator := new TaskCallArgumentGenerator(ids[k], step, env);
        var arg := generator.Generate();
        assert ids[..k + 1][..k] == ids[..k];
        if arg.Err? {
          assert CallArguments(env, step, ids[..k + 1]) == Err(arg.error);
          CallArgumentsStopAtError(env, step, ids, k + 1);
          return Err(arg.error);
        }
        callArgs := callArgs + [arg.value];
        k := k + 1;
      }
      assert ids[..k] == ids;
      r := Ok(callArgs);
    }

    /** call_fmt2: the opening line, the arguments with commas, the closing line. */
    method CallFmt2() returns (lines: seq<string>)
      requires |args| > 0
      ensures lines == CallLines(alias, nfIndent, args)
    {
      ArgLinesLayout(nfIndent, args);
      lines := [alias + "("];
      var i := 0;
      while i < |args|
        invariant 0 <= i <= |args|
        invariant |lines| == i + 1 && lines[0] == alias + "("
        invariant forall k :: 0 <= k < i ==> lines[k + 1] == ArgLines(nfIndent, args)[k]
      {
        var comma := if i < |args| - 1 then "," else "";
        lines := lines + [nfIndent + args[i] + comma];
        i := i + 1;
      }
      lines := lines + [")"];
      assert lines == [alias + "("] + ArgLines(nfIndent, args) + [")"];
    }

    /** format_task_call: the call lines indented `ind` levels (0 by default). */
    method FormatTaskCall(ind: nat) returns (lines: seq<string>)
      ensures lines == IndentAll(CallLines(alias, nfIndent, args), Repeat(nfIndent, ind))
    {
      var callLines: seq<string>;
      if |args| == 0 {
        callLines := [alias + "()"];
      } else {
        callLines := CallFmt2();
      }
      lines := IndentAll(callLines, Repeat(nfIndent, ind));
    }

    /** generate(): store the arguments, then the call text, and return the call. */
    method Generate() returns (r: Result<seq<string>, CallError>)
      modifies this
      ensures var expected := if OrderedTaskInputIds(task).Err? then Err(RuntimeError)
                              else CallArguments(env, step, OrderedTaskInputIds(task).value);
              && (expected.Err? ==> r == Err(expected.error) && args == old(args) && call == old(call))
              && (expected.Ok? ==> args == expected.value && call == CallLines(alias, nfIndent, args) && r == Ok(call))
    {
      var computed := GetCallArguments();
      if computed.Err? {
        return Err(computed.error);
      }
      args := computed.value;
      call := FormatTaskCall(0);
      IndentZeroIsIdentity(CallLines(alias, nfIndent, args), nfIndent);
      r := Ok(call);
    }
  }

  /** Once an argument fails, every longer prefix of the ids fails with the same error. */
  lemma {:induction false} CallArgumentsStopAtError(env: CallEnv, step: Step, ids: seq<string>, n: nat)
    requires 0 < n <= |ids|
    requires CallArguments(env, step, ids[..n]).Err?
    ensures CallArguments(env, step, ids) == CallArguments(env, step, ids[..n])
    decreases |ids| - n
  {
    if n < |ids| {
      assert ids[..n + 1][..n] == ids[..n];
      CallArgumentsStopAtError(env, step, ids, n + 1);
    } else {
      assert ids[..n] == ids;
    }
  }
}
