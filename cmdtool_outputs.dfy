/**
 * The Nextflow output-collection planner for command-line tools
 * (janis_core/translations/nextflow/generate/process/outputs/factory_cmdtool.py).
 *
 * Each tool output is classified into an OType by a first-match priority chain, its
 * collector is classified into a FmtType that decides how the collector expression is
 * quoted, and the chosen strategy builds one Nextflow process output.  The expression
 * renderer of nextflow/unwrap and apply_secondary_file_format_to_filename are not part
 * of this model: the factory receives them as functions.
 */
module CmdtoolOutputs {
  import opened Wrappers
  import opened Text
  import J = JanisTypes

  datatype OType =
    | OStdout | ONonFile | OFile | OFileArray | OFilePair | OFilePairArray
    | OSecondaries | OSecondariesArray

  /** The `selector` of a ToolOutput: None, a glob string, a Selector, or a list of them. */
  datatype Collector =
    | NoCollector                          // None
    | Glob(pattern: string)                // a plain str
    | WildcardSel(wildcard: string)        // WildcardSelector
    | InputSel(inputToSelect: string)      // InputSelector
    | OtherSel(entity: string)             // any other Selector: operators, string formatters
    | CollectorList(items: seq<Collector>) // a list
    | NotASelector                         // a value of no kind has_n_collectors knows

  datatype ToolOutput = ToolOutput(
    id: string,
    outputType: J.DataType,
    selector: Collector,
    secondariesPresentAs: map<string, string>)

  datatype PlanError =
    | NotImplemented            // NotImplementedError
    | UnboundCollectorCount     // has_n_collectors read `collectors` before assigning it
    | MissingInput(id: string)  // KeyError from tool.inputs_map()
    | NoExtensions              // IndexError: exts[0] of a type without extensions

  /** has_n_collectors: the selector holds exactly n collector expressions. */
  function HasNCollectors(out: ToolOutput, n: nat): (r: Result<bool, PlanError>)
    ensures r.Err? <==> out.selector.NotASelector?
    ensures out.selector.NoCollector? ==> r == Ok(n == 0)
    ensures out.selector.CollectorList? ==> r == Ok(n == |out.selector.items|)
    ensures (out.selector.Glob? || out.selector.WildcardSel? || out.selector.InputSel? ||
             out.selector.OtherSel?) ==> r == Ok(n == 1)
  {
    match out.selector
    case NoCollector => Ok(n == 0)
    case Glob(_) => Ok(n == 1)
    case WildcardSel(_) => Ok(n == 1)
    case InputSel(_) => Ok(n == 1)
    case OtherSel(_) => Ok(n == 1)
    case CollectorList(items) => Ok(n == |items|)
    case NotASelector => Err(UnboundCollectorCount)
  }

  /**
   * is_non_file_type: the output's base type is neither a File nor a Directory, so it is
   * exactly the outputs that is_file_type rejects; a standard output is never one.
   */
  function IsNonFileType(out: ToolOutput): (b: bool)
    ensures b <==> !J.IsFileType(out.outputType)
    ensures out.outputType.Stdout? ==> !b
  {
    !J.IsFileLike(J.BaseType(out.outputType))
  }

  /** get_otype: the first case that matches, in the source's fixed order. */
  function GetOtype(out: ToolOutput): (r: Result<OType, PlanError>)
    ensures r.Err? ==> r.error == NotImplemented || r.error == UnboundCollectorCount
    ensures r.Ok? && (r.value == OFile || r.value == OFileArray) ==> J.IsFileType(out.outputType)
    ensures r == Ok(OFileArray) ==> out.outputType.Array? && HasNCollectors(out, 1) == Ok(true)
    ensures r == Ok(ONonFile) ==> IsNonFileType(out) && HasNCollectors(out, 1) == Ok(true)
  {
    var t := out.outputType;
    if t.Stdout? then Ok(OStdout)
    else if J.IsFilePairArrayType(t) then Ok(OFilePairArray)
    else if J.IsFilePairType(t) then Ok(OFilePair)
    else if J.IsSecondaryArrayType(t) then Ok(OSecondariesArray)
    else if J.IsSecondaryType(t) then Ok(OSecondaries)
    else if J.IsFileType(t) && t.Array? then
      match HasNCollectors(out, 1)
      case Err(e) => Err(e)
      case Ok(one) => if one then Ok(OFileArray) else Ok(OFile)
    else if J.IsFileType(t) then Ok(OFile)
    else
      match HasNCollectors(out, 1)
      case Err(e) => Err(e)
      case Ok(one) => if IsNonFileType(out) && one then Ok(ONonFile) else Err(NotImplemented)
  }

  /** A standard-output type is always collected as stdout, whatever its collector. */
  lemma StdoutComesFirst(out: ToolOutput)
    ensures GetOtype(out) == Ok(OStdout) <==> out.outputType.Stdout?
  {
  }

  /**
   * No output goes unclassified silently: get_otype fails exactly for a non-file output
   * without exactly one collector, or a plain file array whose selector is of no known kind.
   */
  lemma OtypeFailures(out: ToolOutput)
    ensures GetOtype(out).Err? <==>
      || (!J.IsFileType(out.outputType) && HasNCollectors(out, 1) != Ok(true))
      || (out.outputType.Array? && J.IsFileType(out.outputType) && !J.IsFilePairBase(out.outputType)
          && !J.HasSecondaries(J.BaseType(out.outputType)) && out.selector.NotASelector?)
  {
  }

  /** A file array whose collector count is known but is not 1 is collected as a single FILE. */
  lemma FileArrayFallsThroughToFile(out: ToolOutput)
    requires out.outputType.Array? && J.IsFileType(out.outputType)
    requires !J.IsFilePairBase(out.outputType) && !J.HasSecondaries(J.BaseType(out.outputType))
    requires HasNCollectors(out, 1) == Ok(false)
    ensures GetOtype(out) == Ok(OFile)
  {
  }

  /** The classification is consistent with the type: file strategies for file types only. */
  lemma OtypeMatchesShape(out: ToolOutput)
    requires GetOtype(out).Ok?
    ensures GetOtype(out).value == ONonFile <==> !J.IsFileType(out.outputType)
    ensures GetOtype(out).value in {OFileArray, OFilePairArray, OSecondariesArray} ==> out.outputType.Array?
    ensures GetOtype(out).value in {OFilePair, OSecondaries, OStdout} ==> !out.outputType.Array?
  {
  }

  datatype FmtType = Reference | Wildcard | FilenameFmt | FilenameRef | FilenameGen | Static | Complex

  /**
   * What get_fmttype learns about the tool: its inputs by id (tool.inputs_map()), the
   * entity kinds trace_entity_counts finds in a Filename input, and the task-input
   * registry of nextflow/task_inputs (which inputs are process inputs, params, or
   * static values).
   */
  datatype ToolContext = ToolContext(
    inputs: map<string, J.DataType>,
    entityNames: string -> set<string>,
    taskInputs: set<string>,
    paramInputs: set<string>,
    staticInputs: set<string>)

  /** get_fmttype: how the collector expression is to be rendered. */
  function GetFmtType(out: ToolOutput, ctx: ToolContext): (r: Result<FmtType, PlanError>)
    ensures r.Err? <==> out.selector.InputSel? && out.selector.inputToSelect !in ctx.inputs
  {
    match out.selector
    case Glob(_) => Ok(Wildcard)
    case WildcardSel(_) => Ok(Wildcard)
    case InputSel(name) =>
      if name !in ctx.inputs then Err(MissingInput(name))
      else if ctx.inputs[name].Filename? then
        var entities := ctx.entityNames(name);
        if entities <= {"Filename", "str", "NoneType"} then
          (if name in ctx.taskInputs || name in ctx.paramInputs then Ok(FilenameFmt) else Ok(FilenameGen))
        else if entities <= {"InputSelector", "Filename", "str", "NoneType"} then Ok(FilenameRef)
        else Ok(Complex)
      else if name in ctx.staticInputs then Ok(Static)
      else Ok(Reference)
    case _ => Ok(Complex)
  }

  /** The three cases of the FmtType classification named by the design. */
  lemma FmtTypeCases(out: ToolOutput, ctx: ToolContext)
    ensures (out.selector.Glob? || out.selector.WildcardSel?) <==> GetFmtType(out, ctx) == Ok(Wildcard)
    ensures out.selector.InputSel? && out.selector.inputToSelect in ctx.inputs
            && !ctx.inputs[out.selector.inputToSelect].Filename? ==>
              GetFmtType(out, ctx) == (if out.selector.inputToSelect in ctx.staticInputs then Ok(Static) else Ok(Reference))
    ensures !out.selector.InputSel? && !out.selector.Glob? && !out.selector.WildcardSel? ==>
              GetFmtType(out, ctx) == Ok(Complex)
    ensures GetFmtType(out, ctx) == Ok(Reference) ==> out.selector.InputSel?
  {
  }

  /** unwrap_collection_expression sets add_braces for these kinds only. */
  predicate BracesFor(f: FmtType)
  {
    f == FilenameFmt || f == FilenameRef || f == Complex
  }

  /** unwrap_collection_expression sets quote_strings for every kind but REFERENCE. */
  predicate QuotesFor(f: FmtType)
  {
    f != Reference
  }

  /**
   * The quoting applied to a rendered collector: a REFERENCE stays bare, every other
   * kind is put between double quotes unless it already begins or ends with one.
   */
  function QuoteCollection(f: FmtType, text: string): (r: string)
    ensures f == Reference ==> r == text
    ensures f != Reference ==> StartsWith(r, "\"") || EndsWith(r, "\"")
    ensures f != Reference ==> (r == text <==> (StartsWith(text, "\"") || EndsWith(text, "\"")))
    ensures r == text || r == "\"" + text + "\""
  {
    if f == Reference then text
    else if !StartsWith(text, "\"") && !EndsWith(text, "\"") then "\"" + text + "\""
    else text
  }

  /** The Python slice `s[1:]`. */
  function Tail<T>(s: seq<T>): (r: seq<T>)
    ensures |s| > 0 ==> r == s[1..]
    ensures |s| == 0 ==> r == []
  {
    if |s| == 0 then [] else s[1..]
  }

  /** One secondary file next to a REFERENCE primary (secondaries_output_reference). */
  function SecondaryReferenceExpr(primary: string, ext: string): string
  {
    if StartsWith(ext, "^") then "\"*" + LStrip(ext, '^') + "\""
    else "\"${" + primary + "}" + ext + "\""
  }

  /**
   * One secondary file next to any other primary (secondaries_output_complex): the last
   * occurrence of the primary extension, found at `start`, is replaced by the secondary
   * extension's formatted pattern; without an occurrence it falls back to a wildcard.
   */
  function SecondaryComplexExpr(primaryExpr: string, primaryExt: string, ext: string,
                                presentAs: map<string, string>,
                                applyFormat: (string, string) -> string): string
  {
    var start := RFind(primaryExpr, primaryExt);
    if start == -1 then "\"*" + LStrip(ext, '^') + "\""
    else
      var pattern := if ext in presentAs then presentAs[ext] else ext;
      "\"" + primaryExpr[..start] + applyFormat(primaryExt, pattern) + primaryExpr[start + |primaryExt|..] + "\""
  }

  /**
   * A secondary built from a complex primary keeps everything before and after the
   * primary extension's LAST occurrence, and replaces that occurrence only.
   */
  lemma ComplexSecondaryReplacesLastOccurrence(primaryExpr: string, primaryExt: string, ext: string,
                                               presentAs: map<string, string>,
                                               applyFormat: (string, string) -> string)
    requires exists i :: OccursAt(primaryExpr, primaryExt, i)
    ensures exists i ::
      && OccursAt(primaryExpr, primaryExt, i)
      && (forall j :: i < j <= |primaryExpr| ==> !OccursAt(primaryExpr, primaryExt, j))
      && SecondaryComplexExpr(primaryExpr, primaryExt, ext, presentAs, applyFormat) ==
           "\"" + primaryExpr[..i]
           + applyFormat(primaryExt, if ext in presentAs then presentAs[ext] else ext)
           + primaryExpr[i + |primaryExt|..] + "\""
  {
    var w :| OccursAt(primaryExpr, primaryExt, w);
    var i := RFind(primaryExpr, primaryExt);
    RFindIsLast(primaryExpr, primaryExt);
    assert i != -1 by {
      assert 0 <= w <= |primaryExpr|;
    }
    var pattern := if ext in presentAs then presentAs[ext] else ext;
    assert SecondaryComplexExpr(primaryExpr, primaryExt, ext, presentAs, applyFormat) ==
           "\"" + primaryExpr[..i] + applyFormat(primaryExt, pattern) + primaryExpr[i + |primaryExt|..] + "\"";
  }

  /** Without an occurrence of the primary extension, every secondary is a bare wildcard. */
  lemma ComplexSecondaryFallsBackToWildcard(primaryExpr: string, primaryExt: string, ext: string,
                                            presentAs: map<string, string>,
                                            applyFormat: (string, string) -> string)
    requires forall i :: !OccursAt(primaryExpr, primaryExt, i)
    ensures SecondaryComplexExpr(primaryExpr, primaryExt, ext, presentAs, applyFormat) ==
            "\"*" + LStrip(ext, '^') + "\""
  {
  }

  datatype ProcessOutput =
    | StdoutOutput(name: string, janisTag: string, isOptional: bool)
    | ValOutput(name: string, janisTag: string, isOptional: bool, expression: string)
    | PathOutput(name: string, janisTag: string, isOptional: bool, expression: string)
    | TupleOutput(name: string, janisTag: string, isOptional: bool,
                  qualifiers: seq<string>, expressions: seq<string>)

  /** A rendered collector: the unwrapped expression under the kind's flags, then quoted. */
  function CollectionExpr(f: FmtType, unwrap: (Collector, bool, bool) -> string, sel: Collector): string
  {
    QuoteCollection(f, unwrap(sel, BracesFor(f), QuotesFor(f)))
  }

  /** The expressions of a secondaries tuple around a REFERENCE primary. */
  function ReferenceTuple(primary: string, exts: seq<string>): (r: seq<string>)
    ensures |r| == |exts| + 1 && r[0] == primary
  {
    if |exts| == 0 then [primary]
    else ReferenceTuple(primary, exts[..|exts| - 1]) + [SecondaryReferenceExpr(primary, exts[|exts| - 1])]
  }

  /** A reference tuple is the primary followed by one expression per further extension. */
  lemma {:induction false} ReferenceTupleAt(primary: string, exts: seq<string>)
    ensures forall k :: 0 <= k < |exts| ==>
              ReferenceTuple(primary, exts)[k + 1] == SecondaryReferenceExpr(primary, exts[k])
  {
    if |exts| > 0 {
      var init := exts[..|exts| - 1];
      ReferenceTupleAt(primary, init);
      assert forall k :: 0 <= k < |init| ==> init[k] == exts[k];
    }
  }

  /** The expressions of a secondaries tuple around any other primary. */
  function ComplexTuple(primaryExpr: string, exts: seq<string>, presentAs: map<string, string>,
                        applyFormat: (string, string) -> string): (r: seq<string>)
    requires |exts| > 0
    ensures |r| == |exts| && r[0] == "\"" + primaryExpr + "\""
  {
    if |exts| == 1 then ["\"" + primaryExpr + "\""]
    else ComplexTuple(primaryExpr, exts[..|exts| - 1], presentAs, applyFormat)
         + [SecondaryComplexExpr(primaryExpr, exts[0], exts[|exts| - 1], presentAs, applyFormat)]
  }

  /** A complex tuple has one expression per extension after the quoted primary, each against the first extension. */
  lemma {:induction false} ComplexTupleAt(primaryExpr: string, exts: seq<string>, presentAs: map<string, string>,
                                          applyFormat: (string, string) -> string)
    requires |exts| > 0
    ensures forall k :: 1 <= k < |exts| ==>
              ComplexTuple(primaryExpr, exts, presentAs, applyFormat)[k]
              == SecondaryComplexExpr(primaryExpr, exts[0], exts[k], presentAs, applyFormat)
  {
    forall k | 1 <= k < |exts|
      ensures ComplexTuple(primaryExpr, exts, presentAs, applyFormat)[k]
              == SecondaryComplexExpr(primaryExpr, exts[0], exts[k], presentAs, applyFormat)
    {
      ComplexTupleIndex(primaryExpr, exts, presentAs, applyFormat, k);
    }
  }

  lemma {:induction false} ComplexTupleIndex(primaryExpr: string, exts: seq<string>, presentAs: map<string, string>,
                                             applyFormat: (string, string) -> string, k: nat)
    requires 1 <= k < |exts|
    ensures ComplexTuple(primaryExpr, exts, presentAs, applyFormat)[k]
            == SecondaryComplexExpr(primaryExpr, exts[0], exts[k], presentAs, applyFormat)
    decreases |exts|
  {
    var init := exts[..|exts| - 1];
    if k < |init| {
      ComplexTupleIndex(primaryExpr, init, presentAs, applyFormat, k);
      assert init[0] == exts[0] && init[k] == exts[k];
    }
  }

  function Paths(n: nat): (r: seq<string>)
    ensures |r| == n
  {
    if n == 0 then [] else Paths(n - 1) + ["path"]
  }

  lemma {:induction false} PathsAllPath(n: nat)
    ensures forall k :: 0 <= k < n ==> Paths(n)[k] == "path"
  {
    if n > 0 {
      PathsAllPath(n - 1);
    }
  }

  /**
   * Whether create()'s strategy for this output renders a collector, and so sets the
   * factory's two flags: STDOUT and SECONDARIES_ARRAY never do, a file pair only when
   * it is a wildcard or has two collectors, a file-pair array only as a wildcard.
   */
  predicate Renders(out: ToolOutput, otype: OType, ftype: FmtType)
  {
    match otype
    case OStdout => false
    case OFilePair => ftype == Wildcard || HasNCollectors(out, 2) == Ok(true)
    case OFilePairArray => ftype == Wildcard
    case OSecondariesArray => false
    case _ => true
  }

  /**
   * The process output that the factory's create() builds for an output whose OType and
   * FmtType are already known.
   */
  function PlanOutput(out: ToolOutput, otype: OType, ftype: FmtType,
                      unwrap: (Collector, bool, bool) -> string,
                      applyFormat: (string, string) -> string): (r: Result<ProcessOutput, PlanError>)
    ensures r.Ok? ==> r.value.name == out.id && r.value.janisTag == out.id
                      && r.value.isOptional == out.outputType.optional
    ensures r.Ok? ==> (r.value.StdoutOutput? <==> otype == OStdout) && (r.value.ValOutput? <==> otype == ONonFile)
    ensures r.Err? <==> (otype != OStdout && !Renders(out, otype, ftype)) ||
                        (otype == OSecondaries && ftype != Reference && |J.GroupExtensions(out.outputType)| == 0)
  {
    var id, opt := out.id, out.outputType.optional;
    var fileOut := PathOutput(id, id, opt, CollectionExpr(ftype, unwrap, out.selector));
    match otype
    case OStdout => Ok(StdoutOutput(id, id, opt))
    case ONonFile => Ok(ValOutput(id, id, opt, CollectionExpr(ftype, unwrap, out.selector)))
    case OFile => Ok(fileOut)
    case OFileArray => Ok(fileOut)
    case OFilePair =>
      if ftype == Wildcard then Ok(fileOut)
      else
        (match HasNCollectors(out, 2)
         case Err(e) => Err(e)
         case Ok(two) =>
           if two then
             var items := out.selector.items;
             Ok(TupleOutput(id, id, opt, ["path", "path"],
                            [CollectionExpr(ftype, unwrap, items[0]), CollectionExpr(ftype, unwrap, items[1])]))
           else Err(NotImplemented))
    case OFilePairArray => if ftype == Wildcard then Ok(fileOut) else Err(NotImplemented)
    case OSecondaries =>
      var exts := J.GroupExtensions(out.outputType);
      if ftype == Reference then
        var primary := CollectionExpr(ftype, unwrap, out.selector);
        var exprs := ReferenceTuple(primary, Tail(exts));
        Ok(TupleOutput(id, id, opt, Paths(|exprs|), exprs))
      else if |exts| == 0 then Err(NoExtensions)
      else
        var primary := Strip(CollectionExpr(ftype, unwrap, out.selector), '"');
        var exprs := ComplexTuple(primary, exts, out.secondariesPresentAs, applyFormat);
        Ok(TupleOutput(id, id, opt, Paths(|exprs|), exprs))
    case OSecondariesArray => Err(NotImplemented)
  }

  /** The whole planner: classify, then build the output with the chosen strategy. */
  function PlanFor(out: ToolOutput, ctx: ToolContext,
                   unwrap: (Collector, bool, bool) -> string,
                   applyFormat: (string, string) -> string): (r: Result<ProcessOutput, PlanError>)
    ensures r.Ok? ==> r.value.name == out.id && r.value.isOptional == out.outputType.optional
    ensures r.Ok? ==> (r.value.StdoutOutput? <==> out.outputType.Stdout?)
    ensures r.Ok? ==> (r.value.ValOutput? <==> !J.IsFileType(out.outputType))
    ensures GetOtype(out).Ok? && GetFmtType(out, ctx).Ok? ==>
              (r.Err? <==> (!out.outputType.Stdout? && !Renders(out, GetOtype(out).value, GetFmtType(out, ctx).value)) ||
                           (GetOtype(out) == Ok(OSecondaries) && GetFmtType(out, ctx) != Ok(Reference)
                            && |J.GroupExtensions(out.outputType)| == 0))
  {
    match GetOtype(out)
    case Err(e) => Err(e)
    case Ok(otype) =>
      match GetFmtType(out, ctx)
      case Err(e) => Err(e)
      case Ok(ftype) => PlanOutput(out, otype, ftype, unwrap, applyFormat)
  }

  /** Unsupported shapes are hard failures, never empty output. */
  lemma UnsupportedShapesFail(out: ToolOutput, ctx: ToolContext,
                              unwrap: (Collector, bool, bool) -> string,
                              applyFormat: (string, string) -> string)
    requires GetOtype(out).Ok? && GetFmtType(out, ctx).Ok?
    ensures GetOtype(out).value == OSecondariesArray ==> PlanFor(out, ctx, unwrap, applyFormat) == Err(NotImplemented)
    ensures GetOtype(out).value == OFilePairArray ==>
              (PlanFor(out, ctx, unwrap, applyFormat).Ok? <==> GetFmtType(out, ctx).value == Wildcard)
    ensures GetOtype(out).value == OFilePair ==>
              (PlanFor(out, ctx, unwrap, applyFormat).Ok? <==>
                 GetFmtType(out, ctx).value == Wildcard || HasNCollectors(out, 2) == Ok(true))
  {
  }

  /** Every tuple the planner emits has one `path` qualifier per expression. */
  lemma TupleQualifiersMatchExpressions(out: ToolOutput, ctx: ToolContext,
                                        unwrap: (Collector, bool, bool) -> string,
                                        applyFormat: (string, string) -> string)
    requires PlanFor(out, ctx, unwrap, applyFormat).Ok?
    requires PlanFor(out, ctx, unwrap, applyFormat).value.TupleOutput?
    ensures var t := PlanFor(out, ctx, unwrap, applyFormat).value;
            |t.qualifiers| == |t.expressions| && forall k :: 0 <= k < |t.qualifiers| ==> t.qualifiers[k] == "path"
  {
    PlanOutputTuple(out, GetOtype(out).value, GetFmtType(out, ctx).value, unwrap, applyFormat);
  }

  lemma PlanOutputTuple(out: ToolOutput, otype: OType, ftype: FmtType,
                        unwrap: (Collector, bool, bool) -> string,
                        applyFormat: (string, string) -> string)
    requires PlanOutput(out, otype, ftype, unwrap, applyFormat).Ok?
    requires PlanOutput(out, otype, ftype, unwrap, applyFormat).value.TupleOutput?
    ensures var t := PlanOutput(out, otype, ftype, unwrap, applyFormat).value;
            |t.qualifiers| == |t.expressions| && forall k :: 0 <= k < |t.qualifiers| ==> t.qualifiers[k] == "path"
  {
    if otype == OSecondaries {
      PathsAllPath(|PlanOutput(out, otype, ftype, unwrap, applyFormat).value.expressions|);
    }
  }

  /**
   * A secondaries output around a REFERENCE primary has the primary followed by one
   * expression per extension after the first: `"*ext"` for a caret extension (carets
   * removed), `"${primary}ext"` otherwise.
   */
  lemma ReferenceSecondariesShape(out: ToolOutput, ctx: ToolContext,
                                  unwrap: (Collector, bool, bool) -> string,
                                  applyFormat: (string, string) -> string)
    requires GetOtype(out) == Ok(OSecondaries) && GetFmtType(out, ctx) == Ok(Reference)
    ensures var exts := J.GroupExtensions(out.outputType);
            var primary := unwrap(out.selector, false, false);
            && PlanFor(out, ctx, unwrap, applyFormat).Ok?
            && var t := PlanFor(out, ctx, unwrap, applyFormat).value;
            && t.TupleOutput?
            && |exts| > 0
            && |t.expressions| == |exts|
            && t.expressions[0] == primary
            && forall k :: 1 <= k < |exts| ==>
                 t.expressions[k] ==
                   (if StartsWith(exts[k], "^") then "\"*" + LStrip(exts[k], '^') + "\""
                    else "\"${" + primary + "}" + exts[k] + "\"")
  {
    var exts := J.GroupExtensions(out.outputType);
    var primary := unwrap(out.selector, false, false);
    var t := PlanFor(out, ctx, unwrap, applyFormat).value;
    assert |exts| > 0;
    ReferenceTupleAt(primary, Tail(exts));
    forall k | 1 <= k < |exts|
      ensures t.expressions[k] == SecondaryReferenceExpr(primary, exts[k])
    {
      assert Tail(exts)[k - 1] == exts[k];
    }
  }

  lemma ComplexTupleSnoc(primaryExpr: string, exts: seq<string>, k: nat, presentAs: map<string, string>,
                         applyFormat: (string, string) -> string)
    requires 1 <= k < |exts|
    ensures ComplexTuple(primaryExpr, exts[..k + 1], presentAs, applyFormat) ==
            ComplexTuple(primaryExpr, exts[..k], presentAs, applyFormat)
            + [SecondaryComplexExpr(primaryExpr, exts[0], exts[k], presentAs, applyFormat)]
  {
    var e := exts[..k + 1];
    assert e[..|e| - 1] == exts[..k];
    assert e[0] == exts[0] && e[|e| - 1] == exts[k];
  }

  lemma ReferenceTupleSnoc(primary: string, exts: seq<string>, k: nat)
    requires k < |exts|
    ensures ReferenceTuple(primary, exts[..k + 1])
            == ReferenceTuple(primary, exts[..k]) + [SecondaryReferenceExpr(primary, exts[k])]
  {
    assert exts[..k + 1][..k] == exts[..k];
  }

  /** The loop of secondaries_output_reference after the primary. */
  method ReferenceSecondaries(primaryReference: string, exts: seq<string>)
    returns (qualifiers: seq<string>, expressions: seq<string>)
    ensures qualifiers == Paths(|exts| + 1)
    ensures expressions == ReferenceTuple(primaryReference, exts)
  {
    qualifiers := ["path"];
    expressions := [primaryReference];
    var k := 0;
    while k < |exts|
      invariant 0 <= k <= |exts|
      invariant qualifiers == Paths(k + 1)
      invariant expressions == ReferenceTuple(primaryReference, exts[..k])
    {
      var ext := exts[k];
      var secondary: string;
      if StartsWith(ext, "^") {
        var secondaryExt := LStrip(ext, '^');
        secondary := "\"*" + secondaryExt + "\"";
      } else {
        secondary := "\"${" + primaryReference + "}" + ext + "\"";
      }
      ReferenceTupleSnoc(primaryReference, exts, k);
      qualifiers := qualifiers + ["path"];
      expressions := expressions + [secondary];
      k := k + 1;
    }
    assert exts[..k] == exts;
  }

  /** One iteration of secondaries_output_complex, given where the primary extension starts. */
  method ComplexSecondary(primaryExpr: string, primaryExt: string, primaryExtStart: int, ext: string,
                          presentAs: map<string, string>, applyFormat: (string, string) -> string)
    returns (secondary: string)
    requires primaryExtStart == RFind(primaryExpr, primaryExt)
    ensures secondary == SecondaryComplexExpr(primaryExpr, primaryExt, ext, presentAs, applyFormat)
  {
    if primaryExtStart == -1 {
      secondary := "\"*" + LStrip(ext, '^') + "\"";
    } else {
      var pattern := if ext in presentAs then presentAs[ext] else ext;
      var primaryExtStop := primaryExtStart + |primaryExt|;
      secondary := "\"" + primaryExpr[..primaryExtStart] + applyFormat(primaryExt, pattern)
                   + primaryExpr[primaryExtStop..] + "\"";
    }
  }

  /** The loop of secondaries_output_complex over the group's extensions. */
  method ComplexSecondaries(primaryExpr: string, exts: seq<string>, presentAs: map<string, string>,
                            applyFormat: (string, string) -> string)
    returns (qualifiers: seq<string>, expressions: seq<string>)
    requires |exts| > 0
    ensures qualifiers == Paths(|exts|)
    ensures expressions == ComplexTuple(primaryExpr, exts, presentAs, applyFormat)
  {
    var primaryExt := exts[0];
    var primaryExtStart := RFind(primaryExpr, primaryExt);
    qualifiers := ["path"];
    expressions := ["\"" + primaryExpr + "\""];
    var k := 1;
    while k < |exts|
      invariant 1 <= k <= |exts|
      invariant qualifiers == Paths(k)
      invariant expressions == ComplexTuple(primaryExpr, exts[..k], presentAs, applyFormat)
    {
      var secondary := ComplexSecondary(primaryExpr, primaryExt, primaryExtStart, exts[k], presentAs, applyFormat);
      ComplexTupleSnoc(primaryExpr, exts, k, presentAs, applyFormat);
      qualifiers := qualifiers + ["path"];
      expressions := expressions + [secondary];
      k := k + 1;
    }
    assert exts[..k] == exts;
  }

  /** The factory: one per tool output, holding the two flags its rendering sets. */
  class CmdtoolProcessOutputFactory {
    const out: ToolOutput
    const unwrap: (Collector, bool, bool) -> string
    const applyFormat: (string, string) -> string
    const otype: OType
    const ftype: FmtType
    var addBraces: bool
    var quoteStrings: bool

    constructor (out: ToolOutput, ctx: ToolContext,
                 unwrap: (Collector, bool, bool) -> string,
                 applyFormat: (string, string) -> string)
      requires GetOtype(out).Ok? && GetFmtType(out, ctx).Ok?
      ensures this.out == out && this.otype == GetOtype(out).value && this.ftype == GetFmtType(out, ctx).value
      ensures this.unwrap == unwrap && this.applyFormat == applyFormat
      ensures !addBraces && !quoteStrings
    {
      this.out := out;
      this.unwrap := unwrap;
      this.applyFormat := applyFormat;
      this.otype := GetOtype(out).value;
      this.ftype := GetFmtType(out, ctx).value;
      this.addBraces := false;
      this.quoteStrings := false;
    }

    /** The flags as unwrap_collection_expression sets them for this factory's FmtType. */
    predicate FlagsSet()
      reads this
    {
      addBraces == BracesFor(ftype) && quoteStrings == QuotesFor(ftype)
    }

    /** unwrap_collection_expression: sets the two flags for the FmtType, renders, quotes. */
    method UnwrapCollectionExpression(expr: Collector) returns (r: string)
      modifies this
      ensures addBraces == BracesFor(ftype) && quoteStrings == QuotesFor(ftype)
      ensures r == CollectionExpr(ftype, unwrap, expr)
    {
      if ftype == Reference {
        addBraces := false;
        quoteStrings := false;
        r := unwrap(expr, addBraces, quoteStrings);
      } else if ftype in {Wildcard, Static, FilenameGen} {
        addBraces := false;
        quoteStrings := true;
        r := unwrap(expr, addBraces, quoteStrings);
        if !StartsWith(r, "\"") && !EndsWith(r, "\"") {
          r := "\"" + r + "\"";
        }
      } else {
        addBraces := true;
        quoteStrings := true;
        r := unwrap(expr, addBraces, quoteStrings);
        if !StartsWith(r, "\"") && !EndsWith(r, "\"") {
          r := "\"" + r + "\"";
        }
      }
    }

    method FileOutput() returns (r: ProcessOutput)
      modifies this
      ensures r == PathOutput(out.id, out.id, out.outputType.optional, CollectionExpr(ftype, unwrap, out.selector))
      ensures FlagsSet()
    {
      var expr := UnwrapCollectionExpression(out.selector);
      r := PathOutput(out.id, out.id, out.outputType.optional, expr);
    }

    method NonFileOutput() returns (r: ProcessOutput)
      modifies this
      ensures r == ValOutput(out.id, out.id, out.outputType.optional, CollectionExpr(ftype, unwrap, out.selector))
      ensures FlagsSet()
    {
      var expr := UnwrapCollectionExpression(out.selector);
      r := ValOutput(out.id, out.id, out.outputType.optional, expr);
    }

    method FilePairOutput() returns (r: Result<ProcessOutput, PlanError>)
      requires otype == OFilePair
      modifies this
      ensures r == PlanOutput(out, otype, ftype, unwrap, applyFormat)
      ensures if Renders(out, otype, ftype) then FlagsSet()
              else addBraces == old(addBraces) && quoteStrings == old(quoteStrings)
    {
      if ftype == Wildcard {
        var o := FileOutput();
        return Ok(o);
      }
      var two := HasNCollectors(out, 2);
      if two.Err? {
        return Err(two.error);
      }
      if two.value {
        var expr1 := UnwrapCollectionExpression(out.selector.items[0]);
        var expr2 := UnwrapCollectionExpression(out.selector.items[1]);
        r := Ok(TupleOutput(out.id, out.id, out.outputType.optional, ["path", "path"], [expr1, expr2]));
      } else {
        r := Err(NotImplemented);
      }
    }

    method FilePairArrayOutput() returns (r: Result<ProcessOutput, PlanError>)
      requires otype == OFilePairArray
      modifies this
      ensures r == PlanOutput(out, otype, ftype, unwrap, applyFormat)
      ensures if Renders(out, otype, ftype) then FlagsSet()
              else addBraces == old(addBraces) && quoteStrings == old(quoteStrings)
    {
      if ftype == Wildcard {
        var o := FileOutput();
        r := Ok(o);
      } else {
        r := Err(NotImplemented);
      }
    }

    /** secondaries_output_reference: the primary, then one expression per further extension. */
    method SecondariesOutputReference() returns (r: ProcessOutput)
      requires ftype == Reference
      modifies this
      ensures r == TupleOutput(out.id, out.id, out.outputType.optional,
                               Paths(|Tail(J.GroupExtensions(out.outputType))| + 1),
                               ReferenceTuple(CollectionExpr(ftype, unwrap, out.selector),
                                              Tail(J.GroupExtensions(out.outputType))))
      ensures FlagsSet()
    {
      var primaryReference := UnwrapCollectionExpression(out.selector);
      var exts := Tail(J.GroupExtensions(out.outputType));
      var qualifiers, expressions := ReferenceSecondaries(primaryReference, exts);
      r := TupleOutput(out.id, out.id, out.outputType.optional, qualifiers, expressions);
    }

    /** secondaries_output_complex: replace the last occurrence of the primary extension. */
    method SecondariesOutputComplex() returns (r: Result<ProcessOutput, PlanError>)
      requires ftype != Reference
      modifies this
      ensures r == PlanOutput(out, OSecondaries, ftype, unwrap, applyFormat)
      ensures FlagsSet()
    {
      var exts := J.GroupExtensions(out.outputType);
      var primaryExpr := UnwrapCollectionExpression(out.selector);
      primaryExpr := Strip(primaryExpr, '"');
      if |exts| == 0 {
        return Err(NoExtensions);
      }
      var qualifiers, expressions := ComplexSecondaries(primaryExpr, exts, out.secondariesPresentAs, applyFormat);
      r := Ok(TupleOutput(out.id, out.id, out.outputType.optional, qualifiers, expressions));
    }

    /** create(): dispatch on the OType through the strategy map. */
    method Create() returns (r: Result<ProcessOutput, PlanError>)
      modifies this
      ensures r == PlanOutput(out, otype, ftype, unwrap, applyFormat)
      ensures if Renders(out, otype, ftype) then FlagsSet()
              else addBraces == old(addBraces) && quoteStrings == old(quoteStrings)
    {
      match otype {
        case OStdout =>
          r := Ok(StdoutOutput(out.id, out.id, out.outputType.optional));
        case ONonFile =>
          var o := NonFileOutput();
          r := Ok(o);
        case OFile =>
          var o := FileOutput();
          r := Ok(o);
        case OFileArray =>
          var o := FileOutput();
          r := Ok(o);
        case OFilePair =>
          r := FilePairOutput();
        case OFilePairArray =>
          r := FilePairArrayOutput();
        case OSecondaries =>
          if ftype == Reference {
            var o := SecondariesOutputReference();
            r := Ok(o);
          } else {
            r := SecondariesOutputComplex();
          }
        case OSecondariesArray =>
          r := Err(NotImplemented);
      }
    }
  }

  /** Build a factory the way its __init__ does: classification errors abort construction. */
  method NewFactory(out: ToolOutput, ctx: ToolContext,
                    unwrap: (Collector, bool, bool) -> string,
                    applyFormat: (string, string) -> string)
    returns (r: Result<CmdtoolProcessOutputFactory, PlanError>)
    ensures r.Err? <==> GetOtype(out).Err? || GetFmtType(out, ctx).Err?
    ensures GetOtype(out).Err? ==> r == Err(GetOtype(out).error)
    ensures GetOtype(out).Ok? && GetFmtType(out, ctx).Err? ==> r == Err(GetFmtType(out, ctx).error)
    ensures r.Ok? ==> fresh(r.value) && r.value.out == out && r.value.otype == GetOtype(out).value
                      && r.value.ftype == GetFmtType(out, ctx).value
                      && r.value.unwrap == unwrap && r.value.applyFormat == applyFormat
  {
    var o := GetOtype(out);
    if o.Err? {
      return Err(o.error);
    }
    var f := GetFmtType(out, ctx);
    if f.Err? {
      return Err(f.error);
    }
    var factory := new CmdtoolProcessOutputFactory(out, ctx, unwrap, applyFormat);
    r := Ok(factory);
  }
}
