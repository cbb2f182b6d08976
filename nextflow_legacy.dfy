/**
 * The legacy Nextflow translator (janis_core/translations/nextflow.py): expression
 * unwrapping, input-selector resolution, the inputs file, the tool script and the
 * process input and output qualifiers.
 *
 * translate_string_formatter and Operator.to_nextflow are not part of this model; they
 * are fields of UnwrapEnv.
 */
module NextflowLegacy {
  import opened Wrappers
  import opened Text
  import J = JanisTypes
  import SS = StableSort

  /** A ToolInput as the translator reads it. */
  datatype ToolInput = ToolInput(
    id: string,
    intype: J.DataType,
    position: Option<int>,
    prefix: Option<string>,
    localiseFile: bool)

  datatype InputSelector = InputSelector(inputToSelect: string, removeFileExtension: bool)

  /** The values unwrap_expression dispatches on, in the order it tests them. */
  datatype Value =
    | NoneV
    | StepNodeV(nodeId: string)
    | ListV(items: seq<Value>)
    | StrV(s: string)
    | IntV(i: int)
    | BoolV(b: bool)                      // bool is an int: str(True) is "True"
    | FloatV(repr: string)                // str() of a float, as Python prints it
    | FilenameV(generated: string)
    | StringFormatterV(format: string)
    | InputSelectorV(selector: InputSelector)
    | WildcardSelectorV(wildcard: string)
    | OperatorV(op: string, args: seq<Value>)
    | CwlCallableV(cwl: string)           // any other object with a callable `cwl`
    | OtherV(typeName: string)            // anything else

  datatype UnwrapError =
    | StepNodeFound(nodeId: string)
    | WildcardAsValue
    | UnknownValue(typeName: string)
    | EmptySelector
    | NoInputsDict(name: string)
    | MissingInput(name: string)

  /** The keyword arguments of unwrap_expression that the dispatch passes along. */
  datatype UnwrapOptions = UnwrapOptions(
    codeEnvironment: bool,
    selectorOverride: map<string, string>,
    forOutput: bool,
    inputsDict: Option<map<string, ToolInput>>,
    skipInputsLookup: bool)

  datatype UnwrapEnv = UnwrapEnv(
    translateStringFormatter: (string, UnwrapOptions) -> string,
    operatorToNextflow: (string, seq<string>) -> string)

  /** get_extensions() of a File; other types have none. */
  function FileExtensions(t: J.DataType): seq<string>
  {
    if t.File? then t.extensions else []
  }

  /** `{sel%ext}` once per extension, the first extension innermost. */
  function NestExtensions(sel: string, exts: seq<string>): string
  {
    if |exts| == 0 then sel
    else "{" + NestExtensions(sel, exts[..|exts| - 1]) + "%" + exts[|exts| - 1] + "}"
  }

  /** The closing part of NestExtensions: `%ext}` for each extension in order. */
  function StripSuffixes(exts: seq<string>): string
  {
    if |exts| == 0 then "" else StripSuffixes(exts[..|exts| - 1]) + "%" + exts[|exts| - 1] + "}"
  }

  /** The nesting opens one brace per extension and then closes them in extension order. */
  lemma {:induction false} NestExtensionsShape(sel: string, exts: seq<string>)
    ensures NestExtensions(sel, exts) == Repeat("{", |exts|) + sel + StripSuffixes(exts)
  {
    if |exts| > 0 {
      NestExtensionsShape(sel, exts[..|exts| - 1]);
      RepeatSnoc("{", |exts| - 1);
    }
  }

  /** `.replace(/ext$/, "")` once per extension, in order. */
  function ReplaceSuffixes(exts: seq<string>): string
  {
    if |exts| == 0 then "" else ReplaceSuffixes(exts[..|exts| - 1]) + ".replace(/" + exts[|exts| - 1] + "$/, \"\")"
  }

  /** translate_input_selector as a value. */
  function TranslateInputSelector(selector: InputSelector, opts: UnwrapOptions): Result<string, UnwrapError>
  {
    var name := selector.inputToSelect;
    if name == "" then Err(EmptySelector)
    else
      var skipLookup := opts.skipInputsLookup || StartsWith(name, "runtime_");
      var sel := if name in opts.selectorOverride then opts.selectorOverride[name] else name;
      if skipLookup then Ok(sel)
      else if opts.inputsDict.None? then Err(NoInputsDict(sel))
      else if name !in opts.inputsDict.value then Err(MissingInput(sel))
      else
        var intype := opts.inputsDict.value[name].intype;
        if !selector.removeFileExtension then Ok(sel)
        else if J.IsFileLike(intype) then
          var exts := FileExtensions(intype);
          if |exts| > 0 then Ok("(basename \"$" + NestExtensions(sel, exts) + "\")") else Ok(sel)
        else if intype.Array? && J.IsFileLike(J.BaseType(intype)) then
          Ok(sel + ".map(function(el) { return " + ("el.basename" + ReplaceSuffixes(FileExtensions(J.BaseType(intype)))) + "; })")
        else Ok(sel)
  }

  /** The loop of translate_input_selector: rename, look up, strip extensions. */
  method TranslateInputSelectorSteps(selector: InputSelector, opts: UnwrapOptions) returns (r: Result<string, UnwrapError>)
    ensures r == TranslateInputSelector(selector, opts)
  {
    var sel := selector.inputToSelect;
    if sel == "" {
      return Err(EmptySelector);
    }
    var skipLookup := opts.skipInputsLookup || StartsWith(sel, "runtime_");
    if sel in opts.selectorOverride {
      sel := opts.selectorOverride[sel];
    }
    if !skipLookup {
      if opts.inputsDict.None? {
        return Err(NoInputsDict(sel));
      }
      if selector.inputToSelect !in opts.inputsDict.value {
        return Err(MissingInput(sel));
      }
      var intype := opts.inputsDict.value[selector.inputToSelect].intype;
      if selector.removeFileExtension {
        if J.IsFileLike(intype) {
          var exts := FileExtensions(intype);
          if |exts| > 0 {
            sel := WrapExtensions(sel, exts);
            sel := "(basename \"$" + sel + "\")";
          }
        } else if intype.Array? && J.IsFileLike(J.BaseType(intype)) {
          var exts := FileExtensions(J.BaseType(intype));
          var innerSel := ChainReplaces("el.basename", exts);
          sel := sel + ".map(function(el) { return " + innerSel + "; })";
        }
      }
    }
    r := Ok(sel);
  }

  /** The loop wrapping the selector once per extension. */
  method WrapExtensions(original: string, exts: seq<string>) returns (sel: string)
    ensures sel == NestExtensions(original, exts)
  {
    sel := original;
    var k := 0;
    while k < |exts|
      invariant 0 <= k <= |exts|
      invariant sel == NestExtensions(original, exts[..k])
    {
      sel := "{" + sel + "%" + exts[k] + "}";
      assert exts[..k + 1][..k] == exts[..k];
      k := k + 1;
    }
    assert exts[..k] == exts;
  }

  /** The loop chaining one `.replace` per extension onto a start expression. */
  method ChainReplaces(start: string, exts: seq<string>) returns (innerSel: string)
    ensures innerSel == start + ReplaceSuffixes(exts)
  {
    innerSel := start;
    var k := 0;
    while k < |exts|
      invariant 0 <= k <= |exts|
      invariant innerSel == start + ReplaceSuffixes(exts[..k])
    {
      innerSel := innerSel + ".replace(/" + exts[k] + "$/, \"\")";
      assert exts[..k + 1][..k] == exts[..k];
      k := k + 1;
    }
    assert exts[..k] == exts;
  }

  /**
   * The selector-resolution rules: an empty name fails; `runtime_` names and skipped
   * lookups return the (overridden) name; otherwise a missing dictionary or key fails.
   */
  lemma InputSelectorResolution(selector: InputSelector, opts: UnwrapOptions)
    ensures var name := selector.inputToSelect;
            var sel := if name in opts.selectorOverride then opts.selectorOverride[name] else name;
            var r := TranslateInputSelector(selector, opts);
            && (name == "" <==> r == Err(EmptySelector))
            && (name != "" && (opts.skipInputsLookup || StartsWith(name, "runtime_")) ==> r == Ok(sel))
            && (name != "" && !opts.skipInputsLookup && !StartsWith(name, "runtime_") ==>
                  (r.Err? <==> opts.inputsDict.None? || name !in opts.inputsDict.value))
            && (r.Ok? && !selector.removeFileExtension ==> r == Ok(sel))
  {
  }

  /**
   * With remove_file_extension on a File that has extensions, the name is wrapped once
   * per extension as `{name%ext}`, first extension innermost, inside `(basename "$…")`.
   */
  lemma {:induction false} ExtensionStripping(selector: InputSelector, opts: UnwrapOptions)
    requires selector.inputToSelect != "" && selector.removeFileExtension
    requires !opts.skipInputsLookup && !StartsWith(selector.inputToSelect, "runtime_")
    requires opts.inputsDict.Some? && selector.inputToSelect in opts.inputsDict.value
    requires opts.inputsDict.value[selector.inputToSelect].intype.File?
    requires |opts.inputsDict.value[selector.inputToSelect].intype.extensions| > 0
    ensures var name := selector.inputToSelect;
            var sel := if name in opts.selectorOverride then opts.selectorOverride[name] else name;
            var exts := opts.inputsDict.value[name].intype.extensions;
            TranslateInputSelector(selector, opts) ==
              Ok("(basename \"$" + (Repeat("{", |exts|) + sel + StripSuffixes(exts)) + "\")")
  {
    var name := selector.inputToSelect;
    var sel := if name in opts.selectorOverride then opts.selectorOverride[name] else name;
    var exts := opts.inputsDict.value[name].intype.extensions;
    NestExtensionsShape(sel, exts);
  }

  /** prepare_filename_replacements_for an InputSelector, as a value. */
  function FilenameReplacement(inp: InputSelector, inputsDict: Option<map<string, ToolInput>>): Result<string, UnwrapError>
  {
    var name := inp.inputToSelect;
    if inputsDict.None? || inputsDict.value == map[] then Ok("inputs." + name + ".basename")
    else if name !in inputsDict.value then Err(MissingInput(name))
    else
      var tinp := inputsDict.value[name];
      var intype := tinp.intype;
      var base :=
        if J.IsFileLike(intype) then
          var exts := FileExtensions(intype);
          if inp.removeFileExtension && |exts| > 0 then "inputs." + tinp.id + ".basename" + ReplaceSuffixes(exts)
          else if tinp.localiseFile then "inputs." + tinp.id + ".basename"
          else "inputs." + tinp.id
        else if intype.Array? && J.IsFileLike(J.BaseType(intype)) && tinp.localiseFile then
          "inputs." + tinp.id + ".map(function(el) { return el.basename; })"
        else "\"${" + tinp.id + "}\"";
      if intype.optional then Ok("inputs." + tinp.id + " ? " + base + " : \"generated\"")
      else Ok(base)
  }

  /** prepare_filename_replacements_for: the `base +=` loop over the extensions. */
  method PrepareFilenameReplacementsFor(inp: InputSelector, inputsDict: Option<map<string, ToolInput>>)
    returns (r: Result<string, UnwrapError>)
    ensures r == FilenameReplacement(inp, inputsDict)
  {
    if inputsDict.None? || inputsDict.value == map[] {
      return Ok("inputs." + inp.inputToSelect + ".basename");
    }
    if inp.inputToSelect !in inputsDict.value {
      return Err(MissingInput(inp.inputToSelect));
    }
    var tinp := inputsDict.value[inp.inputToSelect];
    var intype := tinp.intype;
    var base: string;
    if J.IsFileLike(intype) {
      var exts := FileExtensions(intype);
      if inp.removeFileExtension && |exts| > 0 {
        base := ChainReplaces("inputs." + tinp.id + ".basename", exts);
      } else if tinp.localiseFile {
        base := "inputs." + tinp.id + ".basename";
      } else {
        base := "inputs." + tinp.id;
      }
    } else if intype.Array? && J.IsFileLike(J.BaseType(intype)) && tinp.localiseFile {
      base := "inputs." + tinp.id + ".map(function(el) { return el.basename; })";
    } else {
      base := "\"${" + tinp.id + "}\"";
    }
    if intype.optional {
      r := Ok("inputs." + tinp.id + " ? " + base + " : \"generated\"");
    } else {
      r := Ok(base);
    }
  }

  /** An optional input's replacement falls back to the literal "generated". */
  lemma OptionalReplacementFallsBack(inp: InputSelector, inputsDict: Option<map<string, ToolInput>>)
    requires inputsDict.Some? && inp.inputToSelect in inputsDict.value
    requires inputsDict.value[inp.inputToSelect].intype.optional
    ensures var r := FilenameReplacement(inp, inputsDict);
            r.Ok? && EndsWith(r.value, " : \"generated\"") &&
            StartsWith(r.value, "inputs." + inputsDict.value[inp.inputToSelect].id + " ? ")
  {
    var r := FilenameReplacement(inp, inputsDict);
    var p := "inputs." + inputsDict.value[inp.inputToSelect].id + " ? ";
    assert r.value[..|p|] == p;
  }

  /** unwrap_expression: the recursive dispatch over the value's kind. */
  function UnwrapExpression(env: UnwrapEnv, v: Value, opts: UnwrapOptions): (r: Result<Option<string>, UnwrapError>)
    ensures opts.codeEnvironment && r.Ok? ==> r.value.Some?
    ensures r == Ok(None) <==> v.NoneV? && !opts.codeEnvironment
    decreases v, 1, 0
  {
    match v
    case NoneV => if opts.codeEnvironment then Ok(Some("null")) else Ok(None)
    case StepNodeV(id) => Err(StepNodeFound(id))
    case ListV(items) =>
      (match UnwrapElements(env, v, 0, opts.(codeEnvironment := true))
       case Err(e) => Err(e)
       case Ok(elements) => Ok(Some(Join(", ", elements))))
    case StrV(s) => Ok(Some("'" + s + "'"))
    case IntV(i) => Ok(Some(IntToString(i)))
    case BoolV(b) => Ok(Some(if b then "True" else "False"))
    case FloatV(repr) => Ok(Some(repr))
    case FilenameV(g) => Ok(Some(if opts.codeEnvironment then "\"" + g + "\"" else g))
    case StringFormatterV(f) => Ok(Some(env.translateStringFormatter(f, opts)))
    case InputSelectorV(sel) =>
      if opts.forOutput then
        (match FilenameReplacement(sel, opts.inputsDict)
         case Err(e) => Err(e)
         case Ok(el) => Ok(Some(if opts.codeEnvironment then el else "$(" + el + ")")))
      else
        (match TranslateInputSelector(sel, opts)
         case Err(e) => Err(e)
         case Ok(s) => Ok(Some(s)))
    case WildcardSelectorV(_) => Err(WildcardAsValue)
    case OperatorV(op, _) =>
      (match UnwrapElements(env, v, 0, opts.(codeEnvironment := true, forOutput := opts.forOutput))
       case Err(e) => Err(e)
       case Ok(args) => Ok(Some(env.operatorToNextflow(op, args))))
    case CwlCallableV(cwl) => Ok(Some(cwl))
    case OtherV(t) => Err(UnknownValue(t))
  }

  /** The children of a list or operator: a list wraps each in `path(...)` for outputs. */
  function Children(v: Value): seq<Value>
  {
    if v.ListV? then v.items else if v.OperatorV? then v.args else []
  }

  /**
   * The unwrapped children from index k on, in order; list elements are wrapped in
   * `path(...)` when unwrapping for an output.
   */
  function UnwrapElements(env: UnwrapEnv, v: Value, k: nat, opts: UnwrapOptions): (r: Result<seq<string>, UnwrapError>)
    requires opts.codeEnvironment
    requires k <= |Children(v)|
    ensures r.Ok? ==> |r.value| == |Children(v)| - k
    decreases v, 0, |Children(v)| - k
  {
    if k == |Children(v)| then Ok([])
    else
      var child := Children(v)[k];
      assert child < v;
      match UnwrapExpression(env, child, opts)
      case Err(e) => Err(e)
      case Ok(el) =>
        match UnwrapElements(env, v, k + 1, opts)
        case Err(e) => Err(e)
        case Ok(rest) =>
          var text := if v.ListV? && opts.forOutput then "path(" + el.value + ")" else el.value;
          Ok([text] + rest)
  }

  /** Scalars render the same in every environment except None and a Filename. */
  lemma ScalarRendering(env: UnwrapEnv, opts: UnwrapOptions, s: string, i: int, g: string)
    ensures UnwrapExpression(env, StrV(s), opts) == Ok(Some("'" + s + "'"))
    ensures UnwrapExpression(env, IntV(i), opts) == Ok(Some(IntToString(i)))
    ensures UnwrapExpression(env, NoneV, opts) == (if opts.codeEnvironment then Ok(Some("null")) else Ok(None))
    ensures UnwrapExpression(env, FilenameV(g), opts) ==
              Ok(Some(if opts.codeEnvironment then "\"" + g + "\"" else g))
  {
  }

  /** Step nodes, wildcard selectors and values of no known kind are refused. */
  lemma RefusedValues(env: UnwrapEnv, v: Value, opts: UnwrapOptions)
    requires v.StepNodeV? || v.WildcardSelectorV? || v.OtherV?
    ensures UnwrapExpression(env, v, opts).Err?
  {
  }

  /**
   * A list renders as its elements unwrapped in a code environment, each wrapped in
   * `path(...)` for an output, joined by ", "; it fails iff one element fails.
   */
  lemma {:induction false} ListRendering(env: UnwrapEnv, items: seq<Value>, opts: UnwrapOptions)
    ensures var code := opts.(codeEnvironment := true);
            var r := UnwrapExpression(env, ListV(items), opts);
            && (r.Ok? <==> forall k :: 0 <= k < |items| ==> UnwrapExpression(env, items[k], code).Ok?)
            && (r.Ok? ==> exists elements: seq<string> ::
                  && |elements| == |items|
                  && r.value == Some(Join(", ", elements))
                  && forall k :: 0 <= k < |items| ==>
                       elements[k] == (if opts.forOutput then "path(" + UnwrapExpression(env, items[k], code).value.value + ")"
                                       else UnwrapExpression(env, items[k], code).value.value))
  {
    var v := ListV(items);
    var code := opts.(codeEnvironment := true);
    ElementsFrom(env, v, 0, code);
    if UnwrapExpression(env, v, opts).Ok? {
      var elements := UnwrapElements(env, v, 0, code).value;
      assert UnwrapExpression(env, v, opts).value == Some(Join(", ", elements));
    }
  }

  lemma {:induction false} ElementsFrom(env: UnwrapEnv, v: Value, k: nat, opts: UnwrapOptions)
    requires opts.codeEnvironment && k <= |Children(v)|
    ensures var r := UnwrapElements(env, v, k, opts);
            && (r.Ok? <==> forall j :: k <= j < |Children(v)| ==> UnwrapExpression(env, Children(v)[j], opts).Ok?)
            && (r.Ok? ==> forall j :: k <= j < |Children(v)| ==>
                  r.value[j - k] == (if v.ListV? && opts.forOutput
                                     then "path(" + UnwrapExpression(env, Children(v)[j], opts).value.value + ")"
                                     else UnwrapExpression(env, Children(v)[j], opts).value.value))
    decreases |Children(v)| - k
  {
    ElementsOkFrom(env, v, k, opts);
    if UnwrapElements(env, v, k, opts).Ok? {
      forall j | k <= j < |Children(v)|
        ensures UnwrapElements(env, v, k, opts).value[j - k]
                == (if v.ListV? && opts.forOutput
                    then "path(" + UnwrapExpression(env, Children(v)[j], opts).value.value + ")"
                    else UnwrapExpression(env, Children(v)[j], opts).value.value)
      {
        ElementAt(env, v, k, opts, j);
      }
    }
  }

  /** The elements from k on succeed exactly when every child from k on does. */
  lemma {:induction false} ElementsOkFrom(env: UnwrapEnv, v: Value, k: nat, opts: UnwrapOptions)
    requires opts.codeEnvironment && k <= |Children(v)|
    ensures UnwrapElements(env, v, k, opts).Ok?
            <==> forall j :: k <= j < |Children(v)| ==> UnwrapExpression(env, Children(v)[j], opts).Ok?
    decreases |Children(v)| - k
  {
    if k < |Children(v)| {
      ElementsOkFrom(env, v, k + 1, opts);
    }
  }

  /** The element for child j is that child unwrapped, wrapped in path(...) for an output list. */
  lemma {:induction false} ElementAt(env: UnwrapEnv, v: Value, k: nat, opts: UnwrapOptions, j: nat)
    requires opts.codeEnvironment && k <= j < |Children(v)|
    requires UnwrapElements(env, v, k, opts).Ok?
    ensures UnwrapExpression(env, Children(v)[j], opts).Ok?
    ensures UnwrapElements(env, v, k, opts).value[j - k]
            == (if v.ListV? && opts.forOutput
                then "path(" + UnwrapExpression(env, Children(v)[j], opts).value.value + ")"
                else UnwrapExpression(env, Children(v)[j], opts).value.value)
    decreases j - k
  {
    ElementsHead(env, v, k, opts);
    if j > k {
      ElementAt(env, v, k + 1, opts, j);
      var r, rest := UnwrapElements(env, v, k, opts).value, UnwrapElements(env, v, k + 1, opts).value;
      assert r[j - k] == rest[j - (k + 1)];
    }
  }

  /** The first element from k on is child k's, followed by the elements from k + 1 on. */
  lemma ElementsHead(env: UnwrapEnv, v: Value, k: nat, opts: UnwrapOptions)
    requires opts.codeEnvironment && k < |Children(v)|
    requires UnwrapElements(env, v, k, opts).Ok?
    ensures var e := UnwrapExpression(env, Children(v)[k], opts);
            var rest := UnwrapElements(env, v, k + 1, opts);
            && e.Ok? && rest.Ok?
            && UnwrapElements(env, v, k, opts).value
               == [if v.ListV? && opts.forOutput then "path(" + e.value.value + ")" else e.value.value] + rest.value
  {
  }

  /** A ToolArgument as the script builder reads it. */
  datatype ToolArgument = ToolArgument(value: string, position: Option<int>, prefix: Option<string>)

  datatype ScriptItem = ArgItem(argument: ToolArgument) | InputItem(input: ToolInput)

  /** The base command: None, one string, or a list of words. */
  datatype BaseCommand = NoCommand | CommandString(command: string) | CommandWords(words: seq<string>)

  datatype CommandTool = CommandTool(
    id: string,
    baseCommand: BaseCommand,
    arguments: seq<ToolArgument>,
    inputs: seq<ToolInput>)

  function Position(item: ScriptItem): Option<int>
  {
    if item.ArgItem? then item.argument.position else item.input.position
  }

  /** The item is placed on the command line: it has a position or a prefix. */
  predicate Placed(item: ScriptItem)
  {
    match item
    case ArgItem(a) => a.position.Some? || a.prefix.Some?
    case InputItem(i) => i.position.Some? || i.prefix.Some?
  }

  /** The sort key `a.position or 0`. */
  function PositionKey(item: ScriptItem): real
  {
    if Position(item).Some? then Position(item).value as real else 0.0
  }

  function PlacedArguments(args: seq<ToolArgument>): (r: seq<ScriptItem>)
    ensures forall x :: x in r ==> x.ArgItem? && Placed(x)
  {
    if |args| == 0 then []
    else (if Placed(ArgItem(args[0])) then [ArgItem(args[0])] else []) + PlacedArguments(args[1..])
  }

  function PlacedInputs(inputs: seq<ToolInput>): (r: seq<ScriptItem>)
    ensures forall x :: x in r ==> x.InputItem? && Placed(x)
  {
    if |inputs| == 0 then []
    else (if Placed(InputItem(inputs[0])) then [InputItem(inputs[0])] else []) + PlacedInputs(inputs[1..])
  }

  /** The command-line items of the script, in the order they are emitted. */
  function ScriptItems(tool: CommandTool): seq<ScriptItem>
  {
    SS.SortBy(PlacedArguments(tool.arguments) + PlacedInputs(tool.inputs), PositionKey)
  }

  function RenderItem(item: ScriptItem): string
  {
    match item
    case InputItem(i) => "$" + i.id + "WithPrefix"
    case ArgItem(a) => a.value
  }

  function BaseCommandParts(bc: BaseCommand): seq<string>
  {
    match bc
    case NoCommand => []
    case CommandString(s) => if s == "" then [] else [s]
    case CommandWords(ws) => if |ws| == 0 then [] else [Join(" ", ws)]
  }

  function RenderItems(items: seq<ScriptItem>): (r: seq<string>)
    ensures |r| == |items| && forall k :: 0 <= k < |items| ==> r[k] == RenderItem(items[k])
  {
    if |items| == 0 then [] else RenderItems(items[..|items| - 1]) + [RenderItem(items[|items| - 1])]
  }

  /** The tool's script: the command-line parts joined by ` \` line breaks, output to the stdout file. */
  function ScriptFor(tool: CommandTool, stdoutFilename: string): string
  {
    var pargs := BaseCommandParts(tool.baseCommand) + RenderItems(ScriptItems(tool));
    "\n" + Join(" \\\n", pargs) + " > " + stdoutFilename + "\n\n"
  }

  /** prepare_script_for_tool: filter, stable-sort by position, render each item. */
  method PrepareScriptForTool(tool: CommandTool, stdoutFilename: string) returns (script: string)
    ensures script == ScriptFor(tool, stdoutFilename)
  {
    var pargs := BaseCommandParts(tool.baseCommand);
    var args := ScriptItems(tool);
    var k := 0;
    while k < |args|
      invariant 0 <= k <= |args|
      invariant pargs == BaseCommandParts(tool.baseCommand) + RenderItems(args[..k])
    {
      assert args[..k + 1][..k] == args[..k];
      pargs := pargs + [RenderItem(args[k])];
      k := k + 1;
    }
    assert args[..k] == args;
    script := "\n" + Join(" \\\n", pargs) + " > " + stdoutFilename + "\n\n";
  }

  /**
   * The script's items are exactly the placed arguments and inputs, ascending by
   * position (None counting as 0), and among items of equal position every argument
   * comes before every input, each group in declaration order.
   */
  lemma ScriptItemOrder(tool: CommandTool)
    ensures multiset(ScriptItems(tool)) ==
            multiset(PlacedArguments(tool.arguments) + PlacedInputs(tool.inputs))
    ensures forall x :: x in ScriptItems(tool) ==> Placed(x)
    ensures forall i, j :: 0 <= i < j < |ScriptItems(tool)| ==>
              PositionKey(ScriptItems(tool)[i]) <= PositionKey(ScriptItems(tool)[j])
    ensures forall p :: SS.WithKey(ScriptItems(tool), PositionKey, p) ==
              SS.WithKey(PlacedArguments(tool.arguments), PositionKey, p) +
              SS.WithKey(PlacedInputs(tool.inputs), PositionKey, p)
  {
    var a, b := PlacedArguments(tool.arguments), PlacedInputs(tool.inputs);
    SS.SortBySortedAndStable(a + b, PositionKey);
    forall x | x in ScriptItems(tool)
      ensures Placed(x)
    {
      assert x in multiset(a + b);
    }
    forall p
      ensures SS.WithKey(ScriptItems(tool), PositionKey, p) ==
              SS.WithKey(a, PositionKey, p) + SS.WithKey(b, PositionKey, p)
    {
      SS.WithKeyAppend(a, b, PositionKey, p);
    }
  }

  /** A map built from key/value pairs in order; a later pair for a key wins. */
  function PairsToMap(pairs: seq<(string, string)>): map<string, string>
  {
    if |pairs| == 0 then map[]
    else PairsToMap(pairs[..|pairs| - 1])[pairs[|pairs| - 1].0 := pairs[|pairs| - 1].1]
  }

  /** The number of inputs among `inputs` that get a numbered placeholder path. */
  function PlaceholderCount(inputs: seq<ToolInput>, provided: map<string, string>): nat
  {
    if |inputs| == 0 then 0
    else PlaceholderCount(inputs[..|inputs| - 1], provided)
         + (if NeedsPlaceholder(inputs[|inputs| - 1], provided) then 1 else 0)
  }

  /** A File or Directory input with no provided value and no generated filename. */
  predicate NeedsPlaceholder(i: ToolInput, provided: map<string, string>)
  {
    !i.intype.Filename? && i.id !in provided && J.IsFileLike(i.intype)
  }

  /** The value build_inputs_file writes for the k-th input. */
  function InputsFileValue(env: UnwrapEnv, inputs: seq<ToolInput>, k: nat, provided: map<string, string>,
                           noFilePathPrefix: string): string
    requires k < |inputs|
  {
    var i := inputs[k];
    if i.intype.Filename? then "'" + i.intype.generated + "'"
    else if i.id in provided then provided[i.id]
    else if J.IsFileLike(i.intype) then noFilePathPrefix + IntToString(PlaceholderCount(inputs[..k + 1], provided))
    else ""
  }

  function InputsFileEntries(env: UnwrapEnv, inputs: seq<ToolInput>, n: nat, provided: map<string, string>,
                             noFilePathPrefix: string): (r: seq<(string, string)>)
    requires n <= |inputs|
    ensures |r| == n
  {
    if n == 0 then []
    else InputsFileEntries(env, inputs, n - 1, provided, noFilePathPrefix)
         + [(inputs[n - 1].id, InputsFileValue(env, inputs, n - 1, provided, noFilePathPrefix))]
  }

  /**
   * build_inputs_file: one entry per tool input.  A Filename input gets its generated
   * name unwrapped as a string; a provided value is kept; a missing File or Directory
   * gets the placeholder prefix and the next counter value; any other missing input
   * gets the empty string.  Provided values are given as text.
   */
  method BuildInputsFile(env: UnwrapEnv, inputs: seq<ToolInput>, provided: map<string, string>,
                         noFilePathPrefix: string)
    returns (inp: map<string, string>)
    ensures inp == PairsToMap(InputsFileEntries(env, inputs, |inputs|, provided, noFilePathPrefix))
  {
    var count := 0;
    inp := map[];
    var k := 0;
    while k < |inputs|
      invariant 0 <= k <= |inputs|
      invariant count == PlaceholderCount(inputs[..k], provided)
      invariant inp == PairsToMap(InputsFileEntries(env, inputs, k, provided, noFilePathPrefix))
    {
      var i := inputs[k];
      InputsFileStep(env, inputs, k, provided, noFilePathPrefix, count);
      var val, next := InputsFileEntry(env, i, provided, noFilePathPrefix, count);
      count := next;
      inp := inp[i.id := val];
      k := k + 1;
    }
  }

  /** The body of build_inputs_file's loop for one input, given the counter so far. */
  method InputsFileEntry(env: UnwrapEnv, i: ToolInput, provided: map<string, string>,
                         noFilePathPrefix: string, count: nat)
    returns (val: string, next: nat)
    ensures next == count + (if NeedsPlaceholder(i, provided) then 1 else 0)
    ensures val == EntryValue(i, provided, noFilePathPrefix, count)
  {
    next := count;
    var v: Option<string> := if i.id in provided then Some(provided[i.id]) else None;
    if i.intype.Filename? {
      var opts := UnwrapOptions(true, map[], false, None, false);
      ScalarRendering(env, opts, i.intype.generated, 0, "");
      var unwrapped := UnwrapExpression(env, StrV(i.intype.generated), opts);
      v := unwrapped.value;
    }
    if v.None? {
      if J.IsFileLike(i.intype) {
        next := next + 1;
        v := Some(noFilePathPrefix + IntToString(next));
      } else {
        v := Some("");
      }
    }
    val := v.value;
  }

  /** The value written for input i when `count` placeholders were handed out before it. */
  function EntryValue(i: ToolInput, provided: map<string, string>, noFilePathPrefix: string, count: nat): string
  {
    if i.intype.Filename? then "'" + i.intype.generated + "'"
    else if i.id in provided then provided[i.id]
    else if J.IsFileLike(i.intype) then noFilePathPrefix + IntToString(count + 1)
    else ""
  }

  lemma InputsFileStep(env: UnwrapEnv, inputs: seq<ToolInput>, k: nat, provided: map<string, string>,
                       noFilePathPrefix: string, count: nat)
    requires k < |inputs|
    requires count == PlaceholderCount(inputs[..k], provided)
    ensures PlaceholderCount(inputs[..k + 1], provided) ==
            count + (if NeedsPlaceholder(inputs[k], provided) then 1 else 0)
    ensures PairsToMap(InputsFileEntries(env, inputs, k + 1, provided, noFilePathPrefix)) ==
            PairsToMap(InputsFileEntries(env, inputs, k, provided, noFilePathPrefix))
              [inputs[k].id := EntryValue(inputs[k], provided, noFilePathPrefix, count)]
  {
    assert inputs[..k + 1][..k] == inputs[..k];
    assert InputsFileValue(env, inputs, k, provided, noFilePathPrefix) == EntryValue(inputs[k], provided, noFilePathPrefix, count);
    var e := InputsFileEntries(env, inputs, k + 1, provided, noFilePathPrefix);
    assert e[..k] == InputsFileEntries(env, inputs, k, provided, noFilePathPrefix);
  }

  /** The k-th entry of the inputs file belongs to the k-th input. */
  lemma {:induction false} InputsFileEntriesAt(env: UnwrapEnv, inputs: seq<ToolInput>, n: nat, provided: map<string, string>,
                                               noFilePathPrefix: string, k: nat)
    requires k < n <= |inputs|
    ensures InputsFileEntries(env, inputs, n, provided, noFilePathPrefix)[k] ==
            (inputs[k].id, InputsFileValue(env, inputs, k, provided, noFilePathPrefix))
  {
    if k < n - 1 {
      InputsFileEntriesAt(env, inputs, n - 1, provided, noFilePathPrefix, k);
    }
  }

  /**
   * Placeholder paths are numbered 1, 2, … in input order: the k-th placeholder input
   * gets number k, so no two inputs share a placeholder.
   */
  lemma {:induction false} PlaceholdersNumberedInOrder(inputs: seq<ToolInput>, provided: map<string, string>, i: nat, j: nat)
    requires i < j < |inputs|
    requires NeedsPlaceholder(inputs[i], provided) && NeedsPlaceholder(inputs[j], provided)
    ensures 1 <= PlaceholderCount(inputs[..i + 1], provided) < PlaceholderCount(inputs[..j + 1], provided)
  {
    PlaceholderCountMonotone(inputs, provided, i + 1, j);
    assert inputs[..j + 1][..j] == inputs[..j];
    assert inputs[..i + 1][..i] == inputs[..i];
  }

  lemma {:induction false} PlaceholderCountMonotone(inputs: seq<ToolInput>, provided: map<string, string>, m: nat, n: nat)
    requires m <= n <= |inputs|
    ensures PlaceholderCount(inputs[..m], provided) <= PlaceholderCount(inputs[..n], provided)
    decreases n - m
  {
    if m < n {
      PlaceholderCountMonotone(inputs, provided, m, n - 1);
      assert inputs[..n][..n - 1] == inputs[..n - 1];
    }
  }

  datatype ToolOutput = ToolOutput(tag: string, outputType: J.DataType)

  /** The value prepare_tool_output records for one output. */
  function ToolOutputValue(toolId: string, out: ToolOutput): string
  {
    if out.outputType.Stdout? then "STDOUT"
    else if out.outputType.Stderr? then "STDERR"
    else "$" + toolId + out.tag
  }

  function ToolOutputEntries(toolId: string, outputs: seq<ToolOutput>): (r: seq<(string, string)>)
    ensures |r| == |outputs|
    ensures forall k :: 0 <= k < |outputs| ==> r[k] == (outputs[k].tag, ToolOutputValue(toolId, outputs[k]))
  {
    if |outputs| == 0 then []
    else ToolOutputEntries(toolId, outputs[..|outputs| - 1])
         + [(outputs[|outputs| - 1].tag, ToolOutputValue(toolId, outputs[|outputs| - 1]))]
  }

  lemma ToolOutputMapStep(toolId: string, outputs: seq<ToolOutput>, k: nat)
    requires k < |outputs|
    ensures PairsToMap(ToolOutputEntries(toolId, outputs[..k + 1]))
         == PairsToMap(ToolOutputEntries(toolId, outputs[..k]))[outputs[k].tag := ToolOutputValue(toolId, outputs[k])]
  {
    assert outputs[..k + 1][..k] == outputs[..k];
  }

  /** prepare_tool_output: every output tag mapped to STDOUT, STDERR or `$toolid<tag>`. */
  method PrepareToolOutput(toolId: string, outputs: seq<ToolOutput>) returns (r: map<string, string>)
    ensures r == PairsToMap(ToolOutputEntries(toolId, outputs))
  {
    r := map[];
    var k := 0;
    while k < |outputs|
      invariant 0 <= k <= |outputs|
      invariant r == PairsToMap(ToolOutputEntries(toolId, outputs[..k]))
    {
      var out := outputs[k];
      var val: string;
      if out.outputType.Stdout? {
        val := "STDOUT";
      } else if out.outputType.Stderr? {
        val := "STDERR";
      } else {
        val := "$" + toolId + out.tag;
      }
      ToolOutputMapStep(toolId, outputs, k);
      r := r[out.tag := val];
      k := k + 1;
    }
    assert outputs[..k] == outputs;
  }

  /** Every output tag has an entry, and nothing else does. */
  lemma ToolOutputKeys(toolId: string, outputs: seq<ToolOutput>)
    ensures forall k :: 0 <= k < |outputs| ==> outputs[k].tag in PairsToMap(ToolOutputEntries(toolId, outputs))
    ensures forall t :: t in PairsToMap(ToolOutputEntries(toolId, outputs)) ==>
                        exists k :: 0 <= k < |outputs| && outputs[k].tag == t
  {
    var entries := ToolOutputEntries(toolId, outputs);
    PairsToMapKeys(entries);
    forall k | 0 <= k < |outputs|
      ensures outputs[k].tag in PairsToMap(entries)
    {
      assert entries[k].0 == outputs[k].tag;
    }
  }

  /** A key is in the map built from pairs exactly when some pair carries it. */
  lemma {:induction false} PairsToMapKeys(pairs: seq<(string, string)>)
    ensures forall t :: t in PairsToMap(pairs) <==> exists k :: 0 <= k < |pairs| && pairs[k].0 == t
  {
    if |pairs| > 0 {
      var init := pairs[..|pairs| - 1];
      PairsToMapKeys(init);
      forall t | t in PairsToMap(pairs)
        ensures exists k :: 0 <= k < |pairs| && pairs[k].0 == t
      {
        if t != pairs[|pairs| - 1].0 {
          assert t in PairsToMap(init);
          var k :| 0 <= k < |init| && init[k].0 == t;
          assert pairs[k].0 == t;
        }
      }
      forall t | exists k :: 0 <= k < |pairs| && pairs[k].0 == t
        ensures t in PairsToMap(pairs)
      {
        var k :| 0 <= k < |pairs| && pairs[k].0 == t;
        if k < |pairs| - 1 {
          assert init[k].0 == t;
        }
      }
    }
  }

  /** The definition line prepare_expression_inputs and prepare_optional_inputs emit. */
  function DefLine(name: string, value: string): string
  {
    "\ndef " + name + " = " + value + "\n"
  }

  /** The value bound to `<id>WithPrefix`: arrays joined by spaces, optional values wrapped. */
  function OptionalInputValue(i: ToolInput): string
  {
    var v := if i.intype.Array? then i.id + ".join(' ')" else i.id;
    if i.intype.optional then "optional(" + v + ", '" + (if i.prefix.Some? then i.prefix.value else "") + "')"
    else v
  }

  function OptionalInputsCode(inputs: seq<ToolInput>): string
  {
    if |inputs| == 0 then ""
    else OptionalInputsCode(inputs[..|inputs| - 1]) + OptionalInputDef(inputs[|inputs| - 1])
  }

  function OptionalInputDef(i: ToolInput): string
  {
    "\ndef " + i.id + "WithPrefix =  " + OptionalInputValue(i) + "\n"
  }

  lemma OptionalInputsCodeStep(inputs: seq<ToolInput>, k: nat)
    requires k < |inputs|
    ensures OptionalInputsCode(inputs[..k + 1]) == OptionalInputsCode(inputs[..k]) + OptionalInputDef(inputs[k])
  {
    assert inputs[..k + 1][..k] == inputs[..k];
  }

  /** prepare_optional_inputs: one `def <id>WithPrefix =  <value>` block per input, in order. */
  method PrepareOptionalInputs(inputs: seq<ToolInput>) returns (code: string)
    ensures code == OptionalInputsCode(inputs)
  {
    code := "";
    var k := 0;
    while k < |inputs|
      invariant 0 <= k <= |inputs|
      invariant code == OptionalInputsCode(inputs[..k])
    {
      var a := inputs[k];
      var argValue := if a.intype.Array? then a.id + ".join(' ')" else a.id;
      if a.intype.optional {
        var prefix := if a.prefix.Some? then a.prefix.value else "";
        argValue := "optional(" + argValue + ", '" + prefix + "')";
      }
      var line := "\ndef " + a.id + "WithPrefix =  " + argValue + "\n";
      OptionalInputsCodeStep(inputs, k);
      code := code + line;
      k := k + 1;
    }
    assert inputs[..k] == inputs;
  }

  /**
   * A non-optional scalar input is bound to itself and a non-optional array to its
   * space-joined elements; an optional one goes through `optional(v, 'prefix')`, with an
   * empty prefix when the input has none.
   */
  lemma OptionalInputBinding(i: ToolInput)
    ensures !i.intype.optional && !i.intype.Array? ==> OptionalInputValue(i) == i.id
    ensures !i.intype.optional && i.intype.Array? ==> OptionalInputValue(i) == i.id + ".join(' ')"
    ensures i.intype.optional && !i.intype.Array? && i.prefix.None? ==>
              OptionalInputValue(i) == "optional(" + i.id + ", '')"
    ensures i.intype.optional && !i.intype.Array? && i.prefix.Some? ==>
              OptionalInputValue(i) == "optional(" + i.id + ", '" + i.prefix.value + "')"
    ensures i.intype.optional && i.intype.Array? && i.prefix.None? ==>
              OptionalInputValue(i) == "optional(" + i.id + ".join(' '), '')"
    ensures i.intype.optional && i.intype.Array? && i.prefix.Some? ==>
              OptionalInputValue(i) == "optional(" + i.id + ".join(' '), '" + i.prefix.value + "')"
    ensures i.intype.optional ==> StartsWith(OptionalInputValue(i), "optional(")
  {
    if i.intype.optional {
      assert OptionalInputValue(i)[..9] == "optional(";
    }
  }

  function FilenameDefs(inputs: seq<ToolInput>): string
  {
    if |inputs| == 0 then ""
    else
      var i := inputs[|inputs| - 1];
      FilenameDefs(inputs[..|inputs| - 1]) + (if i.intype.Filename? then DefLine(i.id, "'" + i.intype.generated + "'") else "")
  }

  /** prepare_expression_inputs: a `def <id> = '<generated>'` block per Filename input. */
  method PrepareExpressionInputs(env: UnwrapEnv, inputs: seq<ToolInput>) returns (code: string)
    ensures code == FilenameDefs(inputs)
  {
    code := "";
    var k := 0;
    while k < |inputs|
      invariant 0 <= k <= |inputs|
      invariant code == FilenameDefs(inputs[..k])
    {
      var i := inputs[k];
      assert inputs[..k + 1][..k] == inputs[..k];
      if i.intype.Filename? {
        var val := UnwrapExpression(env, StrV(i.intype.generated), UnwrapOptions(true, map[], false, None, false));
        code := code + "\ndef " + i.id + " = " + val.value.value + "\n";
      }
      k := k + 1;
    }
    assert inputs[..k] == inputs;
  }

  datatype InputQualifier = InPath | InVal
  datatype OutputQualifier = OutTuple | OutStdout | OutPath | OutVal

  /** get_input_qualifier_for_inptype. */
  function InputQualifierFor(t: J.DataType): InputQualifier
  {
    var b := if t.Array? then J.BaseType(t) else t;
    if J.IsFileLike(b) then InPath else InVal
  }

  /** get_output_qualifier_for_outtype: Array, then Stdout, then File/Directory. */
  function OutputQualifierFor(t: J.DataType): OutputQualifier
  {
    if t.Array? then OutTuple
    else if t.Stdout? then OutStdout
    else if J.IsFileLike(t) then OutPath
    else OutVal
  }

  /**
   * The two qualifier choices agree: an input is a path exactly when its base type is
   * a file, and a non-array output is a path or stdout exactly when the same type as an
   * input would be a path.
   */
  lemma QualifiersAgree(t: J.DataType)
    ensures t.Array? ==> OutputQualifierFor(t) == OutTuple
    ensures t.Stdout? ==> OutputQualifierFor(t) == OutStdout
    ensures InputQualifierFor(t) == InPath <==> J.IsFileType(t)
    ensures !t.Array? ==> (OutputQualifierFor(t) in {OutPath, OutStdout} <==> InputQualifierFor(t) == InPath)
    ensures OutputQualifierFor(t) == OutVal <==> !t.Array? && InputQualifierFor(t) == InVal
  {
  }
}
