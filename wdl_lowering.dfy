/**
 * The WDL translator's lowering of values, tool inputs and dot-scattered calls.
 * The translator module itself is not part of this model; what is modelled here is
 * the behaviour janis_core/tests/test_translation_wdl.py fixes with exact strings, and
 * command inputs of kinds no test fixes are reported as unmodelled (None) rather than guessed.
 */
module WdlLowering {
  import opened Wrappers
  import opened Text
  import J = JanisTypes

  // ---------------------------------------------------------------------------
  // Dot-scatter over several fields: a right-nested zip and its projections
  // ---------------------------------------------------------------------------

  /** The value a WDL `zip` builds: a field array, or pairs of zipped values. */
  datatype Zipped = Field(expr: string) | Zip(left: Zipped, right: Zipped)

  /** zip(a, zip(b, ... zip(y, z))): each field pairs with the zip of the rest. */
  function ZipOf(sources: seq<string>): Zipped
    requires |sources| >= 1
  {
    if |sources| == 1 then Field(sources[0]) else Zip(Field(sources[0]), ZipOf(sources[1..]))
  }

  /** The WDL text of a zipped value. */
  function ZipText(z: Zipped): string
  {
    match z
    case Field(e) => e
    case Zip(l, r) => "zip(" + ZipText(l) + ", " + ZipText(r) + ")"
  }

  /** "zip(s, " for every source but the last: the opening half of the nested zip. */
  function ZipOpenings(sources: seq<string>): string
  {
    if |sources| == 0 then "" else "zip(" + sources[0] + ", " + ZipOpenings(sources[1..])
  }

  /**
   * The nested zip written flat: one opening per source but the last, the last
   * source, then one closing parenthesis per opening.
   */
  lemma {:induction false} ZipTextFlat(sources: seq<string>)
    requires |sources| >= 1
    ensures ZipText(ZipOf(sources))
         == ZipOpenings(sources[..|sources| - 1]) + sources[|sources| - 1] + Repeat(")", |sources| - 1)
  {
    var n := |sources|;
    if n == 1 {
      assert sources[..0] == [];
    } else {
      var rest := sources[1..];
      var init := sources[..n - 1];
      ZipTextFlat(rest);
      assert init[1..] == rest[..n - 2];
      assert init[0] == sources[0];
      assert rest[n - 2] == sources[n - 1];
      var o := ZipOpenings(rest[..n - 2]);
      var l := sources[n - 1];
      var c := Repeat(")", n - 2);
      assert ZipOpenings(init) == "zip(" + sources[0] + ", " + o;
      RepeatSnoc(")", n - 2);
      assert ZipOf(sources) == Zip(Field(sources[0]), ZipOf(rest));
      assert ZipText(ZipOf(sources)) == "zip(" + sources[0] + ", " + (o + l + c) + ")";
      ZipRegrouped(sources[0], o, l, c);
    }
  }

  /** The opening of one more zip joins the openings; its parenthesis joins the closings. */
  lemma ZipRegrouped(first: string, o: string, l: string, c: string)
    ensures "zip(" + first + ", " + (o + l + c) + ")" == ("zip(" + first + ", " + o) + l + (c + ")")
  {
  }

  datatype Side = Left | Right

  function Rights(m: nat): seq<Side>
  {
    if m == 0 then [] else [Right] + Rights(m - 1)
  }

  /**
   * The path to field k (from 0) of n zipped fields: k times right then left, and
   * for the last field n - 1 times right.
   */
  function Projection(k: nat, n: nat): seq<Side>
    requires k < n
  {
    if k == n - 1 then Rights(n - 1) else Rights(k) + [Left]
  }

  /** Following a path through a zipped value. */
  function Follow(z: Zipped, path: seq<Side>): Option<Zipped>
  {
    if |path| == 0 then Some(z)
    else match z
      case Field(_) => None
      case Zip(l, r) => Follow(if path[0] == Left then l else r, path[1..])
  }

  function SideText(d: Side): string
  {
    if d == Left then ".left" else ".right"
  }

  function PathText(path: seq<Side>): string
  {
    if |path| == 0 then "" else SideText(path[0]) + PathText(path[1..])
  }

  /** The expression that binds field k of n inside `scatter (Q in ...)`. */
  function ProjectionText(q: string, k: nat, n: nat): string
    requires k < n
  {
    q + PathText(Projection(k, n))
  }

  lemma ProjectionStep(k: nat, n: nat)
    requires 0 < k < n
    ensures Projection(k, n) == [Right] + Projection(k - 1, n - 1)
  {
    if k != n - 1 {
      assert Rights(k) + [Left] == [Right] + (Rights(k - 1) + [Left]);
    }
  }

  /** Each projection reaches exactly the field it binds in the nested zip. */
  lemma {:induction false} ProjectionSelectsField(sources: seq<string>, k: nat)
    requires k < |sources|
    ensures Follow(ZipOf(sources), Projection(k, |sources|)) == Some(Field(sources[k]))
  {
    var n := |sources|;
    if n == 1 {
      assert Projection(k, n) == [];
    } else if k == 0 {
      var p := Projection(0, n);
      assert p == [Left];
      assert ZipOf(sources) == Zip(Field(sources[0]), ZipOf(sources[1..]));
      assert Follow(ZipOf(sources), p) == Follow(Field(sources[0]), p[1..]);
      assert p[1..] == [];
    } else {
      ProjectionStep(k, n);
      var p := Projection(k - 1, n - 1);
      var rest := sources[1..];
      assert ([Right] + p)[1..] == p;
      assert ZipOf(sources) == Zip(Field(sources[0]), ZipOf(rest));
      assert Follow(ZipOf(sources), [Right] + p) == Follow(ZipOf(rest), p);
      ProjectionSelectsField(rest, k - 1);
      assert rest[k - 1] == sources[k];
    }
  }

  lemma {:induction false} PathTextAppend(a: seq<Side>, b: seq<Side>)
    ensures PathText(a + b) == PathText(a) + PathText(b)
  {
    if |a| > 0 {
      assert (a + b)[1..] == a[1..] + b;
      PathTextAppend(a[1..], b);
    } else {
      assert a + b == b;
    }
  }

  lemma {:induction false} PathTextRights(m: nat)
    ensures PathText(Rights(m)) == Repeat(".right", m)
  {
    if m > 0 {
      assert (([Right] + Rights(m - 1)))[1..] == Rights(m - 1);
      PathTextRights(m - 1);
    }
  }

  /**
   * Field 1 of n is Q.left, a middle field k is Q then k - 1 times .right then
   * .left, and field n is Q then n - 1 times .right (counting fields from 1).
   */
  lemma ProjectionTextShape(q: string, k: nat, n: nat)
    requires k < n
    ensures k < n - 1 ==> ProjectionText(q, k, n) == q + (Repeat(".right", k) + ".left")
    ensures k == n - 1 ==> ProjectionText(q, k, n) == q + Repeat(".right", n - 1)
  {
    PathTextRights(k);
    if k < n - 1 {
      PathTextAppend(Rights(k), [Left]);
      assert PathText([Left]) == ".left";
    }
  }

  /** An input of the step: its id, the expression feeding it, its secondary extensions. */
  datatype StepInput = StepInput(id: string, source: string, secondaries: seq<string>)

  /** The name that carries a secondary file: `inp` with `.qt` gives `inp_qt`. */
  function SecondaryName(base: string, ext: string): string
  {
    base + "_" + LStrip(ext, '.')
  }

  function SecondaryNames(base: string, exts: seq<string>): (r: seq<string>)
    ensures |r| == |exts|
    ensures forall j :: 0 <= j < |exts| ==> r[j] == SecondaryName(base, exts[j])
  {
    if |exts| == 0 then [] else [SecondaryName(base, exts[0])] + SecondaryNames(base, exts[1..])
  }

  /** What a scattered field iterates over: its source, or the transposed file groups. */
  function FieldSource(inp: StepInput): string
  {
    if |inp.secondaries| == 0 then inp.source
    else "transpose([" + Join(", ", [inp.source] + SecondaryNames(inp.source, inp.secondaries)) + "])"
  }

  /** The call bindings of a scattered input whose element is the expression e. */
  function ScatteredBindings(inp: StepInput, e: string): (r: seq<string>)
    ensures |r| == 1 + |inp.secondaries|
  {
    if |inp.secondaries| == 0 then [inp.id + "=" + e]
    else
      [inp.id + "=" + e + "[0]"]
      + seq(|inp.secondaries|, j requires 0 <= j < |inp.secondaries| =>
              SecondaryName(inp.id, inp.secondaries[j]) + "=" + e + ("[" + NatToString(j + 1) + "]"))
  }

  /** The call bindings of an input that is not scattered. */
  function PlainBindings(inp: StepInput): (r: seq<string>)
    ensures |r| == 1 + |inp.secondaries|
  {
    [inp.id + "=" + inp.source]
    + seq(|inp.secondaries|, j requires 0 <= j < |inp.secondaries| =>
            SecondaryName(inp.id, inp.secondaries[j]) + "=" + SecondaryName(inp.source, inp.secondaries[j]))
  }

  /**
   * A scattered file with one secondary iterates over transpose([inp, inp_qt]) and
   * binds the primary to element [0] and the secondary to element [1].
   */
  lemma SecondaryTransposition(inp: StepInput, e: string)
    requires |inp.secondaries| == 1
    ensures FieldSource(inp)
         == "transpose([" + (inp.source + ", " + SecondaryName(inp.source, inp.secondaries[0])) + "])"
    ensures ScatteredBindings(inp, e)
         == [inp.id + "=" + e + "[0]", SecondaryName(inp.id, inp.secondaries[0]) + "=" + e + "[1]"]
  {
    var names := [inp.source] + SecondaryNames(inp.source, inp.secondaries);
    assert names[1..] == [SecondaryName(inp.source, inp.secondaries[0])];
    assert Join(", ", names) == inp.source + ", " + SecondaryName(inp.source, inp.secondaries[0]);
    assert NatToString(1) == "1";
    var b := ScatteredBindings(inp, e);
    assert |b| == 2;
    assert b[0] == inp.id + "=" + e + "[0]";
    assert b[1] == SecondaryName(inp.id, inp.secondaries[0]) + "=" + e + ("[" + NatToString(1) + "]");
    assert "[" + NatToString(1) + "]" == "[1]";
    assert b == [b[0], b[1]];
  }

  function IndexOf(fields: seq<string>, id: string): (r: nat)
    ensures r <= |fields|
    ensures r < |fields| ==> fields[r] == id && id !in fields[..r]
    ensures r == |fields| <==> id !in fields
  {
    if |fields| == 0 then 0
    else if fields[0] == id then 0
    else
      var r := 1 + IndexOf(fields[1..], id);
      assert r < |fields| ==> fields[..r] == [fields[0]] + fields[1..][..r - 1];
      r
  }

  function InputNamed(inputs: seq<StepInput>, id: string): StepInput
    requires exists k :: 0 <= k < |inputs| && inputs[k].id == id
  {
    if inputs[0].id == id then inputs[0] else InputNamed(inputs[1..], id)
  }

  /** The scatter annotation names at least one field, and every field is a step input. */
  predicate ValidScatter(inputs: seq<StepInput>, fields: seq<string>)
  {
    |fields| >= 1 && forall f :: f in fields ==> exists k :: 0 <= k < |inputs| && inputs[k].id == f
  }

  function FieldSources(inputs: seq<StepInput>, fields: seq<string>): (r: seq<string>)
    requires ValidScatter(inputs, fields)
    ensures |r| == |fields|
  {
    seq(|fields|, k requires 0 <= k < |fields| =>
          assert fields[k] in fields; FieldSource(InputNamed(inputs, fields[k])))
  }

  /** The scatter header: `i in src` for one field, `Q in zip(...)` for several. */
  function ScatterHeader(inputs: seq<StepInput>, fields: seq<string>): string
    requires ValidScatter(inputs, fields)
  {
    if |fields| == 1 then "i in " + FieldSources(inputs, fields)[0]
    else "Q in " + ZipText(ZipOf(FieldSources(inputs, fields)))
  }

  /** The element expression of scattered field k. */
  function ScatterElement(fields: seq<string>, k: nat): string
    requires k < |fields|
  {
    if |fields| == 1 then "i" else ProjectionText("Q", k, |fields|)
  }

  function InputBindings(inp: StepInput, fields: seq<string>): seq<string>
  {
    var k := IndexOf(fields, inp.id);
    if k < |fields| then ScatteredBindings(inp, ScatterElement(fields, k)) else PlainBindings(inp)
  }

  /** The bindings of every step input, in the step's input order. */
  function CallBindings(inputs: seq<StepInput>, fields: seq<string>): seq<string>
  {
    if |inputs| == 0 then []
    else CallBindings(inputs[..|inputs| - 1], fields) + InputBindings(inputs[|inputs| - 1], fields)
  }

  /** Each binding line is indented, and every one but the last ends with a comma. */
  function BindingLines(bindings: seq<string>): (r: seq<string>)
    ensures |r| == |bindings|
    ensures forall k :: 0 <= k < |bindings| - 1 ==> r[k] == "      " + bindings[k] + ","
    ensures |bindings| > 0 ==> r[|bindings| - 1] == "      " + bindings[|bindings| - 1]
  {
    seq(|bindings|, k requires 0 <= k < |bindings| =>
          "      " + bindings[k] + (if k < |bindings| - 1 then "," else ""))
  }

  /** translate_step_node for a scattered step, rendered with indent 0. */
  function ScatteredCall(callee: string, alias: string, inputs: seq<StepInput>, fields: seq<string>): string
    requires ValidScatter(inputs, fields)
  {
    Join("\n",
      ["scatter (" + ScatterHeader(inputs, fields) + ") {",
       "   call " + callee + " as " + alias + " {",
       "    input:"]
      + BindingLines(CallBindings(inputs, fields))
      + ["  }", "}"])
  }

  /**
   * A single scattered field iterates as `i` directly over its source (no zip) and its
   * input is bound to `i`; with several fields the header zips them, nested to the
   * right, and each field's element is its projection.
   */
  lemma ScatterShape(inputs: seq<StepInput>, fields: seq<string>, k: nat)
    requires ValidScatter(inputs, fields) && k < |fields|
    ensures fields[0] in fields && fields[k] in fields
    ensures |fields| == 1 ==> ScatterHeader(inputs, fields) == "i in " + FieldSource(InputNamed(inputs, fields[0]))
                              && ScatterElement(fields, k) == "i"
    ensures |fields| > 1 ==> ScatterHeader(inputs, fields) == "Q in " + ZipText(ZipOf(FieldSources(inputs, fields)))
                             && Follow(ZipOf(FieldSources(inputs, fields)), Projection(k, |fields|))
                                == Some(Field(FieldSource(InputNamed(inputs, fields[k]))))
  {
    if |fields| > 1 {
      ProjectionSelectsField(FieldSources(inputs, fields), k);
    }
  }

  // ---------------------------------------------------------------------------
  // Values in command lines and string formatters
  // ---------------------------------------------------------------------------

  /** A value a tool input or string formatter may hold. */
  datatype WValue =
    | NoneW
    | StrW(s: string)
    | IntW(i: int)
    | BoolW(b: bool)
    | FilenameW(generated: string)
    | InputSel(name: string)
    | WildcardSel(pattern: string)
    | CpuSel(defaultCpus: Option<int>)
    /** An object with a `wdl` attribute: callable (returning `text`) or not. */
    | WdlObject(callable: bool, text: string)
    | Formatter(format: string, kwargs: seq<Kwarg>)

  datatype Kwarg = Kwarg(key: string, value: WValue)

  /** A command-line tool input as the WDL translator reads it. */
  datatype CommandInput = CommandInput(
    tag: string,
    dtype: J.DataType,
    prefix: Option<string>,
    separateValueFromPrefix: bool,
    default: Option<WValue>)

  datatype WdlError = WildcardAsValue | NotCallable | NoInputs | MissingInput(name: string) | UnsupportedDefault

  function Quoted(s: string): string
  {
    "\"" + s + "\""
  }

  function BoolText(b: bool): string
  {
    if b then "true" else "false"
  }

  function CpuText(d: Option<int>): string
  {
    if d.Some? then "select_first([runtime_cpu, " + IntToString(d.value) + "])" else "runtime_cpu"
  }

  /**
   * A default written as a WDL literal (outside a string environment).  Selectors and
   * formatters are not read as defaults here.
   */
  function LiteralText(d: WValue): Result<string, WdlError>
  {
    match d
    case NoneW => Ok("")
    case StrW(s) => Ok(Quoted(s))
    case IntW(i) => Ok(IntToString(i))
    case BoolW(b) => Ok(BoolText(b))
    case FilenameW(g) => Ok(Quoted(g))
    case CpuSel(c) => Ok(CpuText(c))
    case WdlObject(callable, t) => if callable then Ok(t) else Err(NotCallable)
    case WildcardSel(_) => Err(WildcardAsValue)
    case _ => Err(UnsupportedDefault)
  }

  /** The reference an input selector makes: select_first with the default when there is one. */
  function SelectedName(name: string, ti: CommandInput): Result<string, WdlError>
  {
    if ti.default.Some? then
      match LiteralText(ti.default.value)
      case Err(e) => Err(e)
      case Ok(t) => Ok("select_first([" + name + ", " + t + "])")
    else if ti.dtype.Filename? then Ok("select_first([" + name + ", " + Quoted(ti.dtype.generated) + "])")
    else Ok(name)
  }

  /** translate_input_selector: `~{name}` in a string environment, bare otherwise. */
  function TranslateInputSelector(name: string, inputs: Option<map<string, CommandInput>>, stringEnvironment: bool)
    : Result<string, WdlError>
  {
    if inputs.None? then Err(NoInputs)
    else if name !in inputs.value then Err(MissingInput(name))
    else
      match SelectedName(name, inputs.value[name])
      case Err(e) => Err(e)
      case Ok(t) => Ok(if stringEnvironment then "~{" + t + "}" else t)
  }

  /** str.replace(pat, rep): every non-overlapping occurrence, left to right. */
  function ReplaceAll(s: string, pat: string, rep: string): string
    requires |pat| > 0
    decreases |s|
  {
    if |s| < |pat| then s
    else if s[..|pat|] == pat then rep + ReplaceAll(s[|pat|..], pat, rep)
    else [s[0]] + ReplaceAll(s[1..], pat, rep)
  }

  /** A text with no occurrence of the placeholder is left as it is. */
  lemma {:induction false} ReplaceAllAbsent(s: string, pat: string, rep: string)
    requires |pat| > 0
    requires forall i :: 0 <= i <= |s| ==> !OccursAt(s, pat, i)
    ensures ReplaceAll(s, pat, rep) == s
    decreases |s|
  {
    if |s| >= |pat| {
      assert !OccursAt(s, pat, 0);
      forall i | 0 <= i <= |s[1..]|
        ensures !OccursAt(s[1..], pat, i)
      {
        if OccursAt(s[1..], pat, i) {
          assert s[1..][i..i + |pat|] == s[i + 1..i + 1 + |pat|];
          assert OccursAt(s, pat, i + 1);
        }
      }
      ReplaceAllAbsent(s[1..], pat, rep);
      assert [s[0]] + s[1..] == s;
    }
  }

  /** Text in which the placeholder's first character never appears is copied unchanged. */
  lemma {:induction false} ReplaceAllSkips(a: string, b: string, pat: string, rep: string)
    requires |pat| > 0 && pat[0] !in a
    ensures ReplaceAll(a + b, pat, rep) == a + ReplaceAll(b, pat, rep)
    decreases |a|
  {
    if |a| == 0 {
      assert a + b == b;
    } else {
      var s := a + b;
      assert s[0] == a[0] && s[1..] == a[1..] + b;
      assert a[0] != pat[0];
      if |s| < |pat| {
        assert ReplaceAll(b, pat, rep) == b;
      } else {
        assert s[..|pat|] != pat by {
          assert s[..|pat|][0] == s[0];
        }
        assert pat[0] !in a[1..] by {
          forall x | x in a[1..] ensures x in a {
            var i :| 0 <= i < |a[1..]| && a[1..][i] == x;
            assert a[i + 1] == x;
          }
        }
        ReplaceAllSkips(a[1..], b, pat, rep);
        assert [a[0]] + a[1..] == a;
      }
    }
  }

  /** An occurrence at the front is replaced and the search goes on after it. */
  lemma ReplaceAllHit(b: string, pat: string, rep: string)
    requires |pat| > 0
    ensures ReplaceAll(pat + b, pat, rep) == rep + ReplaceAll(b, pat, rep)
  {
    assert (pat + b)[..|pat|] == pat;
    assert (pat + b)[|pat|..] == b;
  }

  /** A front that only starts like the placeholder keeps its first character. */
  lemma ReplaceAllMiss(x: string, y: string, pat: string, rep: string)
    requires 0 < |x| == |pat| && x != pat
    ensures ReplaceAll(x + y, pat, rep) == [x[0]] + ReplaceAll(x[1..] + y, pat, rep)
  {
    assert (x + y)[..|pat|] == x;
    assert (x + y)[1..] == x[1..] + y;
  }

  /** The placeholders of a formatter replaced one keyword after the other. */
  function Substitute(format: string, pairs: seq<(string, string)>): string
    decreases |pairs|
  {
    if |pairs| == 0 then format
    else Substitute(ReplaceAll(format, "{" + pairs[0].0 + "}", pairs[0].1), pairs[1..])
  }

  /** unwrap_expression. */
  function Unwrap(v: WValue, inputs: Option<map<string, CommandInput>>, stringEnvironment: bool)
    : Result<string, WdlError>
    decreases v, 1
  {
    match v
    case NoneW => Ok("")
    case StrW(s) => Ok(if stringEnvironment then s else Quoted(s))
    case IntW(i) => Ok(IntToString(i))
    case BoolW(b) => Ok(BoolText(b))
    case FilenameW(g) => Ok(if stringEnvironment then g else Quoted(g))
    case InputSel(name) => TranslateInputSelector(name, inputs, stringEnvironment)
    case WildcardSel(_) => Err(WildcardAsValue)
    case CpuSel(c) => Ok(if stringEnvironment then "~{" + CpuText(c) + "}" else CpuText(c))
    case WdlObject(callable, t) => if callable then Ok(t) else Err(NotCallable)
    case Formatter(format, kwargs) =>
      match UnwrapKwargs(v, kwargs, inputs)
      case Err(e) => Err(e)
      case Ok(pairs) =>
        var r := Substitute(format, pairs);
        Ok(if stringEnvironment then r else Quoted(r))
  }

  /** Every keyword argument of a formatter unwrapped inside a string environment. */
  function UnwrapKwargs(ghost parent: WValue, kwargs: seq<Kwarg>, inputs: Option<map<string, CommandInput>>)
    : (r: Result<seq<(string, string)>, WdlError>)
    requires forall k :: 0 <= k < |kwargs| ==> kwargs[k].value < parent
    ensures r.Ok? ==> |r.value| == |kwargs|
    ensures r.Ok? ==> forall k :: 0 <= k < |kwargs| ==> r.value[k].0 == kwargs[k].key
    decreases parent, 0, |kwargs|
  {
    if |kwargs| == 0 then Ok([])
    else
      match Unwrap(kwargs[0].value, inputs, true)
      case Err(e) => Err(e)
      case Ok(t) =>
        match UnwrapKwargs(parent, kwargs[1..], inputs)
        case Err(e) => Err(e)
        case Ok(rest) => Ok([(kwargs[0].key, t)] + rest)
  }

  /**
   * The two environments differ only in quoting: strings, generated filenames and
   * formatters gain double quotes outside a string environment, selectors lose their
   * `~{...}`, and None, numbers, booleans and callables read the same in both.
   */
  lemma EnvironmentsAgree(v: WValue, inputs: Option<map<string, CommandInput>>)
    ensures Unwrap(v, inputs, true).Ok? <==> Unwrap(v, inputs, false).Ok?
    ensures (v.StrW? || v.FilenameW? || v.Formatter?) && Unwrap(v, inputs, true).Ok? ==>
              Unwrap(v, inputs, false).value == Quoted(Unwrap(v, inputs, true).value)
    ensures (v.InputSel? || v.CpuSel?) && Unwrap(v, inputs, true).Ok? ==>
              Unwrap(v, inputs, true).value == "~{" + Unwrap(v, inputs, false).value + "}"
    ensures (v.NoneW? || v.IntW? || v.BoolW? || v.WdlObject?) ==> Unwrap(v, inputs, true) == Unwrap(v, inputs, false)
  {
  }

  /** None unwraps to the empty text and a wildcard or a non-callable object fails. */
  lemma UnwrapOutcomes(v: WValue, inputs: Option<map<string, CommandInput>>, stringEnvironment: bool)
    ensures v.NoneW? ==> Unwrap(v, inputs, stringEnvironment) == Ok("")
    ensures v.WildcardSel? ==> Unwrap(v, inputs, stringEnvironment) == Err(WildcardAsValue)
    ensures v.WdlObject? ==> (Unwrap(v, inputs, stringEnvironment).Ok? <==> v.callable)
    ensures v.InputSel? ==> (Unwrap(v, inputs, stringEnvironment).Err? <==>
                              inputs.None? || v.name !in inputs.value
                              || (inputs.value[v.name].default.Some?
                                  && LiteralText(inputs.value[v.name].default.value).Err?))
  {
  }

  /**
   * Selector defaults are rendered as they would unwrap outside a string environment,
   * for every literal kind of default.
   */
  lemma LiteralAgreesWithUnwrap(d: WValue, inputs: Option<map<string, CommandInput>>)
    requires !d.InputSel? && !d.Formatter?
    ensures LiteralText(d) == Unwrap(d, inputs, false)
  {
  }

  /** A formatter without keyword arguments keeps its text when nothing in it is a placeholder. */
  lemma FormatterWithoutPlaceholders(format: string, kwargs: seq<Kwarg>, inputs: Option<map<string, CommandInput>>)
    requires forall k :: 0 <= k < |kwargs| ==> forall i :: 0 <= i <= |format| ==> !OccursAt(format, "{" + kwargs[k].key + "}", i)
    requires Unwrap(Formatter(format, kwargs), inputs, true).Ok?
    ensures Unwrap(Formatter(format, kwargs), inputs, true) == Ok(format)
  {
    var v := Formatter(format, kwargs);
    assert forall k :: 0 <= k < |kwargs| ==> kwargs[k].value < v;
    var pairs := UnwrapKwargs(v, kwargs, inputs).value;
    SubstituteAbsent(format, pairs);
  }

  lemma {:induction false} SubstituteAbsent(format: string, pairs: seq<(string, string)>)
    requires forall k :: 0 <= k < |pairs| ==> forall i :: 0 <= i <= |format| ==> !OccursAt(format, "{" + pairs[k].0 + "}", i)
    ensures Substitute(format, pairs) == format
  {
    if |pairs| > 0 {
      ReplaceAllAbsent(format, "{" + pairs[0].0 + "}", pairs[0].1);
      SubstituteAbsent(format, pairs[1..]);
    }
  }

  // ---------------------------------------------------------------------------
  // Command inputs
  // ---------------------------------------------------------------------------

  /** The name a command input reads: select_first with its default when it has one. */
  function ValueName(ti: CommandInput): Result<string, WdlError>
  {
    if ti.default.Some? then
      match LiteralText(ti.default.value)
      case Err(e) => Err(e)
      case Ok(t) => Ok("select_first([" + ti.tag + ", " + t + "])")
    else Ok(ti.tag)
  }

  /**
   * The command inputs the tests fix: String inputs of every kind, required Int inputs
   * with a prefix, and optional Boolean flags with a prefix.
   */
  predicate Renderable(ti: CommandInput)
  {
    || ti.dtype.String?
    || (ti.dtype.Int? && !ti.dtype.optional && ti.prefix.Some?)
    || (ti.dtype.Boolean? && ti.dtype.optional && ti.prefix.Some?)
  }

  /** The quote around a value on the command line: strings are single-quoted. */
  function ValueQuote(t: J.DataType): string
  {
    if t.String? then "'" else ""
  }

  /** The command-line text of an input that reads `name`. */
  function RenderCommandInput(ti: CommandInput, name: string): string
    requires Renderable(ti)
  {
    var q := ValueQuote(ti.dtype);
    var sep := if ti.prefix.Some? && ti.separateValueFromPrefix then " " else "";
    var pre := if ti.prefix.Some? then ti.prefix.value else "";
    if ti.dtype.Boolean? then
      "~{if defined(" + name + (") then " + Quoted(pre) + " else \"\"}")
    else if ti.dtype.optional then
      "~{if defined(" + name + (") then (\"" + pre + sep + q + "\" + ") + name + (" + \"" + q + "\") else \"\"}")
    else if ti.prefix.Some? then
      (pre + sep + q + "~{") + name + ("}" + q)
    else
      "~{" + name + "}"
  }

  /**
   * An optional input (a String: the only optional value kind that is not a flag) is
   * guarded by `defined(name)` and then yields its prefix, the separating space when
   * there is one, and its value between single quotes, even without a prefix; or nothing.
   */
  lemma OptionalInputShape(ti: CommandInput, name: string)
    requires Renderable(ti) && ti.dtype.optional && !ti.dtype.Boolean?
    ensures ti.dtype.String? && ValueQuote(ti.dtype) == "'"
    ensures var pre := if ti.prefix.Some? then ti.prefix.value else "";
            var sep := if ti.prefix.Some? && ti.separateValueFromPrefix then " " else "";
            RenderCommandInput(ti, name)
            == "~{if defined(" + name + (") then (\"" + pre + sep + "'" + "\" + ") + name + (" + \"" + "'" + "\") else \"\"}")
  {
  }

  /** An optional Boolean flag emits its prefix alone when it is defined. */
  lemma BooleanInputShape(ti: CommandInput, name: string)
    requires Renderable(ti) && ti.dtype.Boolean?
    ensures RenderCommandInput(ti, name) == "~{if defined(" + name + (") then " + Quoted(ti.prefix.value) + " else \"\"}")
  {
  }

  /**
   * A required input puts its prefix and the separating space before the
   * interpolation, quoting a string value only after a prefix.
   */
  lemma RequiredInputShape(ti: CommandInput, name: string)
    requires Renderable(ti) && !ti.dtype.optional
    ensures var r := RenderCommandInput(ti, name);
            && (ti.prefix.Some? ==> StartsWith(r, ti.prefix.value) && EndsWith(r, "~{" + name + "}" + ValueQuote(ti.dtype)))
            && (ti.prefix.Some? && ti.separateValueFromPrefix ==> r[|ti.prefix.value|] == ' ')
            && (ti.prefix.None? ==> r == "~{" + name + "}")
  {
    if ti.prefix.Some? {
      var r := RenderCommandInput(ti, name);
      var pre := ti.prefix.value;
      var sep := if ti.separateValueFromPrefix then " " else "";
      var tail := "~{" + name + "}" + ValueQuote(ti.dtype);
      var head := pre + sep + ValueQuote(ti.dtype);
      assert r == head + tail;
      assert r[|r| - |tail|..] == tail;
      assert r == pre + (sep + ValueQuote(ti.dtype) + tail);
      assert r[..|pre|] == pre;
    }
  }

  /**
   * translate_command_input: a default makes the input read
   * `select_first([tag, default])` instead of its tag; shapes no test fixes are None.
   */
  function TranslateCommandInput(ti: CommandInput): (r: Option<Result<string, WdlError>>)
    ensures r.Some? <==> Renderable(ti)
    ensures Renderable(ti) && ti.default.None? ==> r == Some(Ok(RenderCommandInput(ti, ti.tag)))
    ensures Renderable(ti) && ti.default.Some? ==>
              r == Some(match LiteralText(ti.default.value)
                        case Err(e) => Err(e)
                        case Ok(t) => Ok(RenderCommandInput(ti, "select_first([" + ti.tag + ", " + t + "])")))
  {
    if !Renderable(ti) then None
    else Some(
      match ValueName(ti)
      case Err(e) => Err(e)
      case Ok(name) => Ok(RenderCommandInput(ti, name)))
  }

  // ---------------------------------------------------------------------------
  // Step edges
  // ---------------------------------------------------------------------------

  /** A scalar source feeding an array-typed input is wrapped in a one-element array. */
  function EdgeValue(source: string, sourceType: J.DataType, destType: J.DataType): (r: string)
    ensures destType.Array? && !sourceType.Array? ==> |r| == |source| + 2 && r[1..|r| - 1] == source
    ensures !(destType.Array? && !sourceType.Array?) ==> r == source
  {
    if destType.Array? && !sourceType.Array? then "[" + source + "]" else source
  }
}
