module WdlExamples {
  import opened Wrappers
  import opened Text
  import J = JanisTypes
  import opened WdlLowering

  /** test_translation_wdl.py:194-204, 206-220, 222-232. */
  lemma ScalarValues()
    ensures Unwrap(NoneW, None, true) == Ok("") && Unwrap(NoneW, None, false) == Ok("")
    ensures Unwrap(StrW("TestString"), None, true) == Ok("TestString")
    ensures Unwrap(StrW("TestString"), None, false) == Ok("\"TestString\"")
    ensures Unwrap(IntW(42), None, true) == Ok("42") && Unwrap(IntW(42), None, false) == Ok("42")
  {
    assert Quoted("TestString") == "\"TestString\"";
    assert IntToString(42) == "42";
  }

  /** test_translation_wdl.py:178-192. */
  lemma InputSelectorValues()
    ensures var ti := map["random" := CommandInput("random", J.String(false), None, true, None)];
            && Unwrap(InputSel("random"), Some(ti), true) == Ok("~{random}")
            && Unwrap(InputSel("random"), Some(ti), false) == Ok("random")
  {
    assert "~{" + "random" + "}" == "~{random}";
  }

  /** test_translation_wdl.py:249-255, 311-330: a wildcard and a non-callable wdl attribute fail. */
  lemma RefusedValues()
    ensures Unwrap(WildcardSel("*"), None, false).Err?
    ensures Unwrap(WdlObject(true, "unbelievable"), None, false) == Ok("unbelievable")
    ensures Unwrap(WdlObject(false, ""), None, false).Err?
  {
  }

  /** test_translation_wdl.py:332-335. */
  lemma FormatterWithoutArguments()
    ensures Unwrap(Formatter("no format", []), None, true) == Ok("no format")
  {
  }

  lemma SubstituteOne(format: string, key: string, t: string)
    ensures Substitute(format, [(key, t)]) == ReplaceAll(format, "{" + key + "}", t)
  {
    assert [(key, t)][1..] == [];
  }

  lemma SubstituteTwo(format: string, key1: string, t1: string, key2: string, t2: string)
    ensures Substitute(format, [(key1, t1), (key2, t2)])
         == ReplaceAll(ReplaceAll(format, "{" + key1 + "}", t1), "{" + key2 + "}", t2)
  {
    assert [(key1, t1), (key2, t2)][1..] == [(key2, t2)];
    SubstituteOne(ReplaceAll(format, "{" + key1 + "}", t1), key2, t2);
  }

  /** Text free of `{` is left alone by any replacement of a placeholder. */
  lemma ReplaceAllNoBrace(s: string, pat: string, rep: string)
    requires |pat| > 0 && pat[0] == '{' && '{' !in s
    ensures ReplaceAll(s, pat, rep) == s
  {
    ReplaceAllSkips(s, [], pat, rep);
    assert s + [] == s;
  }

  /** One placeholder between two texts free of `{` is replaced. */
  lemma ReplaceOnce(a: string, b: string, pat: string, rep: string)
    requires |pat| > 0 && pat[0] == '{' && '{' !in a && '{' !in b
    ensures ReplaceAll(a + pat + b, pat, rep) == a + rep + b
  {
    assert a + pat + b == a + (pat + b);
    ReplaceAllSkips(a, pat + b, pat, rep);
    ReplaceAllHit(b, pat, rep);
    ReplaceAllNoBrace(b, pat, rep);
  }

  lemma KwargsOfOne(parent: WValue, k: Kwarg, inputs: Option<map<string, CommandInput>>, t: string)
    requires k.value < parent && Unwrap(k.value, inputs, true) == Ok(t)
    ensures UnwrapKwargs(parent, [k], inputs) == Ok([(k.key, t)])
  {
    var kwargs := [k];
    assert kwargs[0] == k && kwargs[1..] == [];
    assert UnwrapKwargs(parent, kwargs[1..], inputs) == Ok([]);
    assert [(k.key, t)] + [] == [(k.key, t)];
  }

  lemma KwargsOfTwo(parent: WValue, k1: Kwarg, k2: Kwarg, inputs: Option<map<string, CommandInput>>, t1: string, t2: string)
    requires k1.value < parent && Unwrap(k1.value, inputs, true) == Ok(t1)
    requires k2.value < parent && Unwrap(k2.value, inputs, true) == Ok(t2)
    ensures UnwrapKwargs(parent, [k1, k2], inputs) == Ok([(k1.key, t1), (k2.key, t2)])
  {
    var kwargs := [k1, k2];
    assert kwargs[0] == k1 && kwargs[1..] == [k2];
    KwargsOfOne(parent, k2, inputs, t2);
    assert [(k1.key, t1)] + [(k2.key, t2)] == [(k1.key, t1), (k2.key, t2)];
  }

  /** A formatter whose keyword arguments all unwrap substitutes their texts. */
  lemma FormatterSubstitutes(v: WValue, inputs: Option<map<string, CommandInput>>, pairs: seq<(string, string)>)
    requires v.Formatter? && UnwrapKwargs(v, v.kwargs, inputs) == Ok(pairs)
    ensures Unwrap(v, inputs, true) == Ok(Substitute(v.format, pairs))
    ensures Unwrap(v, inputs, false) == Ok(Quoted(Substitute(v.format, pairs)))
  {
  }

  /** test_translation_wdl.py:337-340. */
  lemma FormatterWithStringArgument(v: WValue)
    requires v == Formatter("there's {one} arg", [Kwarg("one", StrW("a string"))])
    ensures Unwrap(v, None, true) == Ok("there's a string arg")
  {
    KwargsOfOne(v, v.kwargs[0], None, "a string");
    FormatterSubstitutes(v, None, [("one", "a string")]);
    SubstituteOne(v.format, "one", "a string");
    StringArgumentText(v.format, "{" + "one" + "}", "a string");
  }

  lemma StringArgumentText(format: string, pat: string, rep: string)
    requires format == "there's {one} arg" && pat == "{" + "one" + "}" && rep == "a string"
    ensures ReplaceAll(format, pat, rep) == "there's a string arg"
  {
    var a, b := "there's ", " arg";
    StringArgumentPieces(format, pat, rep, a, b);
    ReplaceOnce(a, b, pat, rep);
  }

  lemma StringArgumentPieces(format: string, pat: string, rep: string, a: string, b: string)
    requires format == "there's {one} arg" && pat == "{" + "one" + "}" && rep == "a string"
    requires a == "there's " && b == " arg"
    ensures |pat| > 0 && pat[0] == '{' && '{' !in a && '{' !in b && format == a + pat + b
    ensures a + rep + b == "there's a string arg"
  {
  }

  /** test_translation_wdl.py:342-346. */
  lemma FormatterWithSelectorArgument(v: WValue, d: map<string, CommandInput>)
    requires v == Formatter("an input {arg}", [Kwarg("arg", InputSel("random_input"))])
    requires d == map["random_input" := CommandInput("random_input", J.String(false), None, true, None)]
    ensures Unwrap(v, Some(d), true) == Ok("an input ~{random_input}")
  {
    var t := "~{" + "random_input" + "}";
    KwargsOfOne(v, v.kwargs[0], Some(d), t);
    FormatterSubstitutes(v, Some(d), [("arg", t)]);
    SubstituteOne(v.format, "arg", t);
    SelectorArgumentText(v.format, "{" + "arg" + "}", t);
  }

  lemma SelectorArgumentText(format: string, pat: string, rep: string)
    requires format == "an input {arg}" && pat == "{" + "arg" + "}" && rep == "~{" + "random_input" + "}"
    ensures ReplaceAll(format, pat, rep) == "an input ~{random_input}"
  {
    var a := "an input ";
    SelectorArgumentPieces(format, pat, rep, a);
    ReplaceAllSkips(a, pat, pat, rep);
    ReplaceAllHit([], pat, rep);
  }

  lemma SelectorArgumentPieces(format: string, pat: string, rep: string, a: string)
    requires format == "an input {arg}" && pat == "{" + "arg" + "}" && rep == "~{" + "random_input" + "}"
    requires a == "an input "
    ensures |pat| > 0 && pat[0] !in a && format == a + pat && pat + [] == pat
    ensures a + (rep + []) == "an input ~{random_input}"
  {
  }

  /** The tumour placeholder replaced in `{tumorName}:{normalName}`. */
  lemma TumorReplaced(format: string, pat: string, rep: string)
    requires format == "{tumorName}:{normalName}" && pat == "{" + "tumorName" + "}" && rep == "~{" + "tumorInputName" + "}"
    ensures ReplaceAll(format, pat, rep) == "~{tumorInputName}:{normalName}"
  {
    var colon, x, tail := ":", "{normalName", "normalName}";
    TumorTexts();
    TumorAssembled();
    ReplaceAllHit(colon + (x + "}"), pat, rep);
    ReplaceAllSkips(colon, x + "}", pat, rep);
    ReplaceAllMiss(x, "}", pat, rep);
    ReplaceAllNoBrace(tail, pat, rep);
  }

  lemma TumorTexts()
    ensures "{" + "tumorName" + "}" == "{tumorName}"
    ensures "{tumorName}:{normalName}" == "{tumorName}" + (":" + ("{normalName" + "}"))
    ensures '{' !in ":" && '{' !in "normalName}"
    ensures "{normalName"[0] == '{' && "{normalName"[1..] + "}" == "normalName}"
  {
  }

  lemma TumorAssembled()
    ensures "~{" + "tumorInputName" + "}" + (":" + (['{'] + "normalName}")) == "~{tumorInputName}:{normalName}"
  {
  }

  /** The normal placeholder replaced in `~{tumorInputName}:{normalName}`. */
  lemma NormalReplaced(format: string, pat: string, rep: string)
    requires format == "~{tumorInputName}:{normalName}" && pat == "{" + "normalName" + "}" && rep == "~{" + "normalInputName" + "}"
    ensures ReplaceAll(format, pat, rep) == "~{tumorInputName}:~{normalInputName}"
  {
    var tilde, x, rest, mid := "~", "{tumorInputN", "ame}:", "tumorInputName}:";
    NormalTexts();
    NormalFormat();
    ReplaceAllSkips(tilde, x + (rest + pat), pat, rep);
    ReplaceAllMiss(x, rest + pat, pat, rep);
    Regrouped(x[1..], rest, pat);
    ReplaceOnce(mid, "", pat, rep);
    NormalAssembled(tilde, [x[0]], mid, rep);
  }

  lemma NormalTexts()
    ensures "{" + "normalName" + "}" == "{normalName}"
    ensures '{' !in "~" && '{' !in "tumorInputName}:" && '{' !in ""
    ensures "{tumorInputN"[0] == '{' && "{tumorInputN"[1..] + "ame}:" == "tumorInputName}:"
  {
  }

  lemma Regrouped(a: string, b: string, c: string)
    ensures a + (b + c) == a + b + c + ""
  {
  }

  lemma NormalFormat()
    ensures "~{tumorInputName}:{normalName}" == "~" + ("{tumorInputN" + ("ame}:" + "{normalName}"))
  {
  }

  lemma NormalAssembled(tilde: string, brace: string, mid: string, rep: string)
    requires tilde == "~" && brace == ['{'] && mid == "tumorInputName}:" && rep == "~{" + "normalInputName" + "}"
    ensures tilde + (brace + (mid + rep + "")) == "~{tumorInputName}:~{normalInputName}"
  {
    NormalHalves();
    NormalJoined();
    Joined(tilde, brace, mid, rep);
  }

  lemma NormalHalves()
    ensures "~" + (['{'] + "tumorInputName}:") == "~{tumorInputName}:"
    ensures "~{" + "normalInputName" + "}" == "~{normalInputName}"
  {
  }

  lemma NormalJoined()
    ensures "~{tumorInputName}:" + "~{normalInputName}" == "~{tumorInputName}:~{normalInputName}"
  {
  }

  lemma Joined(a: string, b: string, c: string, d: string)
    ensures a + (b + (c + d + "")) == (a + (b + c)) + d
  {
  }

  /** test_translation_wdl.py:348-360. */
  lemma FormatterWithTwoArguments(v: WValue, d: map<string, CommandInput>)
    requires v == Formatter("{tumorName}:{normalName}",
                            [Kwarg("tumorName", InputSel("tumorInputName")), Kwarg("normalName", InputSel("normalInputName"))])
    requires d == map["tumorInputName" := CommandInput("tumorInputName", J.String(false), None, true, None),
                      "normalInputName" := CommandInput("normalInputName", J.String(false), None, true, None)]
    ensures Unwrap(v, Some(d), true) == Ok("~{tumorInputName}:~{normalInputName}")
  {
    var t1 := "~{" + "tumorInputName" + "}";
    var t2 := "~{" + "normalInputName" + "}";
    KwargsOfTwo(v, v.kwargs[0], v.kwargs[1], Some(d), t1, t2);
    assert v.kwargs == [v.kwargs[0], v.kwargs[1]];
    FormatterSubstitutes(v, Some(d), [("tumorName", t1), ("normalName", t2)]);
    SubstituteTwo(v.format, "tumorName", t1, "normalName", t2);
    TumorReplaced(v.format, "{" + "tumorName" + "}", t1);
    NormalReplaced("~{tumorInputName}:{normalName}", "{" + "normalName" + "}", t2);
  }

  /** test_translation_wdl.py:375-379. */
  lemma FormatterWithDefaultedSelector(v: WValue, d: map<string, CommandInput>)
    requires v == Formatter("{place} michael", [Kwarg("place", InputSel("ti"))])
    requires d == map["ti" := CommandInput("ti", J.String(true), None, true, Some(StrW("hi")))]
    ensures Unwrap(v, Some(d), true) == Ok("~{select_first([ti, \"hi\"])} michael")
  {
    var t := "~{" + ("select_first([" + "ti" + ", " + Quoted("hi") + "])") + "}";
    KwargsOfOne(v, v.kwargs[0], Some(d), t);
    FormatterSubstitutes(v, Some(d), [("place", t)]);
    SubstituteOne(v.format, "place", t);
    PlaceFormats();
    PlaceReplaced(v.format, "", " michael", t);
    DefaultedSelectorText(t);
  }

  /** The `{place}` placeholder between two texts free of `{`. */
  lemma PlaceReplaced(format: string, a: string, b: string, rep: string)
    requires format == a + "{place}" + b && '{' !in a && '{' !in b
    ensures ReplaceAll(format, "{" + "place" + "}", rep) == a + rep + b
  {
    assert "{" + "place" + "}" == "{place}";
    ReplaceOnce(a, b, "{place}", rep);
  }

  lemma PlaceFormats()
    ensures "{place} michael" == "" + "{place}" + " michael" && '{' !in "" && '{' !in " michael"
    ensures "fn: {place}" == "fn: " + "{place}" + "" && '{' !in "fn: "
  {
  }

  lemma DefaultedSelectorText(t: string)
    requires t == "~{" + ("select_first([" + "ti" + ", " + Quoted("hi") + "])") + "}"
    ensures "" + t + " michael" == "~{select_first([ti, \"hi\"])} michael"
  {
    assert Quoted("hi") == "\"hi\"";
    assert t == "~{select_first([ti, \"hi\"])}";
  }

  /**
   * test_translation_wdl.py:381-388: a selector of a generated filename reads the
   * filename as its default, and the formatter is quoted outside a string environment.
   */
  lemma FormatterWithFilenameSelector(v: WValue, d: map<string, CommandInput>, g: string)
    requires v == Formatter("fn: {place}", [Kwarg("place", InputSel("ti"))])
    requires d == map["ti" := CommandInput("ti", J.Filename(g, false), None, true, None)]
    ensures Unwrap(v, Some(d), false) == Ok("\"fn: ~{select_first([ti, \"" + g + "\"])}\"")
  {
    var t := "~{" + ("select_first([" + "ti" + ", " + Quoted(g) + "])") + "}";
    KwargsOfOne(v, v.kwargs[0], Some(d), t);
    FormatterSubstitutes(v, Some(d), [("place", t)]);
    SubstituteOne(v.format, "place", t);
    PlaceFormats();
    PlaceReplaced(v.format, "fn: ", "", t);
    FilenameSelectorText(t, g);
  }

  lemma FilenameSelectorText(t: string, g: string)
    requires t == "~{" + ("select_first([" + "ti" + ", " + Quoted(g) + "])") + "}"
    ensures Quoted("fn: " + t + "") == "\"fn: ~{select_first([ti, \"" + g + "\"])}\""
  {
  }

  /** test_translation_wdl.py:163-174. */
  lemma ScalarToArrayEdge()
    ensures "arrayInp=" + EdgeValue("stp1.std", J.Stdout(J.File("File", [], [], false), false), J.Array(J.String(false), false))
         == "arrayInp=[stp1.std]"
  {
    var s1 := "arrayInp=" + ("[" + "stp1.std" + "]");
    assert s1 == "arrayInp=[stp1.std]";
  }

  /** test_translation_wdl.py:707-728. */
  lemma SingleFieldScatter()
    ensures var inputs := [StepInput("inputs", "inp", []), StepInput("input2", "inp2", [])];
            && ValidScatter(inputs, ["inputs"])
            && ScatterHeader(inputs, ["inputs"]) == "i in inp"
            && CallBindings(inputs, ["inputs"]) == ["inputs=i", "input2=inp2"]
  {
    var inputs := [StepInput("inputs", "inp", []), StepInput("input2", "inp2", [])];
    assert inputs[0].id == "inputs";
    assert ValidScatter(inputs, ["inputs"]);
    assert InputNamed(inputs, "inputs") == inputs[0];
    assert FieldSources(inputs, ["inputs"]) == ["inp"];
    assert "i in " + "inp" == "i in inp";
    assert IndexOf(["inputs"], "input2") == 1;
    assert inputs[..1] == [inputs[0]];
    assert "inputs" + "=" + "i" == "inputs=i";
    assert "input2" + "=" + "inp2" == "input2=inp2";
  }

  /** test_translation_wdl.py:753-775: the header zips the two sources. */
  lemma TwoFieldScatterHeader()
    ensures var inputs := [StepInput("inputs", "inp", []), StepInput("input2", "inp2", [])];
            var fields := ["inputs", "input2"];
            && ValidScatter(inputs, fields)
            && ScatterHeader(inputs, fields) == "Q in zip(inp, inp2)"
  {
    var inputs := [StepInput("inputs", "inp", []), StepInput("input2", "inp2", [])];
    var fields := ["inputs", "input2"];
    assert inputs[0].id == fields[0] && inputs[1].id == fields[1];
    assert ValidScatter(inputs, fields);
    assert InputNamed(inputs, "inputs") == inputs[0];
    assert InputNamed(inputs, "input2") == inputs[1];
    var srcs := FieldSources(inputs, fields);
    assert srcs == ["inp", "inp2"];
    assert srcs[1..] == ["inp2"];
    var s1 := "zip(" + "inp" + ", " + "inp2" + ")";
    assert s1 == "zip(inp, inp2)";
    assert ZipText(ZipOf(srcs)) == s1;
    assert "Q in " + s1 == "Q in zip(inp, inp2)";
  }

  /** test_translation_wdl.py:753-775: the fields are bound to Q.left and Q.right. */
  lemma TwoFieldScatterBindings()
    ensures var inputs := [StepInput("inputs", "inp", []), StepInput("input2", "inp2", [])];
            CallBindings(inputs, ["inputs", "input2"]) == ["inputs=Q.left", "input2=Q.right"]
  {
    var inputs := [StepInput("inputs", "inp", []), StepInput("input2", "inp2", [])];
    var fields := ["inputs", "input2"];
    assert IndexOf(fields, "input2") == 1;
    assert Projection(1, 2) == [Right];
    assert [Right][1..] == [];
    assert ProjectionText("Q", 0, 2) == "Q" + ".left";
    assert ProjectionText("Q", 1, 2) == "Q" + ".right";
    assert inputs[..1] == [inputs[0]];
    assert "inputs" + "=" + ("Q" + ".left") == "inputs=Q.left";
    assert "input2" + "=" + ("Q" + ".right") == "input2=Q.right";
  }

  lemma CallBindingsSnoc(inputs: seq<StepInput>, x: StepInput, fields: seq<string>)
    ensures CallBindings(inputs + [x], fields) == CallBindings(inputs, fields) + InputBindings(x, fields)
  {
    assert (inputs + [x])[..|inputs|] == inputs;
  }

  lemma CallBindingsOfOne(a: StepInput, fields: seq<string>)
    ensures CallBindings([a], fields) == InputBindings(a, fields)
  {
    CallBindingsSnoc([], a, fields);
    assert [] + [a] == [a];
  }

  lemma CallBindingsOfTwo(a: StepInput, b: StepInput, fields: seq<string>)
    ensures CallBindings([a, b], fields) == InputBindings(a, fields) + InputBindings(b, fields)
  {
    CallBindingsOfOne(a, fields);
    assert [a] + [b] == [a, b];
    CallBindingsSnoc([a], b, fields);
  }

  lemma CallBindingsOfThree(a: StepInput, b: StepInput, c: StepInput, fields: seq<string>)
    ensures CallBindings([a, b, c], fields) == InputBindings(a, fields) + InputBindings(b, fields) + InputBindings(c, fields)
  {
    CallBindingsOfTwo(a, b, fields);
    assert [a, b] + [c] == [a, b, c];
    CallBindingsSnoc([a, b], c, fields);
  }

  /** A scattered input without secondaries binds its id to its projection of Q. */
  lemma ZippedBinding(inp: StepInput, fields: seq<string>, k: nat)
    requires |inp.secondaries| == 0 && 1 < |fields| && k < |fields| && IndexOf(fields, inp.id) == k
    ensures InputBindings(inp, fields) == [inp.id + "=" + ProjectionText("Q", k, |fields|)]
  {
  }

  lemma FirstOfThree(inp: StepInput, fields: seq<string>)
    requires inp == StepInput("inputs", "inp", []) && fields == ["inputs", "input2", "input3"]
    ensures InputBindings(inp, fields) == ["inputs=Q.left"]
  {
    assert IndexOf(fields, "inputs") == 0;
    ZippedBinding(inp, fields, 0);
    ProjectionTextShape("Q", 0, 3);
    assert Repeat(".right", 0) == "";
    assert "Q" + ("" + ".left") == "Q.left";
    assert "inputs" + "=" + "Q.left" == "inputs=Q.left";
  }

  lemma MiddleOfThree(inp: StepInput, fields: seq<string>)
    requires inp == StepInput("input2", "inp2", []) && fields == ["inputs", "input2", "input3"]
    ensures InputBindings(inp, fields) == ["input2=Q.right.left"]
  {
    IndexOfThree(fields);
    ZippedBinding(inp, fields, 1);
    ProjectionsOfThree();
    assert "input2" + "=" + "Q.right.left" == "input2=Q.right.left";
  }

  lemma LastOfThree(inp: StepInput, fields: seq<string>)
    requires inp == StepInput("input3", "inp3", []) && fields == ["inputs", "input2", "input3"]
    ensures InputBindings(inp, fields) == ["input3=Q.right.right"]
  {
    IndexOfThree(fields);
    ZippedBinding(inp, fields, 2);
    ProjectionsOfThree();
    assert "input3" + "=" + "Q.right.right" == "input3=Q.right.right";
  }

  lemma IndexOfThree(fields: seq<string>)
    requires fields == ["inputs", "input2", "input3"]
    ensures IndexOf(fields, "input2") == 1 && IndexOf(fields, "input3") == 2
  {
    assert fields[1..] == ["input2", "input3"];
    assert fields[1..][1..] == ["input3"];
  }

  lemma ProjectionsOfThree()
    ensures ProjectionText("Q", 1, 3) == "Q.right.left"
    ensures ProjectionText("Q", 2, 3) == "Q.right.right"
  {
    ProjectionTextShape("Q", 1, 3);
    ProjectionTextShape("Q", 2, 3);
    RepeatOnce(".right");
    assert Repeat(".right", 2) == ".right" + Repeat(".right", 1);
    assert "Q" + (".right" + ".left") == "Q.right.left";
    assert "Q" + (".right" + ".right") == "Q.right.right";
  }

  lemma RepeatOnce(s: string)
    ensures Repeat(s, 1) == s
  {
    assert Repeat(s, 1) == s + Repeat(s, 0);
  }

  /** test_translation_wdl.py:779-805: the middle field is Q.right.left, the last Q.right.right. */
  lemma ThreeFieldScatterBindings()
    ensures var inputs := [StepInput("inputs", "inp", []), StepInput("input2", "inp2", []), StepInput("input3", "inp3", [])];
            CallBindings(inputs, ["inputs", "input2", "input3"])
            == ["inputs=Q.left", "input2=Q.right.left", "input3=Q.right.right"]
  {
    var fields := ["inputs", "input2", "input3"];
    CallBindingsOfThree(StepInput("inputs", "inp", []), StepInput("input2", "inp2", []), StepInput("input3", "inp3", []), fields);
    FirstOfThree(StepInput("inputs", "inp", []), fields);
    MiddleOfThree(StepInput("input2", "inp2", []), fields);
    LastOfThree(StepInput("input3", "inp3", []), fields);
  }

  lemma CallBindingsOfFour(a: StepInput, b: StepInput, c: StepInput, e: StepInput, fields: seq<string>)
    ensures CallBindings([a, b, c, e], fields)
         == InputBindings(a, fields) + InputBindings(b, fields) + InputBindings(c, fields) + InputBindings(e, fields)
  {
    CallBindingsOfThree(a, b, c, fields);
    assert [a, b, c] + [e] == [a, b, c, e];
    CallBindingsSnoc([a, b, c], e, fields);
  }

  lemma IndexOfFour(fields: seq<string>)
    requires fields == ["inputs", "input2", "input3", "input4"]
    ensures IndexOf(fields, "inputs") == 0 && IndexOf(fields, "input2") == 1
    ensures IndexOf(fields, "input3") == 2 && IndexOf(fields, "input4") == 3
  {
    assert fields[1..] == ["input2", "input3", "input4"];
    assert fields[1..][1..] == ["input3", "input4"];
    assert fields[1..][1..][1..] == ["input4"];
  }

  lemma ProjectionsOfFour()
    ensures ProjectionText("Q", 0, 4) == "Q.left"
    ensures ProjectionText("Q", 1, 4) == "Q.right.left"
    ensures ProjectionText("Q", 2, 4) == "Q.right.right.left"
    ensures ProjectionText("Q", 3, 4) == "Q.right.right.right"
  {
    ProjectionTextShape("Q", 0, 4);
    ProjectionTextShape("Q", 1, 4);
    ProjectionTextShape("Q", 2, 4);
    ProjectionTextShape("Q", 3, 4);
    RepeatOnce(".right");
    assert Repeat(".right", 2) == ".right" + ".right";
    assert Repeat(".right", 3) == ".right" + (".right" + ".right");
    ProjectionTexts();
  }

  lemma ProjectionTexts()
    ensures "Q" + ("" + ".left") == "Q.left"
    ensures "Q" + (".right" + ".left") == "Q.right.left"
    ensures "Q" + (".right" + ".right" + ".left") == "Q.right.right.left"
    ensures "Q" + (".right" + (".right" + ".right")) == "Q.right.right.right"
  {
  }

  /** A field of the four-field scatter binds to its projection of Q. */
  lemma FieldOfFour(inp: StepInput, fields: seq<string>, k: nat)
    requires fields == ["inputs", "input2", "input3", "input4"] && k < 4
    requires inp.id == fields[k] && |inp.secondaries| == 0
    ensures InputBindings(inp, fields) == [inp.id + "=" + ProjectionText("Q", k, 4)]
  {
    IndexOfFour(fields);
    ZippedBinding(inp, fields, k);
  }

  lemma FourBindingTexts()
    ensures "inputs" + "=" + "Q.left" == "inputs=Q.left"
    ensures "input2" + "=" + "Q.right.left" == "input2=Q.right.left"
    ensures "input3" + "=" + "Q.right.right.left" == "input3=Q.right.right.left"
    ensures "input4" + "=" + "Q.right.right.right" == "input4=Q.right.right.right"
  {
  }

  /** The binding line of each field of the four-field scatter. */
  lemma BindingOfFour(inp: StepInput, fields: seq<string>, k: nat)
    requires fields == ["inputs", "input2", "input3", "input4"] && k < 4
    requires inp.id == fields[k] && |inp.secondaries| == 0
    ensures InputBindings(inp, fields)
         == [["inputs=Q.left", "input2=Q.right.left", "input3=Q.right.right.left", "input4=Q.right.right.right"][k]]
  {
    FieldOfFour(inp, fields, k);
    ProjectionsOfFour();
    FourBindingTexts();
  }

  /** test_translation_wdl.py:807-836: the fourth field is Q.right.right.right. */
  lemma FourFieldScatterBindings(inputs: seq<StepInput>, fields: seq<string>)
    requires inputs == [StepInput("inputs", "inp", []), StepInput("input2", "inp2", []),
                        StepInput("input3", "inp3", []), StepInput("input4", "inp4", [])]
    requires fields == ["inputs", "input2", "input3", "input4"]
    ensures CallBindings(inputs, fields)
         == ["inputs=Q.left", "input2=Q.right.left", "input3=Q.right.right.left", "input4=Q.right.right.right"]
  {
    CallBindingsOfFour(inputs[0], inputs[1], inputs[2], inputs[3], fields);
    assert inputs == [inputs[0], inputs[1], inputs[2], inputs[3]];
    BindingOfFour(inputs[0], fields, 0);
    BindingOfFour(inputs[1], fields, 1);
    BindingOfFour(inputs[2], fields, 2);
    BindingOfFour(inputs[3], fields, 3);
    FourJoined(["inputs=Q.left", "input2=Q.right.left", "input3=Q.right.right.left", "input4=Q.right.right.right"],
               InputBindings(inputs[0], fields), InputBindings(inputs[1], fields),
               InputBindings(inputs[2], fields), InputBindings(inputs[3], fields));
  }

  lemma FourJoined(l: seq<string>, b0: seq<string>, b1: seq<string>, b2: seq<string>, b3: seq<string>)
    requires |l| == 4 && b0 == [l[0]] && b1 == [l[1]] && b2 == [l[2]] && b3 == [l[3]]
    ensures b0 + b1 + b2 + b3 == l
  {
  }

  /** The first input carrying an id is the one InputNamed finds. */
  lemma {:induction false} FirstNamed(inputs: seq<StepInput>, k: nat)
    requires k < |inputs| && forall j :: 0 <= j < k ==> inputs[j].id != inputs[k].id
    ensures InputNamed(inputs, inputs[k].id) == inputs[k]
  {
    if k > 0 {
      assert inputs[1..][k - 1] == inputs[k];
      FirstNamed(inputs[1..], k - 1);
    }
  }

  lemma FourFieldSources(inputs: seq<StepInput>, fields: seq<string>)
    requires inputs == [StepInput("inputs", "inp", []), StepInput("input2", "inp2", []),
                        StepInput("input3", "inp3", []), StepInput("input4", "inp4", [])]
    requires fields == ["inputs", "input2", "input3", "input4"]
    ensures ValidScatter(inputs, fields)
    ensures FieldSources(inputs, fields) == ["inp", "inp2", "inp3", "inp4"]
  {
    assert forall k :: 0 <= k < 4 ==> inputs[k].id == fields[k];
    assert ValidScatter(inputs, fields);
    FirstNamed(inputs, 0);
    FirstNamed(inputs, 1);
    FirstNamed(inputs, 2);
    FirstNamed(inputs, 3);
  }

  lemma FourZip(srcs: seq<string>)
    requires srcs == ["inp", "inp2", "inp3", "inp4"]
    ensures ZipText(ZipOf(srcs)) == "zip(" + "inp" + ", " + ("zip(" + "inp2" + ", " + ("zip(" + "inp3" + ", " + "inp4" + ")") + ")") + ")"
  {
    assert srcs[1..] == ["inp2", "inp3", "inp4"];
    assert srcs[1..][1..] == ["inp3", "inp4"];
    assert srcs[1..][1..][1..] == ["inp4"];
    assert ZipOf(srcs[1..][1..]) == Zip(Field("inp3"), Field("inp4"));
    assert ZipOf(srcs[1..]) == Zip(Field("inp2"), Zip(Field("inp3"), Field("inp4")));
  }

  lemma FourZipText()
    ensures "Q in " + ("zip(" + "inp" + ", " + ("zip(" + "inp2" + ", " + ("zip(" + "inp3" + ", " + "inp4" + ")") + ")") + ")")
         == "Q in zip(inp, zip(inp2, zip(inp3, inp4)))"
  {
  }

  /** test_translation_wdl.py:807-836: four fields zip into nested pairs. */
  lemma FourFieldScatterHeader()
    ensures var inputs := [StepInput("inputs", "inp", []), StepInput("input2", "inp2", []),
                           StepInput("input3", "inp3", []), StepInput("input4", "inp4", [])];
            var fields := ["inputs", "input2", "input3", "input4"];
            && ValidScatter(inputs, fields)
            && ScatterHeader(inputs, fields) == "Q in zip(inp, zip(inp2, zip(inp3, inp4)))"
  {
    var inputs := [StepInput("inputs", "inp", []), StepInput("input2", "inp2", []),
                   StepInput("input3", "inp3", []), StepInput("input4", "inp4", [])];
    var fields := ["inputs", "input2", "input3", "input4"];
    FourFieldSources(inputs, fields);
    FourZip(FieldSources(inputs, fields));
    FourZipText();
  }

  lemma QtName(base: string)
    ensures SecondaryName(base, ".qt") == base + "_qt"
  {
    assert ".qt"[1..] == "qt";
    assert LStrip("qt", '.') == "qt";
    assert LStrip(".qt", '.') == "qt";
  }

  lemma TransposedSource()
    ensures FieldSource(StepInput("input1", "inp", [".qt"])) == "transpose([inp, inp_qt])"
  {
    QtName("inp");
    SecondaryTransposition(StepInput("input1", "inp", [".qt"]), "");
    assert "inp" + "_qt" == "inp_qt";
    var m := "inp" + ", " + "inp_qt";
    assert m == "inp, inp_qt";
    var t := "transpose([" + m + "])";
    assert t == "transpose([inp, inp_qt])";
  }

  lemma SecondaryFieldSources()
    ensures var inputs := [StepInput("input1", "inp", [".qt"]), StepInput("input2", "inp2", [])];
            var fields := ["input1", "input2"];
            && ValidScatter(inputs, fields)
            && FieldSources(inputs, fields) == ["transpose([inp, inp_qt])", "inp2"]
  {
    var inputs := [StepInput("input1", "inp", [".qt"]), StepInput("input2", "inp2", [])];
    var fields := ["input1", "input2"];
    assert inputs[0].id == fields[0] && inputs[1].id == fields[1];
    assert ValidScatter(inputs, fields);
    assert InputNamed(inputs, "input1") == inputs[0];
    assert InputNamed(inputs, "input2") == inputs[1];
    TransposedSource();
  }

  lemma TwoFieldHeader(inputs: seq<StepInput>, fields: seq<string>)
    requires ValidScatter(inputs, fields) && |fields| == 2
    ensures var srcs := FieldSources(inputs, fields);
            ScatterHeader(inputs, fields) == "Q in " + ("zip(" + srcs[0] + ", " + srcs[1] + ")")
  {
    var srcs := FieldSources(inputs, fields);
    assert srcs[1..] == [srcs[1]];
    assert ZipOf(srcs[1..]) == Field(srcs[1]);
    assert ZipOf(srcs) == Zip(Field(srcs[0]), Field(srcs[1]));
    assert ZipText(ZipOf(srcs)) == "zip(" + srcs[0] + ", " + srcs[1] + ")";
  }

  lemma HeaderRegrouped(t: string)
    ensures "Q in " + ("zip(" + t + ", " + "inp2" + ")") == "Q in zip(" + t + ", inp2)"
  {
    assert "Q in " + "zip(" == "Q in zip(";
    assert ", " + "inp2" + ")" == ", inp2)";
  }

  /** test_translation_wdl.py:838-863: a secondary-file field is transposed with its secondary. */
  lemma SecondaryFieldScatterHeader()
    ensures var inputs := [StepInput("input1", "inp", [".qt"]), StepInput("input2", "inp2", [])];
            var fields := ["input1", "input2"];
            && ValidScatter(inputs, fields)
            && ScatterHeader(inputs, fields) == "Q in zip(" + "transpose([inp, inp_qt])" + ", inp2)"
  {
    var inputs := [StepInput("input1", "inp", [".qt"]), StepInput("input2", "inp2", [])];
    var fields := ["input1", "input2"];
    SecondaryFieldSources();
    TwoFieldHeader(inputs, fields);
    HeaderRegrouped("transpose([inp, inp_qt])");
  }

  lemma FirstOfTwoWithSecondary(inp: StepInput, fields: seq<string>)
    requires |fields| == 2 && fields[0] == inp.id && |inp.secondaries| == 1
    ensures InputBindings(inp, fields)
         == [inp.id + "=" + "Q.left" + "[0]", SecondaryName(inp.id, inp.secondaries[0]) + "=" + "Q.left" + "[1]"]
  {
    assert IndexOf(fields, inp.id) == 0;
    ProjectionTextShape("Q", 0, 2);
    assert Repeat(".right", 0) == "";
    assert ScatterElement(fields, 0) == "Q.left";
    SecondaryTransposition(inp, "Q.left");
  }

  lemma PrimaryWithSecondary(inp: StepInput, fields: seq<string>)
    requires inp == StepInput("input1", "inp", [".qt"]) && fields == ["input1", "input2"]
    ensures InputBindings(inp, fields) == ["input1=Q.left[0]", "input1_qt=Q.left[1]"]
  {
    FirstOfTwoWithSecondary(inp, fields);
    QtName("input1");
    PrimaryBindingTexts();
  }

  lemma PrimaryBindingTexts()
    ensures "input1" + "=" + "Q.left" + "[0]" == "input1=Q.left[0]"
    ensures "input1" + "_qt" + "=" + "Q.left" + "[1]" == "input1_qt=Q.left[1]"
  {
    assert "input1" + "=" == "input1=";
    assert "input1" + "_qt" + "=" == "input1_qt=";
  }

  lemma SecondOfTwo()
    ensures InputBindings(StepInput("input2", "inp2", []), ["input1", "input2"]) == ["input2=Q.right"]
  {
    var fields := ["input1", "input2"];
    assert IndexOf(fields, "input2") == 1;
    ProjectionTextShape("Q", 1, 2);
    assert Repeat(".right", 1) == ".right";
    assert "input2" + "=" + ("Q" + ".right") == "input2=Q.right";
  }

  /** test_translation_wdl.py:838-863: the primary is Q.left[0] and the secondary Q.left[1]. */
  lemma SecondaryFieldScatterBindings()
    ensures var inputs := [StepInput("input1", "inp", [".qt"]), StepInput("input2", "inp2", [])];
            CallBindings(inputs, ["input1", "input2"])
            == ["input1=Q.left[0]", "input1_qt=Q.left[1]", "input2=Q.right"]
  {
    CallBindingsOfTwo(StepInput("input1", "inp", [".qt"]), StepInput("input2", "inp2", []), ["input1", "input2"]);
    PrimaryWithSecondary(StepInput("input1", "inp", [".qt"]), ["input1", "input2"]);
    SecondOfTwo();
  }
}
