/**
 * The command-line inputs fixed by TestWdlToolInputGeneration and the CPU selector
 * tests of test_translation_wdl.py, each stated as the whole string it renders.
 */
module WdlCommandExamples {
  import opened Wrappers
  import opened Text
  import J = JanisTypes
  import opened WdlLowering

  /** A string default makes the input read `select_first([tag, "defval"])`. */
  lemma DefvalName(ti: CommandInput)
    requires ti.tag == "tag" && ti.default == Some(StrW("defval"))
    ensures ValueName(ti) == Ok("select_first([tag, \"defval\"])")
  {
    assert Quoted("defval") == "\"defval\"";
    assert LiteralText(StrW("defval")) == Ok("\"defval\"");
    var s1 := "select_first([" + "tag";
    assert s1 == "select_first([tag";
    var s2 := s1 + ", ";
    assert s2 == "select_first([tag, ";
    var s3 := s2 + "\"defval\"";
    assert s3 == "select_first([tag, \"defval\"";
    var s4 := s3 + "])";
    assert s4 == "select_first([tag, \"defval\"])";
  }

  /** A boolean default is written `true`. */
  lemma TrueName(ti: CommandInput)
    requires ti.tag == "tag" && ti.default == Some(BoolW(true))
    ensures ValueName(ti) == Ok("select_first([tag, true])")
  {
    assert BoolText(true) == "true";
    assert LiteralText(BoolW(true)) == Ok("true");
    var s1 := "select_first([" + "tag";
    assert s1 == "select_first([tag";
    var s2 := s1 + ", ";
    assert s2 == "select_first([tag, ";
    var s3 := s2 + "true";
    assert s3 == "select_first([tag, true";
    var s4 := s3 + "])";
    assert s4 == "select_first([tag, true])";
  }

  /** A CPU selector without a count reads `runtime_cpu`. */
  lemma CpuName(ti: CommandInput)
    requires ti.tag == "threads" && ti.default == Some(CpuSel(None))
    ensures ValueName(ti) == Ok("select_first([threads, runtime_cpu])")
  {
    assert LiteralText(CpuSel(None)) == Ok("runtime_cpu");
    var s1 := "select_first([" + "threads";
    assert s1 == "select_first([threads";
    var s2 := s1 + ", ";
    assert s2 == "select_first([threads, ";
    var s3 := s2 + "runtime_cpu";
    assert s3 == "select_first([threads, runtime_cpu";
    var s4 := s3 + "])";
    assert s4 == "select_first([threads, runtime_cpu])";
  }

  /** A CPU selector with a count of 1 reads `select_first([runtime_cpu, 1])`. */
  lemma CpuOneName(ti: CommandInput)
    requires ti.tag == "threads" && ti.default == Some(CpuSel(Some(1)))
    ensures ValueName(ti) == Ok("select_first([threads, select_first([runtime_cpu, 1])])")
  {
    assert IntToString(1) == "1";
    assert LiteralText(CpuSel(Some(1))) == Ok("select_first([runtime_cpu, " + "1" + "])");
    CpuOneText("select_first([" + "threads" + ", ", "select_first([runtime_cpu, " + "1" + "])");
  }

  lemma CpuOneText(opening: string, cpu: string)
    requires opening == "select_first([" + "threads" + ", " && cpu == "select_first([runtime_cpu, " + "1" + "])"
    ensures opening + cpu + "])" == "select_first([threads, select_first([runtime_cpu, 1])])"
  {
    assert opening == "select_first([threads, ";
    assert cpu == "select_first([runtime_cpu, 1])";
    assert opening + cpu == "select_first([threads, select_first([runtime_cpu, 1])";
  }

  /** test_translation_wdl.py:531-534. */
  lemma NoDefaultRequiredPosition()
    ensures TranslateCommandInput(CommandInput("tag", J.String(false), None, true, None))
         == Some(Ok("~{tag}"))
  {
    var ti := CommandInput("tag", J.String(false), None, true, None);
    assert ValueName(ti) == Ok("tag");
    var s1 := "~{" + "tag";
    assert s1 == "~{tag";
    var s2 := s1 + "}";
    assert s2 == "~{tag}";
    assert RenderCommandInput(ti, "tag") == s2;
  }

  /** test_translation_wdl.py:536-539. */
  lemma NoDefaultRequiredPrefix()
    ensures TranslateCommandInput(CommandInput("tag", J.String(false), Some("--amazing"), true, None))
         == Some(Ok("--amazing '~{tag}'"))
  {
    var ti := CommandInput("tag", J.String(false), Some("--amazing"), true, None);
    assert ValueName(ti) == Ok("tag");
    var s1 := "--amazing" + " ";
    assert s1 == "--amazing ";
    var s2 := s1 + "'";
    assert s2 == "--amazing '";
    var s3 := s2 + "~{";
    assert s3 == "--amazing '~{";
    var s4 := s3 + "tag";
    assert s4 == "--amazing '~{tag";
    var s5 := s4 + "}";
    assert s5 == "--amazing '~{tag}";
    var s6 := s5 + "'";
    assert s6 == "--amazing '~{tag}'";
    assert RenderCommandInput(ti, "tag") == s6;
  }

  /** test_translation_wdl.py:541-546. */
  lemma NoDefaultRequiredPrefixNoSeparator()
    ensures TranslateCommandInput(CommandInput("tag", J.String(false), Some("--amazing="), false, None))
         == Some(Ok("--amazing='~{tag}'"))
  {
    var ti := CommandInput("tag", J.String(false), Some("--amazing="), false, None);
    assert ValueName(ti) == Ok("tag");
    var s1 := "--amazing=" + "";
    assert s1 == "--amazing=";
    var s2 := s1 + "'";
    assert s2 == "--amazing='";
    var s3 := s2 + "~{";
    assert s3 == "--amazing='~{";
    var s4 := s3 + "tag";
    assert s4 == "--amazing='~{tag";
    var s5 := s4 + "}";
    assert s5 == "--amazing='~{tag}";
    var s6 := s5 + "'";
    assert s6 == "--amazing='~{tag}'";
    assert RenderCommandInput(ti, "tag") == s6;
  }

  /** test_translation_wdl.py:548-552. */
  lemma NoDefaultOptionalPosition()
    ensures TranslateCommandInput(CommandInput("tag", J.String(true), None, true, None))
         == Some(Ok("~{if defined(" + "tag" + ") then (\"'\" + " + "tag" + " + \"'\") else \"\"}"))
  {
    NoDefaultOptionalPositionTexts();
    var ti := CommandInput("tag", J.String(true), None, true, None);
    assert ValueName(ti) == Ok("tag");
    OptionalInputShape(ti, "tag");
  }

  lemma NoDefaultOptionalPositionTexts()
    ensures ") then (\"" + "" + "" + "'" + "\" + " == ") then (\"'\" + "
    ensures " + \"" + "'" + "\") else \"\"}" == " + \"'\") else \"\"}"
  {
  }

  /** test_translation_wdl.py:554-559. */
  lemma NoDefaultOptionalPrefix()
    ensures TranslateCommandInput(CommandInput("tag", J.String(true), Some("--amazing"), true, None))
         == Some(Ok("~{if defined(" + "tag" + ") then (\"--amazing '\" + " + "tag" + " + \"'\") else \"\"}"))
  {
    NoDefaultOptionalPrefixTexts();
    var ti := CommandInput("tag", J.String(true), Some("--amazing"), true, None);
    assert ValueName(ti) == Ok("tag");
    OptionalInputShape(ti, "tag");
  }

  lemma NoDefaultOptionalPrefixTexts()
    ensures ") then (\"" + "--amazing" + " " + "'" + "\" + " == ") then (\"--amazing '\" + "
    ensures " + \"" + "'" + "\") else \"\"}" == " + \"'\") else \"\"}"
  {
  }

  /** test_translation_wdl.py:561-574. */
  lemma NoDefaultOptionalPrefixNoSeparator()
    ensures TranslateCommandInput(CommandInput("tag", J.String(true), Some("--amazing="), false, None))
         == Some(Ok("~{if defined(" + "tag" + ") then (\"--amazing='\" + " + "tag" + " + \"'\") else \"\"}"))
  {
    NoDefaultOptionalPrefixNoSeparatorTexts();
    var ti := CommandInput("tag", J.String(true), Some("--amazing="), false, None);
    assert ValueName(ti) == Ok("tag");
    OptionalInputShape(ti, "tag");
  }

  lemma NoDefaultOptionalPrefixNoSeparatorTexts()
    ensures ") then (\"" + "--amazing=" + "" + "'" + "\" + " == ") then (\"--amazing='\" + "
    ensures " + \"" + "'" + "\") else \"\"}" == " + \"'\") else \"\"}"
  {
  }

  /** test_translation_wdl.py:576-580. */
  lemma DefaultRequiredPosition()
    ensures TranslateCommandInput(CommandInput("tag", J.String(false), None, true, Some(StrW("defval"))))
         == Some(Ok("~{" + "select_first([tag, \"defval\"])" + "}"))
  {
    var ti := CommandInput("tag", J.String(false), None, true, Some(StrW("defval")));
    DefvalName(ti);
  }

  /** test_translation_wdl.py:582-587. */
  lemma DefaultRequiredPrefix()
    ensures TranslateCommandInput(CommandInput("tag", J.String(false), Some("--amazing"), true, Some(StrW("defval"))))
         == Some(Ok("--amazing '~{" + "select_first([tag, \"defval\"])" + "}'"))
  {
    DefaultRequiredPrefixTexts();
    var ti := CommandInput("tag", J.String(false), Some("--amazing"), true, Some(StrW("defval")));
    DefvalName(ti);
  }

  lemma DefaultRequiredPrefixTexts()
    ensures "--amazing" + " " + "'" + "~{" == "--amazing '~{"
    ensures "}" + "'" == "}'"
  {
  }

  /** test_translation_wdl.py:589-600. */
  lemma DefaultRequiredPrefixNoSeparator()
    ensures TranslateCommandInput(CommandInput("tag", J.String(false), Some("--amazing="), false, Some(StrW("defval"))))
         == Some(Ok("--amazing='~{" + "select_first([tag, \"defval\"])" + "}'"))
  {
    DefaultRequiredPrefixNoSeparatorTexts();
    var ti := CommandInput("tag", J.String(false), Some("--amazing="), false, Some(StrW("defval")));
    DefvalName(ti);
  }

  lemma DefaultRequiredPrefixNoSeparatorTexts()
    ensures "--amazing=" + "" + "'" + "~{" == "--amazing='~{"
    ensures "}" + "'" == "}'"
  {
  }

  /** test_translation_wdl.py:602-607. */
  lemma DefaultOptionalPosition()
    ensures TranslateCommandInput(CommandInput("tag", J.String(true), None, true, Some(StrW("defval"))))
         == Some(Ok("~{if defined(" + "select_first([tag, \"defval\"])" + ") then (\"'\" + " + "select_first([tag, \"defval\"])" + " + \"'\") else \"\"}"))
  {
    DefaultOptionalPositionTexts();
    var ti := CommandInput("tag", J.String(true), None, true, Some(StrW("defval")));
    DefvalName(ti);
    OptionalInputShape(ti, "select_first([tag, \"defval\"])");
  }

  lemma DefaultOptionalPositionTexts()
    ensures ") then (\"" + "" + "" + "'" + "\" + " == ") then (\"'\" + "
    ensures " + \"" + "'" + "\") else \"\"}" == " + \"'\") else \"\"}"
  {
  }

  /** test_translation_wdl.py:609-616. */
  lemma DefaultOptionalPrefix()
    ensures TranslateCommandInput(CommandInput("tag", J.String(true), Some("--amazing"), true, Some(StrW("defval"))))
         == Some(Ok("~{if defined(" + "select_first([tag, \"defval\"])" + ") then (\"--amazing '\" + " + "select_first([tag, \"defval\"])" + " + \"'\") else \"\"}"))
  {
    DefaultOptionalPrefixTexts();
    var ti := CommandInput("tag", J.String(true), Some("--amazing"), true, Some(StrW("defval")));
    DefvalName(ti);
    OptionalInputShape(ti, "select_first([tag, \"defval\"])");
  }

  lemma DefaultOptionalPrefixTexts()
    ensures ") then (\"" + "--amazing" + " " + "'" + "\" + " == ") then (\"--amazing '\" + "
    ensures " + \"" + "'" + "\") else \"\"}" == " + \"'\") else \"\"}"
  {
  }

  /** test_translation_wdl.py:618-632. */
  lemma DefaultOptionalPrefixNoSeparator()
    ensures TranslateCommandInput(CommandInput("tag", J.String(true), Some("--amazing="), false, Some(StrW("defval"))))
         == Some(Ok("~{if defined(" + "select_first([tag, \"defval\"])" + ") then (\"--amazing='\" + " + "select_first([tag, \"defval\"])" + " + \"'\") else \"\"}"))
  {
    DefaultOptionalPrefixNoSeparatorTexts();
    var ti := CommandInput("tag", J.String(true), Some("--amazing="), false, Some(StrW("defval")));
    DefvalName(ti);
    OptionalInputShape(ti, "select_first([tag, \"defval\"])");
  }

  lemma DefaultOptionalPrefixNoSeparatorTexts()
    ensures ") then (\"" + "--amazing=" + "" + "'" + "\" + " == ") then (\"--amazing='\" + "
    ensures " + \"" + "'" + "\") else \"\"}" == " + \"'\") else \"\"}"
  {
  }

  /** test_translation_wdl.py:634-639. */
  lemma BooleanDefault()
    ensures TranslateCommandInput(CommandInput("tag", J.Boolean(true), Some("--amazing"), true, Some(BoolW(true))))
         == Some(Ok("~{if defined(" + "select_first([tag, true])" + ") then \"--amazing\" else \"\"}"))
  {
    BooleanDefaultTexts();
    var ti := CommandInput("tag", J.Boolean(true), Some("--amazing"), true, Some(BoolW(true)));
    TrueName(ti);
    BooleanInputShape(ti, "select_first([tag, true])");
  }

  lemma BooleanDefaultTexts()
    ensures Quoted("--amazing") == "\"--amazing\""
    ensures ") then " + "\"--amazing\"" + " else \"\"}" == ") then \"--amazing\" else \"\"}"
  {
  }

  /** test_translation_wdl.py:280-287. */
  lemma CpuDefault()
    ensures TranslateCommandInput(CommandInput("threads", J.Int(false), Some("-t"), true, Some(CpuSel(Some(1)))))
         == Some(Ok("-t ~{" + "select_first([threads, select_first([runtime_cpu, 1])])" + "}"))
  {
    CpuDefaultTexts();
    var ti := CommandInput("threads", J.Int(false), Some("-t"), true, Some(CpuSel(Some(1))));
    CpuOneName(ti);
  }

  lemma CpuDefaultTexts()
    ensures "-t" + " " + "" + "~{" == "-t ~{"
    ensures "}" + "" == "}"
  {
  }

  /** test_translation_wdl.py:289-294. */
  lemma CpuDefaultWithoutCount()
    ensures TranslateCommandInput(CommandInput("threads", J.Int(false), Some("-t"), true, Some(CpuSel(None))))
         == Some(Ok("-t ~{" + "select_first([threads, runtime_cpu])" + "}"))
  {
    CpuDefaultWithoutCountTexts();
    var ti := CommandInput("threads", J.Int(false), Some("-t"), true, Some(CpuSel(None)));
    CpuName(ti);
  }

  lemma CpuDefaultWithoutCountTexts()
    ensures "-t" + " " + "" + "~{" == "-t ~{"
    ensures "}" + "" == "}"
  {
  }
}
