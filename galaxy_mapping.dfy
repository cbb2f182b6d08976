/**
 * Mapping ingested Galaxy components onto Janis types and selectors
 * (janis_core/ingestion/galaxy/janis_mapping/general.py).
 */
module GalaxyMapping {
  import opened Wrappers
  import J = JanisTypes
  import opened GalaxyComponents

  /** What to_janis_datatype reads of a component: its Galaxy datatype class and flags. */
  datatype TypedComponent = TypedComponent(classname: string, isArray: bool, optional: bool, redirect: bool)

  /** A component, or a workflow step output that stands for the tool output it exposes. */
  datatype DatatypeSource =
    | Direct(component: TypedComponent)
    | StepOutput(toolOutput: TypedComponent)

  datatype MappingError =
    | KeyError(key: string)   // a Galaxy datatype class missing from the table
    | AttributeError          // a param without the attribute the rule reads

  /** The Janis selectors a tool output can be collected with. */
  datatype Selector = InputSelector(tag: string) | WildcardSelector(wildcard: string)

  /** The component a source is typed by: a step output is typed by its tool output. */
  function Underlying(source: DatatypeSource): TypedComponent
  {
    match source
    case Direct(c) => c
    case StepOutput(c) => c
  }

  /** The table of base types, each a fresh non-optional instance. */
  function DatatypeMap(classname: string): Option<J.DataType>
  {
    match classname
    case "String" => Some(J.String(false))
    case "Int" => Some(J.Int(false))
    case "Float" => Some(J.Float(false))
    case "Boolean" => Some(J.Boolean(false))
    case "File" => Some(J.File("File", [], [], false))
    case "Directory" => Some(J.Directory(false))
    case _ => None
  }

  /** Setting `optional = True` on a type object: only its outermost node changes. */
  function MarkOptional(t: J.DataType): J.DataType
  {
    match t
    case String(_) => J.String(true)
    case Int(_) => J.Int(true)
    case Float(_) => J.Float(true)
    case Double(_) => J.Double(true)
    case Boolean(_) => J.Boolean(true)
    case File(n, e, s, _) => J.File(n, e, s, true)
    case Directory(_) => J.Directory(true)
    case Filename(g, _) => J.Filename(g, true)
    case Stdout(sub, _) => J.Stdout(sub, true)
    case Stderr(_) => J.Stderr(true)
    case Array(sub, _) => J.Array(sub, true)
  }

  /** The optional flag of the outermost node. */
  function IsOptional(t: J.DataType): bool
  {
    t.optional
  }

  /** The names of the wrapping Stdout and Array layers, outermost first. */
  function Layers(t: J.DataType): seq<string>
  {
    match t
    case Stdout(sub, _) => ["Stdout"] + Layers(sub)
    case Array(sub, _) => ["Array"] + Layers(sub)
    case _ => []
  }

  function RedirectLayer(c: TypedComponent): seq<string>
  {
    if c.redirect then ["Stdout"] else []
  }

  function ArrayLayer(c: TypedComponent): seq<string>
  {
    if c.isArray then ["Array"] else []
  }

  /** The type under every Stdout and Array layer. */
  function Innermost(t: J.DataType): J.DataType
  {
    match t
    case Stdout(sub, _) => Innermost(sub)
    case Array(sub, _) => Innermost(sub)
    case _ => t
  }

  /** No node below the outermost one is optional. */
  predicate InnerNotOptional(t: J.DataType)
  {
    match t
    case Stdout(sub, _) => !sub.optional && InnerNotOptional(sub)
    case Array(sub, _) => !sub.optional && InnerNotOptional(sub)
    case _ => true
  }

  /**
   * to_janis_datatype: a step output maps through its tool output; the base type comes
   * from the table (KeyError for any other class), is wrapped in Array when the
   * component is an array, then in Stdout when it is a redirect, and only the
   * outermost node is made optional.
   */
  function ToJanisDatatype(source: DatatypeSource): Result<J.DataType, MappingError>
  {
    var component := Underlying(source);
    match DatatypeMap(component.classname)
    case None => Err(KeyError(component.classname))
    case Some(base) =>
      var dtype := if component.isArray then J.Array(base, false) else base;
      var dtype := if component.redirect then J.Stdout(dtype, false) else dtype;
      Ok(if component.optional then MarkOptional(dtype) else dtype)
  }

  /** What to_janis_datatype builds, layer by layer. */
  lemma ToJanisDatatypeShape(source: DatatypeSource)
    ensures var c, r := Underlying(source), ToJanisDatatype(source);
            && (r.Err? <==> DatatypeMap(c.classname).None?)
            && (r.Err? ==> r.error == KeyError(c.classname))
            && (r.Ok? ==>
                  && Layers(r.value) == RedirectLayer(c) + ArrayLayer(c)
                  && J.Name(Innermost(r.value)) == c.classname
                  && (|Layers(r.value)| > 0 ==> Some(Innermost(r.value)) == DatatypeMap(c.classname))
                  && IsOptional(r.value) == c.optional
                  && InnerNotOptional(r.value))
  {
    var c := Underlying(source);
    if DatatypeMap(c.classname).Some? {
      var base := DatatypeMap(c.classname).value;
      TableEntryIsPlain(c.classname);
      var arrayed := if c.isArray then J.Array(base, false) else base;
      var dtype := if c.redirect then J.Stdout(arrayed, false) else arrayed;
      assert Layers(dtype) == RedirectLayer(c) + ArrayLayer(c);
      assert Innermost(dtype) == base && InnerNotOptional(dtype);
      if c.optional {
        MarkOptionalOuterOnly(dtype);
      }
    }
  }

  /** A table entry is a plain, non-optional type named by its class. */
  lemma TableEntryIsPlain(classname: string)
    requires DatatypeMap(classname).Some?
    ensures var t := DatatypeMap(classname).value;
            Layers(t) == [] && Innermost(t) == t && !t.optional && J.Name(t) == classname
            && InnerNotOptional(t)
  {
  }

  /** Marking a type optional changes its outermost flag and nothing else. */
  lemma MarkOptionalOuterOnly(t: J.DataType)
    ensures MarkOptional(t).optional
    ensures Layers(MarkOptional(t)) == Layers(t)
    ensures J.Name(Innermost(MarkOptional(t))) == J.Name(Innermost(t))
    ensures |Layers(t)| > 0 ==> Innermost(MarkOptional(t)) == Innermost(t)
    ensures InnerNotOptional(MarkOptional(t)) == InnerNotOptional(t)
  {
  }

  /** A step output is typed exactly as the tool output it exposes. */
  lemma StepOutputTypedAsToolOutput(c: TypedComponent)
    ensures ToJanisDatatype(StepOutput(c)) == ToJanisDatatype(Direct(c))
  {
  }

  /** An array redirect becomes Stdout(Array(base)): Array is applied first. */
  lemma ArrayRedirectShape(c: TypedComponent)
    requires c.isArray && c.redirect && DatatypeMap(c.classname).Some?
    ensures ToJanisDatatype(Direct(c))
         == Ok(J.Stdout(J.Array(DatatypeMap(c.classname).value, false), c.optional))
  {
  }

  /** A Python attribute value is truthy: present, not None, and a non-empty string. */
  predicate Truthy(a: Attr)
  {
    a.Text? && a.s != ""
  }

  /** The selector rule once the wildcard is known. */
  function SelectorFor(component: Component, wildcard: Option<string>, tags: Component -> string): Selector
  {
    if wildcard.Some? then WildcardSelector(wildcard.value)
    else if component.InputOutput? then InputSelector(tags(component.inputComponent))
    else WildcardSelector("unknown")
  }

  /**
   * to_janis_selector as written: discover_pattern is consulted only when the param has a
   * `from_work_dir` attribute, and is then read without checking that it exists.
   * `tags` stands for looking up an input component's tag by its uuid.
   */
  function ToJanisSelectorAsWritten(component: Component, tags: Component -> string)
    : (r: Result<Selector, MappingError>)
    ensures r.Err? <==> component.gxparam.Some? && component.gxparam.value.fromWorkDir != Missing
                        && !Truthy(component.gxparam.value.fromWorkDir)
                        && component.gxparam.value.discoverPattern == Missing
    ensures r.Err? ==> r.error == AttributeError
  {
    if component.gxparam.None? then Ok(SelectorFor(component, None, tags))
    else
      var p := component.gxparam.value;
      if p.fromWorkDir != Missing && Truthy(p.fromWorkDir) then Ok(SelectorFor(component, Some(p.fromWorkDir.s), tags))
      else if p.fromWorkDir != Missing && p.discoverPattern == Missing then Err(AttributeError)
      else if p.fromWorkDir != Missing && Truthy(p.discoverPattern) then Ok(SelectorFor(component, Some(p.discoverPattern.s), tags))
      else Ok(SelectorFor(component, None, tags))
  }

  /**
   * to_janis_selector with the attribute check on the attribute it reads: a truthy
   * from_work_dir wins, else a truthy discover_pattern; with neither, an input-derived
   * output selects its input and anything else gets the 'unknown' wildcard.
   */
  function ToJanisSelector(component: Component, tags: Component -> string): (r: Selector)
  {
    if component.gxparam.None? then SelectorFor(component, None, tags)
    else
      var p := component.gxparam.value;
      if Truthy(p.fromWorkDir) then SelectorFor(component, Some(p.fromWorkDir.s), tags)
      else if Truthy(p.discoverPattern) then SelectorFor(component, Some(p.discoverPattern.s), tags)
      else SelectorFor(component, None, tags)
  }

  /** The selector rules: precedence of from_work_dir, then discover_pattern, then the component kind. */
  lemma ToJanisSelectorRules(component: Component, tags: Component -> string)
    ensures var r := ToJanisSelector(component, tags);
            var p := component.gxparam;
            && (p.Some? && Truthy(p.value.fromWorkDir) ==> r == WildcardSelector(p.value.fromWorkDir.s))
            && ((p.Some? && !Truthy(p.value.fromWorkDir) && Truthy(p.value.discoverPattern))
                ==> r == WildcardSelector(p.value.discoverPattern.s))
            && ((p.None? || (!Truthy(p.value.fromWorkDir) && !Truthy(p.value.discoverPattern))) ==>
                  r == (if component.InputOutput? then InputSelector(tags(component.inputComponent))
                        else WildcardSelector("unknown")))
  {
  }

  /** Where the param has both attributes, the source and the corrected rule agree. */
  lemma AsWrittenAgreesWithBothAttributes(component: Component, tags: Component -> string)
    requires component.gxparam.Some?
    requires component.gxparam.value.fromWorkDir != Missing && component.gxparam.value.discoverPattern != Missing
    ensures ToJanisSelectorAsWritten(component, tags) == Ok(ToJanisSelector(component, tags))
  {
  }

  /**
   * Without a from_work_dir attribute the source never looks at discover_pattern: the
   * selector is the one for no wildcard, whatever pattern the param carries.
   */
  lemma AsWrittenIgnoresPatternWithoutFromWorkDir(component: Component, tags: Component -> string)
    requires component.gxparam.Some? && component.gxparam.value.fromWorkDir == Missing
    ensures ToJanisSelectorAsWritten(component, tags) == Ok(SelectorFor(component, None, tags))
    ensures Truthy(component.gxparam.value.discoverPattern) ==>
              ToJanisSelector(component, tags) == SelectorFor(component, Some(component.gxparam.value.discoverPattern.s), tags)
  {
  }

  /**
   * A from_work_dir attribute that is present but falsy, with no discover_pattern
   * attribute, makes the source fail, where the corrected rule falls back to the
   * selector for no wildcard.
   */
  lemma AsWrittenFailsWithoutPatternAttribute(component: Component, tags: Component -> string)
    requires component.gxparam.Some?
    requires var p := component.gxparam.value;
             p.fromWorkDir != Missing && !Truthy(p.fromWorkDir) && p.discoverPattern == Missing
    ensures ToJanisSelectorAsWritten(component, tags) == Err(AttributeError)
    ensures ToJanisSelector(component, tags) == SelectorFor(component, None, tags)
  {
  }

  /**
   * A param with a discover_pattern but no from_work_dir attribute: the source ignores the
   * pattern and falls back to the 'unknown' wildcard, while the pattern is the evident
   * selector.
   */
  lemma AsWrittenIgnoresDiscoverPattern(tags: Component -> string)
    ensures var c := WildcardOutput(Some(Param("out_file", Missing, Text("*.bam"))), true);
            && ToJanisSelectorAsWritten(c, tags) == Ok(WildcardSelector("unknown"))
            && ToJanisSelector(c, tags) == WildcardSelector("*.bam")
  {
  }

  /** A param with a from_work_dir attribute that is None but no discover_pattern attribute makes the source fail. */
  lemma AsWrittenFailsWithoutDiscoverPattern(tags: Component -> string)
    ensures var c := WildcardOutput(Some(Param("out_file", NoneValue, Missing)), true);
            && ToJanisSelectorAsWritten(c, tags) == Err(AttributeError)
            && ToJanisSelector(c, tags) == WildcardSelector("unknown")
  {
  }
}
