/**
 * Output extraction for an ingested Galaxy tool (janis_core/ingestion/galaxy/model/tool/outputs.py).
 *
 * The extractor whitelists the tool's Galaxy output params, gathers candidate output
 * components of four kinds (from input components, from file-collection strategies,
 * from stdout redirects, and one uncertain candidate per whitelisted param), then
 * picks for each whitelisted param its candidate of best priority:
 * redirect < input < wildcard < uncertain, the earliest gathered among equals.
 */
module GalaxyOutputs {
  import opened Wrappers
  import opened GalaxyComponents
  import StableSort

  /** The keys of the extractor's `tool_outputs` dictionary. */
  datatype OutputKind = InputKind | WildcardKind | RedirectKind | UncertainKind

  /** The exceptions extraction can end in. */
  datatype ExtractError =
    | AttributeError   // a whitelisted param without a discover_pattern attribute
    | AssertionError   // a gathered candidate without a Galaxy param
    | IndexError       // a whitelisted param without any candidate

  /** The priority table of prioritise_outputs: lower is preferred. */
  function Priority(k: OutputKind): real
  {
    match k
    case RedirectKind => 0.0
    case InputKind => 1.0
    case WildcardKind => 2.0
    case UncertainKind => 3.0
  }

  /** An entry of the per-name lookup table: the kind it was gathered as, and the component. */
  datatype Candidate = Candidate(kind: OutputKind, component: Component)

  function PriorityKey(c: Candidate): real
  {
    Priority(c.kind)
  }

  /** Reading a key of the `defaultdict(list)`: absent keys read as the empty list. */
  function Outputs(m: map<OutputKind, seq<Component>>, k: OutputKind): seq<Component>
  {
    if k in m then m[k] else []
  }

  /**
   * Appending xs one by one under key k of the `defaultdict(list)`: the key comes into
   * existence with the first append, and no other key changes.
   */
  function Appended(m: map<OutputKind, seq<Component>>, k: OutputKind, xs: seq<Component>)
    : (r: map<OutputKind, seq<Component>>)
    ensures Outputs(r, k) == Outputs(m, k) + xs
    ensures forall j :: j != k ==> Outputs(r, j) == Outputs(m, j)
    ensures forall j :: j in r <==> j in m || (j == k && |xs| > 0)
  {
    if |xs| == 0 then m else m[k := Outputs(m, k) + xs]
  }

  lemma AppendedSnoc(m: map<OutputKind, seq<Component>>, k: OutputKind, xs: seq<Component>, c: Component)
    ensures Appended(m, k, xs + [c]) == Appended(Appended(m, k, xs), k, [c])
  {
    var left := Appended(m, k, xs + [c]);
    var right := Appended(Appended(m, k, xs), k, [c]);
    assert forall j :: j in left <==> j in right;
    forall j | j in left
      ensures left[j] == right[j]
    {
      assert left[j] == Outputs(left, j) && right[j] == Outputs(right, j);
    }
  }

  // ---------------------------------------------------------------- whitelist

  /** `xmltool.outputs.get(name)`: the XML output param of that name, if any. */
  function XmlGet(outputs: seq<Param>, name: string): (r: Option<Param>)
    ensures r.Some? ==> r.value in outputs && r.value.name == name
    ensures r.None? <==> forall p :: p in outputs ==> p.name != name
  {
    if |outputs| == 0 then None
    else if outputs[0].name == name then Some(outputs[0])
    else XmlGet(outputs[1..], name)
  }

  /** The XML outputs are a registry keyed by name. */
  predicate UniqueNames(outputs: seq<Param>)
  {
    forall i, j :: 0 <= i < j < |outputs| ==> outputs[i].name != outputs[j].name
  }

  /** With a workflow step: each of the step's output names that the XML declares, in step order. */
  function StepWhitelist(outputs: seq<Param>, names: seq<string>): (r: seq<Param>)
    ensures |r| <= |names|
  {
    if |names| == 0 then []
    else
      var init := StepWhitelist(outputs, names[..|names| - 1]);
      match XmlGet(outputs, names[|names| - 1])
      case Some(p) => init + [p]
      case None => init
  }

  /** The step whitelist holds exactly the XML params the step names. */
  lemma {:induction false} StepWhitelistMembers(outputs: seq<Param>, names: seq<string>)
    requires UniqueNames(outputs)
    ensures forall p :: p in StepWhitelist(outputs, names) <==> p in outputs && p.name in names
  {
    if |names| > 0 {
      var init := names[..|names| - 1];
      var last := names[|names| - 1];
      StepWhitelistMembers(outputs, init);
      assert names == init + [last];
      forall p | p in outputs && p.name == last
        ensures XmlGet(outputs, last) == Some(p)
      {
        var q := XmlGet(outputs, last).value;
        var i :| 0 <= i < |outputs| && outputs[i] == p;
        var j :| 0 <= j < |outputs| && outputs[j] == q;
        assert i == j;
      }
    }
  }

  // ---------------------------------------------------------------- candidates

  function Names(ps: seq<Param>): (r: seq<string>)
    ensures forall n :: n in r <==> exists p :: p in ps && p.name == n
  {
    if |ps| == 0 then [] else [ps[0].name] + Names(ps[1..])
  }

  /** should_create_input_output: a non-flag input component attached to a whitelisted name. */
  function ShouldCreateInputOutput(whitelist: seq<Param>, c: Component): (r: bool)
    ensures r <==> !c.Flag? && c.gxparam.Some?
                   && exists p :: p in whitelist && p.name == c.gxparam.value.name
  {
    if !c.Flag? && c.gxparam.Some? && c.gxparam.value.name in Names(whitelist) then true else false
  }

  /**
   * should_create_wildcard_output: the param has a from_work_dir, or else a
   * discover_pattern, that exists and is not None.
   */
  function ShouldCreateWildcardOutput(p: Param): (r: bool)
    ensures r <==> p.fromWorkDir.Text? || p.discoverPattern.Text?
  {
    if p.fromWorkDir != Missing && p.fromWorkDir != NoneValue then true
    else if p.discoverPattern != Missing && p.discoverPattern != NoneValue then true
    else false
  }

  /** The candidates gather_input_outputs appends, in component order. */
  function InputCandidates(components: seq<Component>, whitelist: seq<Param>): seq<Component>
  {
    if |components| == 0 then []
    else
      var last := components[|components| - 1];
      InputCandidates(components[..|components| - 1], whitelist)
      + (if ShouldCreateInputOutput(whitelist, last) then [InputOutput(last.gxparam, last)] else [])
  }

  /** The candidates gather_wildcard_outputs appends, in whitelist order. */
  function WildcardCandidates(whitelist: seq<Param>): seq<Component>
  {
    if |whitelist| == 0 then []
    else
      var last := whitelist[|whitelist| - 1];
      WildcardCandidates(whitelist[..|whitelist| - 1])
      + (if ShouldCreateWildcardOutput(last) then [WildcardOutput(Some(last), true)] else [])
  }

  /** The candidates gather_uncertain_outputs appends: one per whitelisted param. */
  function UncertainCandidates(whitelist: seq<Param>): (r: seq<Component>)
    ensures |r| == |whitelist|
    ensures forall i :: 0 <= i < |whitelist| ==> r[i] == WildcardOutput(Some(whitelist[i]), false)
  {
    seq(|whitelist|, i requires 0 <= i < |whitelist| => WildcardOutput(Some(whitelist[i]), false))
  }

  lemma {:induction false} InputCandidatesMembers(components: seq<Component>, whitelist: seq<Param>)
    ensures forall c :: c in InputCandidates(components, whitelist)
              <==> exists x :: x in components && ShouldCreateInputOutput(whitelist, x)
                              && c == InputOutput(x.gxparam, x)
  {
    if |components| > 0 {
      var init := components[..|components| - 1];
      InputCandidatesMembers(init, whitelist);
      assert components == init + [components[|components| - 1]];
    }
  }

  lemma {:induction false} WildcardCandidatesMembers(whitelist: seq<Param>)
    ensures forall c :: c in WildcardCandidates(whitelist)
              <==> exists p :: p in whitelist && ShouldCreateWildcardOutput(p) && c == WildcardOutput(Some(p), true)
  {
    if |whitelist| > 0 {
      var init := whitelist[..|whitelist| - 1];
      WildcardCandidatesMembers(init);
      assert whitelist == init + [whitelist[|whitelist| - 1]];
    }
  }

  // ---------------------------------------------------------------- redirects

  /** The param a redirect would be linked to: it has a discover_pattern equal to the value. */
  predicate MatchesRedirect(p: Param, value: string)
  {
    p.discoverPattern == Text(value)
  }

  /** The last whitelisted param matching the redirect's most common value. */
  function LastMatch(whitelist: seq<Param>, value: string): Option<Param>
  {
    if |whitelist| == 0 then None
    else if MatchesRedirect(whitelist[|whitelist| - 1], value) then Some(whitelist[|whitelist| - 1])
    else LastMatch(whitelist[..|whitelist| - 1], value)
  }

  /** Later matches overwrite earlier ones: the link is the last matching param, if any. */
  lemma {:induction false} LastMatchIsLast(whitelist: seq<Param>, value: string)
    ensures LastMatch(whitelist, value).None? <==> forall p :: p in whitelist ==> !MatchesRedirect(p, value)
    ensures LastMatch(whitelist, value).Some? ==>
              exists i :: 0 <= i < |whitelist| && whitelist[i] == LastMatch(whitelist, value).value
                          && MatchesRedirect(whitelist[i], value)
                          && forall j :: i < j < |whitelist| ==> !MatchesRedirect(whitelist[j], value)
  {
    if |whitelist| > 0 {
      var init := whitelist[..|whitelist| - 1];
      LastMatchIsLast(init, value);
      assert whitelist == init + [whitelist[|whitelist| - 1]];
      if !MatchesRedirect(whitelist[|whitelist| - 1], value) && LastMatch(init, value).Some? {
        var i :| 0 <= i < |init| && init[i] == LastMatch(init, value).value
                 && MatchesRedirect(init[i], value)
                 && forall j :: i < j < |init| ==> !MatchesRedirect(init[j], value);
        assert whitelist[i] == init[i];
      }
    }
  }

  /**
   * attempt_redirect_gxparam_link on a value: a linked redirect is kept as it is; an
   * unlinked one reads every whitelisted param's discover_pattern (failing on a param
   * without that attribute) and is linked to the last match.
   */
  function LinkRedirect(whitelist: seq<Param>, r: Component): (res: Result<Component, ExtractError>)
    requires r.RedirectOutput?
    ensures r.gxparam.Some? ==> res == Ok(r)
    ensures r.gxparam.None? && (exists p :: p in whitelist && p.discoverPattern == Missing)
            ==> res == Err(AttributeError)
    ensures res.Ok? ==> res.value.RedirectOutput? && res.value.mostCommonValue == r.mostCommonValue
  {
    if r.gxparam.Some? then Ok(r)
    else if exists p :: p in whitelist && p.discoverPattern == Missing then Err(AttributeError)
    else Ok(RedirectOutput(LastMatch(whitelist, r.mostCommonValue), r.mostCommonValue))
  }

  /** The redirects gather_redirect_outputs keeps: those linked after the attempt, in order. */
  function RedirectCandidates(whitelist: seq<Param>, redirects: seq<Component>)
    : Result<seq<Component>, ExtractError>
    requires forall r :: r in redirects ==> r.RedirectOutput?
  {
    if |redirects| == 0 then Ok([])
    else
      match RedirectCandidates(whitelist, redirects[..|redirects| - 1])
      case Err(e) => Err(e)
      case Ok(kept) =>
        match LinkRedirect(whitelist, redirects[|redirects| - 1])
        case Err(e) => Err(e)
        case Ok(l) => Ok(kept + (if l.gxparam.Some? then [l] else []))
  }

  /** Every kept redirect is a linked redirect. */
  lemma {:induction false} RedirectCandidatesLinked(whitelist: seq<Param>, redirects: seq<Component>)
    requires forall r :: r in redirects ==> r.RedirectOutput?
    ensures RedirectCandidates(whitelist, redirects).Ok? ==>
              forall c :: c in RedirectCandidates(whitelist, redirects).value ==> c.RedirectOutput? && c.gxparam.Some?
  {
    if |redirects| > 0 {
      RedirectCandidatesLinked(whitelist, redirects[..|redirects| - 1]);
    }
  }

  // ---------------------------------------------------------------- prioritising

  /** The components of cs attached to a param of that name, in order. */
  function Named(cs: seq<Component>, name: string): seq<Component>
  {
    if |cs| == 0 then []
    else (if HasParamNamed(cs[0], name) then [cs[0]] else []) + Named(cs[1..], name)
  }

  lemma {:induction false} NamedMembers(cs: seq<Component>, name: string)
    ensures forall c :: c in Named(cs, name) <==> c in cs && HasParamNamed(c, name)
  {
    if |cs| > 0 {
      NamedMembers(cs[1..], name);
      assert cs == [cs[0]] + cs[1..];
    }
  }

  /** A kept component has no earlier component of the same name in front of it. */
  lemma {:induction false} NamedHead(cs: seq<Component>, name: string, i: nat)
    requires i < |cs| && HasParamNamed(cs[i], name)
    requires forall j :: 0 <= j < i ==> !HasParamNamed(cs[j], name)
    ensures |Named(cs, name)| > 0 && Named(cs, name)[0] == cs[i]
  {
    if i > 0 {
      NamedHead(cs[1..], name, i - 1);
    }
  }

  /** Some component of cs is attached to a param of that name. */
  predicate HasCandidate(cs: seq<Component>, name: string)
  {
    exists c :: c in cs && HasParamNamed(c, name)
  }

  /** The first component of the first non-empty block, in the order given. */
  function FirstOfBlocks(nr: seq<Component>, ni: seq<Component>, nw: seq<Component>, nu: seq<Component>)
    : Option<Component>
  {
    if |nr| > 0 then Some(nr[0])
    else if |ni| > 0 then Some(ni[0])
    else if |nw| > 0 then Some(nw[0])
    else if |nu| > 0 then Some(nu[0])
    else None
  }

  /**
   * The independent reading of the choice: the first candidate of that name among the
   * redirects, else among the input candidates, else the wildcards, else the uncertain.
   */
  function Chosen(m: map<OutputKind, seq<Component>>, name: string): Option<Component>
  {
    FirstOfBlocks(Named(Outputs(m, RedirectKind), name), Named(Outputs(m, InputKind), name),
                  Named(Outputs(m, WildcardKind), name), Named(Outputs(m, UncertainKind), name))
  }

  /** The choice is attached to the name, and there is one exactly when some candidate has that name. */
  lemma ChosenMeaning(m: map<OutputKind, seq<Component>>, name: string)
    ensures Chosen(m, name).Some? ==> HasParamNamed(Chosen(m, name).value, name)
    ensures Chosen(m, name).None? <==>
              !HasCandidate(Outputs(m, RedirectKind), name) && !HasCandidate(Outputs(m, InputKind), name)
              && !HasCandidate(Outputs(m, WildcardKind), name) && !HasCandidate(Outputs(m, UncertainKind), name)
  {
    var nr := Named(Outputs(m, RedirectKind), name);
    var ni := Named(Outputs(m, InputKind), name);
    var nw := Named(Outputs(m, WildcardKind), name);
    var nu := Named(Outputs(m, UncertainKind), name);
    NamedMembers(Outputs(m, RedirectKind), name);
    NamedMembers(Outputs(m, InputKind), name);
    NamedMembers(Outputs(m, WildcardKind), name);
    NamedMembers(Outputs(m, UncertainKind), name);
    assert |nr| > 0 ==> nr[0] in nr;
    assert |ni| > 0 ==> ni[0] in ni;
    assert |nw| > 0 ==> nw[0] in nw;
    assert |nu| > 0 ==> nu[0] in nu;
  }

  function Tag(k: OutputKind, cs: seq<Component>): (r: seq<Candidate>)
    ensures |r| == |cs| && forall i :: 0 <= i < |cs| ==> r[i] == Candidate(k, cs[i])
    ensures forall x :: x in r ==> x.kind == k
  {
    seq(|cs|, i requires 0 <= i < |cs| => Candidate(k, cs[i]))
  }

  /** Candidates gathered as inputs, wildcards, redirects and uncertain, in that order. */
  function Blocks(ni: seq<Component>, nw: seq<Component>, nr: seq<Component>, nu: seq<Component>): (r: seq<Candidate>)
    ensures |r| == |ni| + |nw| + |nr| + |nu|
  {
    (Tag(InputKind, ni) + Tag(WildcardKind, nw)) + (Tag(RedirectKind, nr) + Tag(UncertainKind, nu))
  }

  /** `data_structure[name]`: the candidates of that name in dictionary order. */
  function Possible(m: map<OutputKind, seq<Component>>, name: string): seq<Candidate>
  {
    Blocks(Named(Outputs(m, InputKind), name), Named(Outputs(m, WildcardKind), name),
           Named(Outputs(m, RedirectKind), name), Named(Outputs(m, UncertainKind), name))
  }

  /** The first minimum is the first index holding the least key. */
  lemma FirstMinAt(s: seq<Candidate>, lo: nat, v: real)
    requires lo < |s| && PriorityKey(s[lo]) == v
    requires forall j :: 0 <= j < |s| ==> PriorityKey(s[j]) >= v
    requires forall j :: 0 <= j < lo ==> PriorityKey(s[j]) > v
    ensures StableSort.FirstMin(s, PriorityKey) == lo
  {
    var i := StableSort.FirstMin(s, PriorityKey);
    assert PriorityKey(s[i]) <= PriorityKey(s[lo]);
  }

  /** With a redirect candidate, the first redirect has the least priority and comes first among its peers. */
  lemma RedirectBlockFirst(ni: seq<Component>, nw: seq<Component>, nr: seq<Component>, nu: seq<Component>)
    requires |nr| > 0
    ensures StableSort.FirstMin(Blocks(ni, nw, nr, nu), PriorityKey) == |ni| + |nw|
    ensures Blocks(ni, nw, nr, nu)[|ni| + |nw|] == Candidate(RedirectKind, nr[0])
  {
    var front := Tag(InputKind, ni) + Tag(WildcardKind, nw);
    var back := Tag(RedirectKind, nr) + Tag(UncertainKind, nu);
    var s := Blocks(ni, nw, nr, nu);
    forall j | 0 <= j < |front|
      ensures PriorityKey(s[j]) > 0.0
    {
      assert s[j] == front[j] && front[j] in front;
    }
    assert s[|front|] == back[0] == Candidate(RedirectKind, nr[0]);
    FirstMinAt(s, |front|, 0.0);
  }

  /** Without redirects, the head of the first non-empty block comes first at index 0. */
  lemma LeadingBlockFirst(ni: seq<Component>, nw: seq<Component>, nr: seq<Component>, nu: seq<Component>)
    requires |nr| == 0 && |ni| + |nw| + |nu| > 0
    ensures StableSort.FirstMin(Blocks(ni, nw, nr, nu), PriorityKey) == 0
  {
    var s := Blocks(ni, nw, nr, nu);
    var v := if |ni| > 0 then 1.0 else if |nw| > 0 then 2.0 else 3.0;
    assert PriorityKey(s[0]) == v;
    forall j | 0 <= j < |s|
      ensures PriorityKey(s[j]) >= v
    {
      assert s[j] in s;
    }
    FirstMinAt(s, 0, v);
  }

  /** The head of the stably priority-sorted blocks is the first of the first non-empty block. */
  lemma BlocksHead(ni: seq<Component>, nw: seq<Component>, nr: seq<Component>, nu: seq<Component>)
    requires |Blocks(ni, nw, nr, nu)| > 0
    ensures FirstOfBlocks(nr, ni, nw, nu).Some?
    ensures StableSort.SortBy(Blocks(ni, nw, nr, nu), PriorityKey)[0].component == FirstOfBlocks(nr, ni, nw, nu).value
  {
    StableSort.SortByHead(Blocks(ni, nw, nr, nu), PriorityKey);
    if |nr| > 0 {
      RedirectBlockFirst(ni, nw, nr, nu);
    } else {
      LeadingBlockFirst(ni, nw, nr, nu);
    }
  }

  /** Without candidates of that name there is nothing to choose. */
  lemma NoCandidateNoChoice(m: map<OutputKind, seq<Component>>, name: string)
    requires |Possible(m, name)| == 0
    ensures Chosen(m, name).None?
  {
  }

  /** The head of the stably priority-sorted candidates is the chosen candidate. */
  lemma PossibleHead(m: map<OutputKind, seq<Component>>, name: string)
    requires |Possible(m, name)| > 0
    ensures Chosen(m, name).Some?
    ensures StableSort.SortBy(Possible(m, name), PriorityKey)[0].component == Chosen(m, name).value
  {
    BlocksHead(Named(Outputs(m, InputKind), name), Named(Outputs(m, WildcardKind), name),
               Named(Outputs(m, RedirectKind), name), Named(Outputs(m, UncertainKind), name));
  }

  /** No gathered candidate lacks a Galaxy param (the assertion of prioritise_outputs). */
  predicate AllLinked(m: map<OutputKind, seq<Component>>)
  {
    forall k, c :: k in m && c in m[k] ==> c.gxparam.Some?
  }

  /** One chosen candidate per whitelisted param, failing on the first without any. */
  function ChooseAll(choose: string -> Option<Component>, whitelist: seq<Param>)
    : Result<seq<Component>, ExtractError>
  {
    if |whitelist| == 0 then Ok([])
    else
      match ChooseAll(choose, whitelist[..|whitelist| - 1])
      case Err(e) => Err(e)
      case Ok(xs) =>
        match choose(whitelist[|whitelist| - 1].name)
        case None => Err(IndexError)
        case Some(c) => Ok(xs + [c])
  }

  lemma {:induction false} ChooseAllMeaning(choose: string -> Option<Component>, whitelist: seq<Param>)
    ensures var r := ChooseAll(choose, whitelist);
            && (r.Ok? <==> forall j :: 0 <= j < |whitelist| ==> choose(whitelist[j].name).Some?)
            && (r.Ok? ==> |r.value| == |whitelist|
                          && forall j :: 0 <= j < |whitelist| ==> Some(r.value[j]) == choose(whitelist[j].name))
            && (r.Err? ==> r.error == IndexError)
  {
    if |whitelist| > 0 {
      var init := whitelist[..|whitelist| - 1];
      ChooseAllMeaning(choose, init);
      assert forall j :: 0 <= j < |init| ==> init[j] == whitelist[j];
    }
  }

  /**
   * prioritise_outputs as a whole: an unlinked candidate fails the assertion; otherwise
   * one chosen component per whitelisted param, or IndexError for a param without
   * candidates.
   */
  function Prioritised(m: map<OutputKind, seq<Component>>, whitelist: seq<Param>)
    : (r: Result<seq<Component>, ExtractError>)
    ensures !AllLinked(m) ==> r == Err(AssertionError)
    ensures AllLinked(m) ==> (r.Ok? <==> forall j :: 0 <= j < |whitelist| ==> Chosen(m, whitelist[j].name).Some?)
    ensures AllLinked(m) && r.Err? ==> r == Err(IndexError)
    ensures r.Ok? ==> |r.value| == |whitelist|
                      && forall j :: 0 <= j < |whitelist| ==> Some(r.value[j]) == Chosen(m, whitelist[j].name)
  {
    var choose := (name: string) => Chosen(m, name);
    ChooseAllMeaning(choose, whitelist);
    if !AllLinked(m) then Err(AssertionError) else ChooseAll(choose, whitelist)
  }

  /** Picking the head of the priority-sorted candidates is the choice, or nothing when there are none. */
  lemma PickStep(m: map<OutputKind, seq<Component>>, name: string)
    ensures |Possible(m, name)| == 0 <==> Chosen(m, name).None?
    ensures |Possible(m, name)| > 0 ==>
              Chosen(m, name) == Some(StableSort.SortBy(Possible(m, name), PriorityKey)[0].component)
  {
    if |Possible(m, name)| > 0 {
      PossibleHead(m, name);
    } else {
      NoCandidateNoChoice(m, name);
    }
  }

  lemma PrioritisedMissing(m: map<OutputKind, seq<Component>>, whitelist: seq<Param>, i: nat)
    requires AllLinked(m) && i < |whitelist| && Chosen(m, whitelist[i].name).None?
    ensures Prioritised(m, whitelist) == Err(IndexError)
  {
  }

  /** The choices made so far agree with the choice for each whitelisted param in turn. */
  predicate ChoicesMatch(m: map<OutputKind, seq<Component>>, whitelist: seq<Param>, xs: seq<Component>)
  {
    |xs| <= |whitelist| && forall j :: 0 <= j < |xs| ==> Chosen(m, whitelist[j].name) == Some(xs[j])
  }

  lemma ChoicesMatchSnoc(m: map<OutputKind, seq<Component>>, whitelist: seq<Param>, xs: seq<Component>, x: Component)
    requires ChoicesMatch(m, whitelist, xs) && |xs| < |whitelist|
    requires Chosen(m, whitelist[|xs|].name) == Some(x)
    ensures ChoicesMatch(m, whitelist, xs + [x])
  {
    var ys := xs + [x];
    forall j | 0 <= j < |ys|
      ensures Chosen(m, whitelist[j].name) == Some(ys[j])
    {
      if j < |xs| {
        assert ys[j] == xs[j];
      }
    }
  }

  lemma PrioritisedChoices(m: map<OutputKind, seq<Component>>, whitelist: seq<Param>, xs: seq<Component>)
    requires AllLinked(m) && |xs| == |whitelist|
    requires forall j :: 0 <= j < |whitelist| ==> Chosen(m, whitelist[j].name) == Some(xs[j])
    ensures Prioritised(m, whitelist) == Ok(xs)
  {
    var r := Prioritised(m, whitelist);
    assert r.Ok? && |r.value| == |xs|;
    forall j | 0 <= j < |whitelist|
      ensures r.value[j] == xs[j]
    {
      assert Some(r.value[j]) == Chosen(m, whitelist[j].name);
    }
    assert r.value == xs;
  }

  /** The four gathering steps of extract, in order, starting from m. */
  function Gathered(m: map<OutputKind, seq<Component>>, components: seq<Component>,
                    kept: seq<Component>, whitelist: seq<Param>): map<OutputKind, seq<Component>>
  {
    var m1 := Appended(m, InputKind, InputCandidates(components, whitelist));
    var m2 := Appended(m1, WildcardKind, WildcardCandidates(whitelist));
    var m3 := Appended(m2, RedirectKind, kept);
    Appended(m3, UncertainKind, UncertainCandidates(whitelist))
  }

  lemma GatheredOutputs(m: map<OutputKind, seq<Component>>, components: seq<Component>,
                        kept: seq<Component>, whitelist: seq<Param>)
    ensures var g := Gathered(m, components, kept, whitelist);
            && Outputs(g, InputKind) == Outputs(m, InputKind) + InputCandidates(components, whitelist)
            && Outputs(g, WildcardKind) == Outputs(m, WildcardKind) + WildcardCandidates(whitelist)
            && Outputs(g, RedirectKind) == Outputs(m, RedirectKind) + kept
            && Outputs(g, UncertainKind) == Outputs(m, UncertainKind) + UncertainCandidates(whitelist)
  {
  }

  lemma {:induction false} InputCandidatesLinked(components: seq<Component>, whitelist: seq<Param>)
    ensures forall c :: c in InputCandidates(components, whitelist) ==> c.gxparam.Some?
  {
    InputCandidatesMembers(components, whitelist);
  }

  lemma {:induction false} WildcardCandidatesLinked(whitelist: seq<Param>)
    ensures forall c :: c in WildcardCandidates(whitelist) ==> c.gxparam.Some?
  {
    WildcardCandidatesMembers(whitelist);
  }

  /** Gathering adds only candidates attached to a Galaxy param. */
  lemma GatheredLinked(m: map<OutputKind, seq<Component>>, components: seq<Component>,
                       kept: seq<Component>, whitelist: seq<Param>)
    requires AllLinked(m)
    requires forall c :: c in kept ==> c.gxparam.Some?
    ensures AllLinked(Gathered(m, components, kept, whitelist))
  {
    InputCandidatesLinked(components, whitelist);
    WildcardCandidatesLinked(whitelist);
    var m1 := Appended(m, InputKind, InputCandidates(components, whitelist));
    var m2 := Appended(m1, WildcardKind, WildcardCandidates(whitelist));
    var m3 := Appended(m2, RedirectKind, kept);
    AppendedLinked(m, InputKind, InputCandidates(components, whitelist));
    AppendedLinked(m1, WildcardKind, WildcardCandidates(whitelist));
    AppendedLinked(m2, RedirectKind, kept);
    var u := UncertainCandidates(whitelist);
    forall c | c in u
      ensures c.gxparam.Some?
    {
      var i :| 0 <= i < |u| && u[i] == c;
    }
    AppendedLinked(m3, UncertainKind, UncertainCandidates(whitelist));
  }

  /** Appending attached candidates keeps every output attached. */
  lemma AppendedLinked(m: map<OutputKind, seq<Component>>, k: OutputKind, xs: seq<Component>)
    requires AllLinked(m)
    requires forall c :: c in xs ==> c.gxparam.Some?
    ensures AllLinked(Appended(m, k, xs))
  {
    var r := Appended(m, k, xs);
    forall j: OutputKind, c: Component | j in r && c in r[j]
      ensures c.gxparam.Some?
    {
      assert c in Outputs(r, j);
      if j != k {
        assert c in Outputs(m, j);
      } else if c in Outputs(m, k) {
        assert k in m && c in m[k];
      }
    }
  }

  /**
   * After the four gathering steps every whitelisted param has a candidate (at least its
   * uncertain one), so extraction picks exactly one output per whitelisted param, each
   * attached to that param's name.
   */
  lemma GatheredPrioritises(m: map<OutputKind, seq<Component>>, components: seq<Component>,
                            kept: seq<Component>, whitelist: seq<Param>)
    requires AllLinked(m)
    requires forall c :: c in kept ==> c.gxparam.Some?
    ensures var r := Prioritised(Gathered(m, components, kept, whitelist), whitelist);
            r.Ok? && |r.value| == |whitelist|
            && forall j :: 0 <= j < |whitelist| ==> HasParamNamed(r.value[j], whitelist[j].name)
  {
    var g := Gathered(m, components, kept, whitelist);
    GatheredLinked(m, components, kept, whitelist);
    GatheredOutputs(m, components, kept, whitelist);
    var u := Outputs(g, UncertainKind);
    forall j | 0 <= j < |whitelist|
      ensures Chosen(g, whitelist[j].name).Some?
    {
      var c := UncertainCandidates(whitelist)[j];
      assert c in u;
      assert HasParamNamed(c, whitelist[j].name);
      ChosenMeaning(g, whitelist[j].name);
    }
    forall j | 0 <= j < |whitelist|
      ensures HasParamNamed(Prioritised(g, whitelist).value[j], whitelist[j].name)
    {
      ChosenMeaning(g, whitelist[j].name);
    }
  }

  /**
   * The extractor of one Galaxy tool: its XML outputs, the command's input components and
   * stdout redirects, the optional workflow step naming the outputs in use, and the two
   * collections the extraction fills in.
   */
  class OutputExtractor {
    const xmlOutputs: seq<Param>
    const commandInputs: seq<Component>
    const redirects: seq<Component>
    const gxstep: Option<seq<string>>
    var whitelistedOutputs: seq<Param>
    var toolOutputs: map<OutputKind, seq<Component>>

    constructor(xmlOutputs: seq<Param>, commandInputs: seq<Component>,
                redirects: seq<Component>, gxstep: Option<seq<string>>)
      ensures this.xmlOutputs == xmlOutputs && this.commandInputs == commandInputs
      ensures this.redirects == redirects && this.gxstep == gxstep
      ensures whitelistedOutputs == [] && toolOutputs == map[]
    {
      this.xmlOutputs := xmlOutputs;
      this.commandInputs := commandInputs;
      this.redirects := redirects;
      this.gxstep := gxstep;
      whitelistedOutputs := [];
      toolOutputs := map[];
    }

    /** With a step, appends the XML params the step names; without one, takes every XML output. */
    method DefineWhitelistedOutputs()
      modifies this
      ensures toolOutputs == old(toolOutputs)
      ensures gxstep.Some? ==> whitelistedOutputs == old(whitelistedOutputs) + StepWhitelist(xmlOutputs, gxstep.value)
      ensures gxstep.None? ==> whitelistedOutputs == xmlOutputs
    {
      if gxstep.Some? {
        var names := gxstep.value;
        var i := 0;
        while i < |names|
          invariant 0 <= i <= |names|
          invariant toolOutputs == old(toolOutputs)
          invariant whitelistedOutputs == old(whitelistedOutputs) + StepWhitelist(xmlOutputs, names[..i])
        {
          var param := XmlGet(xmlOutputs, names[i]);
          assert names[..i + 1][..i] == names[..i];
          if param.Some? {
            whitelistedOutputs := whitelistedOutputs + [param.value];
          }
          i := i + 1;
        }
        assert names[..|names|] == names;
      } else {
        whitelistedOutputs := xmlOutputs;
      }
    }

    method GatherInputOutputs()
      modifies this
      ensures whitelistedOutputs == old(whitelistedOutputs)
      ensures toolOutputs == Appended(old(toolOutputs), InputKind, InputCandidates(commandInputs, whitelistedOutputs))
    {
      var i := 0;
      while i < |commandInputs|
        invariant 0 <= i <= |commandInputs|
        invariant whitelistedOutputs == old(whitelistedOutputs)
        invariant toolOutputs == Appended(old(toolOutputs), InputKind, InputCandidates(commandInputs[..i], whitelistedOutputs))
      {
        var component := commandInputs[i];
        assert commandInputs[..i + 1][..i] == commandInputs[..i];
        assert InputCandidates(commandInputs[..i + 1], whitelistedOutputs)
            == InputCandidates(commandInputs[..i], whitelistedOutputs)
               + (if ShouldCreateInputOutput(whitelistedOutputs, component) then [InputOutput(component.gxparam, component)] else []);
        if ShouldCreateInputOutput(whitelistedOutputs, component) {
          AppendedSnoc(old(toolOutputs), InputKind, InputCandidates(commandInputs[..i], whitelistedOutputs),
                       InputOutput(component.gxparam, component));
          toolOutputs := toolOutputs[InputKind := Outputs(toolOutputs, InputKind) + [InputOutput(component.gxparam, component)]];
        } else {
          assert InputCandidates(commandInputs[..i + 1], whitelistedOutputs) == InputCandidates(commandInputs[..i], whitelistedOutputs);
        }
        i := i + 1;
      }
      assert commandInputs[..|commandInputs|] == commandInputs;
    }

    method GatherWildcardOutputs()
      modifies this
      ensures whitelistedOutputs == old(whitelistedOutputs)
      ensures toolOutputs == Appended(old(toolOutputs), WildcardKind, WildcardCandidates(whitelistedOutputs))
    {
      var wl := whitelistedOutputs;
      var i := 0;
      while i < |wl|
        invariant 0 <= i <= |wl|
        invariant whitelistedOutputs == wl
        invariant toolOutputs == Appended(old(toolOutputs), WildcardKind, WildcardCandidates(wl[..i]))
      {
        var gxparam := wl[i];
        assert wl[..i + 1][..i] == wl[..i];
        assert WildcardCandidates(wl[..i + 1])
            == WildcardCandidates(wl[..i]) + (if ShouldCreateWildcardOutput(gxparam) then [WildcardOutput(Some(gxparam), true)] else []);
        if ShouldCreateWildcardOutput(gxparam) {
          AppendedSnoc(old(toolOutputs), WildcardKind, WildcardCandidates(wl[..i]), WildcardOutput(Some(gxparam), true));
          toolOutputs := toolOutputs[WildcardKind := Outputs(toolOutputs, WildcardKind) + [WildcardOutput(Some(gxparam), true)]];
        } else {
          assert WildcardCandidates(wl[..i + 1]) == WildcardCandidates(wl[..i]);
        }
        i := i + 1;
      }
      assert wl[..|wl|] == wl;
    }

    /** Links an unlinked redirect to the last whitelisted param whose discover_pattern is its value. */
    method AttemptRedirectGxparamLink(r: Component) returns (res: Result<Component, ExtractError>)
      requires r.RedirectOutput?
      ensures res == LinkRedirect(whitelistedOutputs, r)
    {
      if r.gxparam.Some? {
        return Ok(r);
      }
      var wl := whitelistedOutputs;
      var linked := r;
      var i := 0;
      while i < |wl|
        invariant 0 <= i <= |wl|
        invariant forall j :: 0 <= j < i ==> wl[j].discoverPattern != Missing
        invariant linked == RedirectOutput(LastMatch(wl[..i], r.mostCommonValue), r.mostCommonValue)
      {
        var queryParam := wl[i];
        assert wl[..i + 1][..i] == wl[..i];
        if queryParam.discoverPattern == Missing {
          return Err(AttributeError);
        }
        if queryParam.discoverPattern != NoneValue {
          if queryParam.discoverPattern == Text(r.mostCommonValue) {
            linked := RedirectOutput(Some(queryParam), r.mostCommonValue);
          }
        }
        i := i + 1;
      }
      assert wl[..|wl|] == wl;
      return Ok(linked);
    }

    method GatherRedirectOutputs() returns (error: Option<ExtractError>)
      requires forall r :: r in redirects ==> r.RedirectOutput?
      modifies this
      ensures whitelistedOutputs == old(whitelistedOutputs)
      ensures error.None? <==> RedirectCandidates(whitelistedOutputs, redirects).Ok?
      ensures error.None? ==>
                toolOutputs == Appended(old(toolOutputs), RedirectKind, RedirectCandidates(whitelistedOutputs, redirects).value)
      ensures error.Some? ==> error == Some(RedirectCandidates(whitelistedOutputs, redirects).error)
    {
      var i := 0;
      while i < |redirects|
        invariant 0 <= i <= |redirects|
        invariant whitelistedOutputs == old(whitelistedOutputs)
        invariant RedirectCandidates(whitelistedOutputs, redirects[..i]).Ok?
        invariant toolOutputs == Appended(old(toolOutputs), RedirectKind, RedirectCandidates(whitelistedOutputs, redirects[..i]).value)
      {
        var r := redirects[i];
        assert redirects[..i + 1][..i] == redirects[..i];
        var linked := AttemptRedirectGxparamLink(r);
        if linked.Err? {
          RedirectsStopAtError(whitelistedOutputs, redirects, i + 1);
          return Some(linked.error);
        }
        assert RedirectCandidates(whitelistedOutputs, redirects[..i + 1])
            == Ok(RedirectCandidates(whitelistedOutputs, redirects[..i]).value
                  + (if linked.value.gxparam.Some? then [linked.value] else []));
        if linked.value.gxparam.Some? {
          AppendedSnoc(old(toolOutputs), RedirectKind, RedirectCandidates(whitelistedOutputs, redirects[..i]).value, linked.value);
          toolOutputs := toolOutputs[RedirectKind := Outputs(toolOutputs, RedirectKind) + [linked.value]];
        } else {
          assert RedirectCandidates(whitelistedOutputs, redirects[..i + 1]).value
              == RedirectCandidates(whitelistedOutputs, redirects[..i]).value;
        }
        i := i + 1;
      }
      assert redirects[..|redirects|] == redirects;
      return None;
    }

    method GatherUncertainOutputs()
      modifies this
      ensures whitelistedOutputs == old(whitelistedOutputs)
      ensures toolOutputs == Appended(old(toolOutputs), UncertainKind, UncertainCandidates(whitelistedOutputs))
    {
      var wl := whitelistedOutputs;
      var i := 0;
      while i < |wl|
        invariant 0 <= i <= |wl|
        invariant whitelistedOutputs == wl
        invariant toolOutputs == Appended(old(toolOutputs), UncertainKind, UncertainCandidates(wl[..i]))
      {
        var output := WildcardOutput(Some(wl[i]), false);
        assert UncertainCandidates(wl[..i + 1]) == UncertainCandidates(wl[..i]) + [output];
        AppendedSnoc(old(toolOutputs), UncertainKind, UncertainCandidates(wl[..i]), output);
        toolOutputs := toolOutputs[UncertainKind := Outputs(toolOutputs, UncertainKind) + [output]];
        i := i + 1;
      }
      assert wl[..|wl|] == wl;
    }

    /** Picks, per whitelisted param, the head of its candidates stably sorted by priority. */
    method PrioritiseOutputs() returns (r: Result<seq<Component>, ExtractError>)
      ensures r == Prioritised(toolOutputs, whitelistedOutputs)
    {
      if !AllLinked(toolOutputs) {
        return Err(AssertionError);
      }
      var prioritised: seq<Component> := [];
      var m := toolOutputs;
      var wl := whitelistedOutputs;
      var i := 0;
      while i < |wl|
        invariant 0 <= i <= |wl|
        invariant |prioritised| == i
        invariant ChoicesMatch(m, wl, prioritised)
      {
        var out := wl[i];
        var possible := Possible(m, out.name);
        PickStep(m, out.name);
        if |possible| == 0 {
          PrioritisedMissing(m, wl, i);
          return Err(IndexError);
        }
        var possibleSorted := StableSort.SortBy(possible, PriorityKey);
        ChoicesMatchSnoc(m, wl, prioritised, possibleSorted[0].component);
        prioritised := prioritised + [possibleSorted[0].component];
        i := i + 1;
      }
      PrioritisedChoices(m, wl, prioritised);
      return Ok(prioritised);
    }

    /**
     * extract: whitelist, gather the four kinds of candidates in order, then prioritise.
     * Starting from a fresh extractor it yields one output per whitelisted param.
     */
    method Extract() returns (r: Result<seq<Component>, ExtractError>)
      requires forall c :: c in redirects ==> c.RedirectOutput?
      modifies this
      ensures gxstep.Some? ==> whitelistedOutputs == old(whitelistedOutputs) + StepWhitelist(xmlOutputs, gxstep.value)
      ensures gxstep.None? ==> whitelistedOutputs == xmlOutputs
      ensures RedirectCandidates(whitelistedOutputs, redirects).Err? ==> r == Err(AttributeError)
      ensures RedirectCandidates(whitelistedOutputs, redirects).Ok? ==>
                var kept := RedirectCandidates(whitelistedOutputs, redirects).value;
                && toolOutputs == Gathered(old(toolOutputs), commandInputs, kept, whitelistedOutputs)
                && r == Prioritised(toolOutputs, whitelistedOutputs)
      ensures AllLinked(old(toolOutputs)) && RedirectCandidates(whitelistedOutputs, redirects).Ok? ==>
                r.Ok? && |r.value| == |whitelistedOutputs|
                && forall j :: 0 <= j < |whitelistedOutputs| ==> HasParamNamed(r.value[j], whitelistedOutputs[j].name)
    {
      DefineWhitelistedOutputs();
      GatherInputOutputs();
      GatherWildcardOutputs();
      var error := GatherRedirectOutputs();
      if error.Some? {
        RedirectErrorIsAttributeError(whitelistedOutputs, redirects);
        return Err(error.value);
      }
      GatherUncertainOutputs();
      r := PrioritiseOutputs();
      if AllLinked(old(toolOutputs)) {
        RedirectCandidatesLinked(whitelistedOutputs, redirects);
        GatheredPrioritises(old(toolOutputs), commandInputs,
                            RedirectCandidates(whitelistedOutputs, redirects).value, whitelistedOutputs);
      }
    }
  }

  /** An error linking the i-th redirect is the error of all the redirects' gathering. */
  lemma {:induction false} RedirectsStopAtError(whitelist: seq<Param>, redirects: seq<Component>, i: nat)
    requires forall r :: r in redirects ==> r.RedirectOutput?
    requires 0 < i <= |redirects|
    requires RedirectCandidates(whitelist, redirects[..i - 1]).Ok?
    requires LinkRedirect(whitelist, redirects[i - 1]).Err?
    ensures RedirectCandidates(whitelist, redirects).Err?
    ensures RedirectCandidates(whitelist, redirects).error == LinkRedirect(whitelist, redirects[i - 1]).error
    decreases |redirects|
  {
    assert redirects[..i][..i - 1] == redirects[..i - 1];
    if i < |redirects| {
      var init := redirects[..|redirects| - 1];
      assert init[..i - 1] == redirects[..i - 1];
      RedirectsStopAtError(whitelist, init, i);
    }
  }

  /** The only way linking redirects fails is a param without a discover_pattern attribute. */
  lemma {:induction false} RedirectErrorIsAttributeError(whitelist: seq<Param>, redirects: seq<Component>)
    requires forall r :: r in redirects ==> r.RedirectOutput?
    ensures RedirectCandidates(whitelist, redirects).Err? ==> RedirectCandidates(whitelist, redirects).error == AttributeError
  {
    if |redirects| > 0 {
      RedirectErrorIsAttributeError(whitelist, redirects[..|redirects| - 1]);
    }
  }
}
