/**
 * The metadata of a Galaxy tool XML (janis_core/ingestion/galaxy/gx/gxtool/metadata.py):
 * identity, requirements and citations, with the rules that pick the main requirement
 * and the citation to report.
 */
module GalaxyMetadata {
  import opened Wrappers
  import StableSort

  /** A conda or container requirement; the rules below read only its name. */
  datatype Requirement = Requirement(name: string, version: string)

  /** A citation: its type ('biotools', 'doi', 'bibtex', ...) and its text. */
  datatype Citation = Citation(kind: string, text: string)

  /** A requirement paired with its similarity to the tool id. */
  type Scored = (Requirement, real)

  /** The key the descending sort uses: the negated score, so that an ascending stable sort is descending. */
  function NegScore(s: Scored): real
  {
    -s.1
  }

  /** Some citation has the given type. */
  predicate HasKind(cs: seq<Citation>, kind: string)
  {
    exists i :: 0 <= i < |cs| && cs[i].kind == kind
  }

  /** Index i holds the first citation of the given type. */
  predicate FirstOfKindAt(cs: seq<Citation>, kind: string, i: int)
  {
    && 0 <= i < |cs|
    && cs[i].kind == kind
    && forall j :: 0 <= j < i ==> cs[j].kind != kind
  }

  /** The citations of one type, in list order (the comprehension in main_citation). */
  function OfKind(cs: seq<Citation>, kind: string): (r: seq<Citation>)
    ensures |r| <= |cs|
    ensures forall c :: c in r ==> c in cs && c.kind == kind
  {
    if cs == [] then []
    else (if cs[0].kind == kind then [cs[0]] else []) + OfKind(cs[1..], kind)
  }

  /** The filtered list is empty exactly when no citation has the type, and otherwise starts with the first one. */
  lemma {:induction false} OfKindFirst(cs: seq<Citation>, kind: string)
    ensures |OfKind(cs, kind)| > 0 <==> HasKind(cs, kind)
    ensures HasKind(cs, kind) ==>
              exists i :: FirstOfKindAt(cs, kind, i) && OfKind(cs, kind)[0] == cs[i]
  {
    if cs == [] {
    } else if cs[0].kind == kind {
      assert FirstOfKindAt(cs, kind, 0);
    } else {
      OfKindFirst(cs[1..], kind);
      if HasKind(cs, kind) {
        var i :| 0 <= i < |cs| && cs[i].kind == kind;
        assert cs[1..][i - 1].kind == kind;
        var k :| FirstOfKindAt(cs[1..], kind, k) && OfKind(cs[1..], kind)[0] == cs[1..][k];
        assert FirstOfKindAt(cs, kind, k + 1);
      } else {
        forall i | 0 <= i < |cs[1..]| ensures cs[1..][i].kind != kind {
          assert cs[1..][i] == cs[i + 1];
        }
      }
    }
  }

  class ToolXMLMetadata {
    var name: string
    var id: string
    var version: string
    var description: string
    var help: string
    var requirements: seq<Requirement>
    var citations: seq<Citation>
    var creator: Option<string>
    var url: Option<string>
    var owner: Option<string>

    /** The dataclass constructor: creator, url and owner default to None. */
    constructor(name: string, id: string, version: string, description: string, help: string,
                requirements: seq<Requirement>, citations: seq<Citation>)
      ensures this.name == name && this.id == id && this.version == version
      ensures this.description == description && this.help == help
      ensures this.requirements == requirements && this.citations == citations
      ensures creator == None && url == None && owner == None
    {
      this.name := name;
      this.id := id;
      this.version := version;
      this.description := description;
      this.help := help;
      this.requirements := requirements;
      this.citations := citations;
      creator := None;
      url := None;
      owner := None;
    }

    /** set_url as written: the value lands in owner and url is left as it was. */
    method SetUrlAsWritten(value: string)
      modifies this
      ensures owner == Some(value) && url == old(url)
      ensures name == old(name) && id == old(id) && version == old(version)
      ensures description == old(description) && help == old(help) && creator == old(creator)
      ensures requirements == old(requirements) && citations == old(citations)
    {
      owner := Some(value);
    }

    /** set_url as evidently intended: the value lands in url and owner is left as it was. */
    method SetUrl(value: string)
      modifies this
      ensures url == Some(value) && owner == old(owner)
      ensures name == old(name) && id == old(id) && version == old(version)
      ensures description == old(description) && help == old(help) && creator == old(creator)
      ensures requirements == old(requirements) && citations == old(citations)
    {
      url := Some(value);
    }

    /** set_owner: the value lands in owner and nothing else changes. */
    method SetOwner(value: string)
      modifies this
      ensures owner == Some(value) && url == old(url)
      ensures name == old(name) && id == old(id) && version == old(version)
      ensures description == old(description) && help == old(help) && creator == old(creator)
      ensures requirements == old(requirements) && citations == old(citations)
    {
      owner := Some(value);
    }

    /** versioned_id: the id and the version joined by a dash, each recoverable from the result. */
    function VersionedId(): (r: string)
      reads this
      ensures |r| == |id| + 1 + |version|
      ensures r[..|id|] == id && r[|id|] == '-' && r[|id| + 1..] == version
    {
      id + "-" + version
    }

    /**
     * get_req_similarity_scores: one score per requirement, in list order, each the
     * alignment of the requirement's name against the tool id.
     */
    method GetReqSimilarityScores(align: (string, string) -> real) returns (scores: seq<Scored>)
      ensures |scores| == |requirements|
      ensures forall i :: 0 <= i < |scores| ==>
                scores[i] == (requirements[i], align(requirements[i].name, id))
    {
      scores := [];
      for k := 0 to |requirements|
        invariant |scores| == k
        invariant forall i :: 0 <= i < k ==>
                    scores[i] == (requirements[i], align(requirements[i].name, id))
      {
        var req := requirements[k];
        var similarity := align(req.name, id);
        scores := scores + [(req, similarity)];
      }
    }

    /**
     * main_requirement: None without requirements; otherwise the head of the scores sorted
     * by descending similarity.  The sort is stable, so this is the first requirement
     * (in list order) whose score is maximal.
     */
    method MainRequirement(align: (string, string) -> real) returns (r: Option<Requirement>)
      ensures r.None? <==> |requirements| == 0
      ensures r.Some? ==>
                exists i :: 0 <= i < |requirements| && r.value == requirements[i]
                  && (forall j :: 0 <= j < |requirements| ==>
                        align(requirements[j].name, id) <= align(requirements[i].name, id))
                  && (forall j :: 0 <= j < i ==>
                        align(requirements[j].name, id) < align(requirements[i].name, id))
    {
      if |requirements| == 0 {
        return None;
      }
      var scores := GetReqSimilarityScores(align);
      var sorted := StableSort.SortBy(scores, NegScore);
      StableSort.SortByHead(scores, NegScore);
      var i := StableSort.FirstMin(scores, NegScore);
      assert sorted[0] == scores[i];
      r := Some(sorted[0].0);
      assert r.value == requirements[i];
      forall j | 0 <= j < |requirements|
        ensures align(requirements[j].name, id) <= align(requirements[i].name, id)
      {
        assert NegScore(scores[i]) <= NegScore(scores[j]);
      }
      forall j | 0 <= j < i
        ensures align(requirements[j].name, id) < align(requirements[i].name, id)
      {
        assert NegScore(scores[j]) > NegScore(scores[i]);
      }
    }

    /**
     * main_citation: the first biotools citation, else the first doi, else the first
     * bibtex, else the placeholder text.
     */
    function MainCitation(): (r: string)
      reads this
      ensures HasKind(citations, "biotools") ==>
                exists i :: FirstOfKindAt(citations, "biotools", i) && r == citations[i].text
      ensures !HasKind(citations, "biotools") && HasKind(citations, "doi") ==>
                exists i :: FirstOfKindAt(citations, "doi", i) && r == citations[i].text
      ensures (!HasKind(citations, "biotools") && !HasKind(citations, "doi") && HasKind(citations, "bibtex"))
                ==>
                exists i :: FirstOfKindAt(citations, "bibtex", i) && r == citations[i].text
      ensures (!HasKind(citations, "biotools") && !HasKind(citations, "doi") && !HasKind(citations, "bibtex"))
                ==> r == "tool xml missing citation"
    {
      OfKindFirst(citations, "biotools");
      OfKindFirst(citations, "doi");
      OfKindFirst(citations, "bibtex");
      var biotools := OfKind(citations, "biotools");
      var doi := OfKind(citations, "doi");
      var bibtex := OfKind(citations, "bibtex");
      if |biotools| > 0 then biotools[0].text
      else if |doi| > 0 then doi[0].text
      else if |bibtex| > 0 then bibtex[0].text
      else "tool xml missing citation"
    }

    /** doi_citation: the text of the first doi citation, or None when there is none. */
    function DoiCitation(): (r: Option<string>)
      reads this
      ensures r.None? <==> !HasKind(citations, "doi")
      ensures r.Some? ==> exists i :: FirstOfKindAt(citations, "doi", i) && r.value == citations[i].text
    {
      OfKindFirst(citations, "doi");
      var doi := OfKind(citations, "doi");
      if |doi| > 0 then Some(doi[0].text) else None
    }
  }

  /** When a doi citation leads, the main citation and the doi citation coincide. */
  lemma MainCitationIsDoi(m: ToolXMLMetadata)
    requires !HasKind(m.citations, "biotools")
    ensures m.DoiCitation().Some? ==> m.MainCitation() == m.DoiCitation().value
  {
    if m.DoiCitation().Some? {
      var i :| FirstOfKindAt(m.citations, "doi", i) && m.MainCitation() == m.citations[i].text;
      var k :| FirstOfKindAt(m.citations, "doi", k) && m.DoiCitation().value == m.citations[k].text;
      assert i == k;
    }
  }

  /** set_url as written leaves a fresh metadata's url unset and fills its owner instead. */
  method SetUrlAsWrittenExample() returns (url: Option<string>, owner: Option<string>)
    ensures url == None && owner == Some("https://github.com/galaxyproject/tools-iuc")
  {
    var m := new ToolXMLMetadata("fastqc", "fastqc", "0.73", "", "", [], []);
    m.SetUrlAsWritten("https://github.com/galaxyproject/tools-iuc");
    url, owner := m.url, m.owner;
  }

  /** The corrected set_url fills the url and leaves the owner unset. */
  method SetUrlExample() returns (url: Option<string>, owner: Option<string>)
    ensures url == Some("https://github.com/galaxyproject/tools-iuc") && owner == None
  {
    var m := new ToolXMLMetadata("fastqc", "fastqc", "0.73", "", "", [], []);
    m.SetUrl("https://github.com/galaxyproject/tools-iuc");
    url, owner := m.url, m.owner;
  }
}
