/**
 * The self-analyzer: keeps the improvement opportunities that are not about
 * trading and scores each one as severity times inverted effort.
 */
module SelfAnalysis {
  import opened Wrappers
  import opened JsonValue
  import opened Text
  import opened Seqs

  type Opportunity = Dict

  function SeverityScore(severity: string): (n: int)
    ensures n in {1, 3, 5}
  {
    var s := Lower(severity);
    if s == "low" then 1 else if s == "medium" then 3 else if s == "high" then 5 else 3
  }

  /** Low effort scores high. */
  function EffortScore(effort: string): (n: int)
    ensures n in {1, 3, 5}
  {
    var e := Lower(effort);
    if e == "low" then 5 else if e == "medium" then 3 else if e == "high" then 1 else 3
  }

  /** `_calculate_priority_score`; unknown levels count as medium. */
  function PriorityScore(severity: string, effort: string): (n: int)
    ensures n in {1, 3, 5, 9, 15, 25}
  {
    SeverityScore(severity) * EffortScore(effort)
  }

  /** A more severe issue never scores lower, nor does a cheaper fix; unknown levels score as medium. */
  lemma PriorityScoreOrdering(effort: string, severity: string)
    ensures PriorityScore("low", effort) < PriorityScore("medium", effort) < PriorityScore("high", effort)
    ensures PriorityScore(severity, "high") < PriorityScore(severity, "medium") < PriorityScore(severity, "low")
    ensures PriorityScore("HIGH", "Low") == 25 && PriorityScore("unknown", "unknown") == 9
  {
    assert Lower("low") == "low" && Lower("medium") == "medium" && Lower("high") == "high";
    assert Lower("HIGH") == "high" && Lower("Low") == "low" && Lower("unknown") == "unknown";
  }

  const ExcludedKeywords: seq<string> := ["trading", "crypto", "binance", "exchange"]

  predicate MentionsExcluded(description: string) {
    exists k :: 0 <= k < |ExcludedKeywords| && Contains(Lower(description), ExcludedKeywords[k])
  }

  /** The description as `opp.get("description", "")` reads it. */
  function Description(o: Opportunity): Value {
    GetOr(o, "description", JStr(""))
  }

  predicate Keep(o: Opportunity) {
    Description(o).JStr? && !MentionsExcluded(Description(o).s)
  }

  /**
   * The filtering comprehension: the opportunities whose description mentions no excluded keyword,
   * in scan order; a description that is not a string raises `AttributeError` on `.lower()`.
   */
  function Relevant(opps: seq<Opportunity>): (r: Result<seq<Opportunity>>)
    ensures r.Ok? <==> forall i :: 0 <= i < |opps| ==> Description(opps[i]).JStr?
    ensures r.Ok? ==> IsSubsequence(r.value, opps)
    ensures r.Ok? ==> forall o :: o in r.value ==> Description(o).JStr? && !MentionsExcluded(Description(o).s)
  {
    if forall i :: 0 <= i < |opps| ==> Description(opps[i]).JStr? then
      FilterIsSubsequence(Keep, opps);
      FilterMembers(Keep, opps);
      Ok(Filter(Keep, opps))
    else Raise("AttributeError: description has no lower()")
  }

  /** One scored opportunity, or the error the scoring loop raises on it. */
  function Score(o: Opportunity): (r: Result<Opportunity>)
    ensures r.Ok? ==> "priority_score" in r.value && r.value.Keys == o.Keys + {"priority_score"}
  {
    var severity := GetOr(o, "severity", JStr("medium"));
    var effort := GetOr(o, "effort", JStr("medium"));
    if !severity.JStr? || !effort.JStr? then Raise("AttributeError: level has no lower()")
    else if "description" !in o then Raise("KeyError: 'description'")
    else Ok(o["priority_score" := JNum(PriorityScore(severity.s, effort.s))])
  }

  function ScoreAll(opps: seq<Opportunity>): (r: Result<seq<Opportunity>>)
    ensures r.Ok? ==> |r.value| == |opps|
    ensures r.Ok? ==> forall i :: 0 <= i < |opps| ==> Score(opps[i]) == Ok(r.value[i])
  {
    if opps == [] then Ok([])
    else match ScoreAll(opps[..|opps| - 1])
      case Raise(e) => Raise(e)
      case Ok(done) =>
        match Score(opps[|opps| - 1])
        case Raise(e) => Raise(e)
        case Ok(o) => Ok(done + [o])
  }

  /** `analyze_codebase` over the opportunities the scan found. */
  function Analyze(scanned: seq<Opportunity>): (r: Result<seq<Opportunity>>)
    ensures r.Ok? ==> Relevant(scanned).Ok? && |r.value| == |Relevant(scanned).value|
    ensures r.Ok? ==> forall i :: 0 <= i < |r.value| ==> "priority_score" in r.value[i]
    ensures Relevant(scanned).Raise? ==> r == Relevant(scanned)
  {
    match Relevant(scanned)
    case Raise(e) => Raise(e)
    case Ok(kept) => ScoreAll(kept)
  }

  /**
   * Every opportunity returned is a kept scanned one, in scan order, with its score added,
   * and none is about trading.
   */
  lemma AnalyzeScoresRelevant(scanned: seq<Opportunity>)
    requires Analyze(scanned).Ok?
    ensures |Analyze(scanned).value| == |Filter(Keep, scanned)|
    ensures forall i :: 0 <= i < |Analyze(scanned).value| ==>
      Score(Filter(Keep, scanned)[i]) == Ok(Analyze(scanned).value[i])
    ensures IsSubsequence(Filter(Keep, scanned), scanned)
    ensures forall o :: o in Analyze(scanned).value ==>
      "priority_score" in o && GetOr(o, "description", JStr("")).JStr? &&
      !MentionsExcluded(GetOr(o, "description", JStr("")).s)
  {
    FilterIsSubsequence(Keep, scanned);
    FilterMembers(Keep, scanned);
    var kept := Filter(Keep, scanned);
    var out := Analyze(scanned).value;
    assert ScoreAll(kept) == Ok(out);
    forall o | o in out
      ensures "priority_score" in o && GetOr(o, "description", JStr("")).JStr? &&
        !MentionsExcluded(GetOr(o, "description", JStr("")).s)
    {
      var i :| 0 <= i < |out| && out[i] == o;
      ScoredKeepsDescription(kept[i], o);
    }
  }

  lemma ScoredKeepsDescription(o: Opportunity, scored: Opportunity)
    requires Keep(o) && Score(o) == Ok(scored)
    ensures "priority_score" in scored && Keep(scored)
  {
    assert scored["description"] == o["description"];
  }

  /** `analyze_codebase` with its two loops: the keyword filter and the scoring pass. */
  method AnalyzeCodebase(scanned: seq<Opportunity>) returns (r: Result<seq<Opportunity>>)
    ensures r == Analyze(scanned)
  {
    var kept := FilterRelevant(scanned);
    if kept.Raise? {
      return Raise(kept.error);
    }
    r := ScoreEach(kept.value);
  }

  /** The keyword filter loop. */
  method FilterRelevant(scanned: seq<Opportunity>) returns (r: Result<seq<Opportunity>>)
    ensures r == Relevant(scanned)
  {
    var kept: seq<Opportunity> := [];
    var i := 0;
    while i < |scanned|
      invariant 0 <= i <= |scanned|
      invariant forall k :: 0 <= k < i ==> Description(scanned[k]).JStr?
      invariant kept == Filter(Keep, scanned[..i])
    {
      if !Description(scanned[i]).JStr? {
        return Raise("AttributeError: description has no lower()");
      }
      FilterAppend(Keep, scanned[..i], scanned[i]);
      assert scanned[..i + 1] == scanned[..i] + [scanned[i]];
      if !MentionsExcluded(Description(scanned[i]).s) {
        kept := kept + [scanned[i]];
      }
      i := i + 1;
    }
    assert scanned[..i] == scanned;
    return Ok(kept);
  }

  /** The scoring loop. */
  method ScoreEach(kept: seq<Opportunity>) returns (r: Result<seq<Opportunity>>)
    ensures r == ScoreAll(kept)
  {
    var scored: seq<Opportunity> := [];
    var j := 0;
    while j < |kept|
      invariant 0 <= j <= |kept|
      invariant ScoreAll(kept[..j]) == Ok(scored)
    {
      assert kept[..j + 1][..j] == kept[..j];
      var s := Score(kept[j]);
      if s.Raise? {
        ScoreRaiseSticks(kept, j + 1);
        return Raise(s.error);
      }
      scored := scored + [s.value];
      j := j + 1;
    }
    assert kept[..j] == kept;
    return Ok(scored);
  }

  lemma {:induction false} ScoreRaiseSticks(s: seq<Opportunity>, n: nat)
    requires 0 < n <= |s| && ScoreAll(s[..n]).Raise?
    ensures ScoreAll(s) == ScoreAll(s[..n])
    decreases |s| - n
  {
    if n < |s| {
      assert s[..n + 1][..n] == s[..n];
      ScoreRaiseSticks(s, n + 1);
    } else {
      assert s[..n] == s;
    }
  }

  const UnsupportedMessage: string := "Unsupported analysis type for SelfAnalyzer: "

  /** `handle_task`: both supported analysis types run the same analysis of the scanned opportunities. */
  function HandleTask(task: Dict, scanned: seq<Opportunity>): (r: Result<Dict>)
    ensures Get(task, "analysis_type") !in {JStr("codebase_review"), JStr("full_project_analysis")} ==>
      r == Ok(map["status" := JStr("error"),
                  "message" := JStr(UnsupportedMessage + Show(Get(task, "analysis_type")))])
    ensures Get(task, "analysis_type") in {JStr("codebase_review"), JStr("full_project_analysis")} ==>
      (r.Ok? <==> Analyze(scanned).Ok?) && (r.Raise? ==> r.error == Analyze(scanned).error)
    ensures Get(task, "analysis_type") in {JStr("codebase_review"), JStr("full_project_analysis")} && r.Ok? ==>
      var found := Analyze(scanned).value;
      var listed := Get(r.value, "improvement_opportunities");
      Get(r.value, "status") == JStr("success") && listed.JArr? && |listed.items| == |found|
      && forall i :: 0 <= i < |found| ==> listed.items[i] == JObj(found[i])
  {
    var t := Get(task, "analysis_type");
    if t == JStr("codebase_review") || t == JStr("full_project_analysis") then
      match Analyze(scanned)
      case Raise(e) => Raise(e)
      case Ok(found) =>
        Ok(map["status" := JStr("success"),
               "improvement_opportunities" := JArr(seq(|found|, i requires 0 <= i < |found| => JObj(found[i])))])
    else
      Ok(map["status" := JStr("error"), "message" := JStr(UnsupportedMessage + Show(t))])
  }
}
