/**
 * The pull-request monitor: a persisted list of PR entries; a check asks the
 * hosting service for each PR's status, closes merged ones and drops every
 * entry that ended closed.
 */
module PullRequests {
  import opened Wrappers
  import opened JsonValue
  import opened Seqs

  type PrEntry = Dict

  /** The hosting service's answers: `get_pull_request_status` and whether `close_pull_request` succeeds. */
  type StatusOracle = Value -> Option<string>
  type CloseOracle = Value -> bool

  function NewEntry(prNumber: int, branchName: string, description: string, now: int): (e: PrEntry)
    ensures Get(e, "status") == JStr("open") && Get(e, "pr_number") == JNum(prNumber)
  {
    map["pr_number" := JNum(prNumber), "branch_name" := JStr(branchName), "description" := JStr(description),
        "status" := JStr("open"), "created_at" := Stamp(now)]
  }

  /** Entries the check drops once it has set their status. */
  predicate IsSettled(e: PrEntry) {
    Get(e, "status") == JStr("merged_and_closed") || Get(e, "status") == JStr("closed_manually")
  }

  predicate Unsettled(e: PrEntry) { !IsSettled(e) }

  predicate HasNumber(e: PrEntry) { Get(e, "pr_number") != JNull }

  /** The PR was reported merged and the close request for it succeeded. */
  predicate ClosedNow(e: PrEntry, statusOf: StatusOracle, closes: CloseOracle) {
    HasNumber(e) && statusOf(Get(e, "pr_number")) == Some("merged") && closes(Get(e, "pr_number"))
  }

  /** One entry after the check: only a merged or closed report changes its status. */
  function Checked(e: PrEntry, statusOf: StatusOracle, closes: CloseOracle): (r: PrEntry)
    ensures !HasNumber(e) ==> r == e
    ensures HasNumber(e) && statusOf(Get(e, "pr_number")) !in {Some("merged"), Some("closed")} ==> r == e
    ensures ClosedNow(e, statusOf, closes) ==> Get(r, "status") == JStr("merged_and_closed")
    ensures Get(r, "status") == JStr("merged_and_closed") && Get(e, "status") != JStr("merged_and_closed") ==>
      ClosedNow(e, statusOf, closes)
    ensures HasNumber(e) && statusOf(Get(e, "pr_number")) == Some("merged") && !closes(Get(e, "pr_number")) ==>
      Get(r, "status") == JStr("merged_but_close_failed")
    ensures HasNumber(e) && statusOf(Get(e, "pr_number")) == Some("closed") ==> Get(r, "status") == JStr("closed_manually")
    ensures forall k :: k in e && k != "status" ==> k in r && r[k] == e[k]
  {
    var n := Get(e, "pr_number");
    if n == JNull then e
    else match statusOf(n)
      case Some(s) =>
        if s == "merged" then e["status" := JStr(if closes(n) then "merged_and_closed" else "merged_but_close_failed")]
        else if s == "closed" then e["status" := JStr("closed_manually")]
        else e
      case None => e
  }

  function CheckedAll(es: seq<PrEntry>, statusOf: StatusOracle, closes: CloseOracle): (r: seq<PrEntry>)
    ensures |r| == |es|
  {
    seq(|es|, i requires 0 <= i < |es| => Checked(es[i], statusOf, closes))
  }

  function Closer(statusOf: StatusOracle, closes: CloseOracle): PrEntry -> bool {
    e => ClosedNow(e, statusOf, closes)
  }

  predicate ReportedMerged(e: PrEntry, statusOf: StatusOracle) {
    HasNumber(e) && statusOf(Get(e, "pr_number")) == Some("merged")
  }

  function Merged(statusOf: StatusOracle): PrEntry -> bool {
    e => ReportedMerged(e, statusOf)
  }

  function Numbers(es: seq<PrEntry>): (r: seq<Value>)
    ensures |r| == |es|
  {
    seq(|es|, i requires 0 <= i < |es| => Get(es[i], "pr_number"))
  }

  /** The numbers of the PRs a close request goes out for: every one reported merged, in order. */
  function CloseRequests(es: seq<PrEntry>, statusOf: StatusOracle): (r: seq<Value>)
    ensures |r| <= |es|
  {
    Numbers(Filter(Merged(statusOf), es))
  }

  /**
   * The check's accounting: every PR it counts as closed is dropped, so the
   * surviving list plus the closed count never exceeds the original list; no
   * surviving entry is settled.
   */
  lemma {:induction false} CheckAccounting(es: seq<PrEntry>, statusOf: StatusOracle, closes: CloseOracle)
    ensures |Filter(Unsettled, CheckedAll(es, statusOf, closes))| + CountIf(Closer(statusOf, closes), es) <= |es|
    ensures forall e :: e in Filter(Unsettled, CheckedAll(es, statusOf, closes)) ==> !IsSettled(e)
  {
    if es != [] {
      CheckAccounting(es[1..], statusOf, closes);
      var c := CheckedAll(es, statusOf, closes);
      assert c[1..] == CheckedAll(es[1..], statusOf, closes);
      assert c == [c[0]] + c[1..];
    }
  }

  /** An entry reported open or without an answer survives the check unchanged. */
  lemma OpenEntriesSurvive(es: seq<PrEntry>, statusOf: StatusOracle, closes: CloseOracle, i: nat)
    requires i < |es| && HasNumber(es[i]) && !IsSettled(es[i])
    requires statusOf(Get(es[i], "pr_number")) !in {Some("merged"), Some("closed")}
    ensures es[i] in Filter(Unsettled, CheckedAll(es, statusOf, closes))
  {
    var c := CheckedAll(es, statusOf, closes);
    assert c[i] == es[i];
    FilterKeepsMember(Unsettled, c, i);
  }

  lemma {:induction false} FilterKeepsMember<T>(p: T -> bool, s: seq<T>, i: nat)
    requires i < |s| && p(s[i])
    ensures s[i] in Filter(p, s)
  {
    if i > 0 {
      FilterKeepsMember(p, s[1..], i - 1);
    }
  }

  class PullRequestMonitor {
    var monitored: seq<PrEntry>
    /** The list last written to (or read from) the monitor file. */
    ghost var saved: seq<PrEntry>
    /** The PR numbers close requests were sent for, in order. */
    ghost var closeRequests: seq<Value>

    constructor (stored: Option<seq<PrEntry>>)
      ensures monitored == stored.GetOr([]) && saved == monitored && closeRequests == []
    {
      monitored := stored.GetOr([]);
      saved := monitored;
      closeRequests := [];
    }

    method AddPrToMonitor(prNumber: int, branchName: string, description: string, now: int)
      modifies this
      ensures monitored == old(monitored) + [NewEntry(prNumber, branchName, description, now)]
      ensures saved == monitored && closeRequests == old(closeRequests)
    {
      monitored := monitored + [NewEntry(prNumber, branchName, description, now)];
      saved := monitored;
    }

    /** The loop body of `check_and_close_merged_prs` for one entry. */
    static method CheckEntry(e: PrEntry, statusOf: StatusOracle, closes: CloseOracle)
      returns (entry: PrEntry, closed: bool, request: seq<Value>)
      ensures entry == Checked(e, statusOf, closes)
      ensures closed == ClosedNow(e, statusOf, closes)
      ensures request == if ReportedMerged(e, statusOf) then [Get(e, "pr_number")] else []
    {
      var n := Get(e, "pr_number");
      entry, closed, request := e, false, [];
      if n == JNull {
        return;
      }
      var status := statusOf(n);
      if status == Some("merged") {
        request := [n];
        if closes(n) {
          entry := e["status" := JStr("merged_and_closed")];
          closed := true;
        } else {
          entry := e["status" := JStr("merged_but_close_failed")];
        }
      } else if status == Some("closed") {
        entry := e["status" := JStr("closed_manually")];
      }
    }

    method CheckAndCloseMergedPrs(statusOf: StatusOracle, closes: CloseOracle) returns (report: Dict)
      modifies this
      ensures monitored == Filter(Unsettled, CheckedAll(old(monitored), statusOf, closes))
      ensures report == map["status" := JStr("success"),
                            "closed_prs_count" := JNum(CountIf(Closer(statusOf, closes), old(monitored)))]
      ensures closeRequests == old(closeRequests) + CloseRequests(old(monitored), statusOf)
      ensures saved == monitored
    {
      var updated, closedCount, requests := CheckEach(monitored, statusOf, closes);
      closeRequests := closeRequests + requests;
      monitored := Filter(Unsettled, updated);
      saved := monitored;
      report := map["status" := JStr("success"), "closed_prs_count" := JNum(closedCount)];
    }

    /** The loop over the monitored entries: each is checked, close requests and closures are counted. */
    static method CheckEach(entries: seq<PrEntry>, statusOf: StatusOracle, closes: CloseOracle)
      returns (updated: seq<PrEntry>, closedCount: nat, requests: seq<Value>)
      ensures updated == CheckedAll(entries, statusOf, closes)
      ensures closedCount == CountIf(Closer(statusOf, closes), entries)
      ensures requests == CloseRequests(entries, statusOf)
    {
      closedCount := 0;
      updated := [];
      requests := [];
      var i := 0;
      while i < |entries|
        invariant 0 <= i <= |entries|
        invariant |updated| == i
        invariant forall j :: 0 <= j < i ==> updated[j] == Checked(entries[j], statusOf, closes)
        invariant closedCount == CountIf(Closer(statusOf, closes), entries[..i])
        invariant requests == CloseRequests(entries[..i], statusOf)
      {
        var e := entries[i];
        assert entries[..i + 1] == entries[..i] + [e];
        CountIfAppend(Closer(statusOf, closes), entries[..i], e);
        CloseRequestsAppend(entries[..i], e, statusOf);
        ghost var before := updated;
        var entry, closed, request := CheckEntry(e, statusOf, closes);
        requests := requests + request;
        updated := updated + [entry];
        if closed {
          closedCount := closedCount + 1;
        }
        assert updated == before + [Checked(e, statusOf, closes)];
        i := i + 1;
      }
      assert entries[..i] == entries;
    }
  }

  lemma CloseRequestsAppend(es: seq<PrEntry>, e: PrEntry, statusOf: StatusOracle)
    ensures CloseRequests(es + [e], statusOf) ==
      CloseRequests(es, statusOf) + (if ReportedMerged(e, statusOf) then [Get(e, "pr_number")] else [])
  {
    FilterAppend(Merged(statusOf), es, e);
    var f := Filter(Merged(statusOf), es);
    if ReportedMerged(e, statusOf) {
      assert Numbers(f + [e]) == Numbers(f) + [Get(e, "pr_number")];
    }
  }
}
