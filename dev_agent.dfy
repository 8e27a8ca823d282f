/**
 * The agent's top level (`DevAgent`): the self-improvement transaction on a
 * git working copy, the check of the improvement scheduler, loading tasks
 * from files, and the run loop that drains the queue.
 *
 * Git is seen through `GitModule`'s interface: the commands the agent issues
 * and their effect on an abstract repository (the checked-out branch, each
 * branch's commits, whether the working tree is dirty, what was pushed).
 */
module Agent {
  import opened Wrappers
  import opened JsonValue
  import opened Seqs
  import opened Tasks
  import opened Dispatch
  import Scheduling
  import PullRequests
  import Planning

  // ---------------------------------------------------------------------
  // The repository and the commands run on it
  // ---------------------------------------------------------------------

  /** One `git` process per command, and the GitHub request that opens a pull request. */
  datatype GitCall =
    | RevParseHead
    | StatusPorcelain
    | AddDot
    | CommitWith(message: string)
    | CheckoutNew(name: string)
    | CheckoutAt(name: string)
    | BranchDelete(name: string)
    | PushTo(name: string)
    | OpenPull(title: string, head: string, base: string)

  /** The commands that create, switch or delete a branch. */
  predicate IsBranchCall(c: GitCall) {
    c.CheckoutNew? || c.CheckoutAt? || c.BranchDelete?
  }

  /**
   * The checked-out branch, the commit messages of every branch (oldest
   * first; the keys are the branches), whether the working tree has changes,
   * and the branches pushed to `origin`.
   */
  datatype Repo = Repo(branch: string, logs: map<string, seq<string>>, dirty: bool, pushed: set<string>)

  /** The checked-out branch exists. */
  predicate Consistent(r: Repo) {
    r.branch in r.logs
  }

  function LogOf(r: Repo, b: string): seq<string> {
    if b in r.logs then r.logs[b] else []
  }

  /**
   * What git itself refuses: committing a clean tree, creating an existing
   * branch, checking out or pushing a missing one, deleting the current or a
   * missing branch.
   */
  predicate Refused(r: Repo, c: GitCall) {
    match c
    case CommitWith(_) => !r.dirty
    case CheckoutNew(n) => n in r.logs
    case CheckoutAt(n) => n !in r.logs
    case BranchDelete(n) => n == r.branch || n !in r.logs
    case PushTo(n) => n !in r.logs
    case _ => false
  }

  /** `fails` stands for the environment: a non-zero exit, a missing binary, a GitHub API error. */
  predicate Succeeds(r: Repo, c: GitCall, fails: GitCall -> bool) {
    !fails(c) && !Refused(r, c)
  }

  /** The effect of a command that succeeds. A new branch starts at the current one's commits. */
  function Perform(r: Repo, c: GitCall): Repo {
    match c
    case CommitWith(m) => r.(logs := r.logs[r.branch := LogOf(r, r.branch) + [m]], dirty := false)
    case CheckoutNew(n) => r.(branch := n, logs := r.logs[n := LogOf(r, r.branch)])
    case CheckoutAt(n) => r.(branch := n)
    case BranchDelete(n) => r.(logs := r.logs - {n})
    case PushTo(n) => r.(pushed := r.pushed + {n})
    case _ => r
  }

  function Exec(r: Repo, c: GitCall, fails: GitCall -> bool): Repo {
    if Succeeds(r, c, fails) then Perform(r, c) else r
  }

  /** Whatever the environment does, the checked-out branch keeps existing. */
  lemma ExecConsistent(r: Repo, c: GitCall, fails: GitCall -> bool)
    requires Consistent(r)
    ensures Consistent(Exec(r, c, fails))
  {
    if Succeeds(r, c, fails) && c.BranchDelete? {
      assert c.name != r.branch;
    }
  }

  /** Only deleting a branch loses commits: every other command keeps each branch and its commits as a prefix. */
  lemma ExecKeepsLog(r: Repo, c: GitCall, fails: GitCall -> bool, b: string)
    requires b in r.logs && c != BranchDelete(b)
    ensures b in Exec(r, c, fails).logs && r.logs[b] <= Exec(r, c, fails).logs[b]
  {
    if Succeeds(r, c, fails) && c.CommitWith? && b == r.branch {
      assert Exec(r, c, fails).logs[b] == r.logs[b] + [c.message];
    }
  }

  /** Commands other than branch commands leave the checked-out branch and the set of branches alone. */
  lemma ExecKeepsBranches(r: Repo, c: GitCall, fails: GitCall -> bool)
    requires Consistent(r) && !IsBranchCall(c)
    ensures Exec(r, c, fails).branch == r.branch && Exec(r, c, fails).logs.Keys == r.logs.Keys
  {
    if Succeeds(r, c, fails) && c.CommitWith? {
      assert r.logs[r.branch := LogOf(r, r.branch) + [c.message]].Keys == r.logs.Keys + {r.branch};
    }
  }

  /** The repository together with every command issued so far. */
  datatype GitState = GitState(repo: Repo, issued: seq<GitCall>)

  function Issue(g: GitState, c: GitCall, fails: GitCall -> bool): GitState {
    GitState(Exec(g.repo, c, fails), g.issued + [c])
  }

  /** The handlers' edits to the working tree while the queue drains. */
  function Touch(g: GitState, touched: bool): GitState {
    GitState(g.repo.(dirty := g.repo.dirty || touched), g.issued)
  }

  /**
   * `get_current_branch` and `is_working_directory_clean` run git in text
   * mode, so their error handler's `e.stderr.decode()` raises this instead of
   * logging: a failing read escapes.
   */
  const DecodeError: string := "'str' object has no attribute 'decode'"

  /** `GitModule`: every command goes through `_run_git_command`, which reports failure as `False`. */
  class GitRepo {
    var repo: Repo
    /** Every command issued so far, oldest first. */
    ghost var issued: seq<GitCall>
    const fails: GitCall -> bool
    /** Whether the GitHub client connected (`self.repo` is set). */
    const hasRemote: bool
    /** The number GitHub gives the next pull request. */
    const nextPr: int

    constructor (repo: Repo, fails: GitCall -> bool, hasRemote: bool, nextPr: int)
      ensures this.repo == repo && issued == []
      ensures this.fails == fails && this.hasRemote == hasRemote && this.nextPr == nextPr
    {
      this.repo := repo;
      this.fails := fails;
      this.hasRemote := hasRemote;
      this.nextPr := nextPr;
      issued := [];
    }

    ghost function State(): GitState
      reads this
    {
      GitState(repo, issued)
    }

    method RunCommand(c: GitCall) returns (ok: bool)
      modifies this
      ensures ok == Succeeds(old(repo), c, fails)
      ensures State() == Issue(old(State()), c, fails)
    {
      ok := !fails(c) && !Refused(repo, c);
      if ok {
        repo := Perform(repo, c);
      }
      issued := issued + [c];
    }

    method GetCurrentBranch() returns (r: Result<string>)
      modifies this
      ensures r == if fails(RevParseHead) then Raise(DecodeError) else Ok(old(repo).branch)
      ensures State() == Issue(old(State()), RevParseHead, fails)
    {
      var ok := RunCommand(RevParseHead);
      r := if ok then Ok(repo.branch) else Raise(DecodeError);
    }

    method IsWorkingDirectoryClean() returns (r: Result<bool>)
      modifies this
      ensures r == if fails(StatusPorcelain) then Raise(DecodeError) else Ok(!old(repo).dirty)
      ensures State() == Issue(old(State()), StatusPorcelain, fails)
    {
      var ok := RunCommand(StatusPorcelain);
      r := if ok then Ok(!repo.dirty) else Raise(DecodeError);
    }

    method CreateAndCheckoutBranch(name: string) returns (ok: bool)
      modifies this
      ensures ok == Succeeds(old(repo), CheckoutNew(name), fails)
      ensures ok ==> repo.branch == name && name in repo.logs
      ensures State() == Issue(old(State()), CheckoutNew(name), fails)
    {
      ok := RunCommand(CheckoutNew(name));
    }

    method CheckoutBranch(name: string) returns (ok: bool)
      modifies this
      ensures ok == Succeeds(old(repo), CheckoutAt(name), fails)
      ensures ok ==> repo.branch == name
      ensures State() == Issue(old(State()), CheckoutAt(name), fails)
    {
      ok := RunCommand(CheckoutAt(name));
    }

    method DeleteBranch(name: string) returns (ok: bool)
      modifies this
      ensures ok == Succeeds(old(repo), BranchDelete(name), fails)
      ensures ok ==> name !in repo.logs && repo.branch == old(repo).branch
      ensures State() == Issue(old(State()), BranchDelete(name), fails)
    {
      ok := RunCommand(BranchDelete(name));
    }

    method AddAll() returns (ok: bool)
      modifies this
      ensures ok == !fails(AddDot)
      ensures State() == Issue(old(State()), AddDot, fails)
    {
      ok := RunCommand(AddDot);
    }

    method Commit(message: string) returns (ok: bool)
      modifies this
      ensures ok == Succeeds(old(repo), CommitWith(message), fails)
      ensures ok ==> !repo.dirty && LogOf(repo, repo.branch) == LogOf(old(repo), old(repo).branch) + [message]
      ensures State() == Issue(old(State()), CommitWith(message), fails)
    {
      ok := RunCommand(CommitWith(message));
    }

    method Push(name: string) returns (ok: bool)
      modifies this
      ensures ok == Succeeds(old(repo), PushTo(name), fails)
      ensures ok ==> name in repo.pushed
      ensures State() == Issue(old(State()), PushTo(name), fails)
    {
      ok := RunCommand(PushTo(name));
    }

    /** Without a connected GitHub repository no request is made; a failed request gives `None`. */
    method CreatePullRequest(title: string, body: string, head: string, base: string) returns (pr: Option<int>)
      modifies this
      ensures !hasRemote ==> pr.None? && State() == old(State())
      ensures hasRemote ==> State() == Issue(old(State()), OpenPull(title, head, base), fails)
      ensures hasRemote ==> pr == if fails(OpenPull(title, head, base)) then None else Some(nextPr)
    {
      if !hasRemote {
        return None;
      }
      var ok := RunCommand(OpenPull(title, head, base));
      pr := if ok then Some(nextPr) else None;
    }

    /** The handlers' own edits of the working tree, which the agent later finds uncommitted. */
    method WorkOnTree(touched: bool)
      modifies this
      ensures State() == Touch(old(State()), touched)
    {
      repo := repo.(dirty := repo.dirty || touched);
    }
  }

  // ---------------------------------------------------------------------
  // self_improve
  // ---------------------------------------------------------------------

  const NoGitMessage: string := "GitModule not initialized."
  const CommitFailedMessage: string := "Не вдалося створити коміт зі змінами."
  const RolledBackPrefix: string := "Self-improvement failed and was rolled back: "
  const PrBody: string := "Цей Pull Request містить автоматичні покращення, згенеровані DevAgent."
  const BaseBranch: string := "master"

  /** The clock readings `self_improve` formats into its commit messages, its branch name and its PR title. */
  datatype Clock = Clock(autoCommitTime: string, branchStamp: string, commitTime: string, prDate: string)

  function AutoCommitMessage(c: Clock): string {
    "auto: Автоматичний коміт перед самовдосконаленням " + c.autoCommitTime
  }

  function BranchName(c: Clock): string {
    "self-improvement-" + c.branchStamp
  }

  function ChangesMessage(c: Clock): string {
    "feat(self-improve): Автоматичні покращення " + c.commitTime
  }

  function PrTitle(c: Clock): string {
    "Автоматичне самовдосконалення " + c.prDate
  }

  function BranchFailedMessage(name: string): string {
    "Не вдалося створити гілку '" + name + "'."
  }

  function SuccessMessage(name: string): string {
    "Процес самовдосконалення завершено. Зміни у гілці '" + name + "' (локально)."
  }

  /** The one task `self_improve` enqueues: a full cycle with every option on and `auto_fix` from the configuration. */
  function ImprovementRequest(config: Dict): (t: Task)
    ensures Get(t, "type") == JStr("self_improvement") && Get(t, "improvement_type") == JStr("full_cycle")
    ensures "status" !in t && IsPending(Normalize(t, 0))
  {
    map["type" := JStr("self_improvement"),
        "improvement_type" := JStr("full_cycle"),
        "options" := JObj(Scheduling.DefaultOptions()["auto_fix" := GetOr(config, "auto_fix", JBool(true))])]
  }

  /** `config.get("git", {}).get("auto_push", False)`, taken by its truth value; a section that is not a dict has no `get`. */
  function AutoPush(config: Dict): (r: Result<bool>)
    ensures r.Ok? <==> GetOr(config, "git", JObj(map[])).JObj?
    ensures "git" !in config ==> r == Ok(false)
    ensures r == Ok(true) ==> "git" in config && config["git"].JObj? && "auto_push" in config["git"].fields
  {
    var section := GetOr(config, "git", JObj(map[]));
    if section.JObj? then Ok(Truthy(GetOr(section.fields, "auto_push", JBool(false))))
    else Raise("'" + PyType(section) + "' object has no attribute 'get'")
  }

  /** The start of `self_improve`: read the current branch, then stage and commit a dirty tree whatever the outcome. */
  function Prelude(g: GitState, fails: GitCall -> bool, clock: Clock): (r: (GitState, Result<string>))
    ensures r.1.Ok? <==> !fails(RevParseHead) && !fails(StatusPorcelain)
    ensures r.1.Ok? ==> r.1.value == g.repo.branch
    ensures r.1.Raise? ==> r.1.error == DecodeError
    ensures r.1.Ok? && !g.repo.dirty ==> r.0.repo == g.repo
    ensures r.1.Ok? && g.repo.dirty && !fails(CommitWith(AutoCommitMessage(clock))) ==>
      !r.0.repo.dirty && r.0.repo.branch == g.repo.branch &&
      LogOf(r.0.repo, g.repo.branch) == LogOf(g.repo, g.repo.branch) + [AutoCommitMessage(clock)]
  {
    var g1 := Issue(g, RevParseHead, fails);
    if fails(RevParseHead) then (g1, Raise(DecodeError))
    else
      var g2 := Issue(g1, StatusPorcelain, fails);
      if fails(StatusPorcelain) then (g2, Raise(DecodeError))
      else if !g.repo.dirty then (g2, Ok(g.repo.branch))
      else (Issue(Issue(g2, AddDot, fails), CommitWith(AutoCommitMessage(clock)), fails), Ok(g.repo.branch))
  }

  /** Publishing in `self_improve`: push when `auto_push` is set, and open a pull request when pushing and connected. */
  function PublishOf(g: GitState, fails: GitCall -> bool, hasRemote: bool, nextPr: int,
                     name: string, clock: Clock, config: Dict): (r: (GitState, Result<Option<int>>))
    ensures r.1.Raise? <==> AutoPush(config).Raise?
    ensures AutoPush(config) == Ok(false) ==> r == (g, Ok(None))
    ensures r.1.Ok? && r.1.value.Some? ==>
      r.1.value.value == nextPr && hasRemote && AutoPush(config) == Ok(true) &&
      !fails(OpenPull(PrTitle(clock), name, BaseBranch))
    ensures AutoPush(config) == Ok(true) && name in g.repo.logs && !fails(PushTo(name)) ==> name in r.0.repo.pushed
    ensures r.0.repo.branch == g.repo.branch && r.0.repo.logs == g.repo.logs && r.0.repo.dirty == g.repo.dirty
  {
    var push := AutoPush(config);
    if push.Raise? then (g, Raise(push.error))
    else
      var g1 := if push.value then Issue(g, PushTo(name), fails) else g;
      if push.value && hasRemote then
        var req := OpenPull(PrTitle(clock), name, BaseBranch);
        (Issue(g1, req, fails), Ok(if fails(req) then None else Some(nextPr)))
      else (g1, Ok(None))
  }

  /** The commit step of `self_improve`: commit the changes the run left (a failed commit raises), then publish outside direct mode. */
  function ChangesOf(g: GitState, fails: GitCall -> bool, hasRemote: bool, nextPr: int,
                     direct: bool, name: string, clock: Clock, config: Dict): (r: (GitState, Result<Option<int>>))
    ensures fails(StatusPorcelain) ==> r.1 == Raise(DecodeError)
    ensures !fails(StatusPorcelain) && !g.repo.dirty ==> r == (Issue(g, StatusPorcelain, fails), Ok(None))
    ensures !fails(StatusPorcelain) && g.repo.dirty && fails(CommitWith(ChangesMessage(clock))) ==>
      r.1 == Raise(CommitFailedMessage)
    ensures r.1.Ok? && g.repo.dirty ==>
      !r.0.repo.dirty && r.0.repo.branch == g.repo.branch &&
      LogOf(r.0.repo, g.repo.branch) == LogOf(g.repo, g.repo.branch) + [ChangesMessage(clock)]
    ensures r.1.Ok? && r.1.value.Some? ==>
      !direct && hasRemote && AutoPush(config) == Ok(true) && r.1.value.value == nextPr
  {
    var g1 := Issue(g, StatusPorcelain, fails);
    if fails(StatusPorcelain) then (g1, Raise(DecodeError))
    else if !g.repo.dirty then (g1, Ok(None))
    else
      var g2 := Issue(g1, AddDot, fails);
      var commit := CommitWith(ChangesMessage(clock));
      var g3 := Issue(g2, commit, fails);
      if !Succeeds(g2.repo, commit, fails) then (g3, Raise(CommitFailedMessage))
      else if direct then (g3, Ok(None))
      else PublishOf(g3, fails, hasRemote, nextPr, name, clock, config)
  }

  /** The `except` branch of `self_improve`: back to the original branch, and the improvement branch deleted. */
  function Rollback(g: GitState, fails: GitCall -> bool, original: string, name: string): (r: GitState)
    ensures r.issued == g.issued + [CheckoutAt(original), BranchDelete(name)]
    ensures Succeeds(g.repo, CheckoutAt(original), fails) ==> r.repo.branch == original
    ensures (Succeeds(g.repo, CheckoutAt(original), fails) && !fails(BranchDelete(name)) &&
             name != original && name in g.repo.logs) ==> name !in r.repo.logs
    ensures forall b :: b in g.repo.logs && b != name ==> b in r.repo.logs && r.repo.logs[b] == g.repo.logs[b]
  {
    Issue(Issue(g, CheckoutAt(original), fails), BranchDelete(name), fails)
  }

  /** What one `self_improve` call does: its reply (or the exception it lets out), git, whether it enqueued, the PR it opened. */
  datatype Outcome = Outcome(reply: Result<Dict>, git: GitState, enqueued: bool, pr: Option<int>)

  /**
   * `self_improve` over git. `run` says what draining the queue did.
   */
  function SelfImproveOf(g: GitState, fails: GitCall -> bool, hasRemote: bool, nextPr: int,
                         direct: bool, clock: Clock, config: Dict, run: RunEffect): (o: Outcome)
    ensures o.reply.Raise? <==> fails(RevParseHead) || fails(StatusPorcelain)
    ensures o.reply.Raise? ==> o.reply.error == DecodeError && !o.enqueued && o.pr.None?
    ensures o.pr.Some? ==> o.pr.value == nextPr && !direct && hasRemote && AutoPush(config) == Ok(true)
  {
    var (g1, original) := Prelude(g, fails, clock);
    if original.Raise? then Outcome(Raise(original.error), g1, false, None)
    else OpenedOf(g1, fails, hasRemote, nextPr, direct, original.value, clock, config, run)
  }

  /** `self_improve` once the original branch is known: open the improvement branch unless direct, then attempt. */
  function OpenedOf(g: GitState, fails: GitCall -> bool, hasRemote: bool, nextPr: int, direct: bool,
                    original: string, clock: Clock, config: Dict, run: RunEffect): (o: Outcome)
    ensures o.reply.Ok?
    ensures o.pr.Some? ==> o.pr.value == nextPr && !direct && hasRemote && AutoPush(config) == Ok(true)
  {
    var name := BranchName(clock);
    var open := CheckoutNew(name);
    if !direct && !Succeeds(g.repo, open, fails) then
      Outcome(Ok(Planning.StatusReply("error", BranchFailedMessage(name))), Issue(g, open, fails), false, None)
    else
      AttemptOf(if direct then g else Issue(g, open, fails), fails, hasRemote, nextPr,
                direct, original, name, clock, config, run)
  }

  /**
   * What draining the queue did to git and to the transaction: whether the
   * handlers left changes in the working tree, and the exception that escaped
   * `process_all_tasks`, if any.
   */
  datatype RunEffect = RunEffect(touched: bool, raised: Option<string>)

  /** The `try` body of `self_improve` after enqueueing: the drain, whose escaping exception is the attempt's, then the commit and publishing. */
  function BodyOf(g: GitState, fails: GitCall -> bool, hasRemote: bool, nextPr: int, direct: bool,
                  name: string, clock: Clock, config: Dict, run: RunEffect): (r: (GitState, Result<Option<int>>))
    ensures run.raised.Some? ==> r == (Touch(g, run.touched), Raise(run.raised.value))
    ensures run.raised.None? ==> r == ChangesOf(Touch(g, run.touched), fails, hasRemote, nextPr, direct, name, clock, config)
  {
    var t := Touch(g, run.touched);
    if run.raised.Some? then (t, Raise(run.raised.value))
    else ChangesOf(t, fails, hasRemote, nextPr, direct, name, clock, config)
  }

  /** The `try`/`except` of `self_improve`, once the branch is open: run, commit, publish, and roll back on an exception. */
  function AttemptOf(g: GitState, fails: GitCall -> bool, hasRemote: bool, nextPr: int, direct: bool,
                     original: string, name: string, clock: Clock, config: Dict, run: RunEffect): (o: Outcome)
    ensures o.reply.Ok? && o.enqueued
    ensures o.pr.Some? ==> o.pr.value == nextPr && !direct && hasRemote && AutoPush(config) == Ok(true)
  {
    var (g1, body) := BodyOf(g, fails, hasRemote, nextPr, direct, name, clock, config, run);
    if body.Raise? then
      Outcome(Ok(Planning.StatusReply("error", RolledBackPrefix + body.error)),
              if direct then g1 else Rollback(g1, fails, original, name), true, None)
    else
      Outcome(Ok(Planning.StatusReply("success", SuccessMessage(name))),
              if direct then g1 else Issue(g1, CheckoutAt(original), fails), true, body.value)
  }

  // ---------------------------------------------------------------------
  // What self_improve guarantees
  // ---------------------------------------------------------------------

  /** No command from index `from` on creates, switches or deletes a branch. */
  predicate NoBranchCallsFrom(s: seq<GitCall>, from: nat) {
    forall i :: from <= i < |s| ==> !IsBranchCall(s[i])
  }

  /** Every branch of `r` survives in `r'` with its commits as a prefix. */
  predicate KeepsLogs(r: Repo, r': Repo) {
    forall b :: b in r.logs ==> b in r'.logs && r.logs[b] <= r'.logs[b]
  }

  /**
   * From `g` to `g'` only commands were added, none of them a branch command:
   * the same branch is checked out, the same branches exist and no commit is lost.
   */
  predicate Plain(g: GitState, g': GitState) {
    g.issued <= g'.issued && NoBranchCallsFrom(g'.issued, |g.issued|) &&
    Consistent(g'.repo) && g'.repo.branch == g.repo.branch && g'.repo.logs.Keys == g.repo.logs.Keys &&
    KeepsLogs(g.repo, g'.repo)
  }

  lemma PlainStep(g: GitState, c: GitCall, fails: GitCall -> bool)
    requires Consistent(g.repo) && !IsBranchCall(c)
    ensures Plain(g, Issue(g, c, fails))
  {
    ExecKeepsBranches(g.repo, c, fails);
    var r' := Exec(g.repo, c, fails);
    forall b | b in g.repo.logs
      ensures b in r'.logs && g.repo.logs[b] <= r'.logs[b]
    {
      ExecKeepsLog(g.repo, c, fails, b);
    }
  }

  lemma PlainTrans(a: GitState, b: GitState, c: GitState)
    requires Plain(a, b) && Plain(b, c)
    ensures Plain(a, c)
  {
    forall i | |a.issued| <= i < |c.issued|
      ensures !IsBranchCall(c.issued[i])
    {
      if i < |b.issued| {
        assert c.issued[i] == b.issued[i];
      }
    }
  }

  lemma TouchPlain(g: GitState, touched: bool)
    requires Consistent(g.repo)
    ensures Plain(g, Touch(g, touched))
  {
  }

  /** A push or a pull request is issued only outside direct mode with `auto_push` set, and a PR only when connected. */
  predicate MayIssue(c: GitCall, direct: bool, config: Dict, hasRemote: bool) {
    (c.PushTo? || c.OpenPull?) ==> !direct && AutoPush(config) == Ok(true) && (c.OpenPull? ==> hasRemote)
  }

  predicate PublishAllowed(s: seq<GitCall>, from: nat, direct: bool, config: Dict, hasRemote: bool) {
    forall i :: from <= i < |s| ==> MayIssue(s[i], direct, config, hasRemote)
  }

  /** A plain stretch of commands in which every push and pull request was allowed. */
  predicate Safe(g: GitState, g': GitState, direct: bool, config: Dict, hasRemote: bool) {
    Plain(g, g') && PublishAllowed(g'.issued, |g.issued|, direct, config, hasRemote)
  }

  lemma SafeStep(g: GitState, c: GitCall, fails: GitCall -> bool, direct: bool, config: Dict, hasRemote: bool)
    requires Consistent(g.repo) && !IsBranchCall(c) && MayIssue(c, direct, config, hasRemote)
    ensures Safe(g, Issue(g, c, fails), direct, config, hasRemote)
  {
    PlainStep(g, c, fails);
  }

  lemma SafeTrans(a: GitState, b: GitState, c: GitState, direct: bool, config: Dict, hasRemote: bool)
    requires Safe(a, b, direct, config, hasRemote) && Safe(b, c, direct, config, hasRemote)
    ensures Safe(a, c, direct, config, hasRemote)
  {
    PlainTrans(a, b, c);
    forall i | |a.issued| <= i < |c.issued|
      ensures MayIssue(c.issued[i], direct, config, hasRemote)
    {
      if i < |b.issued| {
        assert c.issued[i] == b.issued[i];
      }
    }
  }

  lemma SafeSteps(g: GitState, c: GitCall, d: GitCall, fails: GitCall -> bool, direct: bool, config: Dict, hasRemote: bool)
    requires Consistent(g.repo)
    requires !IsBranchCall(c) && MayIssue(c, direct, config, hasRemote)
    requires !IsBranchCall(d) && MayIssue(d, direct, config, hasRemote)
    ensures Safe(g, Issue(Issue(g, c, fails), d, fails), direct, config, hasRemote)
  {
    SafeStep(g, c, fails, direct, config, hasRemote);
    SafeStep(Issue(g, c, fails), d, fails, direct, config, hasRemote);
    SafeTrans(g, Issue(g, c, fails), Issue(Issue(g, c, fails), d, fails), direct, config, hasRemote);
  }

  lemma PreludeFacts(g: GitState, fails: GitCall -> bool, clock: Clock, direct: bool, config: Dict, hasRemote: bool)
    requires Consistent(g.repo)
    ensures Safe(g, Prelude(g, fails, clock).0, direct, config, hasRemote)
  {
    if fails(RevParseHead) {
      SafeStep(g, RevParseHead, fails, direct, config, hasRemote);
    } else if fails(StatusPorcelain) || !g.repo.dirty {
      SafeSteps(g, RevParseHead, StatusPorcelain, fails, direct, config, hasRemote);
    } else {
      AutoCommitSafe(g, fails, clock, direct, config, hasRemote);
    }
  }

  lemma AutoCommitSafe(g: GitState, fails: GitCall -> bool, clock: Clock, direct: bool, config: Dict, hasRemote: bool)
    requires Consistent(g.repo)
    ensures var g2 := Issue(Issue(g, RevParseHead, fails), StatusPorcelain, fails);
      Safe(g, Issue(Issue(g2, AddDot, fails), CommitWith(AutoCommitMessage(clock)), fails), direct, config, hasRemote)
  {
    var g2 := Issue(Issue(g, RevParseHead, fails), StatusPorcelain, fails);
    SafeSteps(g, RevParseHead, StatusPorcelain, fails, direct, config, hasRemote);
    SafeSteps(g2, AddDot, CommitWith(AutoCommitMessage(clock)), fails, direct, config, hasRemote);
    SafeTrans(g, g2, Issue(Issue(g2, AddDot, fails), CommitWith(AutoCommitMessage(clock)), fails), direct, config, hasRemote);
  }

  lemma PublishFacts(g: GitState, fails: GitCall -> bool, hasRemote: bool, nextPr: int,
                     name: string, clock: Clock, config: Dict)
    requires Consistent(g.repo)
    ensures Safe(g, PublishOf(g, fails, hasRemote, nextPr, name, clock, config).0, false, config, hasRemote)
    ensures PublishOf(g, fails, hasRemote, nextPr, name, clock, config).1.Raise? <==> AutoPush(config).Raise?
  {
    var push := AutoPush(config);
    if push.Ok? {
      var g1 := if push.value then Issue(g, PushTo(name), fails) else g;
      if push.value {
        SafeStep(g, PushTo(name), fails, false, config, hasRemote);
      }
      if push.value && hasRemote {
        var req := OpenPull(PrTitle(clock), name, BaseBranch);
        SafeStep(g1, req, fails, false, config, hasRemote);
        SafeTrans(g, g1, Issue(g1, req, fails), false, config, hasRemote);
      }
    }
  }

  lemma ChangesFacts(g: GitState, fails: GitCall -> bool, hasRemote: bool, nextPr: int,
                     direct: bool, name: string, clock: Clock, config: Dict)
    requires Consistent(g.repo)
    ensures Safe(g, ChangesOf(g, fails, hasRemote, nextPr, direct, name, clock, config).0, direct, config, hasRemote)
  {
    var g1 := Issue(g, StatusPorcelain, fails);
    SafeStep(g, StatusPorcelain, fails, direct, config, hasRemote);
    if !fails(StatusPorcelain) && g.repo.dirty {
      var commit := CommitWith(ChangesMessage(clock));
      var g3 := Issue(Issue(g1, AddDot, fails), commit, fails);
      SafeSteps(g1, AddDot, commit, fails, direct, config, hasRemote);
      SafeTrans(g, g1, g3, direct, config, hasRemote);
      if Succeeds(Issue(g1, AddDot, fails).repo, commit, fails) && !direct {
        PublishFacts(g3, fails, hasRemote, nextPr, name, clock, config);
        SafeTrans(g, g3, PublishOf(g3, fails, hasRemote, nextPr, name, clock, config).0, direct, config, hasRemote);
      }
    }
  }

  /** The branch checked out beforehand is the original one; a failing read escapes as the decode error. */
  lemma PreludeResult(g: GitState, fails: GitCall -> bool, clock: Clock)
    ensures var p := Prelude(g, fails, clock);
      (p.1.Ok? <==> !fails(RevParseHead) && !fails(StatusPorcelain)) &&
      (p.1.Ok? ==> p.1.value == g.repo.branch) && (p.1.Raise? ==> p.1.error == DecodeError)
  {
  }

  /** The commands of the automatic commit before a run. */
  function AutoCommitCalls(clock: Clock): seq<GitCall> {
    [RevParseHead, StatusPorcelain, AddDot, CommitWith(AutoCommitMessage(clock))]
  }

  /** A dirty tree is staged and committed on the original branch, and that commit lands unless git fails it. */
  lemma AutoCommitDone(g: GitState, fails: GitCall -> bool, clock: Clock)
    requires Consistent(g.repo) && g.repo.dirty && !fails(RevParseHead) && !fails(StatusPorcelain)
    ensures var p := Prelude(g, fails, clock);
      p.0.issued == g.issued + AutoCommitCalls(clock) &&
      (!fails(CommitWith(AutoCommitMessage(clock))) ==>
        p.0.repo.logs[g.repo.branch] == g.repo.logs[g.repo.branch] + [AutoCommitMessage(clock)])
  {
  }

  /** The commits of every branch, except possibly `name`'s, survive from `r` to `r'`. */
  predicate KeepsLogsBut(r: Repo, r': Repo, name: string) {
    forall b :: b in r.logs && b != name ==> b in r'.logs && r.logs[b] <= r'.logs[b]
  }

  /** The new commands from `g` to `g'` push or open a pull request only where allowed. */
  predicate Guarded(g: GitState, g': GitState, direct: bool, config: Dict, hasRemote: bool) {
    g.issued <= g'.issued && PublishAllowed(g'.issued, |g.issued|, direct, config, hasRemote)
  }

  lemma GuardedTrans(a: GitState, b: GitState, c: GitState, direct: bool, config: Dict, hasRemote: bool)
    requires Guarded(a, b, direct, config, hasRemote) && Guarded(b, c, direct, config, hasRemote)
    ensures Guarded(a, c, direct, config, hasRemote)
  {
    forall i | |a.issued| <= i < |c.issued|
      ensures MayIssue(c.issued[i], direct, config, hasRemote)
    {
      if i < |b.issued| {
        assert c.issued[i] == b.issued[i];
      }
    }
  }

  /** Creating the improvement branch: it starts at the original's commits and becomes the checked-out one. */
  lemma OpenFacts(g: GitState, fails: GitCall -> bool, name: string, direct: bool, config: Dict, hasRemote: bool)
    requires Consistent(g.repo) && Succeeds(g.repo, CheckoutNew(name), fails)
    ensures var gb := Issue(g, CheckoutNew(name), fails);
      name !in g.repo.logs && gb.repo.branch == name && Consistent(gb.repo) &&
      gb.repo.logs.Keys == g.repo.logs.Keys + {name} && KeepsLogs(g.repo, gb.repo) &&
      Guarded(g, gb, direct, config, hasRemote)
  {
  }

  /** Checking out an existing branch keeps every branch and its commits. */
  lemma ReturnFacts(g: GitState, fails: GitCall -> bool, original: string)
    requires Consistent(g.repo) && original in g.repo.logs
    ensures var r := Issue(g, CheckoutAt(original), fails);
      Consistent(r.repo) && r.repo.logs == g.repo.logs &&
      r.repo.branch == (if fails(CheckoutAt(original)) then g.repo.branch else original)
  {
  }

  /** The `except` branch of `self_improve` from the improvement branch: back to the original, which deletes the improvement branch when both succeed. */
  lemma RollbackFacts(g: GitState, fails: GitCall -> bool, original: string, name: string)
    requires Consistent(g.repo) && g.repo.branch == name && original in g.repo.logs && original != name
    ensures var r := Rollback(g, fails, original, name);
      r.issued == g.issued + [CheckoutAt(original), BranchDelete(name)] &&
      Consistent(r.repo) && KeepsLogsBut(g.repo, r.repo, name) && r.repo.logs.Keys <= g.repo.logs.Keys &&
      (!fails(CheckoutAt(original)) ==> r.repo.branch == original) &&
      (!fails(CheckoutAt(original)) && !fails(BranchDelete(name)) ==> r.repo.logs.Keys == g.repo.logs.Keys - {name})
  {
    var r1 := Issue(g, CheckoutAt(original), fails);
    ReturnFacts(g, fails, original);
    ExecConsistent(r1.repo, BranchDelete(name), fails);
  }

  /** Running the tasks and committing keep the branch structure and publish only as allowed. */
  lemma AttemptSafe(g: GitState, fails: GitCall -> bool, hasRemote: bool, nextPr: int,
                    direct: bool, name: string, clock: Clock, config: Dict, run: RunEffect)
    requires Consistent(g.repo)
    ensures Safe(g, BodyOf(g, fails, hasRemote, nextPr, direct, name, clock, config, run).0, direct, config, hasRemote)
  {
    var t := Touch(g, run.touched);
    TouchPlain(g, run.touched);
    if run.raised.None? {
      ChangesFacts(t, fails, hasRemote, nextPr, direct, name, clock, config);
      SafeTrans(g, t, ChangesOf(t, fails, hasRemote, nextPr, direct, name, clock, config).0, direct, config, hasRemote);
    }
  }

  /** The repository after the attempt on the improvement branch `g`: the state restored after a raise or a success. */
  predicate Restored(g: GitState, g': GitState, original: string, name: string, fails: GitCall -> bool) {
    Consistent(g'.repo) && KeepsLogsBut(g.repo, g'.repo, name) && g'.repo.logs.Keys <= g.repo.logs.Keys &&
    (!fails(CheckoutAt(original)) ==> g'.repo.branch == original)
  }

  lemma RolledBackRestored(g: GitState, c: GitState, fails: GitCall -> bool, original: string, name: string,
                           config: Dict, hasRemote: bool)
    requires Consistent(g.repo) && g.repo.branch == name && original in g.repo.logs && original != name
    requires Safe(g, c, false, config, hasRemote)
    ensures Restored(g, Rollback(c, fails, original, name), original, name, fails)
    ensures Guarded(g, Rollback(c, fails, original, name), false, config, hasRemote)
  {
    RollbackFacts(c, fails, original, name);
    GuardedTrans(g, c, Rollback(c, fails, original, name), false, config, hasRemote);
  }

  lemma ReturnedRestored(g: GitState, c: GitState, fails: GitCall -> bool, original: string, name: string,
                         config: Dict, hasRemote: bool)
    requires Consistent(g.repo) && g.repo.branch == name && original in g.repo.logs && original != name
    requires Safe(g, c, false, config, hasRemote)
    ensures Restored(g, Issue(c, CheckoutAt(original), fails), original, name, fails)
    ensures Guarded(g, Issue(c, CheckoutAt(original), fails), false, config, hasRemote)
  {
    ReturnFacts(c, fails, original);
    GuardedTrans(g, c, Issue(c, CheckoutAt(original), fails), false, config, hasRemote);
  }

  /** The state on the improvement branch when the attempt ends, and what comes after it. */
  lemma AttemptEnds(g: GitState, fails: GitCall -> bool, hasRemote: bool, nextPr: int,
                    original: string, name: string, clock: Clock, config: Dict, run: RunEffect)
    requires Consistent(g.repo) && g.repo.branch == name && original in g.repo.logs && original != name
    ensures var o := AttemptOf(g, fails, hasRemote, nextPr, false, original, name, clock, config, run);
      Guarded(g, o.git, false, config, hasRemote) && Restored(g, o.git, original, name, fails)
  {
    var c := BodyOf(g, fails, hasRemote, nextPr, false, name, clock, config, run);
    AttemptSafe(g, fails, hasRemote, nextPr, false, name, clock, config, run);
    if c.1.Raise? {
      RolledBackRestored(g, c.0, fails, original, name, config, hasRemote);
    } else {
      ReturnedRestored(g, c.0, fails, original, name, config, hasRemote);
    }
  }

  /** Commits kept on the way to the improvement branch and back are kept overall, since that branch is new. */
  lemma KeepsCompose(a: Repo, b: Repo, c: Repo, name: string)
    requires KeepsLogs(a, b) && KeepsLogsBut(b, c, name) && name !in a.logs
    ensures KeepsLogs(a, c)
  {
    forall x | x in a.logs
      ensures x in c.logs && a.logs[x] <= c.logs[x]
    {
      assert x != name;
    }
  }

  /** Outside direct mode, once the improvement branch is created. */
  lemma OpenedBranchKeeps(g: GitState, fails: GitCall -> bool, hasRemote: bool, nextPr: int,
                          clock: Clock, config: Dict, run: RunEffect)
    requires Consistent(g.repo) && Succeeds(g.repo, CheckoutNew(BranchName(clock)), fails)
    ensures var o := AttemptOf(Issue(g, CheckoutNew(BranchName(clock)), fails), fails, hasRemote, nextPr, false,
                               g.repo.branch, BranchName(clock), clock, config, run);
      Guarded(g, o.git, false, config, hasRemote) && Consistent(o.git.repo) && KeepsLogs(g.repo, o.git.repo) &&
      (!fails(CheckoutAt(g.repo.branch)) ==> o.git.repo.branch == g.repo.branch)
  {
    var name := BranchName(clock);
    var gb := Issue(g, CheckoutNew(name), fails);
    var o := AttemptOf(gb, fails, hasRemote, nextPr, false, g.repo.branch, name, clock, config, run);
    OpenFacts(g, fails, name, false, config, hasRemote);
    AttemptEnds(gb, fails, hasRemote, nextPr, g.repo.branch, name, clock, config, run);
    GuardedTrans(g, gb, o.git, false, config, hasRemote);
    KeepsCompose(g.repo, gb.repo, o.git.repo, name);
  }

  /** Opening the branch and attempting from the original branch: nothing lost, back on the original, publishing guarded. */
  lemma OpenedKeeps(g: GitState, fails: GitCall -> bool, hasRemote: bool, nextPr: int, direct: bool,
                    clock: Clock, config: Dict, run: RunEffect)
    requires Consistent(g.repo)
    ensures var o := OpenedOf(g, fails, hasRemote, nextPr, direct, g.repo.branch, clock, config, run);
      Guarded(g, o.git, direct, config, hasRemote) && Consistent(o.git.repo) && KeepsLogs(g.repo, o.git.repo) &&
      (!fails(CheckoutAt(g.repo.branch)) ==> o.git.repo.branch == g.repo.branch)
  {
    if direct {
      AttemptSafe(g, fails, hasRemote, nextPr, direct, BranchName(clock), clock, config, run);
    } else if Succeeds(g.repo, CheckoutNew(BranchName(clock)), fails) {
      OpenedBranchKeeps(g, fails, hasRemote, nextPr, clock, config, run);
    }
  }

  /** Whatever git and the tasks do, no branch that existed loses a commit and the checked-out branch exists. */
  lemma NoCommitLost(g: GitState, fails: GitCall -> bool, hasRemote: bool, nextPr: int,
                     direct: bool, clock: Clock, config: Dict, run: RunEffect)
    requires Consistent(g.repo)
    ensures var o := SelfImproveOf(g, fails, hasRemote, nextPr, direct, clock, config, run);
      Consistent(o.git.repo) && KeepsLogs(g.repo, o.git.repo)
  {
    SelfImproveKeeps(g, fails, hasRemote, nextPr, direct, clock, config, run);
  }

  /** `self_improve` ends on the branch it started on, unless checking that branch back out fails. */
  lemma EndsOnOriginal(g: GitState, fails: GitCall -> bool, hasRemote: bool, nextPr: int,
                       direct: bool, clock: Clock, config: Dict, run: RunEffect)
    requires Consistent(g.repo) && !fails(CheckoutAt(g.repo.branch))
    ensures SelfImproveOf(g, fails, hasRemote, nextPr, direct, clock, config, run).git.repo.branch == g.repo.branch
  {
    SelfImproveKeeps(g, fails, hasRemote, nextPr, direct, clock, config, run);
  }

  /** A push or a pull request happens only outside direct mode with `auto_push` on, and a pull request only when connected. */
  lemma PublishGuarded(g: GitState, fails: GitCall -> bool, hasRemote: bool, nextPr: int,
                       direct: bool, clock: Clock, config: Dict, run: RunEffect)
    requires Consistent(g.repo)
    ensures var o := SelfImproveOf(g, fails, hasRemote, nextPr, direct, clock, config, run);
      g.issued <= o.git.issued && PublishAllowed(o.git.issued, |g.issued|, direct, config, hasRemote)
  {
    SelfImproveKeeps(g, fails, hasRemote, nextPr, direct, clock, config, run);
  }

  lemma SelfImproveKeeps(g: GitState, fails: GitCall -> bool, hasRemote: bool, nextPr: int,
                         direct: bool, clock: Clock, config: Dict, run: RunEffect)
    requires Consistent(g.repo)
    ensures var o := SelfImproveOf(g, fails, hasRemote, nextPr, direct, clock, config, run);
      Guarded(g, o.git, direct, config, hasRemote) && Consistent(o.git.repo) && KeepsLogs(g.repo, o.git.repo) &&
      (!fails(CheckoutAt(g.repo.branch)) ==> o.git.repo.branch == g.repo.branch)
  {
    var p := Prelude(g, fails, clock);
    PreludeFacts(g, fails, clock, direct, config, hasRemote);
    PreludeResult(g, fails, clock);
    if p.1.Ok? {
      OpenedKeeps(p.0, fails, hasRemote, nextPr, direct, clock, config, run);
      var o := OpenedOf(p.0, fails, hasRemote, nextPr, direct, p.0.repo.branch, clock, config, run);
      GuardedTrans(g, p.0, o.git, direct, config, hasRemote);
    }
  }

  /** The automatic commit survives the whole run on the original branch. */
  lemma AutoCommitKept(g: GitState, fails: GitCall -> bool, hasRemote: bool, nextPr: int,
                       direct: bool, clock: Clock, config: Dict, run: RunEffect)
    requires Consistent(g.repo) && g.repo.dirty && !fails(RevParseHead) && !fails(StatusPorcelain)
    requires !fails(CommitWith(AutoCommitMessage(clock)))
    ensures var o := SelfImproveOf(g, fails, hasRemote, nextPr, direct, clock, config, run);
      g.issued + AutoCommitCalls(clock) <= o.git.issued &&
      g.repo.branch in o.git.repo.logs && g.repo.logs[g.repo.branch] + [AutoCommitMessage(clock)] <= o.git.repo.logs[g.repo.branch]
  {
    var p := Prelude(g, fails, clock);
    AutoCommitDone(g, fails, clock);
    PreludeFacts(g, fails, clock, direct, config, hasRemote);
    OpenedKeeps(p.0, fails, hasRemote, nextPr, direct, clock, config, run);
  }

  /** The reads succeed and, outside direct mode, the improvement branch can be created: the run goes ahead. */
  predicate GoesAhead(g: GitState, fails: GitCall -> bool, direct: bool, clock: Clock) {
    !fails(RevParseHead) && !fails(StatusPorcelain) &&
    (direct || (BranchName(clock) !in g.repo.logs && !fails(CheckoutNew(BranchName(clock)))))
  }

  /** The git state in which the tasks run: after the auto-commit, and on the new branch outside direct mode. */
  function WorkState(g: GitState, fails: GitCall -> bool, direct: bool, clock: Clock): GitState {
    var p := Prelude(g, fails, clock).0;
    if direct then p else Issue(p, CheckoutNew(BranchName(clock)), fails)
  }

  /** A run that goes ahead is the attempt from its work state, which sits on the improvement branch outside direct mode. */
  lemma AheadPath(g: GitState, fails: GitCall -> bool, hasRemote: bool, nextPr: int,
                  direct: bool, clock: Clock, config: Dict, run: RunEffect)
    requires Consistent(g.repo) && GoesAhead(g, fails, direct, clock)
    ensures var w := WorkState(g, fails, direct, clock);
      Consistent(w.repo) && g.repo.branch in w.repo.logs &&
      w.repo.branch == (if direct then g.repo.branch else BranchName(clock)) &&
      w.repo.logs.Keys == g.repo.logs.Keys + (if direct then {} else {BranchName(clock)}) &&
      SelfImproveOf(g, fails, hasRemote, nextPr, direct, clock, config, run) ==
        AttemptOf(w, fails, hasRemote, nextPr, direct, g.repo.branch, BranchName(clock), clock, config, run)
  {
    var p := Prelude(g, fails, clock);
    PreludeFacts(g, fails, clock, direct, config, hasRemote);
    PreludeResult(g, fails, clock);
    if !direct {
      OpenFacts(p.0, fails, BranchName(clock), direct, config, hasRemote);
    }
  }

  /** The improvement task is enqueued exactly when the run goes ahead; otherwise no pull request is opened. */
  lemma EnqueuedExactly(g: GitState, fails: GitCall -> bool, hasRemote: bool, nextPr: int,
                        direct: bool, clock: Clock, config: Dict, run: RunEffect)
    requires Consistent(g.repo)
    ensures var o := SelfImproveOf(g, fails, hasRemote, nextPr, direct, clock, config, run);
      (o.enqueued <==> GoesAhead(g, fails, direct, clock)) && (!o.enqueued ==> o.pr.None?)
  {
    if GoesAhead(g, fails, direct, clock) {
      AheadPath(g, fails, hasRemote, nextPr, direct, clock, config, run);
    } else {
      PreludeFacts(g, fails, clock, direct, config, hasRemote);
      PreludeResult(g, fails, clock);
    }
  }

  /** A failing `rev-parse` or `status` escapes as the decode error, before anything is enqueued or any branch command. */
  lemma ReadFailureEscapes(g: GitState, fails: GitCall -> bool, hasRemote: bool, nextPr: int,
                           direct: bool, clock: Clock, config: Dict, run: RunEffect)
    requires Consistent(g.repo) && (fails(RevParseHead) || fails(StatusPorcelain))
    ensures var o := SelfImproveOf(g, fails, hasRemote, nextPr, direct, clock, config, run);
      o.reply == Raise(DecodeError) && !o.enqueued && o.pr.None? && Plain(g, o.git)
  {
    PreludeFacts(g, fails, clock, direct, config, hasRemote);
    PreludeResult(g, fails, clock);
  }

  /** Branch creation in `self_improve`: when it fails, nothing is enqueued and the original branch stays checked out. */
  lemma BranchFailureStops(g: GitState, fails: GitCall -> bool, hasRemote: bool, nextPr: int,
                           clock: Clock, config: Dict, run: RunEffect)
    requires Consistent(g.repo) && !fails(RevParseHead) && !fails(StatusPorcelain)
    requires BranchName(clock) in g.repo.logs || fails(CheckoutNew(BranchName(clock)))
    ensures var o := SelfImproveOf(g, fails, hasRemote, nextPr, false, clock, config, run);
      o.reply == Ok(Planning.StatusReply("error", BranchFailedMessage(BranchName(clock)))) &&
      !o.enqueued && o.pr.None? && |o.git.issued| >= 1 && o.git.issued[|o.git.issued| - 1] == CheckoutNew(BranchName(clock)) &&
      o.git.repo.branch == g.repo.branch && o.git.repo.logs.Keys == g.repo.logs.Keys
  {
    PreludeFacts(g, fails, clock, false, config, hasRemote);
    PreludeResult(g, fails, clock);
  }

  /** In direct mode the work happens on the checked-out branch: no branch command at all, and no pull request. */
  lemma DirectModeKeepsBranches(g: GitState, fails: GitCall -> bool, hasRemote: bool, nextPr: int,
                                clock: Clock, config: Dict, run: RunEffect)
    requires Consistent(g.repo)
    ensures var o := SelfImproveOf(g, fails, hasRemote, nextPr, true, clock, config, run);
      Plain(g, o.git) && o.pr.None?
  {
    var p := Prelude(g, fails, clock);
    PreludeFacts(g, fails, clock, true, config, hasRemote);
    PreludeResult(g, fails, clock);
    if p.1.Ok? {
      DirectAttemptPlain(p.0, fails, hasRemote, nextPr, clock, config, run);
      PlainTrans(g, p.0, SelfImproveOf(g, fails, hasRemote, nextPr, true, clock, config, run).git);
    }
  }

  lemma DirectAttemptPlain(g: GitState, fails: GitCall -> bool, hasRemote: bool, nextPr: int,
                           clock: Clock, config: Dict, run: RunEffect)
    requires Consistent(g.repo)
    ensures var o := OpenedOf(g, fails, hasRemote, nextPr, true, g.repo.branch, clock, config, run);
      Plain(g, o.git) && o.pr.None?
  {
    AttemptSafe(g, fails, hasRemote, nextPr, true, BranchName(clock), clock, config, run);
  }

  /** The `except` branch of `self_improve` on the improvement branch: an exception checks the original out again and deletes the branch. */
  lemma AttemptFailed(g: GitState, fails: GitCall -> bool, hasRemote: bool, nextPr: int,
                      original: string, name: string, clock: Clock, config: Dict, run: RunEffect)
    requires Consistent(g.repo) && g.repo.branch == name && original in g.repo.logs && original != name
    requires var o := AttemptOf(g, fails, hasRemote, nextPr, false, original, name, clock, config, run);
      o.reply.Ok? && Get(o.reply.value, "status") == JStr("error")
    ensures var o := AttemptOf(g, fails, hasRemote, nextPr, false, original, name, clock, config, run);
      o.pr.None? && |o.git.issued| >= 2 &&
      o.git.issued[|o.git.issued| - 2..] == [CheckoutAt(original), BranchDelete(name)] &&
      (!fails(CheckoutAt(original)) && !fails(BranchDelete(name)) ==>
        o.git.repo.branch == original && o.git.repo.logs.Keys == g.repo.logs.Keys - {name})
  {
    var c := BodyOf(g, fails, hasRemote, nextPr, false, name, clock, config, run);
    AttemptSafe(g, fails, hasRemote, nextPr, false, name, clock, config, run);
    if c.1.Ok? {
      assert false;
    }
    RollbackFacts(c.0, fails, original, name);
  }

  /** The end of the `try` in `self_improve` on the improvement branch: success keeps the branch and checks the original out again. */
  lemma AttemptSucceeded(g: GitState, fails: GitCall -> bool, hasRemote: bool, nextPr: int,
                         original: string, name: string, clock: Clock, config: Dict, run: RunEffect)
    requires Consistent(g.repo) && g.repo.branch == name && original in g.repo.logs && original != name
    requires var o := AttemptOf(g, fails, hasRemote, nextPr, false, original, name, clock, config, run);
      o.reply.Ok? && Get(o.reply.value, "status") == JStr("success")
    ensures var o := AttemptOf(g, fails, hasRemote, nextPr, false, original, name, clock, config, run);
      |o.git.issued| >= 1 && o.git.issued[|o.git.issued| - 1] == CheckoutAt(original) &&
      o.git.repo.logs.Keys == g.repo.logs.Keys &&
      o.git.repo.branch == (if fails(CheckoutAt(original)) then name else original)
  {
    var c := BodyOf(g, fails, hasRemote, nextPr, false, name, clock, config, run);
    AttemptSafe(g, fails, hasRemote, nextPr, false, name, clock, config, run);
    if c.1.Raise? {
      assert false;
    }
    ReturnFacts(c.0, fails, original);
  }

  /** `self_improve` failing inside its `try`: the original branch is back and the improvement branch gone. */
  lemma RollbackRestores(g: GitState, fails: GitCall -> bool, hasRemote: bool, nextPr: int,
                         clock: Clock, config: Dict, run: RunEffect)
    requires Consistent(g.repo)
    requires var o := SelfImproveOf(g, fails, hasRemote, nextPr, false, clock, config, run);
      o.enqueued && o.reply.Ok? && Get(o.reply.value, "status") == JStr("error")
    ensures var o := SelfImproveOf(g, fails, hasRemote, nextPr, false, clock, config, run);
      o.pr.None? && |o.git.issued| >= 2 &&
      o.git.issued[|o.git.issued| - 2..] == [CheckoutAt(g.repo.branch), BranchDelete(BranchName(clock))] &&
      (!fails(CheckoutAt(g.repo.branch)) && !fails(BranchDelete(BranchName(clock))) ==>
        o.git.repo.branch == g.repo.branch && o.git.repo.logs.Keys == g.repo.logs.Keys)
  {
    EnqueuedExactly(g, fails, hasRemote, nextPr, false, clock, config, run);
    AheadPath(g, fails, hasRemote, nextPr, false, clock, config, run);
    var w := WorkState(g, fails, false, clock);
    AttemptFailed(w, fails, hasRemote, nextPr, g.repo.branch, BranchName(clock), clock, config, run);
  }

  /** `self_improve` succeeding outside direct mode: the improvement branch is left and the original checked out again. */
  lemma SuccessKeepsBranch(g: GitState, fails: GitCall -> bool, hasRemote: bool, nextPr: int,
                           clock: Clock, config: Dict, run: RunEffect)
    requires Consistent(g.repo)
    requires var o := SelfImproveOf(g, fails, hasRemote, nextPr, false, clock, config, run);
      o.reply.Ok? && Get(o.reply.value, "status") == JStr("success")
    ensures var o := SelfImproveOf(g, fails, hasRemote, nextPr, false, clock, config, run);
      o.enqueued && |o.git.issued| >= 1 && o.git.issued[|o.git.issued| - 1] == CheckoutAt(g.repo.branch) &&
      o.git.repo.logs.Keys == g.repo.logs.Keys + {BranchName(clock)} &&
      o.git.repo.branch == (if fails(CheckoutAt(g.repo.branch)) then BranchName(clock) else g.repo.branch)
  {
    EnqueuedExactly(g, fails, hasRemote, nextPr, false, clock, config, run);
    var o := SelfImproveOf(g, fails, hasRemote, nextPr, false, clock, config, run);
    if !o.enqueued {
      PreludeFacts(g, fails, clock, false, config, hasRemote);
      PreludeResult(g, fails, clock);
      assert false;
    }
    AheadPath(g, fails, hasRemote, nextPr, false, clock, config, run);
    var w := WorkState(g, fails, false, clock);
    AttemptSucceeded(w, fails, hasRemote, nextPr, g.repo.branch, BranchName(clock), clock, config, run);
  }

  /** The monitor entry added for an opened pull request. */
  function PrEntries(pr: Option<int>, name: string, clock: Clock, now: int): seq<PullRequests.PrEntry> {
    if pr.Some? then [PullRequests.NewEntry(pr.value, name, PrTitle(clock), now)] else []
  }

  // ---------------------------------------------------------------------
  // check_scheduled_tasks and load_tasks
  // ---------------------------------------------------------------------

  /** `task["options"]["auto_fix"] = config.get("auto_fix", True)` when the scheduled task has options. */
  function WithAutoFix(task: Task, config: Dict): (r: Result<Task>)
    ensures "options" !in task ==> r == Ok(task)
    ensures r.Raise? <==> "options" in task && !task["options"].JObj?
    ensures r.Ok? ==> r.value.Keys == task.Keys && forall k :: k in task && k != "options" ==> r.value[k] == task[k]
    ensures r.Ok? && "options" in task ==>
      r.value["options"].JObj? && Get(r.value["options"].fields, "auto_fix") == GetOr(config, "auto_fix", JBool(true))
  {
    if "options" !in task then Ok(task)
    else
      match task["options"]
      case JObj(m) => Ok(task["options" := JObj(m["auto_fix" := GetOr(config, "auto_fix", JBool(true))])])
      case JArr(_) => Raise("list indices must be integers or slices, not str")
      case other => Raise("'" + PyType(other) + "' object does not support item assignment")
  }

  /** A queued task that answers for the scheduled id: same `id`, and completed or failed. */
  predicate Reports(t: Task, id: Value) {
    PyEq(Get(t, "id"), id) && (IsCompleted(t) || IsFailed(t))
  }

  /** The index of the first task that reports for `id`. */
  function FirstReport(ts: seq<Task>, id: Value): (r: Option<nat>)
    ensures r.Some? ==> r.value < |ts| && Reports(ts[r.value], id)
    ensures r.Some? ==> forall j :: 0 <= j < r.value ==> !Reports(ts[j], id)
    ensures r.None? <==> forall j :: 0 <= j < |ts| ==> !Reports(ts[j], id)
  {
    if ts == [] then None
    else if Reports(ts[0], id) then Some(0)
    else
      match FirstReport(ts[1..], id)
      case None => None
      case Some(k) => Some(k + 1)
  }

  /** The reply built from a reporting task: its status, and its result when completed or its error when failed. */
  function ReportOf(t: Task): (d: Dict)
    ensures Get(d, "status") == Status(t)
    ensures Get(d, "result") == if IsCompleted(t) then Get(t, "result") else Get(t, "error")
  {
    map["status" := Status(t), "result" := if IsCompleted(t) then Get(t, "result") else Get(t, "error")]
  }

  function ScheduledResult(ts: seq<Task>, id: Value): (r: Option<Dict>)
    ensures r.Some? ==> exists i :: 0 <= i < |ts| && Reports(ts[i], id) && r.value == ReportOf(ts[i])
    ensures r.None? ==> forall i :: 0 <= i < |ts| ==> !Reports(ts[i], id)
  {
    match FirstReport(ts, id)
    case None => None
    case Some(i) => Some(ReportOf(ts[i]))
  }

  /** The queue before `check_scheduled_tasks` and the record the scheduler handed out. */
  datatype Check = Check(reply: Result<Option<Dict>>, queue: seq<Task>)

  /**
   * `check_scheduled_tasks` once the scheduler gave `next`: an empty dict is
   * ignored, options that are not a dict raise, and otherwise that task is
   * enqueued, one pending task is processed and the queue is searched.
   */
  function CheckOf(next: Option<Task>, ts: seq<Task>, config: Dict,
                   handlers: map<string, HandlerRef>, agentPresent: bool, behave: Behaviour, now: int): (c: Check)
    ensures next.None? || next == Some(map[]) ==> c == Check(Ok(None), ts)
    ensures next.Some? && next.value != map[] && WithAutoFix(next.value, config).Raise? ==>
      c == Check(Raise(WithAutoFix(next.value, config).error), ts)
    ensures next.Some? && next.value != map[] && WithAutoFix(next.value, config).Ok? ==>
      var all := ts + [Normalize(WithAutoFix(next.value, config).value, now)];
      c.queue == Step(all, handlers, agentPresent, behave, now) &&
      (c.reply.Raise? <==> StepError(all).Some?)
    ensures c.reply.Ok? && c.reply.value.Some? ==>
      exists i :: 0 <= i < |c.queue| && Reports(c.queue[i], Get(next.value, "id"))
  {
    if next.None? || next.value == map[] then Check(Ok(None), ts)
    else
      var prepared := WithAutoFix(next.value, config);
      if prepared.Raise? then Check(Raise(prepared.error), ts)
      else
        var all := ts + [Normalize(prepared.value, now)];
        var queued := Step(all, handlers, agentPresent, behave, now);
        match StepError(all)
        case Some(e) => Check(Raise(e), queued)
        case None => Check(Ok(ScheduledResult(queued, Get(next.value, "id"))), queued)
  }

  /** When an older task is pending, it is the one processed and the scheduled task is still as enqueued. */
  lemma ScheduledWaitsBehindOlder(next: Task, ts: seq<Task>, config: Dict,
                                  handlers: map<string, HandlerRef>, agentPresent: bool, behave: Behaviour, now: int)
    requires next != map[] && WithAutoFix(next, config).Ok?
    requires FirstPending(ts).Some?
    ensures var c := CheckOf(Some(next), ts, config, handlers, agentPresent, behave, now);
      |c.queue| == |ts| + 1 && c.queue[|ts|] == Normalize(WithAutoFix(next, config).value, now)
  {
    var all := ts + [Normalize(WithAutoFix(next, config).value, now)];
    var i := FirstPending(ts).value;
    assert all[i] == ts[i];
    assert FirstPending(all) == Some(i) by {
      forall j | 0 <= j < i ensures !IsPending(all[j]) {
        assert all[j] == ts[j];
      }

    }
  }

  /** A processed scheduled task that completes is reported, with its result, when no earlier task answers for its id. */
  lemma ScheduledReported(ts: seq<Task>, id: Value, i: nat)
    requires i < |ts| && Reports(ts[i], id)
    requires forall j :: 0 <= j < i ==> !Reports(ts[j], id)
    ensures ScheduledResult(ts, id) == Some(ReportOf(ts[i]))
  {
  }

  /** `load_tasks`: the tasks file, then the pending error fixes when that file decodes to a non-empty list. */
  function TasksToLoad(tasksFile: QueueFile, errorFile: Scheduling.StoredList<Task>): (r: seq<Task>)
    ensures tasksFile.Stored? ==> tasksFile.content <= r
    ensures !errorFile.Loaded? ==> r == Tasks.LoadTasks(tasksFile)
  {
    Tasks.LoadTasks(tasksFile) + (if errorFile.Loaded? then errorFile.items else [])
  }

  /** The queue once `self_improve` has enqueued its task and drained: the tasks, and what escaped the drain. */
  function Improved(ts: seq<Task>, config: Dict, handlers: map<string, HandlerRef>, agentPresent: bool,
                    behave: Behaviour, now: int): (d: Drained)
    ensures |d.tasks| == |ts| + 1
  {
    Drain(ts + [Normalize(ImprovementRequest(config), now)], handlers, agentPresent, behave, now)
  }

  /** The module `register_handlers` takes every handler from. */
  const TaskHandlersModule: string := "modules.core.task_handlers"

  /** `register_handlers`: each task type and the function of modules.core.task_handlers registered for it, in call order. */
  const HandlerTable: seq<(string, string)> := [
    ("code_fix", "handle_code_fix_task"),
    ("dependency_fix", "handle_dependency_fix_task"),
    ("code_generation", "handle_code_generation_task"),
    ("refactoring", "handle_refactoring_task"),
    ("query", "handle_query_task"),
    ("test", "handle_test_task"),
    ("self_improvement", "handle_self_improvement_task"),
    ("analysis", "handle_analysis_task"),
    ("planning", "handle_planning_task"),
    ("documentation", "handle_documentation_task"),
    ("code_review", "handle_code_review_task")]

  /**
   * One `register_handler(type, "modules.core.task_handlers", function)` once
   * the import is settled (`imported`): the handler is installed when the
   * module defines the function, replacing any earlier one for that type.
   */
  function Install(handlers: map<string, HandlerRef>, entry: (string, string), imported: bool,
                   defines: (string, string) -> bool): map<string, HandlerRef>
  {
    if imported && defines(TaskHandlersModule, entry.1)
    then handlers[entry.0 := HandlerRef(TaskHandlersModule, entry.1)] else handlers
  }

  /** The registrations of `table`, in order. */
  function InstallAll(handlers: map<string, HandlerRef>, table: seq<(string, string)>, imported: bool,
                      defines: (string, string) -> bool): (r: map<string, HandlerRef>)
    ensures !imported ==> r == handlers
    decreases |table|
  {
    if table == [] then handlers
    else InstallAll(Install(handlers, table[0], imported, defines), table[1..], imported, defines)
  }

  /** A task type the table does not name keeps its handler, or its absence. */
  lemma {:induction false} InstallAllKeeps(handlers: map<string, HandlerRef>, table: seq<(string, string)>, imported: bool,
                                          defines: (string, string) -> bool, t: string)
    requires forall j :: 0 <= j < |table| ==> table[j].0 != t
    ensures var r := InstallAll(handlers, table, imported, defines);
      (t in r <==> t in handlers) && (t in r ==> r[t] == handlers[t])
    decreases |table|
  {
    if table != [] {
      assert forall j :: 0 <= j < |table[1..]| ==> table[1..][j] == table[j + 1];
      InstallAllKeeps(Install(handlers, table[0], imported, defines), table[1..], imported, defines, t);
    }
  }

  /** The `k`-th registration stands when no later one names the same type. */
  lemma {:induction false} InstallAllFinds(handlers: map<string, HandlerRef>, table: seq<(string, string)>,
                                          defines: (string, string) -> bool, k: nat)
    requires k < |table| && defines(TaskHandlersModule, table[k].1)
    requires forall j :: k < j < |table| ==> table[j].0 != table[k].0
    ensures var r := InstallAll(handlers, table, true, defines);
      table[k].0 in r && r[table[k].0] == HandlerRef(TaskHandlersModule, table[k].1)
    decreases |table|
  {
    var rest := table[1..];
    assert forall j :: 0 <= j < |rest| ==> rest[j] == table[j + 1];
    if k == 0 {
      InstallAllKeeps(Install(handlers, table[0], true, defines), rest, true, defines, table[0].0);
    } else {
      InstallAllFinds(Install(handlers, table[0], true, defines), rest, defines, k - 1);
    }
  }

  /** The eleven task types are distinct, so no registration replaces another. */
  lemma HandlerTypesDistinct()
    ensures forall i, j :: 0 <= i < j < |HandlerTable| ==> HandlerTable[i].0 != HandlerTable[j].0
  {
  }

  /**
   * After `register_handlers`, a task whose type is one of the eleven goes to
   * the function registered for it, once the module imports and defines it.
   */
  lemma RegisteredDispatches(handlers: map<string, HandlerRef>, defines: (string, string) -> bool, k: nat)
    requires k < |HandlerTable| && defines(TaskHandlersModule, HandlerTable[k].1)
    ensures Lookup(InstallAll(handlers, HandlerTable, true, defines), JStr(HandlerTable[k].0))
      == Ok(Some(HandlerRef(TaskHandlersModule, HandlerTable[k].1)))
    ensures forall task: Task :: Get(task, "type") == JStr(HandlerTable[k].0) ==>
      !Escapes(task) && Ready(task, InstallAll(handlers, HandlerTable, true, defines), true)
  {
    var r := InstallAll(handlers, HandlerTable, true, defines);
    var ty := JStr(HandlerTable[k].0);
    HandlerTypesDistinct();
    InstallAllFinds(handlers, HandlerTable, defines, k);
    assert Lookup(r, ty) == Ok(Some(HandlerRef(TaskHandlersModule, HandlerTable[k].1)));
    forall task: Task | Get(task, "type") == ty
      ensures !Escapes(task) && Ready(task, r, true)
    {
      assert Truthy(ty) && Hashable(ty);
    }
  }

  // ---------------------------------------------------------------------
  // The agent
  // ---------------------------------------------------------------------

  class DevAgent {
    const queue: TaskQueue
    const dispatcher: TaskDispatcher
    /** `code_fixer.git_module`, absent when the code fixer is missing or has none. */
    const git: GitRepo?
    const scheduler: Scheduling.ImprovementScheduler?
    const monitor: PullRequests.PullRequestMonitor?
    const config: Dict

    predicate Valid()
      reads this, dispatcher
    {
      dispatcher.queue == queue
    }

    /** `__init__` and `_requeue_stuck_tasks`: the queue loaded from its file, with tasks left in processing put back to pending. */
    constructor (queueFile: QueueFile, config: Dict, git: GitRepo?, scheduler: Scheduling.ImprovementScheduler?,
                 monitor: PullRequests.PullRequestMonitor?, behave: Behaviour, now: int)
      ensures Valid() && fresh(queue) && fresh(dispatcher)
      ensures this.config == config && this.git == git && this.scheduler == scheduler && this.monitor == monitor
      ensures dispatcher.agentPresent && dispatcher.behave == behave
      ensures queue.tasks == RequeueProcessing(Tasks.LoadTasks(queueFile), now)
    {
      var q := new TaskQueue(queueFile);
      queue := q;
      dispatcher := new TaskDispatcher(q, true, behave);
      this.config := config;
      this.git := git;
      this.scheduler := scheduler;
      this.monitor := monitor;
      new;
      var count := RequeueStuckTasks(now);
    }

    method RequeueStuckTasks(now: int) returns (count: nat)
      modifies queue
      ensures queue.tasks == RequeueProcessing(old(queue.tasks), now)
      ensures count == CountIf(IsProcessing, old(queue.tasks))
      ensures CountIf(IsProcessing, queue.tasks) == 0
    {
      count := queue.RequeueProcessingTasks(now);
      RequeueProcessingDrains(old(queue.tasks), now, now);
    }

    method LoadTasks(tasksFile: QueueFile, errorFile: Scheduling.StoredList<Task>, now: int) returns (removed: bool)
      modifies queue
      ensures removed <==> errorFile.Loaded? && errorFile.items != []
      ensures queue.tasks == old(queue.tasks) + NormalizeAll(TasksToLoad(tasksFile, errorFile), now)
      ensures queue.saved == if TasksToLoad(tasksFile, errorFile) == [] then old(queue.saved) else queue.tasks
    {
      var batch := Tasks.LoadTasks(tasksFile);
      removed := false;
      if errorFile.Loaded? && errorFile.items != [] {
        batch := batch + errorFile.items;
        removed := true;
      }
      if batch != [] {
        queue.AddTasks(batch, now);
      }
    }

    /** The start of `self_improve`, on the git module. */
    method Prepare(clock: Clock) returns (original: Result<string>)
      requires git != null
      modifies git
      ensures (git.State(), original) == Prelude(old(git.State()), git.fails, clock)
    {
      original := git.GetCurrentBranch();
      if original.Raise? {
        return;
      }
      var clean := git.IsWorkingDirectoryClean();
      if clean.Raise? {
        return Raise(clean.error);
      }
      if !clean.value {
        var added := git.AddAll();
        var committed := git.Commit(AutoCommitMessage(clock));
      }
    }

    /** Publishing in `self_improve`: a failed push or pull request is only logged; an opened one is handed to the monitor. */
    method Publish(name: string, clock: Clock, now: int) returns (pr: Result<Option<int>>)
      requires git != null
      modifies git, monitor
      ensures (git.State(), pr) == PublishOf(old(git.State()), git.fails, git.hasRemote, git.nextPr, name, clock, config)
      ensures monitor != null ==>
        monitor.monitored == old(monitor.monitored) + PrEntries(if pr.Ok? then pr.value else None, name, clock, now)
    {
      var push := AutoPush(config);
      if push.Raise? {
        return Raise(push.error);
      }
      if push.value {
        var pushed := git.Push(name);
      }
      if push.value && git.hasRemote {
        var info := git.CreatePullRequest(PrTitle(clock), PrBody, name, BaseBranch);
        if info.Some? && monitor != null {
          monitor.AddPrToMonitor(info.value, name, PrTitle(clock), now);
        }
        return Ok(info);
      }
      return Ok(None);
    }

    /** The commit step of `self_improve`: commit what the run changed and publish it. */
    method CommitChanges(direct: bool, name: string, clock: Clock, now: int) returns (body: Result<Option<int>>)
      requires git != null
      modifies git, monitor
      ensures (git.State(), body) == ChangesOf(old(git.State()), git.fails, git.hasRemote, git.nextPr, direct, name, clock, config)
      ensures monitor != null ==>
        monitor.monitored == old(monitor.monitored) + PrEntries(if body.Ok? then body.value else None, name, clock, now)
    {
      var clean := git.IsWorkingDirectoryClean();
      if clean.Raise? {
        return Raise(clean.error);
      }
      if clean.value {
        return Ok(None);
      }
      var added := git.AddAll();
      var committed := git.Commit(ChangesMessage(clock));
      if !committed {
        return Raise(CommitFailedMessage);
      }
      if direct {
        return Ok(None);
      }
      body := Publish(name, clock, now);
    }

    /**
     * `self_improve`. `touched` says whether the drained tasks changed the
     * working tree; the exception the method lets out is a `Raise` reply.
     */
    method SelfImprove(direct: bool, clock: Clock, touched: bool, now: int) returns (reply: Result<Dict>)
      requires Valid()
      modifies queue, git, monitor
      ensures git == null ==> reply == Ok(Planning.StatusReply("error", NoGitMessage)) && queue.tasks == old(queue.tasks)
      ensures git != null ==>
        var d := Improved(old(queue.tasks), config, dispatcher.handlers, dispatcher.agentPresent, dispatcher.behave, now);
        var o := SelfImproveOf(old(git.State()), git.fails, git.hasRemote, git.nextPr, direct, clock, config,
                               RunEffect(touched, d.raised));
        reply == o.reply && git.State() == o.git &&
        queue.tasks == (if o.enqueued then d.tasks else old(queue.tasks)) &&
        (monitor != null ==> monitor.monitored == old(monitor.monitored) + PrEntries(o.pr, BranchName(clock), clock, now))
    {
      if git == null {
        return Ok(Planning.StatusReply("error", NoGitMessage));
      }
      var original := Prepare(clock);
      if original.Raise? {
        return Raise(original.error);
      }
      reply := Proceed(direct, original.value, clock, touched, now);
    }

    /** `self_improve` once the original branch is known. */
    method Proceed(direct: bool, original: string, clock: Clock, touched: bool, now: int) returns (reply: Result<Dict>)
      requires Valid() && git != null
      modifies queue, git, monitor
      ensures var d := Improved(old(queue.tasks), config, dispatcher.handlers, dispatcher.agentPresent, dispatcher.behave, now);
        var o := OpenedOf(old(git.State()), git.fails, git.hasRemote, git.nextPr, direct, original, clock, config,
                          RunEffect(touched, d.raised));
        reply == o.reply && git.State() == o.git &&
        queue.tasks == (if o.enqueued then d.tasks else old(queue.tasks)) &&
        (monitor != null ==> monitor.monitored == old(monitor.monitored) + PrEntries(o.pr, BranchName(clock), clock, now))
    {
      var name := BranchName(clock);
      if !direct {
        var created := git.CreateAndCheckoutBranch(name);
        if !created {
          return Ok(Planning.StatusReply("error", BranchFailedMessage(name)));
        }
      }
      reply := Transact(direct, original, name, clock, touched, now);
    }

    /** The `try` of `self_improve`: enqueue the improvement task, drain the queue, then the rest of the `try`. */
    method Transact(direct: bool, original: string, name: string, clock: Clock, touched: bool, now: int)
      returns (reply: Result<Dict>)
      requires Valid() && git != null
      modifies queue, git, monitor
      ensures var d := Improved(old(queue.tasks), config, dispatcher.handlers, dispatcher.agentPresent, dispatcher.behave, now);
        var o := AttemptOf(old(git.State()), git.fails, git.hasRemote, git.nextPr, direct, original, name, clock, config,
                           RunEffect(touched, d.raised));
        reply == o.reply && git.State() == o.git && queue.tasks == d.tasks &&
        (monitor != null ==> monitor.monitored == old(monitor.monitored) + PrEntries(o.pr, name, clock, now))
    {
      queue.AddTask(ImprovementRequest(config), now);
      var processed := dispatcher.ProcessAllTasks(now);
      reply := Attempt(direct, original, name, clock, RunEffect(touched, if processed.Raise? then Some(processed.error) else None), now);
    }

    /** `self_improve` after the drain: the rest of the `try` and its `except`. */
    method Attempt(direct: bool, original: string, name: string, clock: Clock, run: RunEffect, now: int)
      returns (reply: Result<Dict>)
      requires git != null
      modifies git, monitor
      ensures var o := AttemptOf(old(git.State()), git.fails, git.hasRemote, git.nextPr, direct, original, name, clock, config, run);
        reply == o.reply && git.State() == o.git &&
        (monitor != null ==> monitor.monitored == old(monitor.monitored) + PrEntries(o.pr, name, clock, now))
    {
      git.WorkOnTree(run.touched);
      var body: Result<Option<int>>;
      if run.raised.Some? {
        body := Raise(run.raised.value);
      } else {
        body := CommitChanges(direct, name, clock, now);
      }
      if body.Raise? {
        if !direct {
          var back := git.CheckoutBranch(original);
          var deleted := git.DeleteBranch(name);
        }
        return Ok(Planning.StatusReply("error", RolledBackPrefix + body.error));
      }
      if !direct {
        var back := git.CheckoutBranch(original);
      }
      reply := Ok(Planning.StatusReply("success", SuccessMessage(name)));
    }

    /** `check_scheduled_tasks`. */
    method CheckScheduledTasks(now: int) returns (r: Result<Option<Dict>>)
      requires Valid()
      modifies scheduler, queue
      ensures scheduler == null ==> r == Ok(None) && queue.tasks == old(queue.tasks)
      ensures scheduler != null ==>
        scheduler.tasks == (if old(scheduler.tasks) == [] then [] else old(scheduler.tasks)[1..]) &&
        var c := CheckOf(if old(scheduler.tasks) == [] then None else Some(old(scheduler.tasks)[0]), old(queue.tasks),
                         config, dispatcher.handlers, dispatcher.agentPresent, dispatcher.behave, now);
        r == c.reply && queue.tasks == c.queue
    {
      if scheduler == null {
        return Ok(None);
      }
      var next := scheduler.GetNextTask();
      if next.None? || next.value == map[] {
        return Ok(None);
      }
      var prepared := WithAutoFix(next.value, config);
      if prepared.Raise? {
        return Raise(prepared.error);
      }
      queue.AddTask(prepared.value, now);
      var processed := dispatcher.ProcessNextTask(now);
      if processed.Raise? {
        return Raise(processed.error);
      }
      var found := FindReport(queue.tasks, Get(next.value, "id"));
      r := Ok(found);
    }

    /** The search in `check_scheduled_tasks`: the first task answering for `id`. */
    static method FindReport(ts: seq<Task>, id: Value) returns (found: Option<Dict>)
      ensures found == ScheduledResult(ts, id)
    {
      for i := 0 to |ts|
        invariant forall j :: 0 <= j < i ==> !Reports(ts[j], id)
      {
        if Reports(ts[i], id) {
          ScheduledReported(ts, id, i);
          return Some(ReportOf(ts[i]));
        }
      }
      return None;
    }

    /** `register_handlers`: the eleven `register_handler` calls, in the order of `HandlerTable`. */
    method RegisterHandlers(importable: string -> bool, defines: (string, string) -> bool)
      modifies dispatcher
      ensures dispatcher.modules ==
        if TaskHandlersModule in old(dispatcher.modules) || importable(TaskHandlersModule)
        then old(dispatcher.modules) + {TaskHandlersModule} else old(dispatcher.modules)
      ensures dispatcher.handlers ==
        InstallAll(old(dispatcher.handlers), HandlerTable, TaskHandlersModule in dispatcher.modules, defines)
    {
      var m := TaskHandlersModule;
      ghost var imported := m in old(dispatcher.modules) || importable(m);
      var i := 0;
      while i < |HandlerTable|
        invariant 0 <= i <= |HandlerTable|
        invariant dispatcher.modules == if i == 0 || !imported then old(dispatcher.modules) else old(dispatcher.modules) + {m}
        invariant InstallAll(dispatcher.handlers, HandlerTable[i..], imported, defines)
               == InstallAll(old(dispatcher.handlers), HandlerTable, imported, defines)
      {
        ghost var h := dispatcher.handlers;
        dispatcher.RegisterHandler(HandlerTable[i].0, m, HandlerTable[i].1, importable, defines);
        assert HandlerTable[i..][1..] == HandlerTable[i + 1..];
        assert dispatcher.handlers == Install(h, HandlerTable[i], imported, defines);
        i := i + 1;
      }
    }

    /**
     * `run`: register the handlers, load from the files only when
     * nothing is pending or processing, then drain until a pass processes
     * nothing. `raised` is the exception a drain lets out of `run`.
     */
    method Run(importable: string -> bool, defines: (string, string) -> bool,
               tasksFile: QueueFile, errorFile: Scheduling.StoredList<Task>, now: int) returns (loaded: bool, raised: Option<string>)
      requires Valid()
      modifies queue, dispatcher
      ensures dispatcher.handlers ==
        InstallAll(old(dispatcher.handlers), HandlerTable, TaskHandlersModule in old(dispatcher.modules) || importable(TaskHandlersModule), defines)
      ensures loaded <==> CountIf(IsPending, old(queue.tasks)) == 0 && CountIf(IsProcessing, old(queue.tasks)) == 0
      ensures var d := Drain(old(queue.tasks) + (if loaded then NormalizeAll(TasksToLoad(tasksFile, errorFile), now) else []),
                             dispatcher.handlers, dispatcher.agentPresent, dispatcher.behave, now);
        queue.tasks == d.tasks && raised == d.raised
    {
      ghost var pre := dispatcher.handlers;
      ghost var imported := TaskHandlersModule in old(dispatcher.modules) || importable(TaskHandlersModule);
      RegisterHandlers(importable, defines);
      assert dispatcher.handlers == InstallAll(pre, HandlerTable, imported, defines) by {
        assert TaskHandlersModule in dispatcher.modules <==> imported;
      }
      loaded, raised := LoadAndDrain(tasksFile, errorFile, now);
    }

    /** The loading and the passes of `run` once the handlers are registered. */
    method LoadAndDrain(tasksFile: QueueFile, errorFile: Scheduling.StoredList<Task>, now: int) returns (loaded: bool, raised: Option<string>)
      requires Valid()
      modifies queue
      ensures loaded <==> CountIf(IsPending, old(queue.tasks)) == 0 && CountIf(IsProcessing, old(queue.tasks)) == 0
      ensures var d := Drain(old(queue.tasks) + (if loaded then NormalizeAll(TasksToLoad(tasksFile, errorFile), now) else []),
                             dispatcher.handlers, dispatcher.agentPresent, dispatcher.behave, now);
        queue.tasks == d.tasks && raised == d.raised
    {
      var stats := queue.GetStats();
      loaded := stats.pending == 0 && stats.processing == 0;
      if loaded {
        var removed := LoadTasks(tasksFile, errorFile, now);
      }
      ghost var start := queue.tasks;
      assert start == old(queue.tasks) + (if loaded then NormalizeAll(TasksToLoad(tasksFile, errorFile), now) else []);
      while true
        modifies queue
        invariant Drain(queue.tasks, dispatcher.handlers, dispatcher.agentPresent, dispatcher.behave, now)
               == Drain(start, dispatcher.handlers, dispatcher.agentPresent, dispatcher.behave, now)
        decreases CountIf(IsPending, queue.tasks)
      {
        var count := dispatcher.ProcessAllTasks(now);
        if count.Raise? {
          return loaded, Some(count.error);
        }
        DrainIdle(queue.tasks, dispatcher.handlers, dispatcher.agentPresent, dispatcher.behave, now);
        if count.value == 0 {
          return loaded, None;
        }
      }
    }
  }
}
