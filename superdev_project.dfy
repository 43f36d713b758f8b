/**
 * Model of src/superdev/project.py: how one project is brought up to date
 * (clone, fast-forward or skip, then the tox environments, then the branch
 * name), and how the manager runs every project of the catalog and prints
 * the summary with its warning countdown.
 *
 * Every function that runs commands returns, next to its value, the
 * invocations it made, in order, so that "no fast-forward is attempted"
 * and "nothing runs after the failing environment" can be stated.
 */
module SuperdevProject {
  import opened Wrappers
  import opened PyText
  import opened Shell
  import opened PyDict

  /** `Project(base_dir, name, git_url, tox_init=...)`; `services` is never read. */
  datatype Project = Project(baseDir: string, name: string, gitLocation: string, toxInit: Option<seq<string>>)

  /** The reasons a status can give; `ReasonText` is how each is printed. */
  datatype Reason =
    | Cloned
    | Updated
    | CouldNotFastForward
    | UncommittedChanges
    | ToxPrepFailed(env: string)
    | UnhandledException(error: ShellError)

  function ReasonText(r: Reason): string {
    match r
    case Cloned => "Cloned"
    case Updated => "Updated"
    case CouldNotFastForward => "Could not fast-forward"
    case UncommittedChanges => "Uncommitted changes"
    case ToxPrepFailed(env) => "Tox prep failed for '" + env + "'"
    case UnhandledException(e) => "Unhandled exception: ShellException:" + Message(e)
  }

  /** A `(success, reason)` pair. */
  datatype Status = Status(success: bool, reason: Reason)

  /** The `(name, status, branch)` triple that `initialise` returns. */
  datatype Outcome = Outcome(name: string, status: Status, branch: string)

  /** A value together with the commands run to compute it. */
  datatype Step<T> = Step(value: T, trace: seq<Invocation>)

  const UnknownBranch := "?????"
  const NoTest: Option<seq<string>> := Some(["--notest"])

  /** `Project.path`: the checkout directory, `base_dir` joined with the name. */
  function ProjectPath(p: Project): string {
    PathJoin(p.baseDir, p.name)
  }

  /** The checkout directory is the name under the base directory, or the
      name itself when it is an absolute path. */
  lemma ProjectPathOf(p: Project)
    ensures |p.name| <= |ProjectPath(p)| && ProjectPath(p)[|ProjectPath(p)| - |p.name|..] == p.name
    ensures p.name != [] && p.name[0] == '/' ==> ProjectPath(p) == p.name
    ensures !(p.name != [] && p.name[0] == '/') && p.baseDir != [] && p.baseDir[|p.baseDir| - 1] != '/' ==>
              ProjectPath(p) == p.baseDir + "/" + p.name
    ensures !(p.name != [] && p.name[0] == '/') && (p.baseDir == [] || p.baseDir[|p.baseDir| - 1] == '/') ==>
              ProjectPath(p) == p.baseDir + p.name
  {
    PathJoinShape(p.baseDir, p.name);
  }

  /** `Project.exists`. */
  predicate Exists(host: Host, p: Project) {
    host.pathExists(ProjectPath(p))
  }

  /** The environments `_update_tox` walks through: none when `tox_init` is
      missing (or empty, which Python treats alike). */
  function ToxEnvs(p: Project): seq<string> {
    if p.toxInit.Some? then p.toxInit.value else []
  }

  /** An exception escaped at the last command of `trace`: the directory of
      that command could not be entered. */
  predicate EscapedAt(host: Host, trace: seq<Invocation>, e: Raised) {
    trace != [] && !host.entersCwd(trace[|trace| - 1]) && e == ChdirFailed(trace[|trace| - 1].cwd)
  }

  // ---------------------------------------------------------------- the repo step

  /** `_update_repo`: clone a missing checkout; fast-forward a clean one;
      leave a dirty one alone. An exception from `clone` or `is_clean`
      escapes as `Err`; a ShellException from the fast-forward is caught and
      reported, but a failed chdir before it escapes. The step ends in one
      of four statuses, after one or two commands. */
  function UpdateRepo(host: Host, p: Project): (r: Step<Result<Status, Raised>>)
    ensures r.value.Ok? ==> r.value.value in {Status(true, Cloned), Status(true, Updated),
                                              Status(false, CouldNotFastForward), Status(false, UncommittedChanges)}
    ensures 1 <= |r.trace| <= 2
    ensures r.value.Err? && r.value.error.ChdirFailed? ==> EscapedAt(host, r.trace, r.value.error)
  {
    if !Exists(host, p) then
      var clone := Clone(host, p.baseDir, p.gitLocation);
      Step(if clone.result.Ok? then Ok(Status(true, Cloned)) else Err(clone.result.error), [clone.inv])
    else
      var clean := IsClean(host, ProjectPath(p));
      if clean.result.Err? then Step(Err(clean.result.error), [clean.inv])
      else if clean.result.value then
        var ff := FastForward(host, ProjectPath(p));
        if ff.result.Err? && ff.result.error.ChdirFailed? then Step(Err(ff.result.error), [clean.inv, ff.inv])
        else Step(Ok(if ff.result.Ok? then Status(true, Updated) else Status(false, CouldNotFastForward)), [clean.inv, ff.inv])
      else
        Step(Ok(Status(false, UncommittedChanges)), [clean.inv])
  }

  /** A missing checkout is cloned into the base directory, and nothing else
      is run: no status check, no fast-forward. */
  lemma MissingCheckoutIsCloned(host: Host, p: Project)
    requires !Exists(host, p)
    ensures UpdateRepo(host, p).trace == [Invocation(p.baseDir, ["git", "clone", p.gitLocation], None)]
    ensures UpdateRepo(host, p).value.Ok? <==> Clone(host, p.baseDir, p.gitLocation).result.Ok?
    ensures UpdateRepo(host, p).value.Ok? ==> UpdateRepo(host, p).value.value == Status(true, Cloned)
    ensures UpdateRepo(host, p).value.Err? ==> UpdateRepo(host, p).value.error == Clone(host, p.baseDir, p.gitLocation).result.error
    ensures !host.entersCwd(Clone(host, p.baseDir, p.gitLocation).inv) ==> UpdateRepo(host, p).value == Err(ChdirFailed(p.baseDir))
  {
  }

  /** "Cloned" exactly when the checkout was missing and the clone went through. */
  lemma ClonedExactly(host: Host, p: Project)
    ensures UpdateRepo(host, p).value == Ok(Status(true, Cloned)) <==>
              !Exists(host, p) && Clone(host, p.baseDir, p.gitLocation).result.Ok?
  {
  }

  /** An existing checkout is never cloned: its status is asked first, a
      fast-forward may follow, and a failing status check ends the step
      with that error. */
  lemma ExistingCheckoutIsChecked(host: Host, p: Project)
    requires Exists(host, p)
    ensures var r, status := UpdateRepo(host, p), IsClean(host, ProjectPath(p));
            && status.inv == Invocation(ProjectPath(p), ["git", "status", "--porcelain"], None)
            && (r.trace == [status.inv] || r.trace == [status.inv, FastForward(host, ProjectPath(p)).inv])
            && (status.result.Err? ==> r == Step(Err(status.result.error), [status.inv]))
  {
  }

  /** "Updated" exactly when the checkout exists, is clean and fast-forwards. */
  lemma UpdatedExactly(host: Host, p: Project)
    ensures UpdateRepo(host, p).value == Ok(Status(true, Updated)) <==>
              && Exists(host, p)
              && IsClean(host, ProjectPath(p)).result == Ok(true)
              && FastForward(host, ProjectPath(p)).result.Ok?
  {
  }

  /** "Could not fast-forward" exactly when the clean checkout refuses the
      fast-forward with a ShellException, and the fast-forward is then the
      last command run. */
  lemma CouldNotFastForwardExactly(host: Host, p: Project)
    ensures UpdateRepo(host, p).value == Ok(Status(false, CouldNotFastForward)) <==>
              && Exists(host, p)
              && IsClean(host, ProjectPath(p)).result == Ok(true)
              && FastForward(host, ProjectPath(p)).result.Err?
              && FastForward(host, ProjectPath(p)).result.error.ShellException?
    ensures UpdateRepo(host, p).value == Ok(Status(false, CouldNotFastForward)) ==>
              UpdateRepo(host, p).trace[|UpdateRepo(host, p).trace| - 1] == FastForward(host, ProjectPath(p)).inv
  {
    if Exists(host, p) {
      var clean := IsClean(host, ProjectPath(p));
      if clean.result == Ok(true) {
        var ff := FastForward(host, ProjectPath(p));
        assert UpdateRepo(host, p).trace == [clean.inv, ff.inv];
      }
    }
  }

  /** A clean checkout whose fast-forward cannot enter it: the failed chdir
      is not the ShellException the fast-forward guard catches, so it
      escapes the repo step. */
  lemma FastForwardChdirEscapes(host: Host, p: Project)
    requires Exists(host, p) && IsClean(host, ProjectPath(p)).result == Ok(true)
    requires FastForward(host, ProjectPath(p)).result.Err? && FastForward(host, ProjectPath(p)).result.error.ChdirFailed?
    ensures UpdateRepo(host, p).value == Err(FastForward(host, ProjectPath(p)).result.error)
    ensures UpdateRepo(host, p).value == Err(ChdirFailed(ProjectPath(p)))
  {
  }

  /** A dirty checkout is reported as such, and a fast-forward is attempted
      exactly when the checkout exists and is clean. */
  lemma DirtyCheckoutIsLeftAlone(host: Host, p: Project)
    ensures UpdateRepo(host, p).value == Ok(Status(false, UncommittedChanges)) <==>
              Exists(host, p) && IsClean(host, ProjectPath(p)).result == Ok(false)
    ensures FastForward(host, ProjectPath(p)).inv in UpdateRepo(host, p).trace <==>
              Exists(host, p) && IsClean(host, ProjectPath(p)).result == Ok(true)
  {
    var r := UpdateRepo(host, p);
    var ff := FastForward(host, ProjectPath(p)).inv;
    assert ff.words[1] == "pull";
    if !Exists(host, p) {
      assert r.trace[0].words[1] == "clone";
    } else {
      assert r.trace[0].words[1] == "status";
    }
  }

  // ---------------------------------------------------------------- the tox step

  /** The environment prepares. */
  predicate ToxPasses(host: Host, path: string, env: string) {
    ToxRun(host, path, env, NoTest).result.Ok?
  }

  /** The environment fails with a ShellException, which `_update_tox` catches. */
  predicate ToxFails(host: Host, path: string, env: string) {
    ToxRun(host, path, env, NoTest).result.Err? && ToxRun(host, path, env, NoTest).result.error.ShellException?
  }

  /** What `_update_tox` computes: run `tox -e <env> --notest` for each
      environment in order; the first ShellException replaces the incoming
      status and ends the step; a failed chdir escapes; otherwise the
      incoming status is kept. */
  function ToxPrep(host: Host, path: string, envs: seq<string>, status: Status): (r: Step<Result<Status, Raised>>)
    ensures |r.trace| <= |envs|
    ensures r.value.Err? ==> r.value.error == ChdirFailed(path)
    decreases |envs|
  {
    if envs == [] then Step(Ok(status), [])
    else
      var run := ToxRun(host, path, envs[0], NoTest);
      if run.result.Err? then
        if run.result.error.ShellException? then Step(Ok(Status(false, ToxPrepFailed(envs[0]))), [run.inv])
        else Step(Err(run.result.error), [run.inv])
      else
        var rest := ToxPrep(host, path, envs[1..], status);
        Step(rest.value, [run.inv] + rest.trace)
  }

  /** A first environment that prepares is followed by the rest. */
  lemma ToxPrepPassing(host: Host, path: string, envs: seq<string>, status: Status)
    requires envs != [] && ToxPasses(host, path, envs[0])
    ensures var rest := ToxPrep(host, path, envs[1..], status);
            ToxPrep(host, path, envs, status) == Step(rest.value, [ToxInvocation(host, path, envs[0], NoTest)] + rest.trace)
  {
  }

  /** A first environment that fails with a ShellException ends the step with a failure naming it. */
  lemma ToxPrepFailing(host: Host, path: string, envs: seq<string>, status: Status)
    requires envs != [] && ToxFails(host, path, envs[0])
    ensures ToxPrep(host, path, envs, status) == Step(Ok(Status(false, ToxPrepFailed(envs[0]))), [ToxInvocation(host, path, envs[0], NoTest)])
  {
  }

  /** A first environment whose directory cannot be entered ends the step. */
  lemma ToxPrepRaising(host: Host, path: string, envs: seq<string>, status: Status)
    requires envs != [] && !ToxPasses(host, path, envs[0]) && !ToxFails(host, path, envs[0])
    ensures !host.entersCwd(ToxInvocation(host, path, envs[0], NoTest))
    ensures ToxPrep(host, path, envs, status) == Step(Err(ChdirFailed(path)), [ToxInvocation(host, path, envs[0], NoTest)])
  {
  }

  /** When the tox step raises, it is because the directory of its last
      command could not be entered. */
  lemma {:induction false} ToxPrepEscapes(host: Host, path: string, envs: seq<string>, status: Status)
    ensures var r := ToxPrep(host, path, envs, status);
            r.value.Err? ==> EscapedAt(host, r.trace, r.value.error)
    decreases |envs|
  {
    if envs != [] {
      if ToxPasses(host, path, envs[0]) {
        var rest := ToxPrep(host, path, envs[1..], status);
        ToxPrepPassing(host, path, envs, status);
        ToxPrepEscapes(host, path, envs[1..], status);
        var trace := [ToxInvocation(host, path, envs[0], NoTest)] + rest.trace;
        assert rest.value.Err? ==> trace[|trace| - 1] == rest.trace[|rest.trace| - 1];
      } else if !ToxFails(host, path, envs[0]) {
        ToxPrepRaising(host, path, envs, status);
      }
    }
  }

  /** The tox step can only downgrade: when it returns, it keeps the
      incoming status or replaces it by a failure naming one of the
      environments. */
  lemma {:induction false} ToxPrepOnlyDowngrades(host: Host, path: string, envs: seq<string>, status: Status)
    ensures var r := ToxPrep(host, path, envs, status).value;
            r.Ok? ==> r.value == status || (r.value.success == false && r.value.reason.ToxPrepFailed? && r.value.reason.env in envs)
    decreases |envs|
  {
    if envs != [] && ToxPasses(host, path, envs[0]) {
      ToxPrepOnlyDowngrades(host, path, envs[1..], status);
    }
  }

  /** The tox command of each environment, in order. */
  function ToxTrace(host: Host, path: string, envs: seq<string>): (t: seq<Invocation>)
    ensures |t| == |envs|
    decreases |envs|
  {
    if envs == [] then [] else [ToxInvocation(host, path, envs[0], NoTest)] + ToxTrace(host, path, envs[1..])
  }

  /** When every environment prepares, each is run once, in order, and the
      status is unchanged. */
  lemma {:induction false} ToxPrepAllSucceed(host: Host, path: string, envs: seq<string>, status: Status)
    requires forall k :: 0 <= k < |envs| ==> ToxPasses(host, path, envs[k])
    ensures ToxPrep(host, path, envs, status) == Step(Ok(status), ToxTrace(host, path, envs))
    decreases |envs|
  {
    if envs != [] {
      assert ToxPasses(host, path, envs[0]);
      ToxPrepAllSucceed(host, path, envs[1..], status);
    }
  }

  /** The first environment that does not prepare decides the outcome,
      whatever came in: a ShellException gives the failure naming it, a
      failed chdir escapes. The environments up to it are run in order, and
      none after it. */
  lemma {:induction false} ToxPrepFirstFailure(host: Host, path: string, envs: seq<string>, status: Status, k: nat)
    requires k < |envs| && !ToxPasses(host, path, envs[k])
    requires forall j :: 0 <= j < k ==> ToxPasses(host, path, envs[j])
    ensures ToxPrep(host, path, envs, status).trace == ToxTrace(host, path, envs[..k + 1])
    ensures ToxPrep(host, path, envs, status).value ==
              if ToxFails(host, path, envs[k]) then Ok(Status(false, ToxPrepFailed(envs[k]))) else Err(ChdirFailed(path))
    decreases k
  {
    var inv := ToxInvocation(host, path, envs[0], NoTest);
    if k == 0 {
      assert envs[..1] == [envs[0]] && envs[..1][1..] == [];
      assert ToxTrace(host, path, envs[..1]) == [inv];
      if ToxFails(host, path, envs[0]) {
        ToxPrepFailing(host, path, envs, status);
      } else {
        ToxPrepRaising(host, path, envs, status);
      }
    } else {
      assert ToxPasses(host, path, envs[0]);
      ToxPrepPassing(host, path, envs, status);
      ToxPrepFirstFailure(host, path, envs[1..], status, k - 1);
      assert envs[..k + 1][1..] == envs[1..][..k];
      assert ToxTrace(host, path, envs[..k + 1]) == [inv] + ToxTrace(host, path, envs[1..][..k]);
    }
  }

  /** The tox commands of a prefix, extended by one environment. */
  lemma {:induction false} ToxTraceAppend(host: Host, path: string, envs: seq<string>, i: nat)
    requires i < |envs|
    ensures ToxTrace(host, path, envs[..i + 1]) == ToxTrace(host, path, envs[..i]) + [ToxInvocation(host, path, envs[i], NoTest)]
    decreases i
  {
    if i == 0 {
      assert envs[..1] == [envs[0]] && envs[..1][1..] == [] && envs[..0] == [];
    } else {
      ToxTraceAppend(host, path, envs[1..], i - 1);
      assert envs[..i + 1][1..] == envs[1..][..i];
      assert envs[..i][1..] == envs[1..][..i - 1];
    }
  }

  /** `_update_tox` on the project's path and its `tox_init` list. */
  method UpdateTox(host: Host, p: Project, status: Status) returns (r: Result<Status, Raised>, trace: seq<Invocation>)
    ensures Step(r, trace) == ToxPrep(host, ProjectPath(p), ToxEnvs(p), status)
  {
    r, trace := PrepareEnvs(host, ProjectPath(p), ToxEnvs(p), status);
  }

  /** The loop of `_update_tox`: tox for each environment in turn, stopping
      at the first that raises. */
  method PrepareEnvs(host: Host, path: string, envs: seq<string>, status: Status)
    returns (r: Result<Status, Raised>, trace: seq<Invocation>)
    ensures Step(r, trace) == ToxPrep(host, path, envs, status)
  {
    trace := [];
    for i := 0 to |envs|
      invariant forall j :: 0 <= j < i ==> ToxPasses(host, path, envs[j])
      invariant trace == ToxTrace(host, path, envs[..i])
    {
      var stop;
      stop, trace := ToxTurn(host, path, envs, i, status, trace);
      if stop.Some? {
        return stop.value, trace;
      }
    }
    assert envs[..|envs|] == envs;
    ToxPrepAllSucceed(host, path, envs, status);
    r := Ok(status);
  }

  /** One turn of `_update_tox`'s loop: run tox for the next environment;
      when it raises, the loop stops with what the whole step gives. */
  method ToxTurn(host: Host, path: string, envs: seq<string>, i: nat, status: Status, trace: seq<Invocation>)
    returns (stop: Option<Result<Status, Raised>>, trace': seq<Invocation>)
    requires i < |envs| && trace == ToxTrace(host, path, envs[..i])
    requires forall j :: 0 <= j < i ==> ToxPasses(host, path, envs[j])
    ensures trace' == ToxTrace(host, path, envs[..i + 1])
    ensures stop.None? <==> ToxPasses(host, path, envs[i])
    ensures stop.None? ==> forall j :: 0 <= j < i + 1 ==> ToxPasses(host, path, envs[j])
    ensures stop.Some? ==> Step(stop.value, trace') == ToxPrep(host, path, envs, status)
  {
    var run := ToxRun(host, path, envs[i], NoTest);
    ToxTraceAppend(host, path, envs, i);
    trace' := trace + [run.inv];
    if run.result.Err? {
      ToxPrepFirstFailure(host, path, envs, status, i);
      if run.result.error.ShellException? {
        return Some(Ok(Status(false, ToxPrepFailed(envs[i])))), trace';
      }
      return Some(Err(run.result.error)), trace';
    }
    stop := None;
  }

  // ---------------------------------------------------------------- initialise

  /** The guarded part of `initialise`: the repo step, then the tox step on
      its status. A ShellException from the repo step becomes the
      "Unhandled exception" status and skips the tox step; a failed chdir
      is not caught and escapes. */
  function Prepared(host: Host, p: Project): (r: Step<Result<Status, Raised>>)
    ensures var repo := UpdateRepo(host, p);
            repo.value.Ok? ==> |repo.trace| <= |r.trace| && r.trace[..|repo.trace|] == repo.trace
    ensures r.value.Err? ==> EscapedAt(host, r.trace, r.value.error)
  {
    AfterRepo(host, ProjectPath(p), ToxEnvs(p), UpdateRepo(host, p))
  }

  /** What `_initialise` does with the outcome of the repo step. */
  function AfterRepo(host: Host, path: string, envs: seq<string>, repo: Step<Result<Status, Raised>>)
    : (r: Step<Result<Status, Raised>>)
    ensures repo.value.Err? ==> r.trace == repo.trace
    ensures repo.value.Err? && repo.value.error.ChdirFailed? ==> r.value == repo.value
    ensures repo.value.Ok? ==> |repo.trace| <= |r.trace| && r.trace[..|repo.trace|] == repo.trace
    ensures repo.value.Ok? && r.value.Err? ==> EscapedAt(host, r.trace, r.value.error)
    ensures r.value.Err? ==> repo.value.Ok? || repo.value.error.ChdirFailed?
    ensures repo.value.Ok? ==>
              var tox := ToxPrep(host, path, envs, repo.value.value);
              r == Step(tox.value, repo.trace + tox.trace)
  {
    if repo.value.Err? then
      if repo.value.error.ShellException? then Step(Ok(Status(false, UnhandledException(repo.value.error.error))), repo.trace)
      else repo
    else
      var tox := ToxPrep(host, path, envs, repo.value.value);
      ToxPrepEscapes(host, path, envs, repo.value.value);
      var trace := repo.trace + tox.trace;
      assert trace[..|repo.trace|] == repo.trace;
      assert tox.value.Err? ==> trace[|trace| - 1] == tox.trace[|tox.trace| - 1];
      Step(tox.value, trace)
  }

  /** When the repo step raises, no tox command runs: a ShellException
      becomes the "Unhandled exception" status and a failed chdir escapes. */
  lemma RepoFailureSkipsTox(host: Host, p: Project)
    requires UpdateRepo(host, p).value.Err?
    ensures var repo := UpdateRepo(host, p);
            && Prepared(host, p).trace == repo.trace
            && (repo.value.error.ShellException? ==>
                  Prepared(host, p).value == Ok(Status(false, UnhandledException(repo.value.error.error))))
            && (repo.value.error.ChdirFailed? ==> Prepared(host, p).value == repo.value)
  {
  }

  /** A failing environment turns even a successful clone or update into a
      failure that names it. */
  lemma ToxFailureOverrides(host: Host, p: Project, k: nat)
    requires UpdateRepo(host, p).value.Ok?
    requires k < |ToxEnvs(p)| && ToxFails(host, ProjectPath(p), ToxEnvs(p)[k])
    requires forall j :: 0 <= j < k ==> ToxPasses(host, ProjectPath(p), ToxEnvs(p)[j])
    ensures Prepared(host, p).value == Ok(Status(false, ToxPrepFailed(ToxEnvs(p)[k])))
  {
    ToxPrepFirstFailure(host, ProjectPath(p), ToxEnvs(p), UpdateRepo(host, p).value.value, k);
  }

  /** A tox command whose directory cannot be entered, after every earlier
      environment prepared: the failed chdir escapes the guarded part, the
      repo status is lost, and no later environment runs. */
  lemma ToxChdirEscapes(host: Host, p: Project, k: nat)
    requires UpdateRepo(host, p).value.Ok?
    requires k < |ToxEnvs(p)| && !ToxPasses(host, ProjectPath(p), ToxEnvs(p)[k]) && !ToxFails(host, ProjectPath(p), ToxEnvs(p)[k])
    requires forall j :: 0 <= j < k ==> ToxPasses(host, ProjectPath(p), ToxEnvs(p)[j])
    ensures Prepared(host, p).value == Err(ChdirFailed(ProjectPath(p)))
    ensures Prepared(host, p).trace == UpdateRepo(host, p).trace + ToxTrace(host, ProjectPath(p), ToxEnvs(p)[..k + 1])
  {
    ToxPrepFirstFailure(host, ProjectPath(p), ToxEnvs(p), UpdateRepo(host, p).value.value, k);
  }

  /** A clone that fails with a ShellException is reported as the
      "Unhandled exception" status carrying the clone's own message. */
  lemma FailedCloneReported(host: Host, p: Project)
    requires !Exists(host, p)
    requires Clone(host, p.baseDir, p.gitLocation).result.Err? && Clone(host, p.baseDir, p.gitLocation).result.error.ShellException?
    ensures Prepared(host, p) ==
              Step(Ok(Status(false, UnhandledException(Clone(host, p.baseDir, p.gitLocation).result.error.error))),
                   [Clone(host, p.baseDir, p.gitLocation).inv])
  {
  }

  /** When every environment prepares, the repo step's status stands. */
  lemma ToxSuccessKeepsStatus(host: Host, p: Project)
    requires UpdateRepo(host, p).value.Ok?
    requires forall k :: 0 <= k < |ToxEnvs(p)| ==> ToxPasses(host, ProjectPath(p), ToxEnvs(p)[k])
    ensures Prepared(host, p).value == UpdateRepo(host, p).value
  {
    ToxPrepAllSucceed(host, ProjectPath(p), ToxEnvs(p), UpdateRepo(host, p).value.value);
  }

  /** `Project.initialise`. When the guarded part returns, the branch is
      looked up and the triple (name, status, branch) is returned. A failed
      chdir, in the guarded part or in the lookup, escapes instead: then
      there is no triple. */
  function Initialise(host: Host, p: Project): (r: Step<Result<Outcome, Raised>>)
    ensures r.value.Ok? <==> Prepared(host, p).value.Ok? && host.entersCwd(GetBranch(host, ProjectPath(p)).inv)
    ensures r.value.Ok? ==> r.value.value.name == p.name && Prepared(host, p).value == Ok(r.value.value.status)
    ensures r.value.Err? ==> EscapedAt(host, r.trace, r.value.error)
  {
    var status := Prepared(host, p);
    if status.value.Err? then Step(Err(status.value.error), status.trace)
    else
      var branch := GetBranch(host, ProjectPath(p));
      var trace := status.trace + [branch.inv];
      if branch.result.Err? && branch.result.error.ChdirFailed? then Step(Err(branch.result.error), trace)
      else
        var name := if branch.result.Ok? then branch.result.value else UnknownBranch;
        Step(Ok(Outcome(p.name, status.value.value, name)), trace)
  }

  /** The commands of `initialise`: those of the guarded part and, when it
      returns, the branch lookup last. */
  lemma InitialiseTrace(host: Host, p: Project)
    ensures Prepared(host, p).value.Err? ==>
              Initialise(host, p) == Step(Err(Prepared(host, p).value.error), Prepared(host, p).trace)
    ensures Prepared(host, p).value.Ok? ==>
              Initialise(host, p).trace == Prepared(host, p).trace + [GetBranch(host, ProjectPath(p)).inv]
  {
  }

  /** The branch of the triple: "?????" when the lookup raises a
      ShellException, otherwise its output without surrounding whitespace. */
  lemma InitialiseBranch(host: Host, p: Project)
    requires Initialise(host, p).value.Ok?
    ensures var o, branch := Initialise(host, p).value.value, GetBranch(host, ProjectPath(p));
            && (branch.result.Err? ==> o.branch == UnknownBranch)
            && (branch.result.Ok? ==> o.branch == Strip(host.run(branch.inv).output))
  {
  }

  /** When every directory the commands run in can be entered, `initialise`
      always returns its triple. */
  lemma AlwaysTriple(host: Host, p: Project)
    requires forall inv :: host.entersCwd(inv)
    ensures Initialise(host, p).value.Ok?
  {
  }

  /** A clone that fails leaves no checkout behind, and the branch lookup
      that follows cannot enter it: `initialise` then raises instead of
      returning the "Unhandled exception" status. */
  lemma FailedCloneEscapes(host: Host, p: Project)
    requires !Exists(host, p)
    requires host.entersCwd(Clone(host, p.baseDir, p.gitLocation).inv)
    requires host.run(Clone(host, p.baseDir, p.gitLocation).inv).returnCode != 0
    requires !host.entersCwd(GetBranch(host, ProjectPath(p)).inv)
    ensures Prepared(host, p).value.Ok? && !Prepared(host, p).value.value.success
    ensures Initialise(host, p).value == Err(ChdirFailed(ProjectPath(p)))
  {
  }

  /** `host` with one command answered differently. */
  function Answering(host: Host, inv: Invocation, enters: bool, c: Completion): Host {
    host.(entersCwd := (i: Invocation) => if i == inv then enters else host.entersCwd(i),
          run := (i: Invocation) => if i == inv then c else host.run(i))
  }

  lemma {:induction false} ToxPrepIgnoresBranchLookup(host: Host, path: string, envs: seq<string>, status: Status,
                                                      inv: Invocation, enters: bool, c: Completion)
    requires |inv.words| == 4
    ensures ToxPrep(Answering(host, inv, enters, c), path, envs, status) == ToxPrep(host, path, envs, status)
    decreases |envs|
  {
    if envs != [] {
      var run := ToxRun(host, path, envs[0], NoTest);
      assert |run.inv.words| == 6;
      assert ToxRun(Answering(host, inv, enters, c), path, envs[0], NoTest) == run;
      ToxPrepIgnoresBranchLookup(host, path, envs[1..], status, inv, enters, c);
    }
  }

  lemma RunIgnoresOtherCommand(host: Host, inv: Invocation, enters: bool, c: Completion, other: Invocation)
    requires |other.words| != |inv.words|
    ensures Run(Answering(host, inv, enters, c), other) == Run(host, other)
  {
    assert other != inv;
  }

  lemma UpdateRepoIgnoresBranchLookup(host: Host, p: Project, inv: Invocation, enters: bool, c: Completion)
    requires |inv.words| == 4
    ensures UpdateRepo(Answering(host, inv, enters, c), p) == UpdateRepo(host, p)
  {
    var path, other := ProjectPath(p), Answering(host, inv, enters, c);
    var clone, clean, ff := Clone(host, p.baseDir, p.gitLocation).inv, IsClean(host, path).inv, FastForward(host, path).inv;
    RunIgnoresOtherCommand(host, inv, enters, c, clone);
    RunIgnoresOtherCommand(host, inv, enters, c, ff);
    assert Clone(other, p.baseDir, p.gitLocation) == Clone(host, p.baseDir, p.gitLocation);
    assert FastForward(other, path) == FastForward(host, path);
    assert clean != inv;
    assert IsClean(other, path) == IsClean(host, path);
  }

  /** The branch lookup cannot change the status: whatever the lookup
      answers, the guarded part computes the same, and a triple that is
      returned carries that status. */
  lemma BranchNeverAltersStatus(host: Host, p: Project, enters: bool, c: Completion)
    ensures var other := Answering(host, GetBranch(host, ProjectPath(p)).inv, enters, c);
            && Prepared(other, p) == Prepared(host, p)
            && (Initialise(other, p).value.Ok? ==> Ok(Initialise(other, p).value.value.status) == Prepared(host, p).value)
  {
    var inv := GetBranch(host, ProjectPath(p)).inv;
    UpdateRepoIgnoresBranchLookup(host, p, inv, enters, c);
    if UpdateRepo(host, p).value.Ok? {
      ToxPrepIgnoresBranchLookup(host, ProjectPath(p), ToxEnvs(p), UpdateRepo(host, p).value.value, inv, enters, c);
    }
  }

  // ---------------------------------------------------------------- the report

  /** The colour codes of the summary, kept apart from the text. */
  datatype Colour = Yellow | Green | Red | ResetAll

  /** A run of text, a colour code, or the text of a status reason. */
  datatype Piece = Text(text: string) | Style(colour: Colour) | ReasonPiece(reason: Reason)

  type Line = seq<Piece>

  function PieceText(piece: Piece): string {
    match piece
    case Text(t) => t
    case Style(_) => []
    case ReasonPiece(r) => ReasonText(r)
  }

  /** What a line shows once the colour codes are taken out. */
  function PlainText(line: Line): string {
    if line == [] then [] else PieceText(line[0]) + PlainText(line[1..])
  }

  lemma {:induction false} PlainTextAppend(a: Line, b: Line)
    ensures PlainText(a + b) == PlainText(a) + PlainText(b)
  {
    if a != [] {
      assert (a + b)[0] == a[0];
      assert (a + b)[1..] == a[1..] + b;
      PlainTextAppend(a[1..], b);
    } else {
      assert a + b == b;
    }
  }

  lemma PlainTextCons(piece: Piece, rest: Line)
    ensures PlainText([piece] + rest) == PieceText(piece) + PlainText(rest)
  {
    assert ([piece] + rest)[1..] == rest;
  }

  lemma PlainTextOfThree(x: Piece, y: Piece, z: Piece)
    ensures PlainText([x, y, z]) == PieceText(x) + (PieceText(y) + PieceText(z))
  {
    PlainTextCons(z, []);
    assert [z] + [] == [z] && PieceText(z) + [] == PieceText(z);
    PlainTextCons(y, [z]);
    assert [y] + [z] == [y, z];
    PlainTextCons(x, [y, z]);
    assert [x] + [y, z] == [x, y, z];
  }

  lemma PlainTextOfFour(w: Piece, x: Piece, y: Piece, z: Piece)
    ensures PlainText([w, x, y, z]) == PieceText(w) + (PieceText(x) + (PieceText(y) + PieceText(z)))
  {
    PlainTextOfThree(x, y, z);
    PlainTextCons(w, [x, y, z]);
    assert [w] + [x, y, z] == [w, x, y, z];
  }

  /** The branch column: highlighted in yellow unless the branch is "master". */
  function BranchCell(branch: string): Line {
    var cell := Ljust("(" + branch + ")", 30);
    if branch == "master" then [Text(cell)] else [Style(Yellow), Text(cell), Style(ResetAll)]
  }

  /** The status column: " OK: " in green or "ERR: " in red, then the reason. */
  function StatusCell(success: bool, reason: Reason): Line {
    if success then [Text(" "), Style(Green), Text(" OK: "), ReasonPiece(reason)]
    else [Text(" "), Style(Red), Text("ERR: "), ReasonPiece(reason)]
  }

  /** A line of the summary: the name padded to 10, the branch column, the
      status column, and a reset of the colours. */
  function Row(name: string, branch: string, success: bool, reason: Reason): (line: Line)
    ensures |line| == if branch == "master" then 7 else 9
    ensures line[0] == Text(Ljust(name, 10)) && line[|line| - 1] == Style(ResetAll)
  {
    [Text(Ljust(name, 10))] + BranchCell(branch) + StatusCell(success, reason) + [Style(ResetAll)]
  }

  /** The pieces of a concatenation are found at their offsets. */
  lemma Columns<T>(a: seq<T>, b: seq<T>, c: seq<T>)
    ensures |a + b + c| == |a| + |b| + |c|
    ensures (a + b + c)[..|a|] == a
    ensures (a + b + c)[|a|..|a| + |b|] == b
    ensures (a + b + c)[|a| + |b|..] == c
  {
  }

  /** The line `_print_results` prints for one outcome. */
  function ReportLine(o: Outcome): Line {
    Row(o.name, o.branch, o.status.success, o.status.reason)
  }

  lemma BranchCellText(branch: string)
    ensures PlainText(BranchCell(branch)) == Ljust("(" + branch + ")", 30)
  {
    var cell := Ljust("(" + branch + ")", 30);
    if branch == "master" {
      assert PlainText([Text(cell)]) == cell;
    } else {
      PlainTextOfThree(Style(Yellow), Text(cell), Style(ResetAll));
    }
  }

  /** The status column without its colour: a space, then " OK: " or "ERR: ". */
  function StatusTag(success: bool): (tag: string)
    ensures |tag| == 6
  {
    if success then "  OK: " else " ERR: "
  }

  lemma StatusTagText(success: bool, why: string)
    ensures " " + ([] + ((if success then " OK: " else "ERR: ") + why)) == StatusTag(success) + why
  {
    if success {
      assert " " + " OK: " == "  OK: ";
    } else {
      assert " " + "ERR: " == " ERR: ";
    }
  }

  lemma StatusCellText(success: bool, reason: Reason)
    ensures PlainText(StatusCell(success, reason)) == StatusTag(success) + ReasonText(reason)
  {
    var colour, short := if success then Green else Red, if success then " OK: " else "ERR: ";
    assert StatusCell(success, reason) == [Text(" "), Style(colour), Text(short), ReasonPiece(reason)];
    PlainTextOfFour(Text(" "), Style(colour), Text(short), ReasonPiece(reason));
    StatusTagText(success, ReasonText(reason));
  }

  /** Without its colour codes, a summary line is the name padded to 10,
      "(branch)" padded to 30, a space, then " OK: " or "ERR: " and the reason. */
  lemma RowText(name: string, branch: string, success: bool, reason: Reason)
    ensures PlainText(Row(name, branch, success, reason))
            == Ljust(name, 10) + Ljust("(" + branch + ")", 30) + (StatusTag(success) + ReasonText(reason))
  {
    var head, branchPart, statusPart := [Text(Ljust(name, 10))], BranchCell(branch), StatusCell(success, reason);
    BranchCellText(branch);
    StatusCellText(success, reason);
    PlainTextAppend(head, branchPart);
    PlainTextAppend(head + branchPart, statusPart);
    PlainTextAppend(head + branchPart + statusPart, [Style(ResetAll)]);
    assert PlainText(head) == Ljust(name, 10);
    assert PlainText([Style(ResetAll)]) == [];
  }

  /** The branch is highlighted exactly when it is not "master"; the status
      is green exactly when it succeeded and red exactly when it failed; the
      line always ends by resetting the colours. */
  lemma RowColours(name: string, branch: string, success: bool, reason: Reason)
    ensures Style(Yellow) in Row(name, branch, success, reason) <==> branch != "master"
    ensures Style(Green) in Row(name, branch, success, reason) <==> success
    ensures Style(Red) in Row(name, branch, success, reason) <==> !success
    ensures Row(name, branch, success, reason)[|Row(name, branch, success, reason)| - 1] == Style(ResetAll)
  {
    var b, st := BranchCell(branch), StatusCell(success, reason);
    assert Style(Yellow) in b <==> branch != "master";
    assert Style(Yellow) !in st && Style(Green) !in b && Style(Red) !in b;
    assert Style(Green) in st <==> success;
    assert Style(Red) in st <==> !success;
  }

  /** With a name of at most 10 characters and a branch of at most 28, the
      columns line up: the branch column starts at 10 and the status at 40. */
  lemma RowColumns(name: string, branch: string, success: bool, reason: Reason)
    requires |name| <= 10 && |branch| <= 28
    ensures var text, why := PlainText(Row(name, branch, success, reason)), ReasonText(reason);
            && |text| == 46 + |why|
            && text[..10] == Ljust(name, 10)
            && text[10..40] == Ljust("(" + branch + ")", 30)
            && text[40..46] == StatusTag(success)
            && text[46..] == why
  {
    var a, b := Ljust(name, 10), Ljust("(" + branch + ")", 30);
    var tag, why := StatusTag(success), ReasonText(reason);
    RowText(name, branch, success, reason);
    Columns(a, b, tag + why);
    Columns(tag, why, []);
    assert tag + why + [] == tag + why;
  }

  /** The body of `_print_results`' loop: the line for one result, built
      piece by piece. */
  method FormatLine(o: Outcome) returns (line: Line)
    ensures line == ReportLine(o)
  {
    var head := [Text(Ljust(o.name, 10))];
    line := head;
    var branchString := Ljust("(" + o.branch + ")", 30);
    if o.branch == "master" {
      line := line + [Text(branchString)];
    } else {
      line := line + [Style(Yellow), Text(branchString), Style(ResetAll)];
    }
    assert line == head + BranchCell(o.branch);
    if o.status.success {
      line := line + [Text(" "), Style(Green), Text(" OK: "), ReasonPiece(o.status.reason)];
    } else {
      line := line + [Text(" "), Style(Red), Text("ERR: "), ReasonPiece(o.status.reason)];
    }
    assert line == head + BranchCell(o.branch) + StatusCell(o.status.success, o.status.reason);
    line := line + [Style(ResetAll)];
  }

  predicate Succeeded(o: Outcome) {
    o.status.success
  }

  /** The lines of the summary for the results, in order. */
  function Report(results: seq<Outcome>): seq<Line> {
    seq(|results|, i requires 0 <= i < |results| => ReportLine(results[i]))
  }

  /** `_print_results`: a blank line, one line per result in the order
      given, a blank line; `all_good` holds exactly when every result succeeded. */
  method PrintResults(results: seq<Outcome>) returns (output: seq<Line>, allGood: bool)
    ensures output == [[]] + Report(results) + [[]]
    ensures allGood <==> forall i :: 0 <= i < |results| ==> Succeeded(results[i])
  {
    ghost var expected := Report(results);
    output := [[]];
    allGood := true;
    for i := 0 to |results|
      invariant output == [[]] + expected[..i]
      invariant allGood <==> forall j :: 0 <= j < i ==> Succeeded(results[j])
    {
      output, allGood := PrintLine(output, allGood, results[i]);
      assert expected[..i + 1] == expected[..i] + [expected[i]];
    }
    assert expected[..|results|] == expected;
    output := output + [[]];
  }

  /** One turn of `_print_results`' loop: print the line of one result, and
      clear `all_good` when it failed. */
  method PrintLine(output: seq<Line>, allGood: bool, o: Outcome) returns (output': seq<Line>, allGood': bool)
    ensures output' == output + [ReportLine(o)]
    ensures allGood' <==> allGood && Succeeded(o)
  {
    var line := FormatLine(o);
    allGood' := allGood && o.status.success;
    output' := output + [line];
  }

  /** Text in a colour followed by plain text shows as the two texts. */
  lemma HighlightedText(colour: Colour, a: string, b: string)
    ensures PlainText([Style(colour), Text(a), Style(ResetAll), Text(b)]) == a + b
  {
    PlainTextOfFour(Style(colour), Text(a), Style(ResetAll), Text(b));
    assert [] + (a + ([] + b)) == a + b;
  }

  /** One tick of `_issue_warning_countdown`, printed without a newline. */
  function CountdownLine(sec: int): (line: Line)
    ensures |line| == 4 && line[0] == Style(Red)
    ensures PlainText(line) == "Something above isn't right." + (" Pausing " + IntToString(sec) + " \r")
  {
    var line := [Style(Red), Text("Something above isn't right."), Style(ResetAll), Text(" Pausing " + IntToString(sec) + " \r")];
    HighlightedText(Red, "Something above isn't right.", " Pausing " + IntToString(sec) + " \r");
    line
  }

  /** `_issue_warning_countdown`: ticks for 10, 9, ..., 1 seconds, in that order. */
  method IssueWarningCountdown() returns (ticks: seq<Line>)
    ensures |ticks| == 10
    ensures forall i :: 0 <= i < 10 ==> ticks[i] == CountdownLine(10 - i)
  {
    ticks := [];
    var sec := 10;
    while sec > 0
      invariant 0 <= sec <= 10 && |ticks| == 10 - sec
      invariant forall i :: 0 <= i < |ticks| ==> ticks[i] == CountdownLine(10 - i)
    {
      ticks := ticks + [CountdownLine(sec)];
      sec := sec - 1;
    }
  }

  // ---------------------------------------------------------------- the manager

  /** The declaration of one project in the catalog. */
  datatype CatalogEntry = CatalogEntry(gitUrl: string, toxInit: Option<seq<string>>)

  /** `ProjectManager`: the base directory and one project per catalog name. */
  datatype Manager = Manager(baseDir: string, projects: Dict<Project>)

  /** Every project sits under the key of its own name, in the manager's base directory. */
  predicate WellFormed(m: Manager) {
    && ValidDict(m.projects)
    && forall name :: name in m.projects.values ==>
         m.projects.values[name].name == name && m.projects.values[name].baseDir == m.baseDir
  }

  /** `ProjectManager.__init__`: one project per catalog entry, keyed by its
      name, in catalog order. */
  function NewManager(baseDir: string, catalog: Dict<CatalogEntry>): (m: Manager)
    requires ValidDict(catalog)
    ensures WellFormed(m) && m.baseDir == baseDir
    ensures m.projects.keys == catalog.keys
    ensures forall name :: name in m.projects.values ==>
              && m.projects.values[name].gitLocation == catalog.values[name].gitUrl
              && m.projects.values[name].toxInit == catalog.values[name].toxInit
  {
    Manager(baseDir, Dict(catalog.keys, map name | name in catalog.values ::
      Project(baseDir, name, catalog.values[name].gitUrl, catalog.values[name].toxInit)))
  }

  /** The project raises out of `initialise`. */
  predicate Crashes(host: Host, p: Project) {
    Initialise(host, p).value.Err?
  }

  /** What `prepare_all` produces when it returns: the results, the summary
      lines and the countdown ticks. */
  datatype Summary = Summary(results: seq<Outcome>, report: seq<Line>, countdown: seq<Line>)

  /** `prepare_all`: `Pool.map` gives one outcome per project in catalog
      order; the summary follows, and the countdown only when something
      failed. When a project raises out of `initialise`, `Pool.map`
      re-raises it and nothing is printed. */
  method PrepareAll(host: Host, m: Manager) returns (r: Result<Summary, Raised>)
    requires WellFormed(m)
    ensures r.Ok? <==> forall i :: 0 <= i < |m.projects.keys| ==> !Crashes(host, m.projects.values[m.projects.keys[i]])
    ensures r.Err? ==>
              exists i :: 0 <= i < |m.projects.keys| && Initialise(host, m.projects.values[m.projects.keys[i]]).value == Err(r.error)
    ensures r.Ok? ==>
              && |r.value.results| == |m.projects.keys|
              && (forall i :: 0 <= i < |r.value.results| ==>
                    && Ok(r.value.results[i]) == Initialise(host, m.projects.values[m.projects.keys[i]]).value
                    && r.value.results[i].name == m.projects.keys[i])
              && r.value.report == [[]] + Report(r.value.results) + [[]]
              && (r.value.countdown == [] <==> forall i :: 0 <= i < |r.value.results| ==> Succeeded(r.value.results[i]))
              && (r.value.countdown != [] ==>
                    && |r.value.countdown| == 10
                    && forall i :: 0 <= i < 10 ==> r.value.countdown[i] == CountdownLine(10 - i))
  {
    var keys := m.projects.keys;
    var outcomes := seq(|keys|, i requires 0 <= i < |keys| => Initialise(host, m.projects.values[keys[i]]).value);
    if i :| 0 <= i < |outcomes| && outcomes[i].Err? {
      assert Crashes(host, m.projects.values[keys[i]]);
      return Err(outcomes[i].error);
    }
    forall i | 0 <= i < |keys|
      ensures !Crashes(host, m.projects.values[keys[i]])
    {
      assert outcomes[i].Ok?;
    }
    var results := seq(|keys|, i requires 0 <= i < |keys| && outcomes[i].Ok? => outcomes[i].value);
    var report, allGood := PrintResults(results);
    var countdown := [];
    if !allGood {
      countdown := IssueWarningCountdown();
    }
    r := Ok(Summary(results, report, countdown));
  }
}
