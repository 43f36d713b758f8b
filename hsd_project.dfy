/**
 * Model of src/h_supervisor_dev/project.py, the older project manager:
 * a project is cloned when missing and otherwise reset and pulled, and its
 * `make` targets run with pyenv on the PATH.
 *
 * The git and shell helpers of h_supervisor_dev.shell are not part of this
 * model: each call is a `Command` that the `World` answers with the text of
 * the exception it raises, or `None` when it returns.
 */
module HsdProject {
  import opened Wrappers
  import opened PyText
  import opened PyDict

  /** A call into h_supervisor_dev.shell. */
  datatype Command =
    | ResetHead(path: string)                                   // Git.reset_head(path)
    | Pull(path: string)                                        // Git.pull(path)
    | CloneRepo(baseDir: string, gitLocation: string)           // Git.clone(base_dir, git_location)
    | RunInDir(dir: string, words: seq<string>, env: map<string, string>)  // Shell.run_in_dir(dir, words, env)

  /** Which paths exist, how each call ends, `os.environ`, and the home
      directory the password database gives the current user. */
  datatype World = World(
    pathExists: string -> bool,
    raises: Command -> Option<string>,
    environ: map<string, string>,
    passwdHome: string)

  /** The home directory `expanduser` uses: HOME when it is set, otherwise
      the password database's entry. */
  function Home(w: World): (home: string)
    ensures "HOME" in w.environ ==> home == w.environ["HOME"]
    ensures "HOME" !in w.environ ==> home == w.passwdHome
  {
    if "HOME" in w.environ then w.environ["HOME"] else w.passwdHome
  }

  /** `Project(base_dir, name, git_url, services=None)`. */
  datatype Project = Project(baseDir: string, name: string, gitLocation: string, services: Option<seq<string>>)

  /** `Project.path`: `base_dir` joined with the name. */
  function Path(p: Project): string {
    PathJoin(p.baseDir, p.name)
  }

  /** The checkout directory is the name under the base directory, or the
      name itself when it is an absolute path. */
  lemma PathOf(p: Project)
    ensures |p.name| <= |Path(p)| && Path(p)[|Path(p)| - |p.name|..] == p.name
    ensures p.name != [] && p.name[0] == '/' ==> Path(p) == p.name
    ensures !(p.name != [] && p.name[0] == '/') && p.baseDir != [] && p.baseDir[|p.baseDir| - 1] != '/' ==>
              Path(p) == p.baseDir + "/" + p.name
    ensures !(p.name != [] && p.name[0] == '/') && (p.baseDir == [] || p.baseDir[|p.baseDir| - 1] == '/') ==>
              Path(p) == p.baseDir + p.name
  {
    PathJoinShape(p.baseDir, p.name);
  }

  /** `Project.is_cloned`: the checkout directory exists. */
  predicate IsCloned(w: World, p: Project) {
    w.pathExists(Path(p))
  }

  /** The calls made, in order, and the exception that ended them, if any. */
  datatype Done = Done(calls: seq<Command>, raised: Option<string>)

  /** `Project.update`: reset the checkout to HEAD, then pull; a reset that
      raises ends the update before the pull. */
  function Update(w: World, p: Project): (d: Done)
    ensures 1 <= |d.calls| <= 2 && d.calls[0] == ResetHead(Path(p))
    ensures |d.calls| == 2 <==> w.raises(ResetHead(Path(p))).None?
    ensures |d.calls| == 1 ==> d.raised == w.raises(ResetHead(Path(p)))
    ensures |d.calls| == 2 ==> d.calls[1] == Pull(Path(p)) && d.raised == w.raises(Pull(Path(p)))
    ensures d.raised.None? <==> w.raises(ResetHead(Path(p))).None? && w.raises(Pull(Path(p))).None?
  {
    var reset := ResetHead(Path(p));
    if w.raises(reset).Some? then Done([reset], w.raises(reset))
    else Done([reset, Pull(Path(p))], w.raises(Pull(Path(p))))
  }

  /** `Project.clone`: clone into the base directory. */
  function Clone(w: World, p: Project): (d: Done)
    ensures |d.calls| == 1 && d.calls[0].CloneRepo? && d.calls[0].baseDir == p.baseDir && d.calls[0].gitLocation == p.gitLocation
    ensures d.raised == w.raises(d.calls[0])
  {
    var clone := CloneRepo(p.baseDir, p.gitLocation);
    Done([clone], w.raises(clone))
  }

  // ---------------------------------------------------------------- make

  /** `posixpath.expanduser("~/.pyenv")`: the home directory without its
      trailing slashes, then "/.pyenv". */
  function PyenvDir(home: string): (dir: string)
    ensures |dir| >= 7 && dir[|dir| - 7..] == "/.pyenv"
    ensures dir[..|dir| - 7] == RStripSlash(home)
  {
    RStripSlash(home) + "/.pyenv"
  }

  /** `s.rstrip("/")`. */
  function RStripSlash(s: string): (r: string)
    ensures |r| <= |s| && r == s[..|r|]
    ensures r == [] || r[|r| - 1] != '/'
    ensures forall i :: |r| <= i < |s| ==> s[i] == '/'
  {
    if s != [] && s[|s| - 1] == '/' then RStripSlash(s[..|s| - 1]) else s
  }

  /** What PATH becomes: pyenv's shims and bin directories appended. */
  function PyenvPath(path: string, pyenvDir: string): string {
    path + ":" + pyenvDir + "/shims:" + pyenvDir + "/bin"
  }

  /** The environment `make` runs in: a copy of `os.environ` with pyenv's
      directories on PATH, PYENV_SHELL and PYENV_ROOT set. */
  function MakeEnv(environ: map<string, string>, pyenvDir: string): (env: map<string, string>)
    requires "PATH" in environ
    ensures env.Keys == environ.Keys + {"PYENV_SHELL", "PYENV_ROOT"}
    ensures env["PATH"] == PyenvPath(environ["PATH"], pyenvDir)
    ensures env["PYENV_SHELL"] == "bash" && env["PYENV_ROOT"] == pyenvDir
    ensures forall k :: k in environ && k != "PATH" && k != "PYENV_SHELL" && k != "PYENV_ROOT" ==> env[k] == environ[k]
  {
    environ["PATH" := PyenvPath(environ["PATH"], pyenvDir)]["PYENV_SHELL" := "bash"]["PYENV_ROOT" := pyenvDir]
  }

  /** The PATH handed to make starts with the caller's PATH and ends with
      the pyenv bin directory. */
  lemma PyenvPathExtends(path: string, pyenvDir: string)
    ensures var extended := PyenvPath(path, pyenvDir);
            && extended[..|path|] == path
            && |extended| == |path| + |pyenvDir| * 2 + 12
            && extended[|extended| - |pyenvDir| - 4..] == pyenvDir + "/bin"
  {
    var extended := PyenvPath(path, pyenvDir);
    assert extended == path + (":" + pyenvDir + "/shims:") + (pyenvDir + "/bin");
  }

  /** The text of the KeyError raised when PATH is not set. */
  const MissingPath := "'PATH'"

  /** The environment lines of `Project.make`: copy `os.environ`, then
      extend PATH and set the two pyenv variables in the copy. */
  method BuildMakeEnv(environ: map<string, string>, pyenvDir: string) returns (env: Result<map<string, string>, string>)
    ensures env.Err? <==> "PATH" !in environ
    ensures env.Err? ==> env.error == MissingPath
    ensures env.Ok? ==> env.value == MakeEnv(environ, pyenvDir)
  {
    var copy := environ;
    if "PATH" !in copy {
      return Err(MissingPath);
    }
    copy := copy["PATH" := copy["PATH"] + (":" + pyenvDir + "/shims:" + pyenvDir + "/bin")];
    copy := copy["PYENV_SHELL" := "bash"];
    copy := copy["PYENV_ROOT" := pyenvDir];
    assert copy["PATH"] == PyenvPath(environ["PATH"], pyenvDir);
    env := Ok(copy);
  }

  /** `Project.make(command)`: `make <command>` in the project directory,
      in the pyenv environment; nothing runs when PATH is not set. */
  method Make(w: World, p: Project, command: string) returns (d: Done)
    ensures "PATH" !in w.environ ==> d == Done([], Some(MissingPath))
    ensures "PATH" in w.environ ==>
              var run := RunInDir(Path(p), ["make", command], MakeEnv(w.environ, PyenvDir(Home(w))));
              d == Done([run], w.raises(run))
  {
    var pyenvDir := PyenvDir(Home(w));
    var env := BuildMakeEnv(w.environ, pyenvDir);
    if env.Err? {
      return Done([], Some(env.error));
    }
    var run := RunInDir(Path(p), ["make", command], env.value);
    d := Done([run], w.raises(run));
  }

  // ---------------------------------------------------------------- _prep_project

  /** What `_prep_project` does for one project: the calls made, the lines
      printed, and the exception re-raised, if any. */
  datatype Prep = Prep(calls: seq<Command>, printed: seq<string>, raised: Option<string>)

  /** The clone of a missing project or the update of an existing one. */
  function Attempt(w: World, p: Project): (d: Done)
    ensures d.calls != []
    ensures !IsCloned(w, p) ==> d.calls == [CloneRepo(p.baseDir, p.gitLocation)]
    ensures IsCloned(w, p) ==> && d.calls[0] == ResetHead(Path(p))
                               && forall i :: 0 <= i < |d.calls| ==> !d.calls[i].CloneRepo?
  {
    if IsCloned(w, p) then Update(w, p) else Clone(w, p)
  }

  /** The line `_prep_project` prints before it starts. */
  function Announcement(cloned: bool, name: string): string {
    if cloned then "Updating " + name + "..." else "Cloning " + name
  }

  /** The line `_prep_project` prints once the attempt is over. */
  function Conclusion(name: string, raised: Option<string>): string {
    if raised.None? then name + " complete" else "Failed " + name + " with error: " + raised.value
  }

  /** `ProjectManager._prep_project`: clone a missing project, update an
      existing one; report the outcome and re-raise a failure. */
  function PrepProject(w: World, p: Project): (r: Prep)
    ensures r.calls == Attempt(w, p).calls && r.raised == Attempt(w, p).raised
    ensures |r.printed| == 2 && r.printed[0] == Announcement(IsCloned(w, p), p.name)
    ensures r.raised.Some? ==> r.printed[1] == "Failed " + p.name + " with error: " + r.raised.value
    ensures r.raised.None? ==> r.printed[1] == p.name + " complete"
  {
    var d := Attempt(w, p);
    Prep(d.calls, [Announcement(IsCloned(w, p), p.name), Conclusion(p.name, d.raised)], d.raised)
  }

  // ---------------------------------------------------------------- the manager

  /** The declaration of one project in the catalog. */
  datatype CatalogEntry = CatalogEntry(gitUrl: string, services: Option<seq<string>>)

  /** `ProjectManager`: the base directory and one project per catalog name. */
  datatype Manager = Manager(baseDir: string, projects: Dict<Project>)

  /** `ProjectManager.__init__`: one project per catalog entry, keyed by its
      name, in catalog order, all under the base directory. */
  function NewManager(baseDir: string, catalog: Dict<CatalogEntry>): (m: Manager)
    requires ValidDict(catalog)
    ensures ValidDict(m.projects) && m.baseDir == baseDir
    ensures m.projects.keys == catalog.keys
    ensures forall name :: name in m.projects.values ==>
              m.projects.values[name] == Project(baseDir, name, catalog.values[name].gitUrl, catalog.values[name].services)
  {
    Manager(baseDir, Dict(catalog.keys, map name | name in catalog.values ::
      Project(baseDir, name, catalog.values[name].gitUrl, catalog.values[name].services)))
  }

  /** `prepare_all`: `Pool.map` prepares every project, in catalog order,
      even after one of them has failed, and the call fails when any did. */
  function PrepareAll(w: World, m: Manager): (r: (seq<Prep>, bool))
    requires ValidDict(m.projects)
    ensures |r.0| == |m.projects.keys|
  {
    var keys := m.projects.keys;
    var preps := seq(|keys|, i requires 0 <= i < |keys| => PrepProject(w, m.projects.values[keys[i]]));
    (preps, exists i :: 0 <= i < |preps| && preps[i].raised.Some?)
  }

  /** Whether preparing a project raises: its clone or its update does. */
  predicate PrepFails(w: World, p: Project) {
    Attempt(w, p).raised.Some?
  }

  /** The i-th project of the catalog is prepared with the calls of its
      own clone or update, whatever happens to the others, and raises
      exactly when that clone or update does. */
  lemma PrepareAllPreparesEach(w: World, m: Manager, i: nat)
    requires ValidDict(m.projects)
    requires i < |m.projects.keys|
    ensures var p := m.projects.values[m.projects.keys[i]];
            && PrepareAll(w, m).0[i].calls == (if IsCloned(w, p) then Update(w, p) else Clone(w, p)).calls
            && (PrepareAll(w, m).0[i].raised.Some? <==> PrepFails(w, p))
  {
  }

  /** A failed `prepare_all` names a project whose clone or update raised. */
  lemma PrepareAllFailsOnlyIf(w: World, m: Manager)
    requires ValidDict(m.projects)
    ensures PrepareAll(w, m).1 ==> exists name :: name in m.projects.values && PrepFails(w, m.projects.values[name])
  {
    var r := PrepareAll(w, m);
    if r.1 {
      var i :| 0 <= i < |r.0| && r.0[i].raised.Some?;
      PrepareAllPreparesEach(w, m, i);
      assert m.projects.keys[i] in m.projects.values;
    }
  }

  /** A project whose clone or update raises makes `prepare_all` fail. */
  lemma PrepareAllFailsIf(w: World, m: Manager, name: string)
    requires ValidDict(m.projects)
    requires name in m.projects.values && PrepFails(w, m.projects.values[name])
    ensures PrepareAll(w, m).1
  {
    var keys := m.projects.keys;
    var i :| 0 <= i < |keys| && keys[i] == name;
    PrepareAllPreparesEach(w, m, i);
    assert PrepareAll(w, m).0[i].raised.Some?;
  }
}
