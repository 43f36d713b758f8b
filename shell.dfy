/**
 * Model of src/superdev/shell.py: running a command inside a directory,
 * turning a non-zero exit into a ShellException, and the git and tox
 * commands built on top of that.
 *
 * Nothing is executed: the child processes, the filesystem and the process
 * environment are the answers of a `Host`.
 */
module Shell {
  import opened Wrappers
  import opened PyText

  /** The environment handed to a child process; `None` inherits the caller's. */
  type Env = Option<map<string, string>>

  /** One child process: the words of its command, joined with spaces and
      handed to the shell, run in the working directory `cwd`. */
  datatype Invocation = Invocation(cwd: string, words: seq<string>, env: Env)

  /** The line the shell is given for an invocation. */
  function CommandLine(inv: Invocation): string {
    JoinCommand(inv.words)
  }

  datatype Completion = Completion(returnCode: int, output: string)

  /** The world the program runs in: which paths exist (`os.path.exists`),
      whether `os.chdir` into an invocation's directory succeeds at the
      moment that invocation is about to start (a clone creates a checkout,
      so the answer depends on the command), how each child process ends,
      `os.environ` and `os.path.abspath`. */
  datatype Host = Host(
    pathExists: string -> bool,
    entersCwd: Invocation -> bool,
    run: Invocation -> Completion,
    environ: map<string, string>,
    abspath: string -> string)

  /** `ShellException(*CalledProcessError.args)`: it carries the return code
      and the command line; the captured output is dropped. */
  datatype ShellError = ShellError(returnCode: int, cmd: string)

  /** What `run_in_dir` can raise: a ShellException for a command that
      exits non-zero, or the OSError (FileNotFoundError, NotADirectoryError)
      of `os.chdir` for a directory that cannot be entered, raised before
      any child starts and not converted into a ShellException. */
  datatype Raised = ShellException(error: ShellError) | ChdirFailed(dir: string)

  /** `str(err)` of a ShellException: the exception is an OSError built from
      two arguments, which Python shows as "[Errno <first>] <second>". */
  function Message(e: ShellError): (m: string)
    ensures |m| >= 10 + |e.cmd|
    ensures m[..7] == "[Errno " && m[|m| - |e.cmd|..] == e.cmd
  {
    "[Errno " + IntToString(e.returnCode) + "] " + e.cmd
  }

  /** The command line run through the shell: the parts joined by single spaces. */
  function JoinCommand(commands: seq<string>): string {
    JoinWith(" ", commands)
  }

  lemma {:induction false} JoinAppend(sep: string, a: seq<string>, b: seq<string>)
    requires a != []
    ensures JoinWith(sep, a + b) == JoinWith(sep, a) + if b == [] then [] else sep + JoinWith(sep, b)
  {
    if b == [] {
      assert a + b == a;
    } else if |a| == 1 {
      assert (a + b)[1..] == b;
    } else {
      assert (a + b)[1..] == a[1..] + b;
      JoinAppend(sep, a[1..], b);
    }
  }

  /** When no word is empty or holds whitespace, splitting the joined line
      at whitespace (Python's `str.split()`) gives back exactly the words: the
      join loses no boundary and adds none. A word with a space in it would
      come apart. How /bin/sh further interprets quotes, `$`, `;` and the
      like in the line is not part of this model. */
  lemma CommandWords(commands: seq<string>)
    requires forall i :: 0 <= i < |commands| ==> commands[i] != [] && NoSpace(commands[i])
    ensures SplitWhitespace(JoinCommand(commands)) == commands
  {
    SplitJoinedWords(commands);
  }

  /** `run_in_dir` for one invocation: the chdir into its directory, which
      may raise, then `check_output` with its error mapping: the output on a
      zero exit, a ShellException with the return code and the command line
      otherwise. */
  function Run(host: Host, inv: Invocation): (r: Result<string, Raised>)
    ensures r.Ok? <==> host.entersCwd(inv) && host.run(inv).returnCode == 0
    ensures r.Ok? ==> r.value == host.run(inv).output
    ensures !host.entersCwd(inv) ==> r == Err(ChdirFailed(inv.cwd))
    ensures host.entersCwd(inv) && r.Err? ==> r.error == ShellException(ShellError(host.run(inv).returnCode, CommandLine(inv)))
  {
    if !host.entersCwd(inv) then Err(ChdirFailed(inv.cwd))
    else
      var done := host.run(inv);
      if done.returnCode == 0 then Ok(done.output) else Err(ShellException(ShellError(done.returnCode, CommandLine(inv))))
  }

  /** A command that was started (or whose directory could not be entered)
      and what came of it. */
  datatype Ran<T> = Ran(inv: Invocation, result: Result<T, Raised>)

  /** What `Shell.run_in_dir(base_dir, commands, env)` starts and returns. */
  function RunIn(host: Host, baseDir: string, commands: seq<string>, env: Env): (c: Ran<string>)
    ensures c.inv == Invocation(baseDir, commands, env)
    ensures c.result == Run(host, c.inv)
  {
    var inv := Invocation(baseDir, commands, env);
    Ran(inv, Run(host, inv))
  }

  /** The process itself: its working directory and the children it has started. */
  class Process {
    var cwd: string
    var spawned: seq<Invocation>

    constructor (start: string)
      ensures cwd == start && spawned == []
    {
      cwd := start;
      spawned := [];
    }

    /** `Shell.run_in_dir` with `_in_dir`: save the working directory, change
        into `baseDir`, run the joined command there, and change back whether
        the command succeeded or failed. When the chdir itself raises, no
        child is started and the working directory is untouched. */
    method RunInDir(host: Host, baseDir: string, commands: seq<string>, env: Env)
      returns (r: Result<string, Raised>)
      modifies this
      ensures cwd == old(cwd)
      ensures host.entersCwd(Invocation(baseDir, commands, env)) ==>
                spawned == old(spawned) + [Invocation(baseDir, commands, env)]
      ensures !host.entersCwd(Invocation(baseDir, commands, env)) ==> spawned == old(spawned)
      ensures r == RunIn(host, baseDir, commands, env).result
    {
      var pwd := cwd;
      if !host.entersCwd(Invocation(baseDir, commands, env)) {
        return Err(ChdirFailed(baseDir));
      }
      cwd := baseDir;
      var inv := Invocation(cwd, commands, env);
      spawned := spawned + [inv];
      var done := host.run(inv);
      if done.returnCode == 0 {
        r := Ok(done.output);
      } else {
        r := Err(ShellException(ShellError(done.returnCode, JoinCommand(commands))));
      }
      cwd := pwd;
    }
  }

  // ---------------------------------------------------------------- Tox

  /** `["pyenv", "exec", "tox", "-e", tox_env]`, extended by the options when
      there are any. */
  function ToxWords(toxEnv: string, options: Option<seq<string>>): seq<string> {
    var command := ["pyenv", "exec", "tox", "-e", toxEnv];
    if options.Some? && options.value != [] then command + options.value else command
  }

  /** The tox command names the environment after `pyenv exec tox -e` and
      ends with exactly the options given, none or empty ones adding nothing. */
  lemma ToxWordsShape(toxEnv: string, options: Option<seq<string>>)
    ensures var words := ToxWords(toxEnv, options);
            && |words| >= 5 && words[..5] == ["pyenv", "exec", "tox", "-e", toxEnv]
            && (options.Some? ==> words[5..] == options.value)
            && (options.None? ==> |words| == 5)
  {
  }

  /** The environment tox runs in: `os.environ` with `PYENV_DIR` set to the
      absolute base directory. Tox sees every other variable unchanged, and
      nothing else is added. */
  function ToxEnviron(host: Host, baseDir: string): map<string, string> {
    host.environ["PYENV_DIR" := host.abspath(baseDir)]
  }

  lemma ToxEnvironVariables(host: Host, baseDir: string)
    ensures var env := ToxEnviron(host, baseDir);
            && env.Keys == host.environ.Keys + {"PYENV_DIR"}
            && env["PYENV_DIR"] == host.abspath(baseDir)
            && forall k :: k in host.environ && k != "PYENV_DIR" ==> env[k] == host.environ[k]
  {
  }

  /** The child `Tox.run(base_dir, tox_env, options)` starts. */
  function ToxInvocation(host: Host, baseDir: string, toxEnv: string, options: Option<seq<string>>): Invocation {
    Invocation(baseDir, ToxWords(toxEnv, options), Some(ToxEnviron(host, baseDir)))
  }

  /** `Tox.run(base_dir, tox_env, options)`: tox in `base_dir`, in the
      environment `ToxEnviron`; it raises what `run_in_dir` raises, and the
      output is discarded. */
  function ToxRun(host: Host, baseDir: string, toxEnv: string, options: Option<seq<string>>): (c: Ran<()>)
    ensures c.inv == ToxInvocation(host, baseDir, toxEnv, options)
    ensures c.result.Ok? <==> Run(host, c.inv).Ok?
    ensures c.result.Err? ==> c.result.error == Run(host, c.inv).error
    ensures c.result.Err? && !c.result.error.ShellException? ==> !host.entersCwd(c.inv) && c.result.error == ChdirFailed(baseDir)
  {
    var c := RunIn(host, baseDir, ToxWords(toxEnv, options), Some(ToxEnviron(host, baseDir)));
    Ran(c.inv, if c.result.Ok? then Ok(()) else Err(c.result.error))
  }

  /** The tox command line: `pyenv exec tox -e <env>`, then the options. */
  lemma ToxCommandLine(toxEnv: string, options: Option<seq<string>>)
    ensures JoinCommand(ToxWords(toxEnv, options))
            == "pyenv exec tox -e " + toxEnv + if options.Some? && options.value != [] then " " + JoinCommand(options.value) else ""
  {
    var base := ["pyenv", "exec", "tox", "-e", toxEnv];
    JoinCons(" ", "-e", [toxEnv]);
    JoinCons(" ", "tox", ["-e", toxEnv]);
    JoinCons(" ", "exec", ["tox", "-e", toxEnv]);
    JoinCons(" ", "pyenv", ["exec", "tox", "-e", toxEnv]);
    assert base == ["pyenv"] + ["exec", "tox", "-e", toxEnv];
    assert "pyenv" + " " + ("exec" + " " + ("tox" + " " + ("-e" + " " + toxEnv))) == "pyenv exec tox -e " + toxEnv;
    var extra := if options.Some? then options.value else [];
    JoinAppend(" ", base, extra);
    assert ToxWords(toxEnv, options) == base + extra;
  }

  // ---------------------------------------------------------------- Git

  /** `Git._git(base_dir, *args)`: `git` followed by the arguments, run in
      `base_dir` with the inherited environment. */
  function Git(host: Host, baseDir: string, args: seq<string>): (c: Ran<string>)
    ensures c.inv == Invocation(baseDir, ["git"] + args, None)
    ensures c.result == Run(host, c.inv)
  {
    RunIn(host, baseDir, ["git"] + args, None)
  }

  /** The line the shell is given for `git` and its arguments. */
  lemma GitCommandLine(args: seq<string>)
    ensures JoinCommand(["git"] + args) == if args == [] then "git" else "git " + JoinCommand(args)
  {
    JoinAppend(" ", ["git"], args);
  }

  /** `Git.clone(base_dir, git_location)`. */
  function Clone(host: Host, baseDir: string, gitLocation: string): (c: Ran<string>)
    ensures c.inv == Invocation(baseDir, ["git", "clone", gitLocation], None)
    ensures c.result == Run(host, c.inv)
  {
    Git(host, baseDir, ["clone", gitLocation])
  }

  /** `Git.checkout(base_dir, branch="master")`. */
  function Checkout(host: Host, baseDir: string, branch: string := "master"): (c: Ran<string>)
    ensures c.inv == Invocation(baseDir, ["git", "checkout", branch], None)
    ensures c.result == Run(host, c.inv)
  {
    Git(host, baseDir, ["checkout", branch])
  }

  /** Without a branch, `checkout` switches to "master". */
  lemma CheckoutDefaultsToMaster(host: Host, baseDir: string)
    ensures Checkout(host, baseDir).inv.words == ["git", "checkout", "master"]
  {
  }

  /** `Git.fast_forward(base_dir)`: a pull that refuses anything but a fast-forward. */
  function FastForward(host: Host, baseDir: string): (c: Ran<string>)
    ensures c.inv == Invocation(baseDir, ["git", "pull", "--ff-only"], None)
    ensures c.result == Run(host, c.inv)
  {
    Git(host, baseDir, ["pull", "--ff-only"])
  }

  /** `Git.is_clean(base_dir)`: clean exactly when `git status --porcelain`
      prints nothing. */
  function IsClean(host: Host, baseDir: string): (c: Ran<bool>)
    ensures c.inv == Invocation(baseDir, ["git", "status", "--porcelain"], None)
    ensures c.result.Ok? <==> host.entersCwd(c.inv) && host.run(c.inv).returnCode == 0
    ensures c.result.Ok? ==> (c.result.value <==> host.run(c.inv).output == [])
    ensures c.result.Err? ==> c.result.error == Run(host, c.inv).error
  {
    var c := Git(host, baseDir, ["status", "--porcelain"]);
    Ran(c.inv, if c.result.Ok? then Ok(c.result.value == []) else Err(c.result.error))
  }

  /** `Git.get_branch(base_dir)`: the output of `git rev-parse --abbrev-ref HEAD`
      without its surrounding whitespace. */
  function GetBranch(host: Host, baseDir: string): (c: Ran<string>)
    ensures c.inv == Invocation(baseDir, ["git", "rev-parse", "--abbrev-ref", "HEAD"], None)
    ensures c.result.Ok? <==> host.entersCwd(c.inv) && host.run(c.inv).returnCode == 0
    ensures c.result.Ok? ==> c.result.value == Strip(host.run(c.inv).output)
    ensures c.result.Err? ==> c.result.error == Run(host, c.inv).error
  {
    var c := Git(host, baseDir, ["rev-parse", "--abbrev-ref", "HEAD"]);
    Ran(c.inv, if c.result.Ok? then Ok(Strip(c.result.value)) else Err(c.result.error))
  }

  /** The line the shell is given to clone. */
  lemma CloneCommandLine(url: string)
    ensures JoinCommand(["git", "clone", url]) == "git clone " + url
  {
    JoinCons(" ", "clone", [url]);
    JoinCons(" ", "git", ["clone", url]);
    assert "git" + " " + ("clone" + " " + url) == "git clone " + url;
  }

  /** The line the shell is given to check out a branch. */
  lemma CheckoutCommandLine(branch: string)
    ensures JoinCommand(["git", "checkout", branch]) == "git checkout " + branch
  {
    JoinCons(" ", "checkout", [branch]);
    JoinCons(" ", "git", ["checkout", branch]);
    assert "git" + " " + ("checkout" + " " + branch) == "git checkout " + branch;
  }

  /** The line the shell is given to fast-forward. */
  lemma PullCommandLine()
    ensures JoinCommand(["git", "pull", "--ff-only"]) == "git pull --ff-only"
  {
    JoinCons(" ", "pull", ["--ff-only"]);
    JoinCons(" ", "git", ["pull", "--ff-only"]);
    assert "git" + " " + ("pull" + " " + "--ff-only") == "git pull --ff-only";
  }

  /** The line the shell is given to ask for the status. */
  lemma StatusCommandLine()
    ensures JoinCommand(["git", "status", "--porcelain"]) == "git status --porcelain"
  {
    JoinCons(" ", "status", ["--porcelain"]);
    JoinCons(" ", "git", ["status", "--porcelain"]);
    assert "git" + " " + ("status" + " " + "--porcelain") == "git status --porcelain";
  }
}
