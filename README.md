# superdev, modelled in Dafny

superdev is a developer-workstation bootstrap tool. It holds a catalog of git projects. For each project it clones the repository when it is missing. When the checkout exists it fast-forwards it, but only if the checkout is clean. It then prepares the project's tox environments (`tox -e <env> --notest` under `pyenv exec`) and looks up the checked-out branch. Finally it prints a coloured one-line-per-project summary, and when anything failed it shows a ten-second warning countdown. Next to this sits `bin/logger.py`, a supervisord event listener. It relays the log output of the supervised programs to its own stderr, each line behind the program's name padded to a common width. An older variant of the project manager, `h_supervisor_dev`, clones or resets-and-pulls each project and builds the environment for `make`.

The model is split into these modules:

- `Shell` (`shell.dfy`) models `src/superdev/shell.py`. It covers:
  - the command line that is run (the words joined by single spaces);
  - how a non-zero exit becomes a `ShellException`;
  - the `Process` class, whose `RunInDir` saves and restores the working directory;
  - the argument lists of every `Git` operation and of `Tox.run`, and the environment `Tox.run` passes;
  - `is_clean` and `get_branch` on the command's output.
- `SuperdevProject` (`superdev_project.dfy`) models `src/superdev/project.py`:
  - the repo step as a decision tree over the answers of git;
  - the tox step, as a specification function and as the loop the source runs;
  - `initialise` with its exception guard and the `"?????"` branch sentinel;
  - `ProjectManager.__init__`;
  - `_print_results` as a loop building the summary lines and the `all_good` flag;
  - the countdown;
  - `prepare_all`.
- `Logger` (`logger.dfy`) models `bin/logger.py`:
  - the header parser and the payload parser;
  - the `width` field, which only grows;
  - the prefixed relay of each payload line;
  - one turn of `main_loop`, as the class `StderrRedirect` whose fields are the width and the three standard streams. Each of its methods is proved against a pure function of the old state (`Iteration`, `Handle`, `LogEffect`, `ReadEvent`).
- `HsdProject` (`hsd_project.dfy`) models `src/h_supervisor_dev/project.py`:
  - `path` and `is_cloned`;
  - `update` (reset, then pull) and `clone`;
  - the environment `make` builds;
  - `_prep_project`'s clone-or-update decision, its two printed lines and its re-raise;
  - the catalog-to-projects mapping and `prepare_all`.
- `PyText`, `PyDict` and `Wrappers` hold the Python behaviour the code relies on:
  - `str.split()`, `split(c)`, `split(c, 1)`, `strip()`, `splitlines()`, `ljust`, `join`;
  - `int()` on decimal text, `str()` of an integer, and `posixpath.join`;
  - the insertion-ordered `dict`;
  - `Option` and `Result`.

Nothing is executed. Child processes, the filesystem and `os.environ` are the answers of an oracle datatype: `Shell.Host` for superdev and `HsdProject.World` for the older manager. Every function that runs commands returns the invocations it made, in order. That is how "no fast-forward is attempted" and "nothing runs after the failing environment" are stated. In `Shell`, `SuperdevProject` and `Logger` an exception is the `Err` value of a `Result`: `Shell.Raised` is either a `ShellException` or a failed `os.chdir`, and `Logger.Failure` is the `KeyError`, `ValueError` or unpacking error the listener can raise. In `HsdProject` an exception is the text in `Done.raised` or `Prep.raised`, an `Option<string>`.

Behaviour worth knowing:

- **Tox failure text.** The reason is `Tox prep failed for '<env>'`.
- **Unhandled-exception text.** The reason is `Unhandled exception: ShellException:<message>`. The message is `str()` of an `OSError` built from `(returncode, cmd)`, which is `"[Errno <code>] <cmd>"`.
- **One exception type is caught.** `initialise`, `_update_tox`, `_update_repo`'s fast-forward and `_get_branch` catch only `ShellException`. The exception carries the return code and the command line, not the captured output.
- **A directory that cannot be entered escapes.** `run_in_dir` changes into the directory before it starts the child. When that `os.chdir` fails it raises an `OSError`, which is not a `ShellException`. Nothing catches it, so `initialise` raises and `prepare_all` re-raises it. The common case: a clone that fails leaves no checkout, and the branch lookup then cannot enter it.
- **No tox step after a repo failure.** Environment preparation only runs when the repo step returned normally. A `ShellException` from `clone` or `is_clean` skips it.
- **Global working directory.** The working directory is changed process-wide with `os.chdir` and restored afterwards. It is not passed to the spawned process.
- **Default branch.** The branch that is not highlighted, and the default of `checkout`, is `"master"`.
- **Report order.** The summary follows catalog order, because `Pool.map` keeps the input order.

## Model

| member | source | states |
|---|---|---|
| Shell.Message | src/superdev/shell.py:9-30 | the exception text starts with "[Errno " and ends with the command line |
| Shell.CommandWords | src/superdev/shell.py:28 | for words without whitespace, Python's whitespace split (`str.split()`) of the space-joined line gives back exactly the argument list |
| Shell.Run | src/superdev/shell.py:16-41 | the chdir comes first: when the directory cannot be entered the result is a chdir failure naming it, not a ShellException; otherwise success iff exit code 0, with the output, and ShellException(code, joined line) on a non-zero exit |
| Shell.RunIn | src/superdev/shell.py:16-30 | `run_in_dir(base_dir, commands, env)` makes one invocation in `base_dir` with those words and that environment, and returns or raises what `Run` says |
| Shell.Process.constructor | src/superdev/shell.py:35 | the process starts in its initial directory with no children spawned |
| Shell.Process.RunInDir | src/superdev/shell.py:16-41 | the working directory after the call equals the one before, whether the call returns or raises; a child is spawned, running in `base_dir`, iff the directory can be entered; the result is that of `RunIn` |
| Shell.ToxWordsShape | src/superdev/shell.py:60-63 | tox's argv is `pyenv exec tox -e <env>`, followed by the options exactly when they are given |
| Shell.ToxEnvironVariables | src/superdev/shell.py:68 | tox's environment is `os.environ` plus PYENV_DIR = abspath(base_dir), every other variable unchanged |
| Shell.ToxRun | src/superdev/shell.py:52-69 | tox runs in `base_dir` with the tox argv in the PYENV_DIR environment; it fails iff `Run` fails, with `Run`'s error; an error that is not a ShellException is the failed chdir into `base_dir` |
| Shell.ToxCommandLine | src/superdev/shell.py:60-63 | the tox command line is "pyenv exec tox -e <env>" followed by " " and the options only when there are any |
| Shell.Git | src/superdev/shell.py:134-139 | every git operation runs `["git"] + args` in `base_dir` with the inherited environment |
| Shell.GitCommandLine | src/superdev/shell.py:135-139 | the git command line is "git" followed by the space-joined arguments |
| Shell.Clone | src/superdev/shell.py:80-88 | clone runs `git clone <url>` in the base directory |
| Shell.CloneCommandLine | src/superdev/shell.py:88 | the shell is given "git clone <url>" |
| Shell.Checkout | src/superdev/shell.py:90-98 | checkout runs `git checkout <branch>` |
| Shell.CheckoutDefaultsToMaster | src/superdev/shell.py:91 | without a branch, checkout switches to "master" |
| Shell.CheckoutCommandLine | src/superdev/shell.py:98 | the shell is given "git checkout <branch>" |
| Shell.FastForward | src/superdev/shell.py:100-107 | fast-forward runs `git pull --ff-only` |
| Shell.PullCommandLine | src/superdev/shell.py:107 | the shell is given "git pull --ff-only" |
| Shell.IsClean | src/superdev/shell.py:109-118 | `status --porcelain` is run; it answers iff the checkout can be entered and the command exits 0, and then the checkout is clean iff the output is empty; otherwise it raises what `Run` raises |
| Shell.StatusCommandLine | src/superdev/shell.py:118 | the shell is given "git status --porcelain" |
| Shell.GetBranch | src/superdev/shell.py:120-132 | runs `git rev-parse --abbrev-ref HEAD`; on success the branch is its output with surrounding whitespace stripped; otherwise it raises what `Run` raises |
| PyText.StripEnds | src/superdev/shell.py:131 | what strip keeps is empty or neither starts nor ends with whitespace |
| PyText.StripWordLine | src/superdev/shell.py:128-132 | a branch name printed on its own line strips back to the name |
| PyText.PathJoinShape | src/superdev/project.py:24-27 | `os.path.join`: an absolute name replaces the base; otherwise the result is the base and the name with one "/" between them, unless the base is empty or already ends with "/" |
| PyText.Ljust | src/superdev/project.py:137-138 | `ljust` keeps the text, pads with spaces to the width and never truncates |
| SuperdevProject.ProjectPathOf | src/superdev/project.py:24-27 | the checkout directory ends with the project's name: the name itself when it is absolute, otherwise under the base directory with one "/" between them |
| SuperdevProject.UpdateRepo | src/superdev/project.py:67-85 | the repo step runs one or two commands and returns one of (True, "Cloned"), (True, "Updated"), (False, "Could not fast-forward"), (False, "Uncommitted changes"), or raises; a chdir failure it raises happened at the last command it ran |
| SuperdevProject.MissingCheckoutIsCloned | src/superdev/project.py:68-71 | a missing checkout is cloned and nothing else is run; the step succeeds with (True, "Cloned") iff the clone succeeds, and otherwise raises the clone's own error, a chdir failure naming the base directory when that cannot be entered |
| SuperdevProject.ClonedExactly | src/superdev/project.py:68-71 | (True, "Cloned") iff the checkout was missing and the clone succeeded |
| SuperdevProject.ExistingCheckoutIsChecked | src/superdev/project.py:73-85 | an existing checkout is never cloned: status is asked first, then at most a fast-forward; a failing status check ends the step with its error |
| SuperdevProject.UpdatedExactly | src/superdev/project.py:73-82 | (True, "Updated") iff the checkout exists, is clean and fast-forwards |
| SuperdevProject.CouldNotFastForwardExactly | src/superdev/project.py:73-82 | (False, "Could not fast-forward") iff the clean checkout's fast-forward raises a ShellException; nothing runs after it |
| SuperdevProject.FastForwardChdirEscapes | src/superdev/project.py:73-82 | a clean checkout whose fast-forward cannot enter it makes the repo step raise that chdir failure, which the fast-forward guard does not catch |
| SuperdevProject.DirtyCheckoutIsLeftAlone | src/superdev/project.py:73-85 | (False, "Uncommitted changes") iff the checkout exists and is dirty; a fast-forward is attempted iff the checkout exists and is clean |
| SuperdevProject.ToxPrep | src/superdev/project.py:55-65 | the tox step runs at most one command per listed environment, and the only thing it raises is the failed chdir into the project path |
| SuperdevProject.ToxPrepEscapes | src/superdev/project.py:55-65 | when the tox step raises, its last command is one whose directory could not be entered |
| SuperdevProject.ToxPrepOnlyDowngrades | src/superdev/project.py:55-65 | the tox step keeps the incoming status or replaces it by a failure naming one of the listed environments |
| SuperdevProject.ToxPrepAllSucceed | src/superdev/project.py:57-65 | when every environment prepares, each runs once in order and the incoming status is returned unchanged |
| SuperdevProject.ToxPrepFirstFailure | src/superdev/project.py:58-63 | the first environment that does not prepare decides: a ShellException gives (False, "Tox prep failed for '<env>'") whatever came in, a chdir failure escapes; the environments up to it ran in order and none after it |
| SuperdevProject.PrepareEnvs | src/superdev/project.py:57-63 | the loop over the environments, with its early return, gives exactly the result and the commands of `ToxPrep` |
| SuperdevProject.UpdateTox | src/superdev/project.py:55-65 | `_update_tox` on the project's path and tox list gives the result and the commands of `ToxPrep` |
| SuperdevProject.Prepared | src/superdev/project.py:39-53 | when the repo step returns, its commands come first; whatever the guarded part raises is a chdir failure at the last command it ran |
| SuperdevProject.AfterRepo | src/superdev/project.py:39-53 | a repo step that raises ends the guarded part with its own commands, a chdir failure passing through unchanged; a repo step that returns is followed by the tox step on its status: the result is the tox step's, raise included, and the commands are the repo step's then the tox step's |
| SuperdevProject.RepoFailureSkipsTox | src/superdev/project.py:39-53 | when the repo step raises, no tox command runs: a ShellException becomes (False, "Unhandled exception: ShellException:<msg>") and a chdir failure escapes |
| SuperdevProject.FailedCloneReported | src/superdev/project.py:39-45 | a clone that raises a ShellException gives (False, "Unhandled exception: ShellException:<msg>") with the clone's own message, after the clone alone |
| SuperdevProject.ToxChdirEscapes | src/superdev/project.py:39-63 | when the first environment that does not prepare cannot enter the checkout, the guarded part raises that chdir failure, after the repo commands and the tox commands up to that environment |
| SuperdevProject.ToxFailureOverrides | src/superdev/project.py:48-63 | a failing environment turns even a successful clone or update into a failure naming it |
| SuperdevProject.ToxSuccessKeepsStatus | src/superdev/project.py:48-65 | when all environments prepare, the repo step's status is the project's status |
| SuperdevProject.Initialise | src/superdev/project.py:34-46 | the triple comes back iff the guarded part returns and the branch lookup can enter the checkout; it carries the project's name and the guarded part's status; otherwise the chdir failure escapes, raised at the last command run |
| SuperdevProject.InitialiseTrace | src/superdev/project.py:34-46 | the commands are those of the guarded part and, when it returns, the branch lookup last |
| SuperdevProject.InitialiseBranch | src/superdev/project.py:90-94 | the branch of the triple is "?????" when the lookup raises a ShellException, otherwise the lookup's output stripped |
| SuperdevProject.AlwaysTriple | src/superdev/project.py:34-46 | when every directory can be entered, `initialise` always returns the triple |
| SuperdevProject.FailedCloneEscapes | src/superdev/project.py:34-46 | a failed clone gives the guarded part a failure status, but the branch lookup cannot enter the missing checkout, so `initialise` raises the chdir failure instead of returning |
| SuperdevProject.BranchNeverAltersStatus | src/superdev/project.py:46 | whatever the branch lookup answers, the status is the one computed without it |
| SuperdevProject.Row | src/superdev/project.py:136-151 | a summary line starts with the name padded to 10 and ends with a colour reset; it has 7 pieces for "master" and 9, with the highlight, for any other branch |
| SuperdevProject.BranchCellText | src/superdev/project.py:138-143 | the branch column shows "(branch)" padded to 30 |
| SuperdevProject.StatusCellText | src/superdev/project.py:145-148 | the status column shows " " then " OK: " or "ERR: " then the reason |
| SuperdevProject.RowText | src/superdev/project.py:136-151 | without colour codes a line is the name padded to 10, "(branch)" padded to 30, then the status column |
| SuperdevProject.RowColours | src/superdev/project.py:140-151 | the branch is highlighted iff it is not "master"; green iff success, red iff failure; every line ends with a colour reset |
| SuperdevProject.RowColumns | src/superdev/project.py:137-148 | for names up to 10 and branches up to 28 characters, the branch column starts at 10, the status at 40 and the reason at 46 |
| SuperdevProject.FormatLine | src/superdev/project.py:136-151 | the loop body builds exactly the summary line of the result |
| SuperdevProject.PrintLine | src/superdev/project.py:136-151 | one turn adds exactly that result's line, and clears `all_good` iff the result failed |
| SuperdevProject.PrintResults | src/superdev/project.py:129-155 | a blank line, one line per result in the order given, a blank line; `all_good` iff every result succeeded |
| SuperdevProject.CountdownLine | src/superdev/project.py:160-162 | a tick is red and, without colour codes, reads "Something above isn't right. Pausing <sec> \r" |
| SuperdevProject.IssueWarningCountdown | src/superdev/project.py:157-164 | exactly ten ticks, for 10, 9, ..., 1 seconds in that order |
| SuperdevProject.NewManager | src/superdev/project.py:106-112 | one project per catalog entry, keyed by its own name, in catalog order, under the base directory, with the entry's URL and tox list |
| SuperdevProject.PrepareAll | src/superdev/project.py:114-123 | it returns iff no project raises out of `initialise`, and then gives one outcome per project in catalog order, each that project's `initialise`, the summary of those outcomes, and the countdown iff some project failed, its ten ticks for 10, 9, ..., 1 seconds in order; otherwise it raises the error of a project that raised |
| Logger.HeaderOf | bin/logger.py:97-99 | a failure names one of the tokens that is not a key:value pair; a header has at most one entry per token |
| Logger.HeaderOfOk | bin/logger.py:97-99 | the tokens make a dict iff each splits at ':' into exactly two parts; otherwise the error names the first token that does not |
| Logger.ParseHeader | bin/logger.py:97-99 | a failure names a whitespace-separated token of the line that does not split at ':' into two parts; the header has at most one entry per token |
| Logger.ParseHeaderOk | bin/logger.py:97-99 | a header line parses iff each whitespace-separated token holds exactly one ':' |
| Logger.ParseFormattedHeader | bin/logger.py:97-99 | a header line written as space-separated `key:value` tokens parses back to those pairs, a repeated key keeping its last value |
| PyText.SplitJoinedWords | bin/logger.py:99 | `split()` of words joined with single spaces gives back the words |
| PyText.SplitWhitespaceWords | bin/logger.py:99 | every token `split()` returns is non-empty and free of whitespace |
| PyText.SplitCharCount | bin/logger.py:99 | `split(":")` returns one more part than there are colons |
| PyText.SplitCharJoin | bin/logger.py:99 | no part of `split(c)` holds `c`, and joining the parts with `c` gives the text back |
| PyText.SplitOnce | bin/logger.py:102 | `split("\n", 1)` fails to unpack iff there is no newline; otherwise the parts rejoin to the payload and the first holds no newline |
| Logger.ParsePayload | bin/logger.py:101-105 | the payload fails to unpack exactly when it holds no newline; any other failure is a malformed header token or a missing "processname" |
| Logger.PayloadSplit | bin/logger.py:101-105 | a payload that parses is its header line, the first newline and the data; the header line names the process |
| Logger.PayloadLines | bin/logger.py:101-111 | the lines come back iff the payload parses, with the payload's error otherwise; no returned line holds a line boundary |
| Logger.StderrNameSuffix | bin/logger.py:101-105 | a stderr payload is named like the stdout one plus ":ERR", with the same lines |
| Logger.ProcessNameHeader | bin/logger.py:102-105 | the payload header "processname:<name>" parses to that name |
| Logger.NamedPayload | bin/logger.py:101-111 | a payload "processname:<name>\n<data>" gives the name (with ":ERR" for stderr) and the lines of the data |
| PyText.SplitLines | bin/logger.py:111 | no line of `splitlines()` holds a line boundary |
| PyText.SplitJoinedLines | bin/logger.py:111-112 | lines written one per "\n" are read back by `splitlines()` unchanged |
| Logger.RenderLines | bin/logger.py:109-112 | the relayed text is exactly one line per data line, in order, each the prefix followed by the data line |
| Logger.PrefixAligned | bin/logger.py:107-109 | once the width covers the name, the prefix is width + 3 long, starts with the name and ends with the space-bar-space separator |
| Logger.MaxLenIsMax | bin/logger.py:73-107 | the width is at least every relayed name's length, and is 0 or one of them |
| Logger.LineOf | bin/logger.py:80 | `readline()` returns a prefix of the input: when there is a "\n", everything up to and including the first one; otherwise the whole input |
| Logger.ReadCount | bin/logger.py:81 | `read(n)` takes exactly n characters when 0 <= n and that many are left, and everything left when n is negative or larger |
| PyText.ParseInt | bin/logger.py:81 | `int()` succeeds iff the text is an optional sign followed by at least one ASCII digit |
| PyText.ParseIntToString | bin/logger.py:81 | `int(str(n)) == n` |
| Logger.ReadEvent | bin/logger.py:80-81 | reading an event fails only with a malformed header token, a missing "len" or a non-integer "len"; an event that is read has an integer "len" |
| Logger.ReadEventOf | bin/logger.py:80-81 | reading an event fails with the header's error, a missing "len", or a non-integer "len"; otherwise it reads the payload after the header line |
| Logger.ReadEventExactly | bin/logger.py:80-81 | the input is the header line, the payload and the rest; the payload is exactly "len" characters long when that many are available |
| Logger.LogEffect | bin/logger.py:101-112 | `_log_payload` succeeds iff the payload's lines come back, with their error otherwise; it logs the one name, and the new width is the larger of the old width and the name's length |
| Logger.LogEffectOf | bin/logger.py:101-112 | the new width is the larger of the old width and the name's length; the relayed text is the data lines behind the name padded to it |
| Logger.Handle | bin/logger.py:83-90 | a missing event name is a KeyError; stdout output is relayed under the plain process name and stderr output under the name with ":ERR" (`LogEffect` with the err flag off or on); an event that is neither stdout nor stderr output changes nothing; the width never narrows and covers every name logged |
| Logger.Iteration | bin/logger.py:78-90 | every turn writes "READY\n" first; a turn completes iff it writes exactly READY then "RESULT 2\nOK"; a failed turn relays nothing and keeps the width |
| Logger.IterationOf | bin/logger.py:78-90 | a turn fails with the read or handling error, or completes with the handled effect and acknowledges |
| Logger.StderrRedirect.constructor | bin/logger.py:73 | the listener starts with width 0 and nothing written |
| Logger.StderrRedirect.Write | bin/logger.py:92-95 | `_write` appends exactly one message to stdout and changes nothing else |
| Logger.StderrRedirect.ReadLine | bin/logger.py:80 | `readline` consumes and returns the first line of stdin |
| Logger.StderrRedirect.Read | bin/logger.py:81 | `read(n)` consumes and returns the next `ReadCount` characters of stdin |
| Logger.StderrRedirect.Widen | bin/logger.py:107 | the width becomes the larger of itself and the name's length and stays the widest name relayed |
| Logger.StderrRedirect.WriteLines | bin/logger.py:111-112 | the loop appends one prefixed line per data line, in order, to stderr |
| Logger.StderrRedirect.LogPayload | bin/logger.py:101-114 | `_log_payload` changes the width and stderr as `LogEffect` says, or fails with its error and changes nothing |
| Logger.StderrRedirect.Dispatch | bin/logger.py:83-88 | the event name selects stdout or stderr relaying and anything else is only acknowledged, as `Handle` says; a missing name is an error |
| Logger.StderrRedirect.ReceiveEvent | bin/logger.py:80-81 | reading consumes the header line and the payload, as `ReadEvent` says |
| Logger.StderrRedirect.Step | bin/logger.py:75-90 | one turn of `main_loop` leaves the width, stdout, stderr and stdin as `Iteration` says, and keeps the width equal to the widest name relayed |
| HsdProject.PathOf | src/h_supervisor_dev/project.py:16-18 | the project path ends with the name: the name itself when it is absolute, otherwise under the base directory with one "/" between them |
| HsdProject.Update | src/h_supervisor_dev/project.py:24-26 | update resets HEAD in the project path first and pulls iff the reset went through; it raises the reset's own error when the reset fails, and the pull's when the pull does; it succeeds iff both do |
| HsdProject.Clone | src/h_supervisor_dev/project.py:28-29 | clone is one `git clone` of the project's URL in the base directory, and raises what that call raises |
| HsdProject.Home | src/h_supervisor_dev/project.py:32 | `expanduser` takes the home directory from HOME when it is set, and from the password database otherwise |
| HsdProject.PyenvDir | src/h_supervisor_dev/project.py:32 | the pyenv directory is the home directory without its trailing slashes, followed by "/.pyenv" |
| HsdProject.RStripSlash | src/h_supervisor_dev/project.py:32 | the home directory loses exactly its trailing slashes |
| HsdProject.MakeEnv | src/h_supervisor_dev/project.py:34-39 | make's environment is `os.environ` with PATH extended, PYENV_SHELL = "bash" and PYENV_ROOT = the pyenv directory added, every other variable unchanged |
| HsdProject.PyenvPathExtends | src/h_supervisor_dev/project.py:35 | the new PATH starts with the old one and ends with "<pyenv>/bin" |
| HsdProject.BuildMakeEnv | src/h_supervisor_dev/project.py:34-39 | the copy-and-mutate lines build exactly `MakeEnv`, and raise KeyError 'PATH' iff PATH is unset |
| HsdProject.Make | src/h_supervisor_dev/project.py:31-40 | `make <command>` runs in the project path in that environment; nothing runs when PATH is unset |
| HsdProject.Attempt | src/h_supervisor_dev/project.py:58-63 | a project that is not cloned is cloned and nothing else; a cloned one is reset first and never cloned |
| HsdProject.PrepProject | src/h_supervisor_dev/project.py:56-73 | the calls and the exception are those of the clone or update; two lines are printed, the announcement first; a failure is reported with its message and re-raised unchanged; a success is reported as complete |
| HsdProject.NewManager | src/h_supervisor_dev/project.py:48-54 | one project per catalog entry, keyed by its own name, in catalog order, under the base directory |
| HsdProject.PrepareAll | src/h_supervisor_dev/project.py:75-82 | one preparation per catalog project |
| HsdProject.PrepareAllPreparesEach | src/h_supervisor_dev/project.py:75-82 | the i-th project is prepared with the calls of its own clone or update, whatever the others do, and raises iff they do |
| HsdProject.PrepareAllFailsOnlyIf | src/h_supervisor_dev/project.py:71-82 | `prepare_all` fails only if some project's clone or update raised |
| HsdProject.PrepareAllFailsIf | src/h_supervisor_dev/project.py:71-82 | any project whose clone or update raises makes `prepare_all` fail |

## Left out

- Child processes (git, tox, pyenv, make) are not run. Their exit codes and output are the answers of the `Host` or `World` oracle, keyed by the exact invocation. Whether a directory can be entered is an oracle answer as well.
- Shell.CommandWords: what `/bin/sh` does with the joined line (quotes, backslashes, `$`, `;`, `|`, `&`, globs) is not modelled; the round trip is stated for Python's `str.split()` only.
- `os.getcwd()` failing, and the restoring `os.chdir(pwd)` failing, are not modelled: the directory is always restored.
- `multiprocessing.Pool` and `cpu_count`: the projects are prepared one after another. Only the order of `Pool.map`'s results is modelled. So is the fact that every project is prepared even when another fails. The parallelism itself, with each worker process preparing its projects one at a time in its own working directory, is not modelled.
- SuperdevProject.PrepareAll: when several projects raise, which exception `Pool.map` re-raises is not stated; the model raises the error of one of them.
- Filesystem existence (`os.path.exists`) is an oracle input. The directory creation in `bin/initialise_projects.py` is not modelled, and neither is the rest of that script, which only calls `prepare_all`.
- Loading the catalog with `json.load` and `pkg_resources` is left out; the catalog is an input. The `TypeError` that `Project(base_dir, name, **data)` raises for a malformed entry is not modelled: in superdev that is an entry without `git_url` or with a `name` or `base_dir` key (other extra keys are absorbed by `**kwargs`, and only `services` and `tox_init` are read), and in h_supervisor_dev an entry without `git_url` or with a key other than `git_url` and `services`.
- `colorama` escape codes and `init()`: colours are abstract `Colour` markers in the summary lines.
- `sleep(1)` in the countdown: only the ticks printed are modelled.
- The `_report` progress lines of superdev's `Project` are not modelled. These are "Cloning...", "Updating...", the two "skipping update" notices, "Initialising tox env ...", "Complete" and "Failed with error". The summary printed by `_print_results` is modelled.
- Real stdin, stdout and stderr: they are strings and sequences on the listener. stdout holds one element per flushed `_write`.
- The unbounded `while True` of `main_loop`: one turn, `StderrRedirect.Step`, is modelled. A turn that raises ends the listener, and what it left unread on stdin is not stated.
- PyText.ParseInt: `int()` accepting surrounding whitespace, underscores or non-ASCII digits is not modelled. Header values come from `split()` and hold no whitespace, and the other forms are treated as errors.
- UTF-8 decoding of `get_branch`'s output: outputs are text already.
- `os.path.abspath`: an oracle of the `Host`.
- HsdProject.Home: the password-database entry that `expanduser` falls back to is an input of the `World`; a lookup that finds no entry is not modelled.
- h_supervisor_dev.shell is not part of this model. `Git.reset_head`, `Git.pull`, `Git.clone` and `Shell.run_in_dir` of that package are `Command`s whose exception text the `World` gives.
- The interleaving of lines printed by concurrent `_prep_project` workers is not modelled. The services branch of `_prep_project` is commented out in the source and is not modelled.
- PyText.Strip: its contract is stated only through `StripEnds` and `StripWordLine`, not as a full characterisation of the characters removed.
- HsdProject.PrepareAll: the failure flag is characterised by `PrepareAllFailsOnlyIf` and `PrepareAllFailsIf` rather than by the function's own contract.
