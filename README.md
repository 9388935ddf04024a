# git:update — a Dafny model

UNIT3D's `git:update` console command updates a deployed site to the tip of
the remote `master` branch without losing local, unversioned state. It runs
a fixed sequence of phases:

1. **backup** — clear a staging directory (`storage_path('gitupdate')`), recreate
   it with the subdirectories `public`, `resources` and `resources/views`, then
   `cp -Rfp` every preserved path (`.env`, `laravel-echo-server.json`, `config`,
   `public/files`, `resources/views/emails`) from the application root into it;
2. **git** — `git stash`, `git checkout master`, `git fetch origin`,
   `git reset --hard origin/master`, `git pull origin master`;
3. **restore** — copy every staged path back into its parent directory under the
   application root;
4. **composer** — `composer install`;
5. **migrations** — the artisan command `migrate`;
6. **compile** — `npm install`, `npm run prod`;
7. **clear** — the artisan command `clear:all`;

and then it prints a closing message. Every shell line goes through one batch
executor. It echoes the line and runs it. It reports a timeout, then the
error output if the run was not successful, and finally prints the standard
output. A command that fails or times out never stops the batch or the run:
the next line and the next phase still run. An exception does stop the run
(a process that cannot be launched, or an error inside an artisan call); the
model covers only runs where no exception escapes.

The model has six files:

- `paths.dfy` — module `Wrappers` (an `Option` type) and module `Paths`. `Paths`
  holds PHP's `dirname` for the relative paths the command passes it, and the
  last path component (`Basename`), and proves
  that they split a path and join back into it.
- `shell.dfy` — module `Shell`: the shapes of the lines the command builds
  (`rm -rf`, `mkdir`, `cp -Rfp`, literal lines), built by plain concatenation
  as in the source. `Parse` reads a line back into its words, so facts can be
  stated about the operands of the lines actually issued.
- `plan.dfy` — module `Plan`: the preserved paths, the backup and restore
  lines, and the fixed git, composer and asset command lists, with lemmas
  about how the paths map between them.
- `executor.dfy` — module `Executor`: the outcome oracle, the console events,
  the log of one command (`CommandLog`), of a batch (`BatchLog`) and of a list
  of phase steps (`StepsLog`), and projections of a log (echoed commands,
  printed outputs, errors, phase messages).
- `pipeline.dfy` — module `Pipeline`: the phases of one run as a list of steps,
  and the facts about their order.
- `updater.dfy` — module `Updater`: the command as the class `GitUpdate`. Its
  fields are the list of lines started and the console log. `Process` loops
  over a batch, running each command with `RunCommand`, and each phase method and `Handle` is proved against the
  specification functions above.

The outside world is a parameter. `base_path()` is the string `root`, and
`base_path(x)` for a non-empty `x` is `root + "/" + x`. `storage_path('gitupdate')`
is the string `staging`. The process library is a `Runner`: a function from
(run number, command line, timeout in seconds) to an `Outcome`. An outcome
holds a success flag, a timed-out flag, the standard output and the error
output. Run numbers count the lines started, so the same line may have
different outcomes at different points of a run.

The literal lists of the command are constants of the model rather than
functions: `Plan.Preserved` is `$paths` (gitUpdate.php:42-48),
`Plan.GitCommands` the git list (:148-154), `Plan.ComposerCommands` the
composer list (:174-176) and `Plan.CompileCommands` the asset list
(:185-188). In module `Pipeline`, `GitPhase`, `ComposerPhase`,
`MigrationsPhase`, `CompilePhase` and `ClearPhase` are the bodies of `git()`
(:146-156), `composer()` (:172-178), `migrations()` (:200-202), `compile()`
(:183-190) and `clear()` (:195), each as an optional message followed by a
batch or an artisan call; the message constants are the texts of
:122, :127, :146, :161, :172, :183 and :200.

## Model

| member | source | states |
|---|---|---|
| `Paths.LastIndexOf` | app/Console/Commands/gitUpdate.php:165 | the position found holds the separator and no separator follows it; none is found exactly when the string has no separator |
| `Paths.Dirname` | app/Console/Commands/gitUpdate.php:165 | `dirname` is "." for a path without a separator; otherwise it is the proper prefix before the last separator |
| `Paths.Basename` | app/Console/Commands/gitUpdate.php:165 | the last component holds no separator and is the suffix after the last separator, or the whole path when there is none |
| `Paths.DirnameJoinsBasename` | app/Console/Commands/gitUpdate.php:165 | `dirname(p)` joined with the last component of `p` gives back `p`; without a separator, `dirname(p)` is "." and the last component is `p` |
| `Paths.DirnameOfJoin` | app/Console/Commands/gitUpdate.php:139 | a separator-free name joined under a directory has that directory as `dirname` and itself as last component |
| `Paths.BasenameOfJoin` | app/Console/Commands/gitUpdate.php:165 | the staged copy of a path has the same last component as the path |
| `Shell.Render` | app/Console/Commands/gitUpdate.php:129-139 | the line of a command: `rm -rf `, `mkdir ` or `cp -Rfp ` followed by the operands joined with single spaces, or a literal line as it is |
| `Shell.IndexOf` | app/Console/Commands/gitUpdate.php:139 | the first occurrence found holds the character and none precedes it; none is found exactly when the character is absent |
| `Shell.Parse` | app/Console/Commands/gitUpdate.php:129-139 | reading a line back into a command loses nothing: rendering the result gives the line |
| `Shell.ParseCopy` | app/Console/Commands/gitUpdate.php:139 | reading a `cp -Rfp` line back into a copy loses nothing |
| `Shell.ParseRender` | app/Console/Commands/gitUpdate.php:129-139 | a line built from plain-word operands reads back as the same command |
| `Shell.RenderInjective` | app/Console/Commands/gitUpdate.php:129-139 | two well-formed commands give the same line exactly when they are the same command |
| `Plan.BasePath` | app/Console/Commands/gitUpdate.php:139 | `base_path(rel)`: the application root alone for an empty `rel`, otherwise the root, a separator and `rel` |
| `Plan.StagedPath` | app/Console/Commands/gitUpdate.php:139 | where a path is kept during the update: the staging directory, a separator and the path |
| `Plan.StagingDirs` | app/Console/Commands/gitUpdate.php:130-134 | the four directories the backup creates, in creation order: S, S/public, S/resources, S/resources/views |
| `Plan.BackupPrefix` | app/Console/Commands/gitUpdate.php:129-135 | the first batch of the backup: `rm -rf S`, then `mkdir` of each staging directory in order |
| `Plan.BackupCopy` | app/Console/Commands/gitUpdate.php:139 | the backup line for one path: `cp -Rfp` from the path under the root to the same path under S |
| `Plan.BackupCopies` | app/Console/Commands/gitUpdate.php:137-141 | one backup line per preserved path, in list order |
| `Plan.BackupPlan` | app/Console/Commands/gitUpdate.php:129-141 | every line the backup phase starts: the prefix, then the copies |
| `Plan.RestoreTarget` | app/Console/Commands/gitUpdate.php:165 | `base_path(dirname(p) . DIRECTORY_SEPARATOR)`: the root, a separator, `dirname(p)` and a trailing separator |
| `Plan.RestoreCopy` | app/Console/Commands/gitUpdate.php:165 | the restore line for one path: `cp -Rfp` from the staged path into its restore target |
| `Plan.RestorePlan` | app/Console/Commands/gitUpdate.php:163-167 | one restore line per preserved path, in list order |
| `Plan.CopyInto` | app/Console/Commands/gitUpdate.php:165 | where `cp` puts a copy made into an existing directory given with a trailing separator: that directory followed by the last component of the source |
| `Plan.PreservedWellFormed` | app/Console/Commands/gitUpdate.php:42-48 | the preserved paths are plain words and pairwise distinct |
| `Plan.PreservedParents` | app/Console/Commands/gitUpdate.php:42-48 | `.env`, `laravel-echo-server.json` and `config` have no separator; `dirname` of `public/files` is `public`, and of `resources/views/emails` it is `resources/views` |
| `Plan.BackupPrefixShape` | app/Console/Commands/gitUpdate.php:129-135 | the backup has 5 + (number of paths) lines; the first is `rm -rf S`, then `mkdir` of S, S/public, S/resources and S/resources/views, in that order |
| `Plan.StagingDirsParentsFirst` | app/Console/Commands/gitUpdate.php:131-134 | each staging subdirectory's parent is created before it: public and resources under S, resources/views under S/resources |
| `Plan.BackupCopiesShape` | app/Console/Commands/gitUpdate.php:137-141 | after the prefix, line 5 + k is exactly `cp -Rfp root/p S/p` for the k-th preserved path `p`, in list order |
| `Plan.RestorePlanShape` | app/Console/Commands/gitUpdate.php:163-167 | the restore has one line per path, in list order; line k is exactly `cp -Rfp S/p root/dirname(p)/` |
| `Plan.RestoreReadsBackup` | app/Console/Commands/gitUpdate.php:137-167 | the restore walks the paths in the backup's order; the k-th restore copy reads the target of the k-th backup copy |
| `Plan.RestoreLanding` | app/Console/Commands/gitUpdate.php:165 | copying `S/p` into `root/dirname(p)/` lands at `root/p` when `p` has a separator, and at `root/./p` when it has none |
| `Plan.StagedParent` | app/Console/Commands/gitUpdate.php:139 | the parent of the staged copy of `p` is S, or S joined with `dirname(p)` |
| `Plan.BackupCopyReads` | app/Console/Commands/gitUpdate.php:139 | the backup line of a plain-word path reads back as the copy from `root/p` to `S/p` |
| `Plan.RestoreCopyReads` | app/Console/Commands/gitUpdate.php:165 | the restore line of a plain-word path reads back as the copy from `S/p` into `root/dirname(p)/` |
| `Plan.BackupTargetsHaveParents` | app/Console/Commands/gitUpdate.php:129-141 | for every preserved path, the parent of its backup target is created by one of the `mkdir` lines of the prefix |
| `Plan.PreservedCopies` | app/Console/Commands/gitUpdate.php:42-48 | for the command's own list and any plain-word root and S: the k-th backup copy reads back as `cp -Rfp root/p S/p` and the k-th restore copy as `cp -Rfp S/p root/dirname(p)/`, for each of the five paths |
| `Plan.PreservedLandings` | app/Console/Commands/gitUpdate.php:163-167 | for the command's own list, each restore copy lands at `root/p`: directly for `public/files` and `resources/views/emails`, through `root/.` for the three top-level paths |
| `Executor.TimeoutMessage` | app/Console/Commands/gitUpdate.php:224 | the timeout report for a command: the command in single quotes followed by ` timed out. Please run manually!` |
| `Executor.OutcomeOf` | app/Console/Commands/gitUpdate.php:211-215 | the outcome of a command line started with the 3600-second timeout: what the runner gives for that run number |
| `Executor.CommandLog` | app/Console/Commands/gitUpdate.php:209-236 | the events of one command: its echo, then the timeout report when it timed out, then its error output when it was not successful, then its standard output |
| `Executor.BatchLog` | app/Console/Commands/gitUpdate.php:205-237 | the events of a batch: each command's log in order, command k with the outcome of run number n + k |
| `Executor.CommandLogShape` | app/Console/Commands/gitUpdate.php:207-237 | one command logs its echo first and its standard output last, with only error reports between: the timeout report right after the echo, and the error output last before the output when it failed |
| `Executor.CommandLogProjections` | app/Console/Commands/gitUpdate.php:209-236 | one command is echoed once and prints its output once; it reports the timeout and then the failure exactly when they happen, and writes no phase message |
| `Executor.BatchLogAppend` | app/Console/Commands/gitUpdate.php:207 | running two lists one after the other logs what running their concatenation logs |
| `Executor.BatchLogAt` | app/Console/Commands/gitUpdate.php:207-237 | the k-th command of a batch is logged, with the outcome of its own run, between the logs of the commands before and after it |
| `Executor.BatchEchoes` | app/Console/Commands/gitUpdate.php:205-237 | whatever the outcomes, the echoed lines of a batch are exactly its commands, in order: there is no early exit |
| `Executor.BatchOutputs` | app/Console/Commands/gitUpdate.php:236 | the standard output of every command of a batch is printed, in order |
| `Executor.BatchMarkers` | app/Console/Commands/gitUpdate.php:205-237 | a batch writes no phase message and makes no artisan call |
| `Executor.FailureReported` | app/Console/Commands/gitUpdate.php:228-230 | the error output of any unsuccessful command of a batch is reported in the batch log |
| `Executor.StepsLog` | app/Console/Commands/gitUpdate.php:108-122 | the events of a list of steps: a message for an announcement, the batch log for a batch with run numbers continued across batches, a call event for an artisan call |
| `Executor.StepsLogAppend` | app/Console/Commands/gitUpdate.php:108-122 | running two step lists one after the other logs what running their concatenation logs |
| `Executor.RanAppend` | app/Console/Commands/gitUpdate.php:108-122 | running one list of steps and then another is running their concatenation |
| `Executor.StepsEchoes` | app/Console/Commands/gitUpdate.php:108-122 | whatever the outcomes, a list of steps echoes every command its batches hold, in order |
| `Executor.StepsMarkers` | app/Console/Commands/gitUpdate.php:108-122 | whatever the outcomes, the phase messages and artisan calls appear as the steps list them |
| `Pipeline.BackupPhase` | app/Console/Commands/gitUpdate.php:125-142 | the backup phase: its message, then one batch of every backup line |
| `Pipeline.RestorePhase` | app/Console/Commands/gitUpdate.php:159-168 | the restore phase: its message, then one batch of every restore line |
| `Pipeline.PipelineSteps` | app/Console/Commands/gitUpdate.php:108-122 | the steps of one run: backup, git, restore, composer, migrations, compile and clear phases in that order, then the "Done" message |
| `Pipeline.PhaseLog` | app/Console/Commands/gitUpdate.php:144-157 | a phase that announces itself and runs a batch logs its message, then the batch |
| `Pipeline.MigrationsLog` | app/Console/Commands/gitUpdate.php:198-203 | the migrations phase logs its message and then the `migrate` call, and runs nothing through the executor |
| `Pipeline.PipelineCommands` | app/Console/Commands/gitUpdate.php:108-122 | one run starts the whole backup, the git commands, the whole restore, `composer install`, then `npm install` and `npm run prod`, in that order |
| `Pipeline.PipelineAnnouncements` | app/Console/Commands/gitUpdate.php:108-122 | the phase messages and artisan calls of one run are backup, git, restore, composer, migrations, `migrate`, compile, `clear:all`, then "Done" |
| `Pipeline.PipelineEchoes` | app/Console/Commands/gitUpdate.php:108-122 | whatever the outcomes, one run echoes every command of every phase in phase order |
| `Pipeline.PipelineMarkers` | app/Console/Commands/gitUpdate.php:108-122 | whatever the outcomes, the logged phase messages and artisan calls are in phase order and end with "Done" |
| `Pipeline.RestoreBetweenGitAndComposer` | app/Console/Commands/gitUpdate.php:110-114 | every restore copy runs after `git pull origin master` and before `composer install` |
| `Pipeline.FailedInstallReported` | app/Console/Commands/gitUpdate.php:114 | when `composer install` fails, its error output is in the log of the run |
| `Pipeline.FailedInstallStillCompletes` | app/Console/Commands/gitUpdate.php:114-118 | when `composer install` fails, the run still reports it, still calls `migrate` and still echoes both asset commands |
| `Updater.GitUpdate.constructor` | app/Console/Commands/gitUpdate.php:42-48 | a new command holds the preserved paths, has started nothing and logged nothing |
| `Updater.GitUpdate.WriteInfo` | app/Console/Commands/gitUpdate.php:127 | `$this->info(text)`: the log gains one message and nothing is started |
| `Updater.GitUpdate.CallArtisan` | app/Console/Commands/gitUpdate.php:202 | `$this->call(command)`: the log gains one call event and nothing is started through the executor |
| `Updater.GitUpdate.RunCommand` | app/Console/Commands/gitUpdate.php:209-236 | one pass of the loop: the command is started once, as the next run number, and the log gains exactly that command's events: echo, timeout report, failure report, output |
| `Updater.GitUpdate.Process` | app/Console/Commands/gitUpdate.php:205-237 | the loop starts exactly the given commands, in order, and appends exactly their batch log |
| `Updater.GitUpdate.Backup` | app/Console/Commands/gitUpdate.php:125-142 | the backup phase starts exactly the backup lines and logs its message followed by their batch log |
| `Updater.GitUpdate.Git` | app/Console/Commands/gitUpdate.php:144-157 | the git phase starts the five git commands and logs its message followed by their batch log |
| `Updater.GitUpdate.Restore` | app/Console/Commands/gitUpdate.php:159-168 | the restore phase starts exactly the restore lines and logs its message followed by their batch log |
| `Updater.GitUpdate.Composer` | app/Console/Commands/gitUpdate.php:170-179 | the composer phase starts `composer install` and logs its message followed by its batch log |
| `Updater.GitUpdate.Migrations` | app/Console/Commands/gitUpdate.php:198-203 | the migrations phase starts nothing and logs its message and the `migrate` call |
| `Updater.GitUpdate.Compile` | app/Console/Commands/gitUpdate.php:181-191 | the compile phase starts both npm commands and logs its message followed by their batch log |
| `Updater.GitUpdate.Clear` | app/Console/Commands/gitUpdate.php:193-196 | the clear phase starts nothing and logs the `clear:all` call |
| `Updater.GitUpdate.Handle` | app/Console/Commands/gitUpdate.php:79-123 | one run starts and logs exactly the steps of the pipeline, in phase order |

## Left out

- Process spawning and polling are not modelled. This covers Symfony's `Process`, `start`, `isRunning`, `checkTimeout` and `stop`, and the 3600-second wall clock. They are a foreign library and real time. The `Runner` oracle stands in for them, and the timeout is passed to it as the constant 3600.
- The inner polling loop collapses into the outcome's timed-out flag. On expiry `checkTimeout` stops the process and then throws, so the loop reports the timeout at most once and then ends.
- `Executor.Outcome` does not tie the success flag to the timed-out flag. A stopped process is in practice never successful, but the oracle may report any combination. The per-command log is stated for every combination.
- `Updater.GitUpdate.Handle`: models only runs in which no exception escapes. Only `checkTimeout()` is inside a `try` (gitUpdate.php:221-225). A `RuntimeException` from `new Process` or `$process->start()` (:211, :215), for example a process that cannot be launched, escapes `process()` and `handle()`. So does any exception thrown inside `$this->call('migrate')` or `$this->call('clear:all')` (:202, :195). Such an exception ends the run at once: the remaining commands and phases and the "Done" message are skipped. After `git reset --hard`, that also skips the restore. `Updater.GitUpdate.RunCommand`, `Updater.GitUpdate.Process`, `Pipeline.PipelineMarkers` and `Pipeline.PipelineEchoes` hold for exception-free runs only.
- A launch failure is not a separate outcome. A line that the shell starts but cannot run is an unsuccessful run; a process that cannot be started at all is the exception exit above.
- The restore creates no parent directory. `cp -Rfp` into `dirname(p)/` under the application root relies on that directory already being there.
- The artisan calls `migrate` and `clear:all` run in-process through `$this->call`. Each is one `Call` event. The exit code they return is not used by the command and is not modelled; exceptions they throw are the exception exit above.
- `Paths.Dirname`: agrees with PHP's `dirname` only on non-empty relative paths without leading, trailing or doubled separators. It differs on `""` (model ".", PHP ""), `"/a"` (model "", PHP "/"), `"a//b"` (model "a/", PHP "a") and `"a/"` (model "a", PHP "."). No preserved path reaches those cases (`Plan.PreservedParents`).
- `sleep(8)`, `sleep(2)`, the banner, the licence text, the "Press CTRL + C" warning, the progress bar and `echo "\n\n"` are timing and presentation only. Operator interrupt (Ctrl-C) is not modelled either.
- Filesystem effects of `rm -rf`, `mkdir` and `cp -Rfp` are not modelled: contents, permissions, timestamps, and whether a source exists. Only the path mapping is proved. `Plan.CopyInto` gives where `cp` puts a copy into an existing directory; nothing claims file contents survive the round trip.
- Shell interpretation of a line is modelled only for operands made of plain characters: letters, digits, `.`, `-`, `_` and `/` (`Shell.Word`). The source concatenates paths into the line without quoting. A root, staging directory or path holding a blank, a quote, `$`, a backquote, a backslash, `;`, `&`, `|`, `<`, `>`, a parenthesis, a glob character, `#` or `~` would be split, expanded or run as more than one command by the shell. Such a line reads back as a literal line, and no lemma about the backup or restore lines claims anything for it. The preserved paths are plain words (`Plan.PreservedWellFormed`).
- `DIRECTORY_SEPARATOR` is fixed to `/`. Laravel's `base_path` and `storage_path` are not part of this model: `base_path(x)` is taken as the root followed by `/x` for a non-empty `x`.
