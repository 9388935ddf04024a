/**
  The `git:update` console command as an object. It holds the application
  root, the staging directory, the preserved paths and the process runner.
  Each phase method issues its lines through `Process`, which appends to the
  list of commands started and to the console log.
 */
module Updater {
  import opened Plan
  import opened Executor
  import opened Pipeline

  class GitUpdate {
    /** `base_path()`: the application root. */
    const root: string
    /** `storage_path('gitupdate')`: the staging directory. */
    const staging: string
    /** The paths kept across the update. */
    const paths: seq<string>
    /** The outcome of each process started. */
    const run: Runner

    /** The command lines started so far, in order. */
    var ran: seq<string>
    /** The console events so far, in order. */
    var log: seq<Event>

    constructor (root: string, staging: string, run: Runner)
      ensures this.root == root && this.staging == staging && this.run == run
      ensures paths == Preserved && ran == [] && log == []
    {
      this.root := root;
      this.staging := staging;
      this.run := run;
      paths := Preserved;
      ran := [];
      log := [];
    }

    /** `$this->info(text)`. */
    method WriteInfo(text: string)
      modifies this
      ensures ran == old(ran) && log == old(log) + [Info(text)]
    {
      log := log + [Info(text)];
    }

    /** `$this->call(command)`: an artisan command run in-process, not through `Process`. */
    method CallArtisan(command: string)
      modifies this
      ensures ran == old(ran) && log == old(log) + [Call(command)]
    {
      log := log + [Call(command)];
    }

    /**
      One pass of the loop over a batch: echo the command, start it, report a
      timeout and a failure when they happen, then print its output.
     */
    method RunCommand(command: string)
      modifies this
      ensures ran == old(ran) + [command]
      ensures log == old(log) + CommandLog(command, OutcomeOf(run, |old(ran)|, command))
    {
      log := log + [Echo(command)];
      var o := OutcomeOf(run, |ran|, command);
      if o.timedOut {
        log := log + [Error(TimeoutMessage(command))];
      }
      if !o.successful {
        log := log + [Error(o.errorOutput)];
      }
      log := log + [Warn(o.output)];
      CommandLogged(old(log), log, command, o);
      ran := ran + [command];
    }

    /**
      Runs every command in order. A failed or timed-out command never stops
      the loop.
     */
    method Process(commands: seq<string>)
      modifies this
      ensures ran == old(ran) + commands
      ensures log == old(log) + BatchLog(run, |old(ran)|, commands)
    {
      ghost var n := |ran|;
      for i := 0 to |commands|
        invariant ran == old(ran) + commands[..i]
        invariant log == old(log) + BatchLog(run, n, commands[..i])
      {
        ghost var before, ranBefore := log, ran;
        RunCommand(commands[i]);
        SameOutcome(run, |ranBefore|, n + |commands[..i]|, commands[i]);
        LogOneMore(run, n, commands[..i], commands[i], old(log), before, log);
        assert commands[..i + 1] == commands[..i] + [commands[i]];
      }
      assert commands[..|commands|] == commands;
    }

    /** Clears and recreates the staging directory, then copies each preserved path into it. */
    method Backup()
      modifies this
      ensures ran == old(ran) + BackupPlan(root, staging, paths)
      ensures log == old(log) + [Info(BackupMessage)] + BatchLog(run, |old(ran)|, BackupPlan(root, staging, paths))
      ensures Ran(run, old(ran), old(log), BackupPhase(root, staging, paths), ran, log)
    {
      WriteInfo(BackupMessage);
      Process(BackupPrefix(staging));
      assert BackupPrefix(staging) + BackupCopies(root, staging, paths[..0]) == BackupPrefix(staging);
      for i := 0 to |paths|
        invariant ran == old(ran) + (BackupPrefix(staging) + BackupCopies(root, staging, paths[..i]))
        invariant log == old(log) + [Info(BackupMessage)]
          + BatchLog(run, |old(ran)|, BackupPrefix(staging) + BackupCopies(root, staging, paths[..i]))
      {
        ghost var done := BackupPrefix(staging) + BackupCopies(root, staging, paths[..i]);
        ghost var next := BackupPrefix(staging) + BackupCopies(root, staging, paths[..i + 1]);
        ghost var ran1, log1 := ran, log;
        var line := BackupCopy(root, staging, paths[i]);
        Process([line]);
        BackupCopiesSnoc(root, staging, paths, i);
        assert next == done + [line];
        BatchAppended(run, old(ran), old(log) + [Info(BackupMessage)], done, [line], next, ran1, log1, ran, log);
      }
      assert paths[..|paths|] == paths;
      AnnouncedBatchRan(run, old(ran), old(log), BackupMessage, BackupPlan(root, staging, paths), ran, log);
    }

    /** Brings the working tree to the remote master branch. */
    method Git()
      modifies this
      ensures ran == old(ran) + GitCommands
      ensures log == old(log) + [Info(GitMessage)] + BatchLog(run, |old(ran)|, GitCommands)
      ensures Ran(run, old(ran), old(log), GitPhase, ran, log)
    {
      WriteInfo(GitMessage);
      Process(GitCommands);
      AnnouncedBatchRan(run, old(ran), old(log), GitMessage, GitCommands, ran, log);
    }

    /** Copies each staged path back into its parent directory under the application root. */
    method Restore()
      modifies this
      ensures ran == old(ran) + RestorePlan(root, staging, paths)
      ensures log == old(log) + [Info(RestoreMessage)] + BatchLog(run, |old(ran)|, RestorePlan(root, staging, paths))
      ensures Ran(run, old(ran), old(log), RestorePhase(root, staging, paths), ran, log)
    {
      WriteInfo(RestoreMessage);
      assert RestorePlan(root, staging, paths[..0]) == [];
      for i := 0 to |paths|
        invariant ran == old(ran) + RestorePlan(root, staging, paths[..i])
        invariant log == old(log) + [Info(RestoreMessage)] + BatchLog(run, |old(ran)|, RestorePlan(root, staging, paths[..i]))
      {
        ghost var done := RestorePlan(root, staging, paths[..i]);
        ghost var ran1, log1 := ran, log;
        var line := RestoreCopy(root, staging, paths[i]);
        Process([line]);
        RestorePlanSnoc(root, staging, paths, i);
        BatchAppended(run, old(ran), old(log) + [Info(RestoreMessage)], done, [line],
          RestorePlan(root, staging, paths[..i + 1]), ran1, log1, ran, log);
      }
      assert paths[..|paths|] == paths;
      AnnouncedBatchRan(run, old(ran), old(log), RestoreMessage, RestorePlan(root, staging, paths), ran, log);
    }

    method Composer()
      modifies this
      ensures ran == old(ran) + ComposerCommands
      ensures log == old(log) + [Info(ComposerMessage)] + BatchLog(run, |old(ran)|, ComposerCommands)
      ensures Ran(run, old(ran), old(log), ComposerPhase, ran, log)
    {
      WriteInfo(ComposerMessage);
      Process(ComposerCommands);
      AnnouncedBatchRan(run, old(ran), old(log), ComposerMessage, ComposerCommands, ran, log);
    }

    method Migrations()
      modifies this
      ensures ran == old(ran)
      ensures log == old(log) + [Info(MigrationsMessage), Call(MigrateCommand)]
      ensures Ran(run, old(ran), old(log), MigrationsPhase, ran, log)
    {
      WriteInfo(MigrationsMessage);
      CallArtisan(MigrateCommand);
      MigrationsCommands();
      MigrationsLog(run, |old(ran)|);
    }

    method Compile()
      modifies this
      ensures ran == old(ran) + CompileCommands
      ensures log == old(log) + [Info(CompileMessage)] + BatchLog(run, |old(ran)|, CompileCommands)
      ensures Ran(run, old(ran), old(log), CompilePhase, ran, log)
    {
      WriteInfo(CompileMessage);
      Process(CompileCommands);
      AnnouncedBatchRan(run, old(ran), old(log), CompileMessage, CompileCommands, ran, log);
    }

    method Clear()
      modifies this
      ensures ran == old(ran)
      ensures log == old(log) + [Call(ClearCommand)]
      ensures Ran(run, old(ran), old(log), ClearPhase, ran, log)
    {
      CallArtisan(ClearCommand);
      SingleStepCommands(Artisan(ClearCommand));
      SingleStepLog(run, |old(ran)|, Artisan(ClearCommand));
    }

    /**
      One update run: every phase in order, each one started whatever the
      outcomes of the commands before it, then the closing message.
     */
    method Handle()
      modifies this
      ensures ran == old(ran) + Commands(PipelineSteps(root, staging, paths))
      ensures log == old(log) + StepsLog(run, |old(ran)|, PipelineSteps(root, staging, paths))
    {
      ghost var b, r := BackupPhase(root, staging, paths), RestorePhase(root, staging, paths);
      Backup();
      ghost var ran1, log1 := ran, log;
      Git();
      RanAppend(run, old(ran), old(log), b, GitPhase, ran1, log1, ran, log);
      ghost var s1 := b + GitPhase;
      ran1, log1 := ran, log;
      Restore();
      RanAppend(run, old(ran), old(log), s1, r, ran1, log1, ran, log);
      ghost var s2 := s1 + r;
      ran1, log1 := ran, log;
      Composer();
      RanAppend(run, old(ran), old(log), s2, ComposerPhase, ran1, log1, ran, log);
      ghost var s3 := s2 + ComposerPhase;
      ran1, log1 := ran, log;
      Migrations();
      RanAppend(run, old(ran), old(log), s3, MigrationsPhase, ran1, log1, ran, log);
      ghost var s4 := s3 + MigrationsPhase;
      ran1, log1 := ran, log;
      Compile();
      RanAppend(run, old(ran), old(log), s4, CompilePhase, ran1, log1, ran, log);
      ghost var s5 := s4 + CompilePhase;
      ran1, log1 := ran, log;
      Clear();
      RanAppend(run, old(ran), old(log), s5, ClearPhase, ran1, log1, ran, log);
      ghost var s6 := s5 + ClearPhase;
      ran1, log1 := ran, log;
      WriteInfo(DoneMessage);
      SingleStepCommands(Announce(DoneMessage));
      SingleStepLog(run, |ran1|, Announce(DoneMessage));
      RanAppend(run, old(ran), old(log), s6, [Announce(DoneMessage)], ran1, log1, ran, log);
      assert s6 + [Announce(DoneMessage)] == PipelineSteps(root, staging, paths);
    }
  }
}
