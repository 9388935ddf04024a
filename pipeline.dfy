/**
  The fixed sequence of phases of one update run: backup, git, restore,
  composer, migrations, asset compilation, cache clearing, then the closing
  message. No phase is skipped because an earlier command failed.
 */
module Pipeline {
  import opened Plan
  import opened Executor

  const BackupMessage: string := "Backing up some stuff ..."
  const GitMessage: string := "Updating to be current with remote repository ..."
  const RestoreMessage: string := "Restoring backed up stuff ..."
  const ComposerMessage: string := "Installing Composer packages ..."
  const MigrationsMessage: string := "Running new migrations ..."
  const CompileMessage: string := "Compiling Assets ..."
  const DoneMessage: string := "Done ... Please report any errors or issues."

  const MigrateCommand: string := "migrate"
  const ClearCommand: string := "clear:all"

  function BackupPhase(root: string, staging: string, paths: seq<string>): seq<Step>
  {
    [Announce(BackupMessage), Batch(BackupPlan(root, staging, paths))]
  }

  const GitPhase: seq<Step> := [Announce(GitMessage), Batch(GitCommands)]

  function RestorePhase(root: string, staging: string, paths: seq<string>): seq<Step>
  {
    [Announce(RestoreMessage), Batch(RestorePlan(root, staging, paths))]
  }

  const ComposerPhase: seq<Step> := [Announce(ComposerMessage), Batch(ComposerCommands)]

  const MigrationsPhase: seq<Step> := [Announce(MigrationsMessage), Artisan(MigrateCommand)]

  const CompilePhase: seq<Step> := [Announce(CompileMessage), Batch(CompileCommands)]

  const ClearPhase: seq<Step> := [Artisan(ClearCommand)]

  /** Every step of one run, in the order the phases are called. */
  function PipelineSteps(root: string, staging: string, paths: seq<string>): seq<Step>
  {
    BackupPhase(root, staging, paths) + GitPhase + RestorePhase(root, staging, paths)
    + ComposerPhase + MigrationsPhase + CompilePhase + ClearPhase + [Announce(DoneMessage)]
  }

  /** A two-step list runs the commands of its first step, then those of its second. */
  lemma TwoStepsCommands(a: Step, b: Step)
    ensures Commands([a, b]) == StepCommands(a) + StepCommands(b)
  {
    assert [a, b] == [a] + [b];
    SingleStepCommands(a);
    SingleStepCommands(b);
    CommandsAppend([a], [b]);
  }

  /** A two-step list announces what its first step announces, then what its second does. */
  lemma TwoStepsMarkers(a: Step, b: Step)
    ensures Announcements([a, b]) == StepMarkers(a) + StepMarkers(b)
  {
    assert [a, b] == [a] + [b];
    SingleStepMarkers(a);
    SingleStepMarkers(b);
    AnnouncementsAppend([a], [b]);
  }

  /** A two-step list logs its first step, then its second, numbering runs on from the first. */
  lemma TwoStepsLog(run: Runner, n: nat, a: Step, b: Step)
    ensures StepsLog(run, n, [a, b]) == StepLog(run, n, a) + StepLog(run, n + |StepCommands(a)|, b)
  {
    assert [a, b][0] == a && [a, b][1..] == [b];
    StepsLogCons(run, n, [a, b]);
    SingleStepLog(run, n + |StepCommands(a)|, b);
  }

  /** A phase that announces itself and runs a batch runs the batch's commands. */
  lemma PhaseCommands(text: string, commands: seq<string>)
    ensures Commands([Announce(text), Batch(commands)]) == commands
  {
    TwoStepsCommands(Announce(text), Batch(commands));
  }

  /** A phase that announces itself and runs a batch makes one announcement. */
  lemma PhaseMarkers(text: string, commands: seq<string>)
    ensures Announcements([Announce(text), Batch(commands)]) == [Info(text)]
  {
    TwoStepsMarkers(Announce(text), Batch(commands));
  }

  /** A phase that announces itself and runs a batch logs the message, then the batch. */
  lemma PhaseLog(run: Runner, n: nat, text: string, commands: seq<string>)
    ensures StepsLog(run, n, [Announce(text), Batch(commands)]) == [Info(text)] + BatchLog(run, n, commands)
  {
    TwoStepsLog(run, n, Announce(text), Batch(commands));
  }

  /** Announcing `text` and running `commands` from `ran0` and `log0` is running that phase. */
  lemma AnnouncedBatchRan(run: Runner, ran0: seq<string>, log0: seq<Event>, text: string, commands: seq<string>,
                          ran: seq<string>, log: seq<Event>)
    requires ran == ran0 + commands
    requires log == log0 + [Info(text)] + BatchLog(run, |ran0|, commands)
    ensures Ran(run, ran0, log0, [Announce(text), Batch(commands)], ran, log)
  {
    PhaseCommands(text, commands);
    AnnouncedBatchAppended(run, |ran0|, log0, text, commands, log);
  }

  /** A log that gained the message and then the batch's log gained the phase's log. */
  lemma AnnouncedBatchAppended(run: Runner, n: nat, log0: seq<Event>, text: string, commands: seq<string>,
                               log: seq<Event>)
    requires log == log0 + [Info(text)] + BatchLog(run, n, commands)
    ensures log == log0 + StepsLog(run, n, [Announce(text), Batch(commands)])
  {
    PhaseLog(run, n, text, commands);
  }

  /** The migrations phase runs no command through the executor. */
  lemma MigrationsCommands()
    ensures Commands(MigrationsPhase) == []
  {
    TwoStepsCommands(Announce(MigrationsMessage), Artisan(MigrateCommand));
  }

  /** The migrations phase announces itself, then calls the migrate command. */
  lemma MigrationsMarkers()
    ensures Announcements(MigrationsPhase) == [Info(MigrationsMessage), Call(MigrateCommand)]
  {
    TwoStepsMarkers(Announce(MigrationsMessage), Artisan(MigrateCommand));
  }

  /** The migrations phase logs its message and the artisan call. */
  lemma MigrationsLog(run: Runner, n: nat)
    ensures StepsLog(run, n, MigrationsPhase) == [Info(MigrationsMessage), Call(MigrateCommand)]
  {
    TwoStepsLog(run, n, Announce(MigrationsMessage), Artisan(MigrateCommand));
  }

  /**
    The commands of one run, in order: the whole backup, the git commands,
    the whole restore, composer, then the asset commands.
   */
  lemma PipelineCommands(root: string, staging: string, paths: seq<string>)
    ensures Commands(PipelineSteps(root, staging, paths)) ==
      BackupPlan(root, staging, paths) + GitCommands + RestorePlan(root, staging, paths)
      + ComposerCommands + CompileCommands
  {
    var backup, restore := BackupPlan(root, staging, paths), RestorePlan(root, staging, paths);
    var s0 := BackupPhase(root, staging, paths);
    assert Commands(s0) == backup by { PhaseCommands(BackupMessage, backup); }
    var s1 := s0 + GitPhase;
    assert Commands(s1) == backup + GitCommands by {
      PhaseCommands(GitMessage, GitCommands);
      CommandsAppend(s0, GitPhase);
    }
    var s2 := s1 + RestorePhase(root, staging, paths);
    assert Commands(s2) == backup + GitCommands + restore by {
      PhaseCommands(RestoreMessage, restore);
      CommandsAppend(s1, RestorePhase(root, staging, paths));
    }
    var s3 := s2 + ComposerPhase;
    assert Commands(s3) == backup + GitCommands + restore + ComposerCommands by {
      PhaseCommands(ComposerMessage, ComposerCommands);
      CommandsAppend(s2, ComposerPhase);
    }
    var s4 := s3 + MigrationsPhase;
    assert Commands(s4) == Commands(s3) by {
      MigrationsCommands();
      CommandsAppend(s3, MigrationsPhase);
    }
    var s5 := s4 + CompilePhase;
    assert Commands(s5) == Commands(s3) + CompileCommands by {
      PhaseCommands(CompileMessage, CompileCommands);
      CommandsAppend(s4, CompilePhase);
    }
    var s6 := s5 + ClearPhase;
    assert Commands(s6) == Commands(s5) by {
      SingleStepCommands(Artisan(ClearCommand));
      CommandsAppend(s5, ClearPhase);
    }
    assert Commands(s6 + [Announce(DoneMessage)]) == Commands(s6) by {
      SingleStepCommands(Announce(DoneMessage));
      CommandsAppend(s6, [Announce(DoneMessage)]);
    }
    assert PipelineSteps(root, staging, paths) == s6 + [Announce(DoneMessage)];
  }

  /** The phase messages and artisan calls of one run, in phase order. */
  lemma PipelineAnnouncements(root: string, staging: string, paths: seq<string>)
    ensures Announcements(PipelineSteps(root, staging, paths)) ==
      [Info(BackupMessage), Info(GitMessage), Info(RestoreMessage), Info(ComposerMessage),
       Info(MigrationsMessage), Call(MigrateCommand), Info(CompileMessage), Call(ClearCommand),
       Info(DoneMessage)]
  {
    var backup, restore := BackupPlan(root, staging, paths), RestorePlan(root, staging, paths);
    var s0 := BackupPhase(root, staging, paths);
    assert Announcements(s0) == [Info(BackupMessage)] by { PhaseMarkers(BackupMessage, backup); }
    var s1 := s0 + GitPhase;
    assert Announcements(s1) == [Info(BackupMessage), Info(GitMessage)] by {
      PhaseMarkers(GitMessage, GitCommands);
      AnnouncementsAppend(s0, GitPhase);
    }
    var s2 := s1 + RestorePhase(root, staging, paths);
    assert Announcements(s2) == [Info(BackupMessage), Info(GitMessage), Info(RestoreMessage)] by {
      PhaseMarkers(RestoreMessage, restore);
      AnnouncementsAppend(s1, RestorePhase(root, staging, paths));
    }
    var s3 := s2 + ComposerPhase;
    assert Announcements(s3) == Announcements(s2) + [Info(ComposerMessage)] by {
      PhaseMarkers(ComposerMessage, ComposerCommands);
      AnnouncementsAppend(s2, ComposerPhase);
    }
    var s4 := s3 + MigrationsPhase;
    assert Announcements(s4) == Announcements(s3) + [Info(MigrationsMessage), Call(MigrateCommand)] by {
      MigrationsMarkers();
      AnnouncementsAppend(s3, MigrationsPhase);
    }
    var s5 := s4 + CompilePhase;
    assert Announcements(s5) == Announcements(s4) + [Info(CompileMessage)] by {
      PhaseMarkers(CompileMessage, CompileCommands);
      AnnouncementsAppend(s4, CompilePhase);
    }
    var s6 := s5 + ClearPhase;
    assert Announcements(s6) == Announcements(s5) + [Call(ClearCommand)] by {
      SingleStepMarkers(Artisan(ClearCommand));
      AnnouncementsAppend(s5, ClearPhase);
    }
    assert Announcements(s6 + [Announce(DoneMessage)]) == Announcements(s6) + [Info(DoneMessage)] by {
      SingleStepMarkers(Announce(DoneMessage));
      AnnouncementsAppend(s6, [Announce(DoneMessage)]);
    }
    assert PipelineSteps(root, staging, paths) == s6 + [Announce(DoneMessage)];
  }

  /**
    Whatever the outcome of every command, one run echoes (and so starts)
    every command of every phase, in phase order: backup, git, restore,
    composer, assets.
   */
  lemma PipelineEchoes(run: Runner, n: nat, root: string, staging: string, paths: seq<string>)
    ensures Echoes(StepsLog(run, n, PipelineSteps(root, staging, paths))) ==
      BackupPlan(root, staging, paths) + GitCommands + RestorePlan(root, staging, paths)
      + ComposerCommands + CompileCommands
  {
    StepsEchoes(run, n, PipelineSteps(root, staging, paths));
    PipelineCommands(root, staging, paths);
  }

  /**
    Whatever the outcome of every command, the phase messages and artisan
    calls of one run appear in phase order, ending with the closing message.
   */
  lemma PipelineMarkers(run: Runner, n: nat, root: string, staging: string, paths: seq<string>)
    ensures Markers(StepsLog(run, n, PipelineSteps(root, staging, paths))) ==
      [Info(BackupMessage), Info(GitMessage), Info(RestoreMessage), Info(ComposerMessage),
       Info(MigrationsMessage), Call(MigrateCommand), Info(CompileMessage), Call(ClearCommand),
       Info(DoneMessage)]
  {
    StepsMarkers(run, n, PipelineSteps(root, staging, paths));
    PipelineAnnouncements(root, staging, paths);
  }

  /** The backup issues five lines before its copies, one copy per path; the restore one copy per path. */
  lemma PlanLengths(root: string, staging: string, paths: seq<string>)
    ensures |BackupPlan(root, staging, paths)| == 5 + |paths|
    ensures |RestorePlan(root, staging, paths)| == |paths|
  {
    assert |BackupPrefix(staging)| == 5;
    assert |BackupCopies(root, staging, paths)| == |paths|;
  }

  /**
    The restore runs strictly between the git phase and composer: its k-th
    copy comes after the final git pull and before composer install.
   */
  lemma RestoreBetweenGitAndComposer(root: string, staging: string, paths: seq<string>)
    ensures var c := Commands(PipelineSteps(root, staging, paths));
      |c| == 2 * |paths| + 13 &&
      c[9 + |paths|] == "git pull origin master" &&
      (forall k :: 0 <= k < |paths| ==> c[10 + |paths| + k] == RestoreCopy(root, staging, paths[k])) &&
      c[10 + 2 * |paths|] == "composer install"
  {
    var backup, restore := BackupPlan(root, staging, paths), RestorePlan(root, staging, paths);
    var c := Commands(PipelineSteps(root, staging, paths));
    var pre := backup + GitCommands;
    var mid := pre + restore;
    var tail := ComposerCommands + CompileCommands;
    assert c == mid + tail by { PipelineCommands(root, staging, paths); }
    assert |pre| == 10 + |paths| && |mid| == 10 + 2 * |paths| by { PlanLengths(root, staging, paths); }
    assert c[9 + |paths|] == GitCommands[4] by {
      assert c[9 + |paths|] == mid[9 + |paths|] == pre[9 + |paths|];
    }
    forall k | 0 <= k < |paths| ensures c[10 + |paths| + k] == RestoreCopy(root, staging, paths[k]) {
      assert c[10 + |paths| + k] == mid[|pre| + k] == restore[k];
    }
    assert c[10 + 2 * |paths|] == tail[0];
  }

  /** The steps before composer: backup, git and restore. */
  function StepsBeforeComposer(root: string, staging: string, paths: seq<string>): seq<Step>
  {
    BackupPhase(root, staging, paths) + GitPhase + RestorePhase(root, staging, paths)
  }

  /** The steps after composer: migrations, assets, cache clearing and the closing message. */
  const StepsAfterComposer: seq<Step> := MigrationsPhase + CompilePhase + ClearPhase + [Announce(DoneMessage)]

  /** Backup, git and restore run 10 + 2|paths| commands. */
  lemma CommandsBeforeComposer(root: string, staging: string, paths: seq<string>)
    ensures |Commands(StepsBeforeComposer(root, staging, paths))| == 10 + 2 * |paths|
  {
    var b, r := BackupPhase(root, staging, paths), RestorePhase(root, staging, paths);
    PhaseCommands(BackupMessage, BackupPlan(root, staging, paths));
    PhaseCommands(GitMessage, GitCommands);
    PhaseCommands(RestoreMessage, RestorePlan(root, staging, paths));
    PlanLengths(root, staging, paths);
    CommandsAppend(b, GitPhase);
    CommandsAppend(b + GitPhase, r);
  }

  /** The log of one run holds the log of composer install, run as command number n + 10 + 2|paths|. */
  lemma ComposerLogInside(run: Runner, n: nat, root: string, staging: string, paths: seq<string>)
    ensures var m := n + 10 + 2 * |paths|;
      StepsLog(run, n, PipelineSteps(root, staging, paths)) ==
        StepsLog(run, n, StepsBeforeComposer(root, staging, paths))
        + (StepsLog(run, m, ComposerPhase) + StepsLog(run, m + 1, StepsAfterComposer))
  {
    SplitAtComposer(root, staging, paths);
    CommandsBeforeComposer(root, staging, paths);
    ComposerCommandCount();
    LogAroundMiddle(run, n, n + 10 + 2 * |paths|, n + 10 + 2 * |paths| + 1, PipelineSteps(root, staging, paths), StepsBeforeComposer(root, staging, paths),
      ComposerPhase, StepsAfterComposer);
  }

  /** One run is the steps before composer, the composer phase, and the steps after it. */
  lemma SplitAtComposer(root: string, staging: string, paths: seq<string>)
    ensures PipelineSteps(root, staging, paths) ==
      StepsBeforeComposer(root, staging, paths) + (ComposerPhase + StepsAfterComposer)
  {
    Regroup(BackupPhase(root, staging, paths), GitPhase, RestorePhase(root, staging, paths), ComposerPhase,
      MigrationsPhase, CompilePhase, ClearPhase, [Announce(DoneMessage)]);
  }

  /** The composer phase runs one command. */
  lemma ComposerCommandCount()
    ensures |Commands(ComposerPhase)| == 1
  {
    PhaseCommands(ComposerMessage, ComposerCommands);
  }

  /** Eight lists concatenated in a row, grouped as the first three, then the fourth before the last four. */
  lemma Regroup<T>(s1: seq<T>, s2: seq<T>, s3: seq<T>, s4: seq<T>, s5: seq<T>, s6: seq<T>, s7: seq<T>, s8: seq<T>)
    ensures s1 + s2 + s3 + s4 + s5 + s6 + s7 + s8 == (s1 + s2 + s3) + (s4 + (s5 + s6 + s7 + s8))
  {
  }

  /** The log of `whole`, that is `pre + (mid + post)`, splits into the logs of the three parts, with run numbers continued. */
  lemma LogAroundMiddle(run: Runner, n: nat, m1: nat, m2: nat, whole: seq<Step>, pre: seq<Step>, mid: seq<Step>, post: seq<Step>)
    requires whole == pre + (mid + post)
    requires m1 == n + |Commands(pre)| && m2 == m1 + |Commands(mid)|
    ensures StepsLog(run, n, whole) == StepsLog(run, n, pre) + (StepsLog(run, m1, mid) + StepsLog(run, m2, post))
  {
    StepsLogAppend(run, n, m1, pre, mid + post);
    StepsLogAppend(run, m1, m2, mid, post);
  }

  /** When composer install fails, its error output is in the log of the composer phase. */
  lemma ComposerFailureLogged(run: Runner, m: nat)
    requires !run(m, "composer install", TimeoutSeconds).successful
    ensures Error(run(m, "composer install", TimeoutSeconds).errorOutput) in StepsLog(run, m, ComposerPhase)
  {
    FailureReported(run, m, ComposerCommands, 0);
    PhaseLog(run, m, ComposerMessage, ComposerCommands);
  }

  /** An element of the middle part is an element of the whole. */
  lemma InMiddle<T>(x: T, a: seq<T>, b: seq<T>, c: seq<T>)
    requires x in b
    ensures x in a + (b + c)
  {
    var i :| 0 <= i < |b| && b[i] == x;
    assert (a + (b + c))[|a| + i] == x;
  }

  /** When composer install fails, its error output is in the log of the run. */
  lemma FailedInstallReported(run: Runner, n: nat, root: string, staging: string, paths: seq<string>)
    requires !run(n + 10 + 2 * |paths|, "composer install", TimeoutSeconds).successful
    ensures Error(run(n + 10 + 2 * |paths|, "composer install", TimeoutSeconds).errorOutput)
      in StepsLog(run, n, PipelineSteps(root, staging, paths))
  {
    var m := n + 10 + 2 * |paths|;
    var e := Error(run(m, "composer install", TimeoutSeconds).errorOutput);
    ComposerFailureLogged(run, m);
    ComposerLogInside(run, n, root, staging, paths);
    InMiddle(e, StepsLog(run, n, StepsBeforeComposer(root, staging, paths)), StepsLog(run, m, ComposerPhase),
      StepsLog(run, m + 1, StepsAfterComposer));
  }

  /**
    When composer install fails, the run still records its error output,
    still calls the migrations and still echoes both asset commands.
   */
  lemma FailedInstallStillCompletes(run: Runner, n: nat, root: string, staging: string, paths: seq<string>)
    requires !run(n + 10 + 2 * |paths|, "composer install", TimeoutSeconds).successful
    ensures var log := StepsLog(run, n, PipelineSteps(root, staging, paths));
      Error(run(n + 10 + 2 * |paths|, "composer install", TimeoutSeconds).errorOutput) in log &&
      Call(MigrateCommand) in Markers(log) &&
      "npm install" in Echoes(log) && "npm run prod" in Echoes(log)
  {
    var log := StepsLog(run, n, PipelineSteps(root, staging, paths));
    FailedInstallReported(run, n, root, staging, paths);
    assert Call(MigrateCommand) in Markers(log) by {
      PipelineMarkers(run, n, root, staging, paths);
      assert Markers(log)[5] == Call(MigrateCommand);
    }
    assert "npm install" in Echoes(log) && "npm run prod" in Echoes(log) by {
      var front := BackupPlan(root, staging, paths) + GitCommands + RestorePlan(root, staging, paths)
        + ComposerCommands;
      assert Echoes(log) == front + CompileCommands by { PipelineEchoes(run, n, root, staging, paths); }
      assert Echoes(log)[|front|] == "npm install" && Echoes(log)[|front| + 1] == "npm run prod";
    }
  }
}
