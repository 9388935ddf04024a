/**
  What running a batch of commands shows on the console. Each command is
  echoed, run, reported as timed out or failed when it was, and its standard
  output is printed; the next command runs whatever happened to this one.
  The process library is abstracted into a `Runner` that gives the outcome of
  the n-th command run.
 */
module Executor {

  /** Seconds a command may run before it is reported as timed out. */
  const TimeoutSeconds: nat := 3600

  /** What the command observes of one finished process. */
  datatype Outcome = Outcome(successful: bool, timedOut: bool, output: string, errorOutput: string)

  /** The outcome of the n-th command run overall, given its line and its timeout in seconds. */
  type Runner = (nat, string, nat) -> Outcome

  /** Console events, without their presentation. */
  datatype Event =
    | Echo(command: string)  // the command line, shown before it runs
    | Info(text: string)
    | Warn(text: string)
    | Error(text: string)
    | Call(command: string)  // an artisan command run in-process

  function TimeoutMessage(command: string): string
  {
    "'" + command + "' timed out. Please run manually!"
  }

  /** The events of one command: echo, timeout report, failure report with its error output, standard output. */
  function CommandLog(command: string, o: Outcome): seq<Event>
  {
    [Echo(command)]
    + (if o.timedOut then [Error(TimeoutMessage(command))] else [])
    + (if o.successful then [] else [Error(o.errorOutput)])
    + [Warn(o.output)]
  }

  /** The outcome of `command` started as run number `k`, with the executor's timeout. */
  function OutcomeOf(run: Runner, k: nat, command: string): Outcome
  {
    run(k, command, TimeoutSeconds)
  }

  /** The events of running `commands` in order, the first of them being run number `n`. */
  function BatchLog(run: Runner, n: nat, commands: seq<string>): seq<Event>
    decreases |commands|
  {
    if commands == [] then []
    else CommandLog(commands[0], run(n, commands[0], TimeoutSeconds)) + BatchLog(run, n + 1, commands[1..])
  }

  /** The command lines echoed in a log, in order. */
  function Echoes(events: seq<Event>): seq<string>
  {
    if events == [] then []
    else (if events[0].Echo? then [events[0].command] else []) + Echoes(events[1..])
  }

  /** The standard outputs printed in a log, in order. */
  function Outputs(events: seq<Event>): seq<string>
  {
    if events == [] then []
    else (if events[0].Warn? then [events[0].text] else []) + Outputs(events[1..])
  }

  /** The error reports in a log, in order. */
  function Errors(events: seq<Event>): seq<string>
  {
    if events == [] then []
    else (if events[0].Error? then [events[0].text] else []) + Errors(events[1..])
  }

  /** The phase messages and artisan calls in a log, in order. */
  function Markers(events: seq<Event>): seq<Event>
  {
    if events == [] then []
    else (if events[0].Info? || events[0].Call? then [events[0]] else []) + Markers(events[1..])
  }

  lemma {:induction false} EchoesAppend(a: seq<Event>, b: seq<Event>)
    ensures Echoes(a + b) == Echoes(a) + Echoes(b)
  {
    if a != [] {
      assert (a + b)[0] == a[0] && (a + b)[1..] == a[1..] + b;
      EchoesAppend(a[1..], b);
    } else {
      assert a + b == b;
    }
  }

  lemma {:induction false} OutputsAppend(a: seq<Event>, b: seq<Event>)
    ensures Outputs(a + b) == Outputs(a) + Outputs(b)
  {
    if a != [] {
      assert (a + b)[0] == a[0] && (a + b)[1..] == a[1..] + b;
      OutputsAppend(a[1..], b);
    } else {
      assert a + b == b;
    }
  }

  lemma {:induction false} ErrorsAppend(a: seq<Event>, b: seq<Event>)
    ensures Errors(a + b) == Errors(a) + Errors(b)
  {
    if a != [] {
      assert (a + b)[0] == a[0] && (a + b)[1..] == a[1..] + b;
      ErrorsAppend(a[1..], b);
    } else {
      assert a + b == b;
    }
  }

  lemma {:induction false} MarkersAppend(a: seq<Event>, b: seq<Event>)
    ensures Markers(a + b) == Markers(a) + Markers(b)
  {
    if a != [] {
      assert (a + b)[0] == a[0] && (a + b)[1..] == a[1..] + b;
      MarkersAppend(a[1..], b);
    } else {
      assert a + b == b;
    }
  }

  /** Each projection of a log distributes over concatenation. */
  lemma ProjectionsAppend(a: seq<Event>, b: seq<Event>)
    ensures Echoes(a + b) == Echoes(a) + Echoes(b)
    ensures Outputs(a + b) == Outputs(a) + Outputs(b)
    ensures Errors(a + b) == Errors(a) + Errors(b)
    ensures Markers(a + b) == Markers(a) + Markers(b)
  {
    EchoesAppend(a, b);
    OutputsAppend(a, b);
    ErrorsAppend(a, b);
    MarkersAppend(a, b);
  }

  /**
    One command produces exactly: its echo first, its standard output last,
    a timeout report naming it when it timed out, and a report of its error
    output when it was not successful, and nothing else.
   */
  lemma CommandLogShape(command: string, o: Outcome)
    ensures var e := CommandLog(command, o);
      |e| == 2 + (if o.timedOut then 1 else 0) + (if o.successful then 0 else 1) &&
      e[0] == Echo(command) && e[|e| - 1] == Warn(o.output) &&
      (o.timedOut ==> e[1] == Error(TimeoutMessage(command))) &&
      (!o.successful ==> e[|e| - 2] == Error(o.errorOutput)) &&
      forall i :: 0 < i < |e| - 1 ==> e[i].Error?
  {
  }

  /**
    Seen through the projections, one command is echoed once, prints its
    output once, reports the timeout and then the failure when they happen,
    and writes no phase message.
   */
  lemma CommandLogProjections(command: string, o: Outcome)
    ensures Echoes(CommandLog(command, o)) == [command]
    ensures Outputs(CommandLog(command, o)) == [o.output]
    ensures Errors(CommandLog(command, o)) ==
      (if o.timedOut then [TimeoutMessage(command)] else []) + (if o.successful then [] else [o.errorOutput])
    ensures Markers(CommandLog(command, o)) == []
  {
    var reports := (if o.timedOut then [TimeoutMessage(command)] else []) + (if o.successful then [] else [o.errorOutput]);
    var errs := Reports(reports);
    assert CommandLog(command, o) == [Echo(command)] + errs + [Warn(o.output)] by {
      ReportsAppend(if o.timedOut then [TimeoutMessage(command)] else [], if o.successful then [] else [o.errorOutput]);
    }
    ReportsProjections(reports);
    ProjectionsAppend([Echo(command)], errs);
    ProjectionsAppend([Echo(command)] + errs, [Warn(o.output)]);
  }

  /** The error events reporting `texts`, in order. */
  function Reports(texts: seq<string>): seq<Event>
  {
    seq(|texts|, i requires 0 <= i < |texts| => Error(texts[i]))
  }

  lemma ReportsAppend(a: seq<string>, b: seq<string>)
    ensures Reports(a + b) == Reports(a) + Reports(b)
  {
  }

  /** A list of error reports shows only as errors. */
  lemma {:induction false} ReportsProjections(texts: seq<string>)
    ensures Echoes(Reports(texts)) == [] && Outputs(Reports(texts)) == [] && Markers(Reports(texts)) == []
    ensures Errors(Reports(texts)) == texts
  {
    if texts != [] {
      var r := Reports(texts);
      assert r[0] == Error(texts[0]) && r[1..] == Reports(texts[1..]);
      ReportsProjections(texts[1..]);
    }
  }

  /** Running two lists one after the other logs what running their concatenation logs. */
  lemma {:induction false} BatchLogAppend(run: Runner, n: nat, a: seq<string>, b: seq<string>)
    ensures BatchLog(run, n, a + b) == BatchLog(run, n, a) + BatchLog(run, n + |a|, b)
    decreases |a|
  {
    if a == [] {
      assert a + b == b;
    } else {
      assert (a + b)[1..] == a[1..] + b;
      BatchLogAppend(run, n + 1, a[1..], b);
    }
  }

  /** Running one more command adds exactly that command's log, with the outcome of its own run. */
  lemma BatchLogSnoc(run: Runner, n: nat, commands: seq<string>, command: string)
    ensures BatchLog(run, n, commands + [command]) ==
      BatchLog(run, n, commands) + CommandLog(command, run(n + |commands|, command, TimeoutSeconds))
  {
    BatchLogAppend(run, n, commands, [command]);
    assert [command][1..] == [];
  }

  /** A log that gained, one at a time, the events one command shows has gained that command's log. */
  lemma CommandLogged(before: seq<Event>, log: seq<Event>, command: string, o: Outcome)
    requires log == before + [Echo(command)]
      + (if o.timedOut then [Error(TimeoutMessage(command))] else [])
      + (if o.successful then [] else [Error(o.errorOutput)])
      + [Warn(o.output)]
    ensures log == before + CommandLog(command, o)
  {
  }

  /** A log that held a batch's events holds, after one more command's events, those of the longer batch. */
  lemma LogOneMore(run: Runner, n: nat, done: seq<string>, command: string, start: seq<Event>, before: seq<Event>,
                   log: seq<Event>)
    requires before == start + BatchLog(run, n, done)
    requires log == before + CommandLog(command, OutcomeOf(run, n + |done|, command))
    ensures log == start + BatchLog(run, n, done + [command])
  {
    BatchLogSnoc(run, n, done, command);
    Extend(start, BatchLog(run, n, done), CommandLog(command, run(n + |done|, command, TimeoutSeconds)),
      BatchLog(run, n, done + [command]), before, log);
  }

  /** The outcome of a command depends on its run number, not on how that number is written. */
  lemma SameOutcome(run: Runner, a: nat, b: nat, command: string)
    requires a == b
    ensures OutcomeOf(run, a, command) == OutcomeOf(run, b, command)
  {
  }

  /** Running `more` after `done`, the first of them run number `n`, logs what running `done + more` logs. */
  lemma BatchExtend(run: Runner, n: nat, start: seq<Event>, done: seq<string>, more: seq<string>,
                    log1: seq<Event>, log2: seq<Event>)
    requires log1 == start + BatchLog(run, n, done)
    requires log2 == log1 + BatchLog(run, n + |done|, more)
    ensures log2 == start + BatchLog(run, n, done + more)
  {
    BatchLogAppend(run, n, done, more);
  }

  /** `BatchExtend` with the first run number of `more` given as `m`. */
  lemma BatchExtendAt(run: Runner, n: nat, m: nat, start: seq<Event>, done: seq<string>, more: seq<string>,
                      next: seq<string>, log1: seq<Event>, log2: seq<Event>)
    requires next == done + more && m == n + |done|
    requires log1 == start + BatchLog(run, n, done)
    requires log2 == log1 + BatchLog(run, m, more)
    ensures log2 == start + BatchLog(run, n, next)
  {
    BatchExtend(run, n, start, done, more, log1, log2);
  }

  /**
    Starting `more` after `done` from the list of started commands `ran0` and
    the log `start` leaves both in step with running `done + more`.
   */
  lemma BatchAppended(run: Runner, ran0: seq<string>, start: seq<Event>, done: seq<string>, more: seq<string>,
                      next: seq<string>, ran1: seq<string>, log1: seq<Event>, ran2: seq<string>, log2: seq<Event>)
    requires next == done + more
    requires ran1 == ran0 + done && log1 == start + BatchLog(run, |ran0|, done)
    requires ran2 == ran1 + more && log2 == log1 + BatchLog(run, |ran1|, more)
    ensures ran2 == ran0 + next && log2 == start + BatchLog(run, |ran0|, next)
  {
    SeqExtend(ran0, done, more, ran1, ran2);
    BatchExtendAt(run, |ran0|, |ran1|, start, done, more, next, log1, log2);
  }

  /** A list that held `a + b` holds, after `c` is appended, `a + (b + c)`. */
  lemma SeqExtend<T>(a: seq<T>, b: seq<T>, c: seq<T>, ab: seq<T>, abc: seq<T>)
    requires ab == a + b && abc == ab + c
    ensures abc == a + (b + c) && |ab| == |a| + |b|
  {
  }

  /**
    The log of a batch is, command by command and in order, the log of each
    command with the outcome of its own run.
   */
  lemma BatchLogAt(run: Runner, n: nat, commands: seq<string>, k: nat)
    requires k < |commands|
    ensures BatchLog(run, n, commands) ==
      BatchLog(run, n, commands[..k])
      + CommandLog(commands[k], run(n + k, commands[k], TimeoutSeconds))
      + BatchLog(run, n + k + 1, commands[k + 1..])
  {
    assert commands == commands[..k] + commands[k..];
    BatchLogAppend(run, n, commands[..k], commands[k..]);
    assert commands[k..][1..] == commands[k + 1..];
  }

  /**
    Whatever the outcomes, every command of a batch is echoed and run, once,
    in order: there is no early exit.
   */
  lemma {:induction false} BatchEchoes(run: Runner, n: nat, commands: seq<string>)
    ensures Echoes(BatchLog(run, n, commands)) == commands
    decreases |commands|
  {
    if commands != [] {
      var o := run(n, commands[0], TimeoutSeconds);
      CommandLogProjections(commands[0], o);
      ProjectionsAppend(CommandLog(commands[0], o), BatchLog(run, n + 1, commands[1..]));
      BatchEchoes(run, n + 1, commands[1..]);
    }
  }

  /** The standard output of every command of a batch is printed, in order. */
  lemma {:induction false} BatchOutputs(run: Runner, n: nat, commands: seq<string>)
    ensures Outputs(BatchLog(run, n, commands)) ==
      seq(|commands|, i requires 0 <= i < |commands| => run(n + i, commands[i], TimeoutSeconds).output)
    decreases |commands|
  {
    if commands != [] {
      var o := run(n, commands[0], TimeoutSeconds);
      CommandLogProjections(commands[0], o);
      ProjectionsAppend(CommandLog(commands[0], o), BatchLog(run, n + 1, commands[1..]));
      BatchOutputs(run, n + 1, commands[1..]);
    }
  }

  /** A batch writes no phase message and makes no artisan call. */
  lemma {:induction false} BatchMarkers(run: Runner, n: nat, commands: seq<string>)
    ensures Markers(BatchLog(run, n, commands)) == []
    decreases |commands|
  {
    if commands != [] {
      var o := run(n, commands[0], TimeoutSeconds);
      CommandLogProjections(commands[0], o);
      ProjectionsAppend(CommandLog(commands[0], o), BatchLog(run, n + 1, commands[1..]));
      BatchMarkers(run, n + 1, commands[1..]);
    }
  }

  /** A command that fails has its error output reported in the batch log. */
  lemma FailureReported(run: Runner, n: nat, commands: seq<string>, k: nat)
    requires k < |commands| && !run(n + k, commands[k], TimeoutSeconds).successful
    ensures Error(run(n + k, commands[k], TimeoutSeconds).errorOutput) in BatchLog(run, n, commands)
  {
    var o := run(n + k, commands[k], TimeoutSeconds);
    BatchLogAt(run, n, commands, k);
    CommandLogShape(commands[k], o);
    var e := CommandLog(commands[k], o);
    var before := BatchLog(run, n, commands[..k]);
    assert BatchLog(run, n, commands)[|before| + |e| - 2] == e[|e| - 2];
  }

  /** One statement of the command's phases: a phase message, a batch run through the executor, or an artisan call. */
  datatype Step =
    | Announce(text: string)          // an info message
    | Batch(commands: seq<string>)    // commands run through the executor
    | Artisan(command: string)        // an artisan command called in-process

  /** The command lines one step runs through the executor. */
  function StepCommands(step: Step): seq<string>
  {
    if step.Batch? then step.commands else []
  }

  /** The phase message or artisan call one step makes. */
  function StepMarkers(step: Step): seq<Event>
  {
    match step
    case Announce(t) => [Info(t)]
    case Batch(_) => []
    case Artisan(c) => [Call(c)]
  }

  /** The events of one step, its first command being run number `n`. */
  function StepLog(run: Runner, n: nat, step: Step): seq<Event>
  {
    match step
    case Announce(t) => [Info(t)]
    case Batch(commands) => BatchLog(run, n, commands)
    case Artisan(c) => [Call(c)]
  }

  /** The command lines the steps run through the executor, in order. */
  function Commands(steps: seq<Step>): seq<string>
  {
    if steps == [] then [] else StepCommands(steps[0]) + Commands(steps[1..])
  }

  /** The phase messages and artisan calls the steps make, in order. */
  function Announcements(steps: seq<Step>): seq<Event>
  {
    if steps == [] then [] else StepMarkers(steps[0]) + Announcements(steps[1..])
  }

  /** The events of the steps in order, the first command being run number `n`. */
  function StepsLog(run: Runner, n: nat, steps: seq<Step>): seq<Event>
    decreases |steps|
  {
    if steps == [] then []
    else StepLog(run, n, steps[0]) + StepsLog(run, n + |StepCommands(steps[0])|, steps[1..])
  }

  /** A list of one step runs the commands that step runs. */
  lemma SingleStepCommands(step: Step)
    ensures Commands([step]) == StepCommands(step)
  {
    assert [step][1..] == [];
  }

  /** A list of one step announces what that step announces. */
  lemma SingleStepMarkers(step: Step)
    ensures Announcements([step]) == StepMarkers(step)
  {
    assert [step][1..] == [];
  }

  /** A list of one step logs what that step logs. */
  lemma SingleStepLog(run: Runner, n: nat, step: Step)
    ensures StepsLog(run, n, [step]) == StepLog(run, n, step)
  {
    assert [step][1..] == [];
  }

  lemma {:induction false} CommandsAppend(a: seq<Step>, b: seq<Step>)
    ensures Commands(a + b) == Commands(a) + Commands(b)
  {
    if a == [] {
      assert a + b == b;
    } else {
      assert (a + b)[0] == a[0] && (a + b)[1..] == a[1..] + b;
      CommandsAppend(a[1..], b);
    }
  }

  lemma {:induction false} AnnouncementsAppend(a: seq<Step>, b: seq<Step>)
    ensures Announcements(a + b) == Announcements(a) + Announcements(b)
  {
    if a == [] {
      assert a + b == b;
    } else {
      assert (a + b)[0] == a[0] && (a + b)[1..] == a[1..] + b;
      AnnouncementsAppend(a[1..], b);
    }
  }

  /** A non-empty list runs the commands of its first step, then those of the rest. */
  lemma CommandsCons(steps: seq<Step>)
    requires steps != []
    ensures |Commands(steps)| == |StepCommands(steps[0])| + |Commands(steps[1..])|
  {
  }

  /** A concatenation with a non-empty first part starts with that part's head. */
  lemma AppendTail<T>(a: seq<T>, b: seq<T>)
    requires a != []
    ensures (a + b)[0] == a[0] && (a + b)[1..] == a[1..] + b
  {
  }

  /**
    Running two step lists one after the other logs what running their
    concatenation logs; the second list's first command is run number `k`,
    the first list having run `|Commands(a)|` commands from number `n`.
   */
  lemma {:induction false} StepsLogAppend(run: Runner, n: nat, k: nat, a: seq<Step>, b: seq<Step>)
    requires k == n + |Commands(a)|
    ensures StepsLog(run, n, a + b) == StepsLog(run, n, a) + StepsLog(run, k, b)
    decreases |a|
  {
    if a == [] {
      assert a + b == b;
      SameStart(run, n, k, b);
    } else {
      CommandsCons(a);
      StepsLogAppend(run, n + |StepCommands(a[0])|, k, a[1..], b);
      StepsLogAppendStep(run, n, k, a, b);
    }
  }

  /** Logs of the same steps from equal run numbers are equal. */
  lemma SameStart(run: Runner, n: nat, k: nat, steps: seq<Step>)
    requires n == k
    ensures StepsLog(run, n, steps) == StepsLog(run, k, steps)
  {
  }

  /** The inductive step of `StepsLogAppend`: the property for the rest of `a` gives it for `a`. */
  lemma StepsLogAppendStep(run: Runner, n: nat, k: nat, a: seq<Step>, b: seq<Step>)
    requires a != []
    requires StepsLog(run, n + |StepCommands(a[0])|, a[1..] + b) ==
      StepsLog(run, n + |StepCommands(a[0])|, a[1..]) + StepsLog(run, k, b)
    ensures StepsLog(run, n, a + b) == StepsLog(run, n, a) + StepsLog(run, k, b)
  {
    StepsLogConsAppend(run, n, a, b);
    StepsLogCons(run, n, a);
    Reassociate(StepsLog(run, n, a + b), StepLog(run, n, a[0]), StepsLog(run, n + |StepCommands(a[0])|, a[1..] + b),
      StepsLog(run, n + |StepCommands(a[0])|, a[1..]), StepsLog(run, k, b), StepsLog(run, n, a));
  }

  /** The log of a non-empty list is the log of its first step, then the log of the rest. */
  lemma StepsLogCons(run: Runner, n: nat, steps: seq<Step>)
    requires steps != []
    ensures StepsLog(run, n, steps) ==
      StepLog(run, n, steps[0]) + StepsLog(run, n + |StepCommands(steps[0])|, steps[1..])
  {
  }

  /** The log of `a + b` for a non-empty `a` is the log of `a`'s first step, then the log of the rest of `a` followed by `b`. */
  lemma StepsLogConsAppend(run: Runner, n: nat, a: seq<Step>, b: seq<Step>)
    requires a != []
    ensures StepsLog(run, n, a + b) ==
      StepLog(run, n, a[0]) + StepsLog(run, n + |StepCommands(a[0])|, a[1..] + b)
  {
    AppendTail(a, b);
    StepsLogCons(run, n, a + b);
  }

  /** A list that is `head` before `head`'s continuation `y`, where `y` is `mids` then `last`, is `head + mids` then `last`. */
  lemma Reassociate<T>(x: seq<T>, head: seq<T>, y: seq<T>, mids: seq<T>, last: seq<T>, front: seq<T>)
    requires x == head + y && y == mids + last && front == head + mids
    ensures x == front + last
  {
    assert head + (mids + last) == (head + mids) + last;
  }

  /** From the list of started commands `ran0` and the log `log0`, running `steps` leads to `ran` and `log`. */
  predicate Ran(run: Runner, ran0: seq<string>, log0: seq<Event>, steps: seq<Step>, ran: seq<string>, log: seq<Event>)
  {
    ran == ran0 + Commands(steps) && log == log0 + StepsLog(run, |ran0|, steps)
  }

  /** Running the steps `phase` after `steps`, the first command being run number `n`, logs what running `steps + phase` logs. */
  lemma StepsExtend(run: Runner, n: nat, start: seq<Event>, steps: seq<Step>, phase: seq<Step>,
                    log1: seq<Event>, log2: seq<Event>)
    requires log1 == start + StepsLog(run, n, steps)
    requires log2 == log1 + StepsLog(run, n + |Commands(steps)|, phase)
    ensures log2 == start + StepsLog(run, n, steps + phase)
  {
    StepsLogAppend(run, n, n + |Commands(steps)|, steps, phase);
    Extend(start, StepsLog(run, n, steps), StepsLog(run, n + |Commands(steps)|, phase), StepsLog(run, n, steps + phase),
      log1, log2);
  }

  /** A list extended by `x` and then by `y` is that list extended by `x + y`. */
  lemma Extend<T>(start: seq<T>, x: seq<T>, y: seq<T>, xy: seq<T>, log1: seq<T>, log2: seq<T>)
    requires log1 == start + x && log2 == log1 + y && xy == x + y
    ensures log2 == start + xy
  {
    assert (start + x) + y == start + (x + y);
  }

  /** Running `steps` and then `phase` is running `steps + phase`. */
  lemma RanAppend(run: Runner, ran0: seq<string>, log0: seq<Event>, steps: seq<Step>, phase: seq<Step>,
                  ran1: seq<string>, log1: seq<Event>, ran2: seq<string>, log2: seq<Event>)
    requires Ran(run, ran0, log0, steps, ran1, log1) && Ran(run, ran1, log1, phase, ran2, log2)
    ensures Ran(run, ran0, log0, steps + phase, ran2, log2)
  {
    CommandsAppend(steps, phase);
    SeqExtend(ran0, Commands(steps), Commands(phase), ran1, ran2);
    StepsExtend(run, |ran0|, log0, steps, phase, log1, log2);
  }

  /** Whatever the outcome, one step echoes exactly the commands it runs. */
  lemma StepEchoes(run: Runner, n: nat, step: Step)
    ensures Echoes(StepLog(run, n, step)) == StepCommands(step)
  {
    match step
    case Announce(t) =>
      assert Echoes([Info(t)]) == [];
    case Batch(commands) =>
      BatchEchoes(run, n, commands);
    case Artisan(c) =>
      assert Echoes([Call(c)]) == [];
  }

  /** Whatever the outcome, one step logs exactly its own phase message or artisan call. */
  lemma StepMarkersLogged(run: Runner, n: nat, step: Step)
    ensures Markers(StepLog(run, n, step)) == StepMarkers(step)
  {
    match step
    case Announce(t) =>
      assert Markers([Info(t)]) == [Info(t)];
    case Batch(commands) =>
      BatchMarkers(run, n, commands);
    case Artisan(c) =>
      assert Markers([Call(c)]) == [Call(c)];
  }

  /** Whatever the outcomes, the steps echo every command they run, in order. */
  lemma {:induction false} StepsEchoes(run: Runner, n: nat, steps: seq<Step>)
    ensures Echoes(StepsLog(run, n, steps)) == Commands(steps)
    decreases |steps|
  {
    if steps != [] {
      var m := n + |StepCommands(steps[0])|;
      EchoesAppend(StepLog(run, n, steps[0]), StepsLog(run, m, steps[1..]));
      StepsEchoes(run, m, steps[1..]);
      StepEchoes(run, n, steps[0]);
    }
  }

  /** Whatever the outcomes, the phase messages and artisan calls appear as the steps list them. */
  lemma {:induction false} StepsMarkers(run: Runner, n: nat, steps: seq<Step>)
    ensures Markers(StepsLog(run, n, steps)) == Announcements(steps)
    decreases |steps|
  {
    if steps != [] {
      var m := n + |StepCommands(steps[0])|;
      MarkersAppend(StepLog(run, n, steps[0]), StepsLog(run, m, steps[1..]));
      StepsMarkers(run, m, steps[1..]);
      StepMarkersLogged(run, n, steps[0]);
    }
  }
}
