/** Theorems about every run of the store: any commands of any clients, at any
    claimed times, with maintenance anywhere in between. */
module Runs {
  import opened Basics
  import opened Tables
  import opened Sweeps
  import opened Commands
  import opened Invariants
  import opened SweepProofs
  import opened Safety
  import opened Evolution
  import opened CommandEvolution

  datatype Event = Request(ctx: Context, cmd: Command) | Maintenance(now: Instant)

  ghost function Step(db: Database, event: Event): Database {
    match event
    case Request(ctx, cmd) => Execute(db, ctx, cmd).0
    case Maintenance(now) => Maintain(db, now)
  }

  ghost function RunFrom(db: Database, run: seq<Event>): Database
    decreases |run|
  {
    if run == [] then db else RunFrom(Step(db, run[0]), run[1..])
  }

  ghost function StateAfter(run: seq<Event>): Database { RunFrom(EMPTY, run) }

  lemma EmptySafe()
    ensures Inv(EMPTY) && Conserved(EMPTY)
  {
  }

  lemma StepSafe(db: Database, event: Event)
    requires Inv(db) && Conserved(db)
    ensures Inv(Step(db, event)) && Conserved(Step(db, event)) && Later(db, Step(db, event))
  {
    hide Inv, Conserved, Execute, Maintain, TablesEvolve;
    match event
    case Request(ctx, cmd) =>
      ExecuteSafe(db, ctx, cmd);
      ExecuteLater(db, ctx, cmd);
    case Maintenance(now) =>
      MaintainKeeps(db, now);
      MaintainEvolves(db, now);
  }

  lemma {:induction false} RunFromSafe(db: Database, run: seq<Event>)
    requires Inv(db) && Conserved(db)
    ensures Inv(RunFrom(db, run)) && Conserved(RunFrom(db, run)) && Later(db, RunFrom(db, run))
    decreases |run|
  {
    hide Inv, Conserved, Step, Later;
    if run == [] {
      LaterReflexive(db);
    } else {
      StepSafe(db, run[0]);
      RunFromSafe(Step(db, run[0]), run[1..]);
      LaterTransitive(db, Step(db, run[0]), RunFrom(db, run));
    }
  }

  lemma LaterReflexive(db: Database)
    ensures Later(db, db)
  {
    hide TablesEvolve;
    EvolvesReflexive(db);
  }

  /** The invariant holds after every run. */
  lemma RunSafe(run: seq<Event>)
    ensures Inv(StateAfter(run)) && Conserved(StateAfter(run))
  {
    hide *;
    assert StateAfter(run) == RunFrom(EMPTY, run) by { StateIsRun(run); }
    EmptySafe();
    RunFromSafe(EMPTY, run);
  }

  lemma StateIsRun(run: seq<Event>)
    ensures StateAfter(run) == RunFrom(EMPTY, run)
  {
  }

  lemma {:induction false} RunSplits(db: Database, run: seq<Event>, i: nat)
    requires i <= |run|
    ensures RunFrom(db, run) == RunFrom(RunFrom(db, run[..i]), run[i..])
    decreases i
  {
    hide Step;
    if i == 0 {
      assert run[..0] == [] && run[0..] == run;
    } else {
      RunSplits(Step(db, run[0]), run[1..], i - 1);
      assert run[..i][0] == run[0] && run[..i][1..] == run[1..][..i - 1] && run[1..][i - 1..] == run[i..];
    }
  }

  /** Between any two moments of a run the tables only move forward. */
  lemma RunLater(run: seq<Event>, i: nat)
    requires i <= |run|
    ensures Inv(StateAfter(run[..i])) && Later(StateAfter(run[..i]), StateAfter(run))
  {
    hide Inv, Conserved, Later, RunFrom;
    RunSafe(run[..i]);
    RunFromSafe(StateAfter(run[..i]), run[i..]);
    RunSplits(EMPTY, run, i);
  }
}
