/** Retries: a request id is carried out at most once, whatever the clients resend. */
module ExactlyOnce {
  import opened Basics
  import opened Tables
  import opened Sweeps
  import opened Commands
  import opened Invariants
  import opened SweepProofs
  import opened Evolution
  import opened Runs

  /** The request id of the event has been accepted before. */
  predicate IsRetry(db: Database, event: Event) {
    event.Request? && ReceiptKeyOf(event.ctx) in db.receipts
  }

  /** The answer to the `i`-th event of a run. */
  ghost function Reply(run: seq<Event>, i: nat): Result<Response, StoreError>
    requires i < |run| && run[i].Request?
  {
    Execute(StateAfter(run[..i]), run[i].ctx, run[i].cmd).1
  }

  lemma RetryStutters(db: Database, event: Event)
    requires IsRetry(db, event)
    ensures Step(db, event) == db
  {
    hide Operate, Sweep;
  }

  /** The run without its retries. */
  ghost function Effective(db: Database, run: seq<Event>): seq<Event>
    decreases |run|
  {
    if run == [] then []
    else if IsRetry(db, run[0]) then Effective(db, run[1..])
    else [run[0]] + Effective(Step(db, run[0]), run[1..])
  }

  lemma {:induction false} EffectiveSame(db: Database, run: seq<Event>)
    ensures RunFrom(db, run) == RunFrom(db, Effective(db, run))
    decreases |run|
  {
    hide Step;
    if run != [] {
      if IsRetry(db, run[0]) {
        RetryStutters(db, run[0]);
        EffectiveSame(db, run[1..]);
      } else {
        EffectiveSame(Step(db, run[0]), run[1..]);
        assert Effective(db, run)[1..] == Effective(Step(db, run[0]), run[1..]);
      }
    }
  }

  /** The answers given along a run, `None` for maintenance. */
  ghost function Replies(db: Database, run: seq<Event>): seq<Option<Result<Response, StoreError>>>
    decreases |run|
  {
    if run == [] then []
    else
      var reply := if run[0].Request? then Some(Execute(db, run[0].ctx, run[0].cmd).1) else None;
      [reply] + Replies(Step(db, run[0]), run[1..])
  }

  /** The answers to the events that are not retries. */
  ghost function OwnReplies(db: Database, run: seq<Event>): seq<Option<Result<Response, StoreError>>>
    decreases |run|
  {
    if run == [] then []
    else if IsRetry(db, run[0]) then OwnReplies(Step(db, run[0]), run[1..])
    else
      var reply := if run[0].Request? then Some(Execute(db, run[0].ctx, run[0].cmd).1) else None;
      [reply] + OwnReplies(Step(db, run[0]), run[1..])
  }

  lemma {:induction false} EffectiveReplies(db: Database, run: seq<Event>)
    ensures Replies(db, Effective(db, run)) == OwnReplies(db, run)
    decreases |run|
  {
    hide Step, Execute;
    if run != [] {
      if IsRetry(db, run[0]) {
        RetryStutters(db, run[0]);
        EffectiveReplies(db, run[1..]);
      } else {
        EffectiveReplies(Step(db, run[0]), run[1..]);
        assert Effective(db, run)[1..] == Effective(Step(db, run[0]), run[1..]);
      }
    }
  }

  /** Erasing every retry leaves the final state and all other answers as they were. */
  lemma RetriesErased(run: seq<Event>)
    ensures StateAfter(Effective(EMPTY, run)) == StateAfter(run)
    ensures Replies(EMPTY, Effective(EMPTY, run)) == OwnReplies(EMPTY, run)
  {
    EffectiveSame(EMPTY, run);
    EffectiveReplies(EMPTY, run);
  }

  lemma AcceptedFiled(db: Database, ctx: Context, cmd: Command)
    requires Execute(db, ctx, cmd).1.Ok?
    ensures ctx.Valid() && ReceiptKeyOf(ctx) in Execute(db, ctx, cmd).0.receipts
    ensures Execute(db, ctx, cmd).0.receipts[ReceiptKeyOf(ctx)] == Receipt(cmd, Execute(db, ctx, cmd).1.value)
  {
    hide Operate, Sweep;
  }

  lemma {:induction false} StateNext(run: seq<Event>, i: nat)
    requires i < |run|
    ensures StateAfter(run[..i + 1]) == Step(StateAfter(run[..i]), run[i])
  {
    hide Step;
    RunSplits(EMPTY, run[..i + 1], i);
    assert run[..i + 1][..i] == run[..i] && run[..i + 1][i..] == [run[i]];
    assert RunFrom(StateAfter(run[..i]), [run[i]]) == Step(StateAfter(run[..i]), run[i]) by {
      assert [run[i]][1..] == [];
    }
  }

  /** The receipt of an accepted request stays for the rest of the run. */
  lemma ReceiptStays(run: seq<Event>, i: nat, j: nat)
    requires i < j <= |run| && run[i].Request? && Reply(run, i).Ok?
    ensures run[i].ctx.Valid() && ReceiptKeyOf(run[i].ctx) in StateAfter(run[..j]).receipts
    ensures StateAfter(run[..j]).receipts[ReceiptKeyOf(run[i].ctx)] == Receipt(run[i].cmd, Reply(run, i).value)
  {
    hide StateAfter, Execute, Inv, TablesEvolve;
    AcceptedFiled(StateAfter(run[..i]), run[i].ctx, run[i].cmd);
    StateNext(run, i);
    assert run[..j][..i + 1] == run[..i + 1];
    RunLater(run[..j], i + 1);
  }

  /** Once a request id is accepted, sending it again changes nothing, at any later
      moment: the same command gets the recorded answer, another one is refused. */
  lemma AcceptedOnce(run: seq<Event>, i: nat, j: nat)
    requires i < j < |run| && run[i].Request? && Reply(run, i).Ok?
    requires run[j].Request? && ReceiptKeyOf(run[j].ctx) == ReceiptKeyOf(run[i].ctx) && run[j].ctx.Valid()
    ensures StateAfter(run[..j + 1]) == StateAfter(run[..j])
    ensures Reply(run, j) == if run[j].cmd == run[i].cmd then Reply(run, i) else Err(IdempotencyMismatch)
  {
    hide StateAfter, Operate, Sweep;
    StateNext(run, j);
    ReceiptStays(run, i, j);
  }

  /** A refused request leaves no trace. */
  lemma RefusedLeavesNoTrace(run: seq<Event>, i: nat)
    requires i < |run| && run[i].Request? && Reply(run, i).Err?
    ensures StateAfter(run[..i + 1]) == StateAfter(run[..i])
  {
    hide StateAfter, Operate, Sweep;
    StateNext(run, i);
  }

  lemma AcceptedMeans(db: Database, ctx: Context, cmd: Command)
    requires ReceiptKeyOf(ctx) !in db.receipts && Execute(db, ctx, cmd).1.Ok?
    ensures var out := Operate(Sweep(db, ctx.observedAt), ctx, cmd);
            && out.Accepted? && out.response == Execute(db, ctx, cmd).1.value
            && Execute(db, ctx, cmd).0 == out.db.(receipts := Execute(db, ctx, cmd).0.receipts)
  {
    hide Operate, Sweep;
  }

  /** The `i`-th event is a request that is carried out, not answered from a receipt. */
  ghost predicate CarriesOut(run: seq<Event>, i: nat)
    requires i < |run|
  {
    run[i].Request? && !IsRetry(StateAfter(run[..i]), run[i]) && Reply(run, i).Ok?
  }

  /** The tables the `i`-th request works on: what the sweeps leave. */
  ghost function SweptFor(run: seq<Event>, i: nat): Database
    requires i < |run| && run[i].Request?
  {
    Sweep(StateAfter(run[..i]), run[i].ctx.observedAt)
  }

  lemma CarriedOut(run: seq<Event>, i: nat)
    requires i < |run| && CarriesOut(run, i)
    ensures Inv(SweptFor(run, i)) && Conserved(SweptFor(run, i))
    ensures var out := Operate(SweptFor(run, i), run[i].ctx, run[i].cmd);
            && out.Accepted? && out.response == Reply(run, i).value
            && StateAfter(run[..i + 1]) == out.db.(receipts := StateAfter(run[..i + 1]).receipts)
  {
    hide StateAfter, Execute, Operate, Sweep, Inv, Conserved;
    RunSafe(run[..i]);
    SweepKeeps(StateAfter(run[..i]), run[i].ctx.observedAt);
    AcceptedMeans(StateAfter(run[..i]), run[i].ctx, run[i].cmd);
    StateNext(run, i);
  }
}
