/** When a finished write counts as completed, as failed or as uncertain, and what becomes
    of its lease and its task (crates/stateful-store/src/store_v2.rs). */
module WriteAnswers {
  import opened Basics
  import opened Operations
  import opened OperationProofs
  import opened OperationMeaning
  import opened Tables
  import opened Sweeps
  import opened Commands
  import opened Invariants
  import opened EvidenceProofs
  import opened Safety
  import opened Evolution
  import opened Runs
  import opened ExactlyOnce
  import opened Reports
  import opened ReadAnswers
  import opened PrepareAnswers
  import opened PrepareEffects
  import opened Deadlines

  /** The command names an executing write of the client's own task, by its permit. */
  ghost predicate AddressedWrite(db: Database, ctx: Context, cmd: Command)
    requires cmd.WriteComplete?
  {
    var t := TaskKey(ctx.workspace, ctx.task);
    && t in db.tasks && db.tasks[t].agent == ctx.agent
    && cmd.attempt in db.attempts
    && db.attempts[cmd.attempt].task == t
    && db.attempts[cmd.attempt].invocation == cmd.invocation
    && db.attempts[cmd.attempt].permit == cmd.permit
    && db.attempts[cmd.attempt].status == Executing
  }

  /** The client reports success, and the operation achieves what was expected of it. */
  ghost predicate WentAsExpected(op: Operation, start: seq<Observation>, cmd: Command)
    requires cmd.WriteComplete?
  {
    cmd.outcome == Success && cmd.expected != [] && Achieves(op, start, cmd.expected) && Permutes(cmd.expected, cmd.post)
  }

  /** The client reports a known failure, and everything is as it was before the write. */
  ghost predicate DidNothing(start: seq<Observation>, cmd: Command)
    requires cmd.WriteComplete?
  {
    cmd.outcome == FailedKnown && |cmd.post| == |start| && Repeated(start, cmd.post)
  }

  lemma UnmovedMeant(workspace: Name, start: seq<Observation>, post: seq<Observation>, actual: ObservationSet)
    requires Holds(workspace, post, actual) && |actual| == |post|
    ensures Unmoved(start, actual) <==> |post| == |start| && Repeated(start, post)
  {
    if Unmoved(start, actual) {
      forall o | o in start ensures exists p :: p in post && p.key == o.key && p.observed == o.observed {
        assert actual[o.key.id] in post;
      }
    }
    if |post| == |start| && Repeated(start, post) {
      forall o | o in start ensures o.key.id in actual && SameState(o, actual[o.key.id]) {
        var p :| p in post && p.key == o.key && p.observed == o.observed;
      }
    }
  }

  lemma VerdictMeant(workspace: Name, attempt: WriteAttempt, cmd: Command, actual: ObservationSet, expected: ObservationSet)
    requires cmd.WriteComplete? && Holds(workspace, cmd.post, actual) && |actual| == |cmd.post|
    requires Holds(workspace, cmd.expected, expected)
    ensures WriteVerdict(attempt, cmd, actual, expected) ==
            if WentAsExpected(attempt.operation, attempt.start, cmd) then WriteCompleted
            else if DidNothing(attempt.start, cmd) then WriteFailed
            else Uncertain
  {
    hide ValidateOperationTransition, Achieves, Permutes, Unmoved, Holds, Repeated;
    TransitionMeans(attempt.operation, attempt.start, cmd.expected, cmd.post);
    UnmovedMeant(workspace, attempt.start, cmd.post, actual);
    NotEmpty(workspace, cmd.expected, expected);
  }

  /** The answer to a finished write. It is completed exactly if the client reports success,
      the operation achieves what the client expected of it and the post-state is that; it
      has failed exactly if the client reports a known failure and the post-state is the
      start; and it is uncertain in every other case. */
  lemma CompletionAnswer(db: Database, ctx: Context, cmd: Command)
    requires cmd.WriteComplete?
    ensures !AddressedWrite(db, ctx, cmd) ==> CompleteWrite(db, ctx, cmd).Rejected?
    ensures AddressedWrite(db, ctx, cmd) ==>
      var attempt := db.attempts[cmd.attempt];
      match CompleteWrite(db, ctx, cmd)
      case Rejected(error) =>
        error == InvalidInput && !(Tidy(ctx.workspace, cmd.post) && Tidy(ctx.workspace, cmd.expected))
      case Accepted(_, response) =>
        && Tidy(ctx.workspace, cmd.post) && Tidy(ctx.workspace, cmd.expected)
        && response.WriteResult? && response.attempt == cmd.attempt
        && (response.writeStatus == WriteCompleted <==> WentAsExpected(attempt.operation, attempt.start, cmd))
        && (response.writeStatus == WriteFailed <==> DidNothing(attempt.start, cmd))
        && response.writeStatus != Executing
  {
    hide Canonical, WriteVerdict, RecordVerdict, Settle, DrainLease, DropLease, FinishDue, FinishDraining, Promote, ReleaseDue;
    hide Achieves, Permutes, Repeated, Tidy, Holds;
    if AddressedWrite(db, ctx, cmd) {
      CanonicalExact(ctx.workspace, cmd.post);
      CanonicalExact(ctx.workspace, cmd.expected);
      var actual, expected := Canonical(ctx.workspace, cmd.post), Canonical(ctx.workspace, cmd.expected);
      if actual.Ok? && expected.Ok? {
        VerdictMeant(ctx.workspace, db.attempts[cmd.attempt], cmd, actual.value, expected.value);
      }
    }
  }

  /** What it takes for a finished write to be completed. */
  ghost predicate Completes(db: Database, ctx: Context, cmd: Command)
    requires cmd.WriteComplete?
  {
    && AddressedWrite(db, ctx, cmd) && Tidy(ctx.workspace, cmd.post) && Tidy(ctx.workspace, cmd.expected)
    && WentAsExpected(db.attempts[cmd.attempt].operation, db.attempts[cmd.attempt].start, cmd)
  }

  /** What it takes for it to have failed. */
  ghost predicate Fails(db: Database, ctx: Context, cmd: Command)
    requires cmd.WriteComplete?
  {
    && AddressedWrite(db, ctx, cmd) && Tidy(ctx.workspace, cmd.post) && Tidy(ctx.workspace, cmd.expected)
    && DidNothing(db.attempts[cmd.attempt].start, cmd)
  }

  lemma VerdictsMean(db: Database, ctx: Context, cmd: Command)
    requires cmd.WriteComplete?
    ensures Completes(db, ctx, cmd) <==>
              CompleteWrite(db, ctx, cmd).Accepted? && CompleteWrite(db, ctx, cmd).response == WriteResult(cmd.attempt, WriteCompleted)
    ensures Fails(db, ctx, cmd) <==>
              CompleteWrite(db, ctx, cmd).Accepted? && CompleteWrite(db, ctx, cmd).response == WriteResult(cmd.attempt, WriteFailed)
  {
    hide CompleteWrite, WentAsExpected, DidNothing, Tidy;
    CompletionAnswer(db, ctx, cmd);
  }

  // --------------------------------------------------------------- effects

  ghost predicate Without(l: Lease, a: Uuid, l': Lease) {
    && l' == l.(slots := l'.slots)
    && (forall i :: i in l'.slots <==> i in l.slots && l.slots[i] != a)
    && (forall i :: i in l'.slots ==> l'.slots[i] == l.slots[i])
  }

  /** The attempt's last busy resource was what kept the lease. */
  predicate FreesLease(db: Database, a: Uuid, status: WriteStatus, b: Uuid)
    requires a in db.attempts && b in db.leases
  {
    && b == db.attempts[a].batch && status != Uncertain && db.leases[b].releasePending
    && forall i :: i in db.leases[b].slots ==> db.leases[b].slots[i] == a
  }

  /** Something of the task remains to be accounted for. */
  ghost predicate RemainsBusy(db: Database, a: Uuid, status: WriteStatus, t: TaskKey)
    requires a in db.attempts
  {
    exists c :: && c in db.attempts && db.attempts[c].task == t
                && (if c == a then status == Uncertain else db.attempts[c].status == Executing || db.attempts[c].status == Uncertain)
                && db.attempts[c].batch in db.leases && !FreesLease(db, a, status, db.attempts[c].batch)
  }

  /** The task was only waiting for this write to end. */
  ghost predicate EndsTask(db: Database, a: Uuid, status: WriteStatus, t: TaskKey)
    requires a in db.attempts
  {
    t in db.tasks && db.tasks[t].status == Draining && db.tasks[t].terminal.Some? && !RemainsBusy(db, a, status, t)
  }

  /** The lease after the write: without the attempt's slots, draining if nobody knows what
      the write did, and gone if it was to be released and nothing is left to do under it. */
  ghost predicate LeaseAfter(db: Database, leases: map<Uuid, Lease>, a: Uuid, status: WriteStatus, t: TaskKey, b: Uuid)
    requires a in db.attempts && b in db.leases
  {
    if FreesLease(db, a, status, b) || (db.leases[b].task == t && EndsTask(db, a, status, t)) then b !in leases
    else
      && b in leases
      && Without(if b == db.attempts[a].batch && status == Uncertain
                 then db.leases[b].(state := LeaseDraining, releasePending := true) else db.leases[b], a, leases[b])
  }

  lemma LeftLease(d: Database, a: Uuid, status: WriteStatus, b: Uuid)
    requires a in d.attempts && b in d.leases
    ensures var settled, batch := Settle(d, a, status), d.attempts[a].batch;
            var left := if status.Uncertain? then DrainLease(settled, batch)
                        else if ReleaseDue(settled, batch) then DropLease(settled, batch) else settled;
            if FreesLease(d, a, status, b) then b !in left.leases
            else
              && b in left.leases && left.leases[b].task == d.leases[b].task
              && Without(if b == batch && status == Uncertain
                         then d.leases[b].(state := LeaseDraining, releasePending := true) else d.leases[b], a, left.leases[b])
  {
    hide Settle;
    SettledLease(d, a, status, b);
    if d.attempts[a].batch in d.leases { SettledLease(d, a, status, d.attempts[a].batch); }
    SettledKeys(d, a, status);
    hide Without;
  }

  lemma SettledKeys(d: Database, a: Uuid, status: WriteStatus)
    requires a in d.attempts
    ensures Settle(d, a, status).leases.Keys == d.leases.Keys
  {
  }

  lemma SettledLease(d: Database, a: Uuid, status: WriteStatus, b: Uuid)
    requires a in d.attempts && b in d.leases
    ensures var l, l' := d.leases[b], Settle(d, a, status).leases[b];
            && b in Settle(d, a, status).leases
            && Without(l, a, l') && Without(Drained(l), a, Drained(l')) && l'.task == l.task
            && (ReleaseDue(Settle(d, a, status), b) <==>
                  l.releasePending && forall i :: i in l.slots ==> l.slots[i] == a)
  {
    var l, l' := d.leases[b], Settle(d, a, status).leases[b];
    assert l' == l.(slots := map i | i in l.slots && l.slots[i] != a :: l.slots[i]);
    assert l'.slots == map[] <==> forall i :: i in l.slots ==> l.slots[i] == a by { NothingLeft(l, a, l'); }
  }

  lemma NothingLeft(l: Lease, a: Uuid, l': Lease)
    requires Without(l, a, l')
    ensures l'.slots == map[] <==> forall i :: i in l.slots ==> l.slots[i] == a
  {
  }

  lemma LeftOthers(d: Database, a: Uuid, status: WriteStatus)
    requires a in d.attempts
    ensures var settled, batch := Settle(d, a, status), d.attempts[a].batch;
            var left := if status.Uncertain? then DrainLease(settled, batch)
                        else if ReleaseDue(settled, batch) then DropLease(settled, batch) else settled;
            && left.leases.Keys <= d.leases.Keys && left.tasks == d.tasks
            && left.attempts == d.attempts[a := d.attempts[a].(status := status)]
  {
    hide ReleaseDue;
  }

  lemma LeftBusy(db: Database, t: TaskKey, a: Uuid, status: WriteStatus, actual: ObservationSet)
    requires a in db.attempts && a in RecordVerdict(db, t, db.attempts[a], status, actual).attempts
    requires CoreSame(db, RecordVerdict(db, t, db.attempts[a], status, actual)) && status != Executing
    ensures Busy(Left(db, t, a, status, actual), t) <==> RemainsBusy(db, a, status, t)
    ensures FinishDue(Left(db, t, a, status, actual), t) <==> EndsTask(db, a, status, t)
  {
    hide RecordVerdict, Settle, DrainLease, DropLease, ReleaseDue, FreesLease, Without;
    var d := RecordVerdict(db, t, db.attempts[a], status, actual);
    var left := Left(db, t, a, status, actual);
    LeftOthers(d, a, status);
    forall b | b in db.leases ensures b in left.leases <==> !FreesLease(db, a, status, b) {
      LeftLease(d, a, status, b);
      SameFreesLease(db, d, a, status, b);
    }
    BusyMeant(left, t);
    if RemainsBusy(db, a, status, t) {
      var c :| && c in db.attempts && db.attempts[c].task == t
               && (if c == a then status == Uncertain else db.attempts[c].status == Executing || db.attempts[c].status == Uncertain)
               && db.attempts[c].batch in db.leases && !FreesLease(db, a, status, db.attempts[c].batch);
      assert c in left.attempts && left.attempts[c].batch in left.leases;
    }
  }

  lemma SameFreesLease(d: Database, e: Database, a: Uuid, status: WriteStatus, b: Uuid)
    requires e.leases == d.leases && e.attempts == d.attempts && a in d.attempts && b in d.leases
    ensures FreesLease(d, a, status, b) <==> FreesLease(e, a, status, b)
  {
  }

  lemma FinishedLeases(left: Database, t: TaskKey)
    ensures var e := FinishDraining(left, t);
            && e.attempts == left.attempts
            && (forall b :: b in e.leases <==> b in left.leases && !(FinishDue(left, t) && left.leases[b].task == t))
            && (forall b :: b in e.leases ==> e.leases[b] == left.leases[b])
            && (FinishDue(left, t) ==> t in left.tasks && left.tasks[t].terminal.Some?)
            && e.tasks == if FinishDue(left, t) then left.tasks[t := left.tasks[t].(status := left.tasks[t].terminal.value)] else left.tasks
  {
    hide Busy;
  }

  /** What a finished write does to the attempt, the leases and the task. */
  lemma CompletionLeaves(db: Database, ctx: Context, cmd: Command)
    requires Inv(db) && Conserved(db) && cmd.WriteComplete? && CompleteWrite(db, ctx, cmd).Accepted?
    ensures cmd.attempt in db.attempts && CompleteWrite(db, ctx, cmd).response.WriteResult?
    ensures var e, t := CompleteWrite(db, ctx, cmd).db, ctx.Task();
            var a, status := cmd.attempt, CompleteWrite(db, ctx, cmd).response.writeStatus;
            && e.attempts == db.attempts[a := db.attempts[a].(status := status)]
            && (forall b :: b in e.leases ==> b in db.leases)
            && (forall b :: b in db.leases ==> LeaseAfter(db, e.leases, a, status, t, b))
            && t in db.tasks
            && e.tasks == if EndsTask(db, a, status, t) then db.tasks[t := db.tasks[t].(status := db.tasks[t].terminal.value)] else db.tasks
  {
    hide Inv, Conserved, Canonical, Filed, WriteVerdict, RecordVerdict, Settle, DrainLease, DropLease, FinishDue, Promote;
    hide FinishDraining, ReleaseDue, LeaseAfter, EndsTask;
    var t, attempt := ctx.Task(), db.attempts[cmd.attempt];
    CanonicalFiled(ctx.workspace, cmd.post);
    var actual := Canonical(ctx.workspace, cmd.post).value;
    var verdict := WriteVerdict(attempt, cmd, actual, Canonical(ctx.workspace, cmd.expected).value);
    VerdictFinal(attempt, cmd, actual, Canonical(ctx.workspace, cmd.expected).value);
    VerdictKeeps(db, t, attempt, verdict, actual);
    var left := Left(db, t, cmd.attempt, verdict, actual);
    Deadlines.PromoteKnows(FinishDraining(left, t), ctx.observedAt);
    PromoteKeepsAttempts(FinishDraining(left, t), ctx.observedAt);
    LeftFinished(db, t, cmd.attempt, verdict, actual);
  }

  lemma PromoteKeepsAttempts(db: Database, now: Instant)
    ensures Promote(db, now).attempts == db.attempts
  {
    hide PromoteThrough;
    PromoteFrame(db, db.queueSequence, now);
  }

  lemma LeftFinished(db: Database, t: TaskKey, a: Uuid, status: WriteStatus, actual: ObservationSet)
    requires a in db.attempts && a in RecordVerdict(db, t, db.attempts[a], status, actual).attempts
    requires CoreSame(db, RecordVerdict(db, t, db.attempts[a], status, actual)) && status != Executing && t in db.tasks
    ensures var e := FinishDraining(Left(db, t, a, status, actual), t);
            && e.attempts == db.attempts[a := db.attempts[a].(status := status)]
            && (forall b :: b in e.leases ==> b in db.leases)
            && (forall b :: b in db.leases ==> LeaseAfter(db, e.leases, a, status, t, b))
            && (EndsTask(db, a, status, t) ==> db.tasks[t].terminal.Some?)
            && e.tasks == if EndsTask(db, a, status, t) then db.tasks[t := db.tasks[t].(status := db.tasks[t].terminal.value)] else db.tasks
  {
    hide RecordVerdict, Settle, DrainLease, DropLease, ReleaseDue, FreesLease, Without, FinishDraining, FinishDue, EndsTask;
    var d := RecordVerdict(db, t, db.attempts[a], status, actual);
    var left := Left(db, t, a, status, actual);
    LeftOthers(d, a, status);
    LeftBusy(db, t, a, status, actual);
    FinishedLeases(left, t);
    forall b | b in db.leases ensures LeaseAfter(db, FinishDraining(left, t).leases, a, status, t, b) {
      LeftLease(d, a, status, b);
      SameFreesLease(db, d, a, status, b);
    }
  }

  // ------------------------------------------------------------------ runs

  /** A write permitted at step `i` and reported at step `j` is judged by the operation and the
      observations it was permitted for, whatever happened in between. */
  lemma WritesJudged(run: seq<Event>, i: nat, j: nat)
    requires i < j < |run| && CarriesOut(run, i) && CarriesOut(run, j)
    requires run[i].cmd.WritePrepare? && Reply(run, i).value.Ready?
    requires run[j].cmd.WriteComplete? && run[j].cmd.attempt == Reply(run, i).value.attempt
    ensures run[j].cmd.permit == Reply(run, i).value.permit && run[j].ctx.Task() == run[i].ctx.Task()
    ensures Reply(run, j).value.WriteResult?
    ensures exists start ::
              && StartsFrom(SweptFor(run, i), run[i].ctx.workspace, run[i].cmd.current, start)
              && Reply(run, j).value.writeStatus ==
                 if WentAsExpected(run[i].cmd.operation, start, run[j].cmd) then WriteCompleted
                 else if DidNothing(start, run[j].cmd) then WriteFailed
                 else Uncertain
  {
    hide StateAfter, Execute, PrepareWrite, CompleteWrite, Sweep, Inv, Wants, StartsFrom, Tidy, LeaseGranted, WentAsExpected;
    hide DidNothing, AttemptsEvolve;
    var a := Reply(run, i).value.attempt;
    CarriedOut(run, j);
    PermitMeansWriting(run, i);
    var d, g := StateAfter(run[..i + 1]), StateAfter(run[..j]);
    AttemptStays(run, i + 1, j, a);
    SweepKeepsAttempts(g, run[j].ctx.observedAt);
    CompletionAnswer(SweptFor(run, j), run[j].ctx, run[j].cmd);
    assert StartsFrom(SweptFor(run, i), run[i].ctx.workspace, run[i].cmd.current, d.attempts[a].start);
  }

  lemma AttemptStays(run: seq<Event>, i: nat, j: nat, a: Uuid)
    requires i <= j <= |run| && a in StateAfter(run[..i]).attempts
    ensures a in StateAfter(run[..j]).attempts
    ensures var d, e := StateAfter(run[..i]).attempts[a], StateAfter(run[..j]).attempts[a]; e == d.(status := e.status)
  {
    hide StateAfter, Inv;
    hide ResourcesEvolve, EvidenceEvolves, TasksEvolve, RequestsEvolve, LeasesEvolve, ReceiptsEvolve;
    assert run[..j][..i] == run[..i];
    RunLater(run[..j], i);
  }

  lemma SweepKeepsAttempts(db: Database, now: Instant)
    ensures Sweep(db, now).attempts == db.attempts
  {
    hide PromoteThrough, ExpireTasksAndLeases;
    var d := ExpireTasksAndLeases(db, now);
    PromoteFrame(d, d.queueSequence, now);
    ExpiryKnows(db, now);
  }
}
