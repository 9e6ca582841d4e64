/** Most steps only take things away: leases go, pending requests close, evidence
    lapses, attempts settle. Such a step keeps everything that is said of all pairs. */
module Reductions {
  import opened Resources
  import opened Tables
  import opened Sweeps
  import opened Invariants

  ghost predicate LeasesShrink(d: Database, e: Database) {
    forall b :: b in e.leases ==>
      && b in d.leases
      && e.leases[b].task == d.leases[b].task
      && e.leases[b].agent == d.leases[b].agent
      && e.leases[b].resources == d.leases[b].resources
      && (d.leases[b].state.LeaseDraining? ==> e.leases[b].state.LeaseDraining?)
      && (forall i :: i in e.leases[b].slots ==>
            i in d.leases[b].slots && e.leases[b].slots[i] == d.leases[b].slots[i])
  }

  ghost predicate RequestsClose(d: Database, e: Database) {
    && e.requests.Keys == d.requests.Keys
    && forall b :: b in d.requests ==>
         && e.requests[b].task == d.requests[b].task
         && e.requests[b].agent == d.requests[b].agent
         && e.requests[b].sequence == d.requests[b].sequence
         && e.requests[b].resources == d.requests[b].resources
         && e.requests[b].offer == d.requests[b].offer
         && e.requests[b].supersededBy == d.requests[b].supersededBy
         && (|| e.requests[b].state == d.requests[b].state
             || (d.requests[b].Pending() && (e.requests[b].state.Expired? || e.requests[b].state.Withdrawn?)))
  }

  ghost predicate EvidenceLapses(d: Database, e: Database) {
    && e.evidence.Keys == d.evidence.Keys
    && forall k :: k in d.evidence ==>
         && e.evidence[k].task == d.evidence[k].task
         && e.evidence[k].source == d.evidence[k].source
         && e.evidence[k].observation == d.evidence[k].observation
         && (e.evidence[k].valid ==> d.evidence[k].valid)
  }

  ghost predicate AttemptsSettle(d: Database, e: Database) {
    && e.attempts.Keys == d.attempts.Keys
    && forall a :: a in d.attempts ==>
         && e.attempts[a] == d.attempts[a].(status := e.attempts[a].status)
         && (e.attempts[a].status == d.attempts[a].status || d.attempts[a].status.Executing?)
  }

  ghost predicate Reduces(d: Database, e: Database) {
    && LeasesShrink(d, e) && RequestsClose(d, e) && EvidenceLapses(d, e) && AttemptsSettle(d, e)
    && e.resources == d.resources && e.nextUuid == d.nextUuid && e.queueSequence == d.queueSequence
  }

  lemma IdsReduce(d: Database, e: Database)
    requires IdsUsed(d) && Reduces(d, e)
    ensures IdsUsed(e)
  {
  }

  lemma SinglesReduce(d: Database, e: Database)
    requires Singles(d) && LeasesShrink(d, e) && RequestsClose(d, e) && AttemptsSettle(d, e)
    ensures Singles(e)
  {
  }

  lemma ApartReduce(d: Database, e: Database)
    requires Apart(d) && LeasesShrink(d, e) && RequestsClose(d, e)
    ensures Apart(e)
  {
    hide Clash;
  }

  lemma QueueReduce(d: Database, e: Database)
    requires QueueSound(d) && RequestsClose(d, e)
    ensures QueueSound(e)
  {
    hide Clash;
  }

  lemma EvidenceReduce(d: Database, e: Database)
    requires EvidenceSound(d) && LeasesShrink(d, e) && RequestsClose(d, e) && EvidenceLapses(d, e)
    requires e.resources == d.resources
    ensures EvidenceSound(e)
  {
    hide Overlap;
  }

  /** A reduction keeps the invariant once owners and slots are right again. */
  lemma ReduceKeeps(d: Database, e: Database)
    requires Inv(d) && Reduces(d, e)
    requires Owned(e) && WritesSound(e)
    ensures Inv(e)
  {
    IdsReduce(d, e);
    SinglesReduce(d, e);
    ApartReduce(d, e);
    QueueReduce(d, e);
    EvidenceReduce(d, e);
    hide IdsUsed, Owned, Singles, Apart, QueueSound, WritesSound, EvidenceSound;
  }

  // -------------------------------------------------------- lease removal

  /** Some leases start draining. */
  ghost predicate DrainsSome(d: Database, e: Database) {
    && e == d.(leases := e.leases)
    && e.leases.Keys == d.leases.Keys
    && forall b :: b in d.leases ==> e.leases[b] == d.leases[b] || e.leases[b] == Drained(d.leases[b])
  }

  lemma DrainReduces(d: Database, e: Database)
    requires DrainsSome(d, e)
    ensures Reduces(d, e)
  {
  }

  lemma DrainOwned(d: Database, e: Database)
    requires DrainsSome(d, e) && Owned(d)
    ensures Owned(e)
  {
  }

  lemma DrainWrites(d: Database, e: Database)
    requires DrainsSome(d, e) && WritesSound(d)
    ensures WritesSound(e)
  {
  }

  lemma DrainKeeps(d: Database, e: Database)
    requires DrainsSome(d, e) && Inv(d)
    ensures Inv(e)
  {
    hide *;
    Parts(d);
    DrainReduces(d, e);
    DrainOwned(d, e);
    DrainWrites(d, e);
    ReduceKeeps(d, e);
  }

  /** Some leases without an executing write go. */
  ghost predicate DropsSome(d: Database, e: Database) {
    && e == d.(leases := e.leases)
    && (forall b :: b in e.leases ==> b in d.leases && e.leases[b] == d.leases[b])
    && (forall a :: a in d.attempts && d.attempts[a].status.Executing? ==> d.attempts[a].batch in e.leases)
  }

  lemma DropReduces(d: Database, e: Database)
    requires DropsSome(d, e)
    ensures Reduces(d, e)
  {
  }

  lemma DropSettles(d: Database, e: Database)
    requires DropsSome(d, e) && Owned(d) && WritesSound(d)
    ensures Owned(e) && WritesSound(e)
  {
  }

  lemma DropKeeps(d: Database, e: Database)
    requires DropsSome(d, e) && Inv(d)
    ensures Inv(e)
  {
    hide *;
    Parts(d);
    DropReduces(d, e);
    DropSettles(d, e);
    ReduceKeeps(d, e);
  }
}
