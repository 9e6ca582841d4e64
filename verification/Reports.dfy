/** What a list of reported observations says (crates/stateful-store/src/store_v2.rs). */
module Reports {
  import opened Basics
  import opened Operations
  import opened Tables

  /** Every observation is of this workspace and of the kind its identity names, and no
      identity is reported twice. */
  predicate Tidy(workspace: Name, os: seq<Observation>) {
    && (forall o :: o in os ==> o.observed.Kind() == o.key.id.kind && o.key.workspace == workspace)
    && (forall i, j :: 0 <= i < j < |os| ==> os[i].key.id != os[j].key.id)
  }

  /** The set holds what the list reports, each observation under its identity. */
  ghost predicate Holds(workspace: Name, os: seq<Observation>, set': ObservationSet) {
    && (forall o :: o in os ==> o.key.id in set' && set'[o.key.id] == o)
    && (forall i :: i in set' ==> set'[i] in os && set'[i].key.id == i && set'[i].key.workspace == workspace)
  }

  /** A tidy list becomes the set of what it reports; any other is refused. */
  lemma {:induction false} CanonicalExact(workspace: Name, os: seq<Observation>)
    ensures Canonical(workspace, os).Ok? <==> Tidy(workspace, os)
    ensures Canonical(workspace, os).Err? ==> Canonical(workspace, os).error == InvalidInput
    ensures Canonical(workspace, os).Ok? ==> Holds(workspace, os, Canonical(workspace, os).value)
    ensures Canonical(workspace, os).Ok? ==> |Canonical(workspace, os).value| == |os|
    decreases |os|
  {
    if os != [] {
      var n := |os| - 1;
      var front, last := os[..n], os[n];
      CanonicalExact(workspace, front);
      assert os == front + [last];
      if Tidy(workspace, os) {
        assert Tidy(workspace, front) by { FrontTidy(workspace, os); }
        LastNew(workspace, os);
      } else if Canonical(workspace, os).Ok? {
        LastTidy(workspace, os);
      }
    }
  }

  lemma FrontTidy(workspace: Name, os: seq<Observation>)
    requires os != [] && Tidy(workspace, os)
    ensures Tidy(workspace, os[..|os| - 1])
  {
  }

  lemma LastNew(workspace: Name, os: seq<Observation>)
    requires os != [] && Tidy(workspace, os)
    ensures forall o :: o in os[..|os| - 1] ==> o.key.id != os[|os| - 1].key.id
    ensures os[|os| - 1].observed.Kind() == os[|os| - 1].key.id.kind && os[|os| - 1].key.workspace == workspace
  {
    assert os[|os| - 1] in os;
    forall o | o in os[..|os| - 1] ensures o.key.id != os[|os| - 1].key.id {
      var i :| 0 <= i < |os| - 1 && os[i] == o;
    }
  }

  lemma LastTidy(workspace: Name, os: seq<Observation>)
    requires os != [] && Tidy(workspace, os[..|os| - 1])
    requires os[|os| - 1].observed.Kind() == os[|os| - 1].key.id.kind && os[|os| - 1].key.workspace == workspace
    requires forall o :: o in os[..|os| - 1] ==> o.key.id != os[|os| - 1].key.id
    ensures Tidy(workspace, os)
  {
    var n := |os| - 1;
    assert os == os[..n] + [os[n]];
    forall i, j | 0 <= i < j < |os| ensures os[i].key.id != os[j].key.id {
      assert os[i] == os[..n][i];
      if j < n { assert os[j] == os[..n][j]; } else { assert os[..n][i] in os[..n]; }
    }
  }
}
