/** When is the membership stable enough to decide? `Stable` states the pairwise conditions the
    stability walk checks; under distinct node ids it is the statement that the clients fall into
    partitions, each sharing one ring and one membership set. */
module Stability {
  import opened Wire
  import opened ServerState

  /** Slot `j` is the first participant, in slot order, with its node id. */
  ghost predicate FirstOfId(st: State, tv: Trigger, j: int)
    requires ValidTrigger(st, tv)
  {
    Takes(st, tv, j)
    && forall k :: 0 <= k < j && Takes(st, tv, k) ==> st.sessions[k].nodeId != st.sessions[j].nodeId
  }

  /** Participant `j`, when it is in the membership of `i`, has the ring of `i` and at least the
      membership of `i`. */
  ghost predicate Agrees(st: State, tv: Trigger, i: int, j: int)
    requires 0 <= i < |st.sessions| && 0 <= j < |st.sessions|
  {
    Has(EffMembership(st, tv, i), st.sessions[j].nodeId)
    ==> EffRing(st, tv, i) == EffRing(st, tv, j)
        && Ids(EffMembership(st, tv, i)) <= Ids(EffMembership(st, tv, j))
  }

  ghost predicate SameConfigs(st: State, tv: Trigger)
    requires ValidTrigger(st, tv)
  {
    forall i, j :: Takes(st, tv, i) && Takes(st, tv, j)
                   ==> Ids(EffConfig(st, tv, i)) == Ids(EffConfig(st, tv, j))
  }

  /** What the stability walk accepts. A node id of a membership is looked up as the first
      participant with that id. */
  ghost predicate Stable(st: State, tv: Trigger)
    requires ValidTrigger(st, tv)
  {
    SameConfigs(st, tv)
    && forall i, j :: Takes(st, tv, i) && FirstOfId(st, tv, j) ==> Agrees(st, tv, i, j)
  }

  /** Every participant's membership, when not empty, names the participant itself. */
  ghost predicate SelfMembership(st: State, tv: Trigger)
    requires ValidTrigger(st, tv)
  {
    forall i :: Takes(st, tv, i) && EffMembership(st, tv, i) != []
                ==> Has(EffMembership(st, tv, i), st.sessions[i].nodeId)
  }

  /** `j` is in the partition of `i`: its node id is in the membership `i` reports. */
  ghost predicate SamePartition(st: State, tv: Trigger, i: int, j: int)
    requires 0 <= i < |st.sessions| && 0 <= j < |st.sessions|
  {
    Has(EffMembership(st, tv, i), st.sessions[j].nodeId)
  }

  /** With distinct node ids the lookup order does not matter: stability is agreement of every
      participant with every participant in its membership. */
  lemma StableIffAllAgree(st: State, tv: Trigger)
    requires ValidTrigger(st, tv) && DistinctIds(st, TriggerCluster(st, tv))
    ensures Stable(st, tv) <==>
            && SameConfigs(st, tv)
            && forall i, j :: Takes(st, tv, i) && Takes(st, tv, j) ==> Agrees(st, tv, i, j)
  {
    forall j | Takes(st, tv, j)
      ensures FirstOfId(st, tv, j)
    {
    }
  }

  /** In a stable view, being in the same partition is an equivalence on the participants that
      report a membership, and a class shares one ring and one membership set. */
  lemma PartitionsAreClasses(st: State, tv: Trigger, i: int, j: int, k: int)
    requires ValidTrigger(st, tv) && DistinctIds(st, TriggerCluster(st, tv))
    requires Stable(st, tv) && SelfMembership(st, tv)
    requires Takes(st, tv, i) && EffMembership(st, tv, i) != []
    requires Takes(st, tv, j) && Takes(st, tv, k)
    ensures SamePartition(st, tv, i, i)
    ensures SamePartition(st, tv, i, j) ==> SamePartition(st, tv, j, i)
    ensures SamePartition(st, tv, i, j) && SamePartition(st, tv, j, k) ==> SamePartition(st, tv, i, k)
    ensures SamePartition(st, tv, i, j) ==> EffMembership(st, tv, j) != []
    ensures SamePartition(st, tv, i, j) ==>
              EffRing(st, tv, i) == EffRing(st, tv, j)
              && Ids(EffMembership(st, tv, i)) == Ids(EffMembership(st, tv, j))
  {
    StableIffAllAgree(st, tv);
    if SamePartition(st, tv, i, j) {
      assert Agrees(st, tv, i, j);
      assert st.sessions[i].nodeId in Ids(EffMembership(st, tv, j));
      assert Agrees(st, tv, j, i);
      if SamePartition(st, tv, j, k) {
        assert st.sessions[k].nodeId in Ids(EffMembership(st, tv, i));
      }
    }
  }
}
