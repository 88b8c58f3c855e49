/**
 What the register holds after initialisation and after a health check, told from docker's answers alone and
 entry by entry. The relations of Reconcile, which the loops are proved against, meet these descriptions.
 */
module PoolSpec {
  import opened Types
  import opened Bags
  import opened Reconcile

  /** The docker list has a worker with this id. */
  predicate Lists(listing: seq<ListEntry>, id: ContainerId) {
    exists e | e in listing :: e.worker && e.id == id
  }

  /** Entry `i` is the list's last word on its container. */
  predicate LastWord(listing: seq<ListEntry>, i: int) {
    && 0 <= i < |listing| && listing[i].worker
    && forall k :: i < k < |listing| && listing[k].worker ==> listing[k].id != listing[i].id
  }

  /** Docker started this container in one of the attempts. */
  predicate NewlyStarted(outcomes: seq<StartOutcome>, id: ContainerId) {
    exists k :: 0 <= k < |outcomes| && outcomes[k] == Started(id)
  }

  /** `m'` is `m` with the listed workers entered: Idle if docker says they are running, and Error if not. */
  ghost predicate RecordsListing(m: Register, listing: seq<ListEntry>, m': Register) {
    && (forall id :: id in m' <==> id in m || Lists(listing, id))
    && (forall i :: LastWord(listing, i) ==>
          listing[i].id in m' && m'[listing[i].id] == if listing[i].running then Idle else Error)
    && (forall id <- m :: !Lists(listing, id) ==> id in m' && m'[id] == m[id])
  }

  /**
   `m'` is `m` brought to `max` entries: old entries are as they were, new ones are Idle containers docker has
   started; nothing goes while there is room for all; and where there is room, every start of the attempts
   made counts.
   */
  ghost predicate BroughtTo(max: int, outcomes: seq<StartOutcome>, m: Register, m': Register) {
    && (forall id <- m' :: if id in m then m'[id] == m[id] else m'[id] == Idle && NewlyStarted(outcomes, id))
    && (|m| <= max ==> m.Keys <= m'.Keys)
    && (|m| >= max ==> m'.Keys <= m.Keys && |m'| == if max >= 0 then max else 0)
    && (forall k :: 0 <= k < |outcomes| && k < max - |m| && outcomes[k].Started? ==> outcomes[k].id in m')
    && (max >= 0 ==> |m'| <= max)
  }

  // ---------------------------------------------------------------- the relations meet the descriptions

  lemma AdjustedIsBrought(max: int, outcomes: seq<StartOutcome>, m: Register, m': Register)
    requires Adjusted(max, outcomes, m, m') && FreshIds(outcomes, m.Keys)
    ensures BroughtTo(max, outcomes, m, m')
  {
    AdjustedSize(max, outcomes, m, m');
    if |m| < max {
      StartsBring(max, outcomes, m, m');
    } else if |m| == max {
      TrimToOwnSize(m, m');
    }
  }

  lemma StartsBring(max: int, outcomes: seq<StartOutcome>, m: Register, m': Register)
    requires |m| < max && Adjusted(max, outcomes, m, m') && FreshIds(outcomes, m.Keys)
    ensures m.Keys <= m'.Keys
    ensures forall id <- m' :: if id in m then m'[id] == m[id] else m'[id] == Idle && NewlyStarted(outcomes, id)
    ensures forall k :: 0 <= k < |outcomes| && k < max - |m| && outcomes[k].Started? ==> outcomes[k].id in m'
  {
    var n := max - |m|;
    var made := outcomes[..n];
    assert First(outcomes, n) == made;
    forall k | 0 <= k < |outcomes| && k < n && outcomes[k].Started? ensures outcomes[k].id in m' {
      assert made[k] == outcomes[k] && made[k] in made;
    }
    forall id | id in m' ensures if id in m then m'[id] == m[id] else m'[id] == Idle && NewlyStarted(outcomes, id) {
      if id in StartedIds(made) {
        var k :| 0 <= k < |made| && made[k] == Started(id);
        assert outcomes[k] == Started(id);
      }
    }
  }

  lemma {:induction false} RegisteredRecords(m: Register, listing: seq<ListEntry>)
    ensures RecordsListing(m, listing, Registered(m, listing))
  {
    if listing != [] {
      var init, e := listing[..|listing| - 1], listing[|listing| - 1];
      assert listing == init + [e];
      RegisteredRecords(m, init);
      RecordOne(m, init, e, Registered(m, init));
    }
  }

  lemma ListsOne(init: seq<ListEntry>, e: ListEntry, id: ContainerId)
    ensures Lists(init + [e], id) <==> Lists(init, id) || (e.worker && e.id == id)
  {
    assert e in init + [e];
  }

  lemma LastWordOne(init: seq<ListEntry>, e: ListEntry, i: int)
    ensures LastWord(init + [e], i) <==>
      if i == |init| then e.worker else LastWord(init, i) && (e.worker ==> init[i].id != e.id)
  {
    var all := init + [e];
    assert all[|init|] == e;
    assert forall k :: 0 <= k < |init| ==> all[k] == init[k];
  }

  /** One more entry of the list. */
  lemma RecordOne(m: Register, init: seq<ListEntry>, e: ListEntry, before: Register)
    requires RecordsListing(m, init, before)
    ensures RecordsListing(m, init + [e],
      if e.worker then before[e.id := if e.running then Idle else Error] else before)
  {
    var all := init + [e];
    var m' := if e.worker then before[e.id := if e.running then Idle else Error] else before;
    forall id ensures id in m' <==> id in m || Lists(all, id) {
      ListsOne(init, e, id);
    }
    forall i | LastWord(all, i)
      ensures all[i].id in m' && m'[all[i].id] == if all[i].running then Idle else Error
    {
      LastWordOne(init, e, i);
    }
    forall id | id in m && !Lists(all, id) ensures id in m' && m'[id] == m[id] {
      ListsOne(init, e, id);
    }
  }

  // ---------------------------------------------------------------- initialisation

  /** What InitializePool leaves: the listing is recorded, and the number of entries is then brought to `max`. */
  ghost predicate Initialised(max: int, m: Register, listing: seq<ListEntry>, outcomes: seq<StartOutcome>,
                              m': Register) {
    exists found :: RecordsListing(m, listing, found) && BroughtTo(max, outcomes, found, m')
  }

  lemma InitialisationIs(max: int, m: Register, listing: seq<ListEntry>, outcomes: seq<StartOutcome>, m': Register)
    requires FreshIds(outcomes, Registered(m, listing).Keys) && Adjusted(max, outcomes, Registered(m, listing), m')
    ensures Initialised(max, m, listing, outcomes, m')
  {
    RegisteredRecords(m, listing);
    AdjustedIsBrought(max, outcomes, Registered(m, listing), m');
  }

  /** Entry by entry: a listed worker that is kept is Idle exactly if docker says it is running. */
  lemma ListedWorkersState(max: int, m: Register, listing: seq<ListEntry>, outcomes: seq<StartOutcome>, m': Register,
                           i: int)
    requires Initialised(max, m, listing, outcomes, m') && LastWord(listing, i) && listing[i].id in m'
    ensures m'[listing[i].id] == if listing[i].running then Idle else Error
  {
  }

  /** Nobody else is in a pool that started empty, but for Idle containers docker has just started. */
  lemma OthersAreNew(max: int, listing: seq<ListEntry>, outcomes: seq<StartOutcome>, m': Register, id: ContainerId)
    requires Initialised(max, map[], listing, outcomes, m') && id in m' && !Lists(listing, id)
    ensures m'[id] == Idle && NewlyStarted(outcomes, id)
  {
  }

  // ---------------------------------------------------------------- the health check

  /** Registered, listed, and not in state Error. */
  ghost predicate Healthy(m: Register, listing: seq<ListEntry>, kept: Register) {
    && (forall id :: id in kept <==> id in m && Lists(listing, id) && m[id] != Error)
    && (forall id <- kept :: kept[id] == m[id])
  }

  /** What a health check leaves: the healthy entries, and their number then brought to `max`. */
  ghost predicate Checked(max: int, m: Register, listing: seq<ListEntry>, outcomes: seq<StartOutcome>, m': Register) {
    exists kept :: Healthy(m, listing, kept) && BroughtTo(max, outcomes, kept, m')
  }

  lemma PassIsCheck(max: int, m: Register, listing: seq<ListEntry>, outcomes: seq<StartOutcome>, m': Register)
    requires FreshIds(outcomes, m.Keys) && HealthPass(max, listing, outcomes, m, m')
    ensures Checked(max, m, listing, outcomes, m')
  {
    var kept := Restrict(m, RunningWorkers(m, listing));
    assert Healthy(m, listing, kept) by {
      forall id ensures id in kept <==> id in m && Lists(listing, id) && m[id] != Error {
        ListsIsListed(listing, id);
      }
    }
    AdjustedIsBrought(max, outcomes, kept, m');
  }

  lemma ListsIsListed(listing: seq<ListEntry>, id: ContainerId)
    ensures id in WorkerIds(listing) <==> Lists(listing, id)
  {
  }

  /** A container docker no longer lists does not outlive a pass. */
  lemma UnlistedIsDropped(max: int, m: Register, listing: seq<ListEntry>, outcomes: seq<StartOutcome>, m': Register,
                          id: ContainerId)
    requires FreshIds(outcomes, m.Keys) && HealthPass(max, listing, outcomes, m, m')
    requires id in m && id in m'
    ensures Lists(listing, id) && m[id] != Error && m'[id] == m[id]
  {
    PassContents(max, listing, outcomes, m, m');
  }
}
