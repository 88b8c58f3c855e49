/**
 What the health check and the pool's initialisation leave in the register, as relations between the
 register before and after, and the properties of these relations: sizes, convergence and a fixpoint.
 */
module Reconcile {
  import opened Types
  import opened Bags

  /** One entry of docker's container list: whether it has the worker image, and docker's own run state. */
  datatype ListEntry = ListEntry(id: ContainerId, worker: bool, running: bool)

  /** Docker's answers to one StartContainer. */
  datatype StartOutcome = CreateFailed | StartFailed(id: ContainerId) | Started(id: ContainerId)

  function WorkerIds(listing: seq<ListEntry>): set<ContainerId> {
    set e | e in listing && e.worker :: e.id
  }

  function StartedIds(outcomes: seq<StartOutcome>): set<ContainerId> {
    set o | o in outcomes && o.Started? :: o.id
  }

  /** The answers to the first `n` attempts. */
  function First(outcomes: seq<StartOutcome>, n: int): seq<StartOutcome> {
    if 0 <= n <= |outcomes| then outcomes[..n] else outcomes
  }

  /** Docker never hands out an id it has handed out before. */
  ghost predicate FreshIds(outcomes: seq<StartOutcome>, taken: set<ContainerId>) {
    && (forall i :: 0 <= i < |outcomes| && outcomes[i].Started? ==> outcomes[i].id !in taken)
    && (forall i, j :: 0 <= i < j < |outcomes| && outcomes[i].Started? && outcomes[j].Started? ==>
      outcomes[i].id != outcomes[j].id)
  }

  function NumStarted(outcomes: seq<StartOutcome>): nat {
    if outcomes == [] then 0
    else NumStarted(outcomes[..|outcomes| - 1]) + if outcomes[|outcomes| - 1].Started? then 1 else 0
  }

  lemma {:induction false} StartedCount(outcomes: seq<StartOutcome>, taken: set<ContainerId>)
    requires FreshIds(outcomes, taken)
    ensures StartedIds(outcomes) !! taken && |StartedIds(outcomes)| == NumStarted(outcomes) <= |outcomes|
  {
    if outcomes != [] {
      var init, last := outcomes[..|outcomes| - 1], outcomes[|outcomes| - 1];
      assert outcomes == init + [last];
      StartedCount(init, taken);
      StartedGrows(init, last);
      if last.Started? {
        assert last.id !in StartedIds(init);
      }
    }
  }

  lemma StartedGrows(outcomes: seq<StartOutcome>, o: StartOutcome)
    ensures StartedIds(outcomes + [o]) == StartedIds(outcomes) + if o.Started? then {o.id} else {}
  {
  }

  function Restrict(m: Register, ids: set<ContainerId>): Register {
    map id | id in m && id in ids :: m[id]
  }

  /** `m` with every started container registered as Idle. */
  function Replenished(m: Register, outcomes: seq<StartOutcome>): Register {
    map id | id in m.Keys + StartedIds(outcomes) :: if id in StartedIds(outcomes) then Idle else m[id]
  }

  /** One more answer: a started container joins. */
  lemma ReplenishedGrows(m: Register, outcomes: seq<StartOutcome>, o: StartOutcome)
    ensures var r := Replenished(m, outcomes);
      Replenished(m, outcomes + [o]) == if o.Started? then r[o.id := Idle] else r
  {
    var before, after := StartedIds(outcomes), StartedIds(outcomes + [o]);
    assert after == before + if o.Started? then {o.id} else {};
  }

  lemma ReplenishedSize(m: Register, outcomes: seq<StartOutcome>)
    requires FreshIds(outcomes, m.Keys)
    ensures |Replenished(m, outcomes)| == |m| + NumStarted(outcomes)
  {
    StartedCount(outcomes, m.Keys);
    var r := Replenished(m, outcomes);
    assert r.Keys == m.Keys + StartedIds(outcomes);
    assert |r| == |r.Keys| && |m| == |m.Keys|;
  }

  lemma RestrictSize(m: Register, ids: set<ContainerId>)
    requires ids <= m.Keys
    ensures Restrict(m, ids).Keys == ids && |Restrict(m, ids)| == |ids|
  {
    var r := Restrict(m, ids);
    assert r.Keys == ids;
    assert |r| == |r.Keys|;
  }

  lemma ReplenishedByNothing(m: Register)
    ensures Replenished(m, []) == m
  {
  }

  /** `m'` is `m` cut down to exactly `size` entries. */
  ghost predicate Trimmed(m: Register, m': Register, size: nat) {
    m'.Keys <= m.Keys && |m'| == size && forall id <- m' :: m'[id] == m[id]
  }

  function Min(a: int, b: int): int {
    if a <= b then a else b
  }

  /** Entries above `max` go, whichever they are; room below it is filled by what docker manages to start. */
  ghost predicate Adjusted(max: int, outcomes: seq<StartOutcome>, m: Register, m': Register) {
    if |m| < max then |outcomes| >= max - |m| && m' == Replenished(m, First(outcomes, max - |m|))
    else Trimmed(m, m', if max >= 0 then max else 0)
  }

  /** The three ways to adjust a register: start what is missing, remove what is too much, or leave it. */
  lemma AdjustedByStarts(max: int, outcomes: seq<StartOutcome>, m: Register, n: nat)
    requires 0 < n == max - |m| && n <= |outcomes|
    ensures Adjusted(max, outcomes, m, Replenished(m, outcomes[..n]))
  {
    assert First(outcomes, n) == outcomes[..n];
  }

  lemma AdjustedByTrim(max: int, outcomes: seq<StartOutcome>, m: Register, m': Register)
    requires |m| > max && Trimmed(m, m', |m| - Min(|m| - max, |m|))
    ensures Adjusted(max, outcomes, m, m')
  {
  }

  lemma AdjustedAlready(max: int, outcomes: seq<StartOutcome>, m: Register)
    requires |m| == max
    ensures Adjusted(max, outcomes, m, m)
  {
  }

  /** The size an adjustment leaves of a register of size `n`. */
  function SizeAfter(max: int, outcomes: seq<StartOutcome>, n: nat): nat {
    if max < 0 then 0 else Min(n, max) + if n < max then NumStarted(First(outcomes, max - n)) else 0
  }

  lemma AdjustedSize(max: int, outcomes: seq<StartOutcome>, m: Register, m': Register)
    requires Adjusted(max, outcomes, m, m') && FreshIds(outcomes, m.Keys)
    ensures |m'| == SizeAfter(max, outcomes, |m|)
    ensures max >= 0 ==> |m'| <= max
  {
    if |m| < max {
      ReplenishedSize(m, First(outcomes, max - |m|));
      StartedCount(First(outcomes, max - |m|), m.Keys);
    }
  }

  // ---------------------------------------------------------------- initialisation

  /** The register after the listed workers have been entered, later entries of the list last. */
  function Registered(m: Register, listing: seq<ListEntry>): Register {
    if listing == [] then m
    else
      var before, e := Registered(m, listing[..|listing| - 1]), listing[|listing| - 1];
      if e.worker then before[e.id := if e.running then Idle else Error] else before
  }

  lemma {:induction false} RegisteredIs(m: Register, listing: seq<ListEntry>)
    ensures Registered(m, listing).Keys == m.Keys + WorkerIds(listing)
    ensures forall id <- Registered(m, listing) :: Registered(m, listing)[id] == Busy ==> id in m && m[id] == Busy
  {
    if listing != [] {
      var init, e := listing[..|listing| - 1], listing[|listing| - 1];
      assert listing == init + [e];
      RegisteredIs(m, init);
      assert WorkerIds(listing) == WorkerIds(init) + if e.worker then {e.id} else {};
    }
  }

  /**
   Initialisation contract: after a successful listing the pool has min(found, max) entries plus one for
   each container docker managed to start, never more than max, and none is Busy.
   */
  lemma InitialisedPool(max: int, listing: seq<ListEntry>, outcomes: seq<StartOutcome>, m': Register)
    requires max >= 0 && FreshIds(outcomes, WorkerIds(listing))
    requires Adjusted(max, outcomes, Registered(map[], listing), m')
    ensures |m'| == SizeAfter(max, outcomes, |WorkerIds(listing)|) <= max
    ensures forall id <- m' :: m'[id] != Busy
  {
    RegisteredIs(map[], listing);
    var found := Registered(map[], listing);
    assert found.Keys == WorkerIds(listing);
    assert |found| == |found.Keys|;
    AdjustedSize(max, outcomes, found, m');
    NoneBusy(max, outcomes, found, m');
  }

  /**
   Whether initialisation leaves any container: there is a place, and docker has listed or started a worker for it.
   */
  predicate ComesUp(max: int, listing: seq<ListEntry>, outcomes: seq<StartOutcome>) {
    max >= 1 && (WorkerIds(listing) != {} || NumStarted(First(outcomes, max)) > 0)
  }

  /** The exact condition, on docker's answers alone, under which initialisation succeeds. */
  lemma ComesUpExactly(max: int, listing: seq<ListEntry>, outcomes: seq<StartOutcome>, m': Register)
    requires FreshIds(outcomes, WorkerIds(listing))
    requires Adjusted(max, outcomes, Registered(map[], listing), m')
    ensures m' != map[] <==> ComesUp(max, listing, outcomes)
  {
    EmptyRegister(m');
    if max >= 0 {
      InitialisedPool(max, listing, outcomes, m');
      ComesUpSize(max, listing, outcomes);
    } else {
      RegisteredIs(map[], listing);
      AdjustedSize(max, outcomes, Registered(map[], listing), m');
    }
  }

  lemma EmptyRegister(m: Register)
    ensures m == map[] <==> |m| == 0
  {
  }

  lemma ComesUpSize(max: nat, listing: seq<ListEntry>, outcomes: seq<StartOutcome>)
    ensures ComesUp(max, listing, outcomes) <==> SizeAfter(max, outcomes, |WorkerIds(listing)|) > 0
  {
    var ids := WorkerIds(listing);
    if |ids| == 0 {
      assert ids == {};
      assert First(outcomes, max - |ids|) == First(outcomes, max);
    } else {
      assert ids != {};
    }
  }

  lemma NoneBusy(max: int, outcomes: seq<StartOutcome>, m: Register, m': Register)
    requires Adjusted(max, outcomes, m, m') && forall id <- m :: m[id] != Busy
    ensures forall id <- m' :: m'[id] != Busy
  {
  }

  // ---------------------------------------------------------------- the health check

  /** Registered, listed with the worker image, and not in state Error. Docker's own run state is not looked at. */
  function RunningWorkers(m: Register, listing: seq<ListEntry>): set<ContainerId> {
    set id | id in WorkerIds(listing) && id in m && m[id] != Error
  }

  /** One undisturbed health check: the register keeps the running workers and is then adjusted to `max`. */
  ghost predicate HealthPass(max: int, listing: seq<ListEntry>, outcomes: seq<StartOutcome>, m: Register,
                             m': Register) {
    Adjusted(max, outcomes, Restrict(m, RunningWorkers(m, listing)), m')
  }

  lemma RestrictRunning(m: Register, listing: seq<ListEntry>)
    ensures var r := RunningWorkers(m, listing); Restrict(m, r).Keys == r && |Restrict(m, r)| == |r|
  {
    RestrictSize(m, RunningWorkers(m, listing));
  }

  /** The exact size one pass leaves: min(running, max), and one for each container started in the free places. */
  lemma PassSize(max: int, listing: seq<ListEntry>, outcomes: seq<StartOutcome>, m: Register, m': Register)
    requires max >= 0 && FreshIds(outcomes, m.Keys) && HealthPass(max, listing, outcomes, m, m')
    ensures |m'| == SizeAfter(max, outcomes, |RunningWorkers(m, listing)|) <= max
  {
    var kept := Restrict(m, RunningWorkers(m, listing));
    assert |kept| == |RunningWorkers(m, listing)| && FreshIds(outcomes, kept.Keys) by {
      RestrictRunning(m, listing);
    }
    AdjustedSize(max, outcomes, kept, m');
  }

  /** Convergence: when docker starts everything it is asked to, one pass fills the pool exactly. */
  lemma PassConverges(max: int, listing: seq<ListEntry>, outcomes: seq<StartOutcome>, m: Register, m': Register)
    requires max >= 0 && FreshIds(outcomes, m.Keys) && HealthPass(max, listing, outcomes, m, m')
    requires forall o <- outcomes :: o.Started?
    ensures |m'| == max
  {
    PassSize(max, listing, outcomes, m, m');
    RestrictRunning(m, listing);
    var running := |RunningWorkers(m, listing)|;
    if running < max {
      AllStarted(outcomes, max - running);
    }
  }

  lemma AllStarted(outcomes: seq<StartOutcome>, n: nat)
    requires n <= |outcomes| && forall o <- outcomes :: o.Started?
    ensures NumStarted(First(outcomes, n)) == n
  {
    if n > 0 {
      AllStarted(outcomes, n - 1);
      assert First(outcomes, n)[..n - 1] == First(outcomes, n - 1);
    }
  }

  /**
   Survivors keep their state, newcomers are Idle and fresh, no Error entry survives; with no surplus every running
   worker does.
   */
  lemma PassContents(max: int, listing: seq<ListEntry>, outcomes: seq<StartOutcome>, m: Register, m': Register)
    requires max >= 0 && FreshIds(outcomes, m.Keys) && HealthPass(max, listing, outcomes, m, m')
    ensures forall id <- m' :: m'[id] != Error
    ensures forall id <- m' :: if id in m then m'[id] == m[id] && id in RunningWorkers(m, listing) else m'[id] == Idle
    ensures |RunningWorkers(m, listing)| <= max ==> RunningWorkers(m, listing) <= m'.Keys
  {
    RestrictRunning(m, listing);
    var kept := Restrict(m, RunningWorkers(m, listing));
    if |kept| < max {
      StartedCount(First(outcomes, max - |kept|), m.Keys);
    } else if |kept| == max {
      SubsetSize(m'.Keys, kept.Keys);
      assert |m'| == |m'.Keys| && |kept| == |kept.Keys|;
    }
  }

  /** Fixpoint: once a pass has filled the pool and docker lists all of it, a further pass changes nothing. */
  lemma PassFixpoint(max: int, listing: seq<ListEntry>, outcomes: seq<StartOutcome>, m: Register, m1: Register,
                     listing': seq<ListEntry>, outcomes': seq<StartOutcome>, m2: Register)
    requires max >= 0 && FreshIds(outcomes, m.Keys) && HealthPass(max, listing, outcomes, m, m1)
    requires forall o <- outcomes :: o.Started?
    requires m1.Keys <= WorkerIds(listing') && HealthPass(max, listing', outcomes', m1, m2)
    ensures m2 == m1
  {
    PassConverges(max, listing, outcomes, m, m1);
    PassContents(max, listing, outcomes, m, m1);
    FullPoolIsKept(max, listing', outcomes', m1, m2);
  }

  /** A pass over a full, healthy, fully listed pool changes nothing. */
  lemma FullPoolIsKept(max: int, listing: seq<ListEntry>, outcomes: seq<StartOutcome>, m: Register, m': Register)
    requires |m| == max && (forall id <- m :: m[id] != Error) && m.Keys <= WorkerIds(listing)
    requires HealthPass(max, listing, outcomes, m, m')
    ensures m' == m
  {
    assert Restrict(m, RunningWorkers(m, listing)) == m by {
      assert RunningWorkers(m, listing) == m.Keys;
    }
    TrimToOwnSize(m, m');
  }

  lemma TrimToOwnSize(m: Register, m': Register)
    requires Trimmed(m, m', |m|)
    ensures m' == m
  {
    assert |m| == |m.Keys| && |m'| == |m'.Keys|;
    SubsetSize(m'.Keys, m.Keys);
  }

  // ---------------------------------------------------------------- the documented replacement of failed containers

  /** Registered containers that docker lists as not running. */
  function Stopped(m: Register, listing: seq<ListEntry>): set<ContainerId> {
    set e | e in listing && e.worker && !e.running && e.id in m :: e.id
  }

  /** A pass drops a stopped container exactly if it is recorded as Error; only a surplus can make it drop others. */
  lemma StoppedIsDroppedIffError(max: int, listing: seq<ListEntry>, outcomes: seq<StartOutcome>, m: Register,
                                 m': Register, id: ContainerId)
    requires max >= 0 && FreshIds(outcomes, m.Keys) && HealthPass(max, listing, outcomes, m, m')
    requires id in Stopped(m, listing)
    ensures m[id] == Error ==> id !in m'
    ensures |RunningWorkers(m, listing)| <= max ==> (id !in m' <==> m[id] == Error)
  {
    PassContents(max, listing, outcomes, m, m');
    assert id in WorkerIds(listing);
  }

  /** The documentation's promise: whatever docker answers, no stopped container outlives a pass. */
  ghost predicate ReplacesStopped(max: int, listing: seq<ListEntry>, m: Register) {
    forall outcomes, m' :: FreshIds(outcomes, m.Keys) && HealthPass(max, listing, outcomes, m, m') ==>
      Stopped(m, listing) !! m'.Keys
  }

  /** The code meets it exactly where each stopped container is recorded as Error, or the pool has no places at all. */
  lemma ReplacementCondition(max: nat, listing: seq<ListEntry>, m: Register)
    ensures ReplacesStopped(max, listing, m) <==> max == 0 || forall id <- Stopped(m, listing) :: m[id] == Error
  {
    if max == 0 || forall id <- Stopped(m, listing) :: m[id] == Error {
      forall outcomes, m', id | FreshIds(outcomes, m.Keys) && HealthPass(max, listing, outcomes, m, m')
        && id in Stopped(m, listing)
        ensures id !in m'
      {
        PassSize(max, listing, outcomes, m, m');
        StoppedIsDroppedIffError(max, listing, outcomes, m, m', id);
        assert |m'| == |m'.Keys|;
      }
    } else {
      var id :| id in Stopped(m, listing) && m[id] != Error;
      assert id in RunningWorkers(m, listing);
      var outcomes, m' := SparingPass(max, listing, m, id);
      assert id in Stopped(m, listing) * m'.Keys;
    }
  }

  /** An adjustment in which docker starts nothing: a register with room is left as it is. */
  lemma NothingStarted(max: int, m: Register)
    requires |m| < max
    ensures Adjusted(max, seq(max - |m|, _ => CreateFailed), m, m)
  {
    var outcomes := seq(max - |m|, _ => CreateFailed);
    assert First(outcomes, max - |m|) == outcomes;
    assert StartedIds(outcomes) == {};
    assert Replenished(m, outcomes) == m;
  }

  /** An adjustment that spares a given entry. */
  lemma SparingTrim(max: nat, m: Register, id: ContainerId) returns (m': Register)
    requires 1 <= max <= |m| && id in m
    ensures Adjusted(max, [], m, m') && id in m'
  {
    assert |m| == |m.Keys|;
    var spared := SubsetWith(m.Keys, id, max);
    m' := Restrict(m, spared);
    RestrictSize(m, spared);
  }

  /** Some pass spares any given running worker. */
  lemma SparingPass(max: nat, listing: seq<ListEntry>, m: Register, id: ContainerId)
    returns (outcomes: seq<StartOutcome>, m': Register)
    requires max >= 1 && id in RunningWorkers(m, listing)
    ensures FreshIds(outcomes, m.Keys) && HealthPass(max, listing, outcomes, m, m') && id in m'
  {
    var kept := Restrict(m, RunningWorkers(m, listing));
    if |kept| < max {
      outcomes, m' := seq(max - |kept|, _ => CreateFailed), kept;
      NothingStarted(max, kept);
    } else {
      outcomes := [];
      m' := SparingTrim(max, kept, id);
    }
  }

  lemma {:induction false} SubsetWith(ids: set<ContainerId>, id: ContainerId, size: nat)
    returns (part: set<ContainerId>)
    requires id in ids && 1 <= size <= |ids|
    ensures id in part && part <= ids && |part| == size
    decreases |ids|
  {
    if size == |ids| {
      part := ids;
    } else {
      assert ids != {id};
      var other :| other in ids && other != id;
      part := SubsetWith(ids - {other}, id, size);
    }
  }

  /** An input at which it fails: one container, recorded as Idle, has stopped. Every pass leaves it in place. */
  lemma StoppedIdleSurvives(outcomes: seq<StartOutcome>, m': Register)
    ensures var id := ContainerId("0123456789ab");
      var m: Register, listing := map[id := Idle], [ListEntry(id, true, false)];
      id in Stopped(m, listing) && (HealthPass(1, listing, outcomes, m, m') ==> m' == m)
  {
    var id := ContainerId("0123456789ab");
    var m: Register, listing := map[id := Idle], [ListEntry(id, true, false)];
    assert listing[0] in listing;
    assert m.Keys == {id};
    if HealthPass(1, listing, outcomes, m, m') {
      assert id in WorkerIds(listing);
      FullPoolIsKept(1, listing, outcomes, m, m');
    }
  }
}
