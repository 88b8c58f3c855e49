/** executor/container_manager.go as an object, with its own loops and its mutex. */
module ContainerManagers {
  import opened Types
  import opened Bags
  import opened Reconcile
  import opened PoolSpec
  import opened Machine

  /** The errors the manager returns. */
  datatype ManagerError = ListFailed | NoContainers | CannotCreate | CannotStart

  /**
   `locked` is the mutex. It is not reentrant: Lock demands that it is free, so verification of the methods
   shows that none of them locks twice, and each states that it leaves the mutex as it found it.
   */
  class ContainerManager {
    var containers: Register
    var locked: bool
    const maxWorkers: int

    constructor (maxWorkers: int)
      ensures this.maxWorkers == maxWorkers && containers == map[] && !locked
    {
      this.maxWorkers := maxWorkers;
      containers := map[];
      locked := false;
    }

    method Lock()
      requires !locked
      modifies this`locked
      ensures locked
    {
      locked := true;
    }

    method Unlock()
      requires locked
      modifies this`locked
      ensures !locked
    {
      locked := false;
    }

    /** Lists the containers, registers the workers among them and adjusts their number. */
    method InitializePool(listing: Option<seq<ListEntry>>, outcomes: seq<StartOutcome>)
      returns (err: Option<ManagerError>)
      requires !locked
      requires listing.Some? ==>
        var found := Registered(containers, listing.value);
        maxWorkers - |found| <= |outcomes| && FreshIds(outcomes, found.Keys)
      modifies this
      ensures !locked
      ensures listing.None? ==> containers == old(containers) && err == Some(ListFailed)
      ensures listing.Some? ==>
        && Adjusted(maxWorkers, outcomes, Registered(old(containers), listing.value), containers)
        && Initialised(maxWorkers, old(containers), listing.value, outcomes, containers)
        && err == if containers == map[] then Some(NoContainers) else None
    {
      if listing.None? {
        return Some(ListFailed);
      }
      RegisterListed(listing.value);
      AdjustCount(outcomes);
      InitialisationIs(maxWorkers, old(containers), listing.value, outcomes, containers);
      if |containers| == 0 {
        return Some(NoContainers);
      }
      return None;
    }

    /** First part: every listed worker is registered, as Idle if docker says it is running and as Error otherwise. */
    method RegisterListed(entries: seq<ListEntry>)
      requires !locked
      modifies this
      ensures !locked && containers == Registered(old(containers), entries)
      ensures RecordsListing(old(containers), entries, containers)
    {
      RegisteredRecords(containers, entries);
      for i := 0 to |entries|
        invariant !locked && containers == Registered(old(containers), entries[..i])
      {
        assert entries[..i + 1][..i] == entries[..i];
        if entries[i].worker {
          var state := Idle;
          if !entries[i].running {
            state := Error;
          }
          Lock();
          containers := containers[entries[i].id := state];
          Unlock();
        }
      }
      assert entries[..|entries|] == entries;
    }

    /** Second part: a surplus is removed, missing containers are started. */
    method AdjustCount(outcomes: seq<StartOutcome>)
      requires !locked && maxWorkers - |containers| <= |outcomes| && FreshIds(outcomes, containers.Keys)
      modifies this
      ensures !locked && Adjusted(maxWorkers, outcomes, old(containers), containers)
    {
      ghost var before := containers;
      var currentCount := |containers|;
      if currentCount > maxWorkers {
        RemoveExcessContainers(currentCount - maxWorkers);
        AdjustedByTrim(maxWorkers, outcomes, before, containers);
      } else if currentCount < maxWorkers {
        StartContainers(maxWorkers - currentCount, outcomes);
      } else {
        AdjustedAlready(maxWorkers, outcomes, containers);
      }
    }

    /** Starts one container, unless the pool is full; the mutex is not held while docker is asked. */
    method StartContainer(outcome: StartOutcome) returns (err: Option<ManagerError>)
      requires !locked
      modifies this
      ensures !locked
      ensures |old(containers)| >= maxWorkers ==> containers == old(containers) && err.None?
      ensures |old(containers)| < maxWorkers && outcome.Started? ==>
        containers == old(containers)[outcome.id := Idle] && err.None?
      ensures |old(containers)| < maxWorkers && !outcome.Started? ==> containers == old(containers) && err.Some?
    {
      Lock();
      if |containers| >= maxWorkers {
        Unlock();
        return None;
      }
      Unlock();
      match outcome
      case CreateFailed => return Some(CannotCreate);
      case StartFailed(_) => return Some(CannotStart);
      case Started(id) =>
        Lock();
        containers := containers[id := Idle];
        Unlock();
        return None;
    }

    /** The counted loop of InitializePool and CheckHealth; a failed start is logged and the next one tried. */
    method StartContainers(count: int, outcomes: seq<StartOutcome>)
      requires !locked && 0 < count <= |outcomes| && count == maxWorkers - |containers|
      requires FreshIds(outcomes, containers.Keys)
      modifies this
      ensures !locked && containers == Replenished(old(containers), outcomes[..count])
      ensures Adjusted(maxWorkers, outcomes, old(containers), containers)
      ensures BroughtTo(maxWorkers, outcomes, old(containers), containers)
    {
      AdjustedByStarts(maxWorkers, outcomes, containers, count);
      AdjustedIsBrought(maxWorkers, outcomes, containers, Replenished(containers, outcomes[..count]));
      for i := 0 to count
        invariant !locked && containers == Replenished(old(containers), outcomes[..i])
      {
        RoomForNext(old(containers), outcomes, i);
        ReplenishNext(old(containers), outcomes, i);
        var err := StartContainer(outcomes[i]);
      }
    }

    /** Deletes an id from the register, with or without the mutex. */
    method RemoveContainer(id: ContainerId)
      modifies this`containers
      ensures containers == old(containers) - {id}
    {
      containers := containers - {id};
    }

    /** Removes `count` containers, or all of them if there are fewer, keeping the mutex throughout. */
    method RemoveExcessContainers(count: int)
      requires !locked
      modifies this
      ensures !locked
      ensures Trimmed(old(containers), containers,
        |old(containers)| - if count < 0 then 0 else Min(count, |old(containers)|))
    {
      Lock();
      var toRemove := {};
      var left := containers.Keys;
      while left != {}
        invariant locked && containers == old(containers)
        invariant left <= containers.Keys && toRemove <= containers.Keys && toRemove !! left
        invariant |toRemove| <= (if count < 0 then 0 else count)
        invariant |toRemove| == count || toRemove + left == containers.Keys || count < 0
        decreases left
      {
        var id :| id in left;
        left := left - {id};
        if |toRemove| < count {
          toRemove := toRemove + {id};
        }
      }
      ghost var removed := toRemove;
      assert |removed| == if count < 0 then 0 else Min(count, |containers|) by {
        SubsetSize(removed, containers.Keys);
        assert |containers| == |containers.Keys|;
      }
      RemoveAll(toRemove);
      assert containers.Keys == old(containers).Keys - removed;
      assert |containers| == |containers.Keys| && |old(containers)| == |old(containers).Keys|;
      Unlock();
    }

    method RemoveAll(ids: set<ContainerId>)
      modifies this`containers
      ensures containers == old(containers) - ids
    {
      var left := ids;
      while left != {}
        invariant left <= ids && containers == old(containers) - (ids - left)
        decreases left
      {
        var id :| id in left;
        RemoveContainer(id);
        left := left - {id};
      }
    }

    /** First part of a health check, without the mutex: the listed ids that are registered and not in Error. */
    method LookUp(entries: seq<ListEntry>) returns (runningWorkers: set<ContainerId>)
      ensures runningWorkers == RunningWorkers(containers, entries)
      ensures forall id :: id in runningWorkers <==> id in containers && Lists(entries, id) && containers[id] != Error
    {
      runningWorkers := {};
      for i := 0 to |entries|
        invariant runningWorkers == RunningWorkers(containers, entries[..i])
      {
        RunningNext(containers, entries, i);
        if entries[i].worker {
          if entries[i].id in containers {
            if containers[entries[i].id] != Error {
              runningWorkers := runningWorkers + {entries[i].id};
            }
          }
        }
      }
      assert entries[..|entries|] == entries;
    }

    /** Second part, under the mutex: every other registered id is marked for removal. */
    method MarkStale(runningWorkers: set<ContainerId>) returns (toRemove: set<ContainerId>, currentCount: int)
      requires !locked
      modifies this`locked
      ensures !locked && toRemove == containers.Keys - runningWorkers
      ensures currentCount == |Restrict(containers, runningWorkers)|
    {
      Lock();
      toRemove := {};
      var left := containers.Keys;
      while left != {}
        invariant locked && left <= containers.Keys
        invariant forall id :: id in toRemove <==> id in containers && id !in left && id !in runningWorkers
        decreases left
      {
        var id :| id in left;
        left := left - {id};
        if id !in runningWorkers {
          toRemove := toRemove + {id};
        }
      }
      assert toRemove == containers.Keys - runningWorkers;
      SweptCount(containers, runningWorkers);
      currentCount := |containers| - |toRemove|;
      Unlock();
    }

    /** One health check without interference. */
    method CheckHealth(listing: Option<seq<ListEntry>>, outcomes: seq<StartOutcome>)
      requires !locked
      requires |outcomes| >= maxWorkers && FreshIds(outcomes, containers.Keys)
      modifies this
      ensures !locked
      ensures listing.None? ==> containers == old(containers)
      ensures listing.Some? ==>
        && HealthPass(maxWorkers, listing.value, outcomes, old(containers), containers)
        && Checked(maxWorkers, old(containers), listing.value, outcomes, containers)
    {
      if listing.None? {
        return;
      }
      var runningWorkers := LookUp(listing.value);
      RestrictRunning(containers, listing.value);
      var toRemove, currentCount := MarkStale(runningWorkers);
      SweptIs(containers, runningWorkers);
      RemoveAll(toRemove);
      Rebalance(currentCount, |runningWorkers|, outcomes);
      PassIsCheck(maxWorkers, old(containers), listing.value, outcomes, containers);
    }

    /** Last part: missing containers are started, or surplus ones removed. */
    method Rebalance(currentCount: int, running: int, outcomes: seq<StartOutcome>)
      requires !locked && currentCount == running == |containers|
      requires |outcomes| >= maxWorkers && FreshIds(outcomes, containers.Keys)
      modifies this
      ensures !locked && Adjusted(maxWorkers, outcomes, old(containers), containers)
    {
      ghost var before := containers;
      if currentCount < maxWorkers {
        StartContainers(maxWorkers - currentCount, outcomes);
      } else if running > maxWorkers {
        RemoveExcessContainers(running - maxWorkers);
        AdjustedByTrim(maxWorkers, outcomes, before, containers);
      } else {
        AdjustedAlready(maxWorkers, outcomes, containers);
      }
    }

    /**
     Finds an Idle container and marks it Busy. The mutex is held across all ten passes, so all that other
     goroutines can do in between is delete: `deleted[i]` are the ids they delete after pass i. Ten passes
     are one: a container is found if and only if one is Idle when the first pass starts.
     */
    method GetAvailableContainer(deleted: seq<set<ContainerId>>) returns (found: Option<ContainerId>)
      requires !locked && |deleted| == MAX_RETRIES
      modifies this
      ensures !locked
      ensures found.Some? <==> !NoneIdle(old(containers))
      ensures found.Some? ==> var id := found.value;
        id in old(containers) && old(containers)[id] == Idle && containers == old(containers)[id := Busy]
      ensures found.None? ==> containers == old(containers) - DeletedBefore(deleted, MAX_RETRIES)
    {
      Lock();
      for i := 0 to MAX_RETRIES
        invariant locked && containers == old(containers) - DeletedBefore(deleted, i)
        invariant i > 0 ==> NoneIdle(old(containers))
      {
        var left := containers.Keys;
        while left != {}
          invariant locked && containers == old(containers) - DeletedBefore(deleted, i) && left <= containers.Keys
          invariant forall id <- containers :: id !in left ==> containers[id] != Idle
          decreases left
        {
          var id :| id in left;
          left := left - {id};
          if containers[id] == Idle {
            containers := containers[id := Busy];
            Unlock();
            return Some(id);
          }
        }
        containers := containers - deleted[i];
      }
      Unlock();
      return None;
    }

    method SetContainerState(id: ContainerId, state: ContainerState)
      requires !locked
      modifies this
      ensures !locked && containers == WithState(old(containers), id, state)
    {
      Lock();
      if id in containers {
        containers := containers[id := state];
      }
      Unlock();
    }

    method Shutdown()
      requires !locked
      modifies this
      ensures !locked && containers == map[]
    {
      Lock();
      var ids := containers.Keys;
      Unlock();
      Lock();
      containers := map[];
      Unlock();
    }

    method ContainerCount() returns (n: nat)
      requires !locked
      modifies this`locked
      ensures !locked && n == |containers|
    {
      Lock();
      n := |containers|;
      Unlock();
    }
  }

  ghost function DeletedBefore(deleted: seq<set<ContainerId>>, n: nat): set<ContainerId>
    requires n <= |deleted|
  {
    if n == 0 then {} else DeletedBefore(deleted, n - 1) + deleted[n - 1]
  }

  /** After `i` attempts at most `i` entries have been added, so the guard lets the next attempt through. */
  lemma RoomForNext(m: Register, outcomes: seq<StartOutcome>, i: nat)
    requires i < |outcomes| && FreshIds(outcomes, m.Keys)
    ensures |Replenished(m, outcomes[..i])| <= |m| + i
  {
    ReplenishedSize(m, outcomes[..i]);
    StartedCount(outcomes[..i], m.Keys);
  }

  lemma ReplenishNext(m: Register, outcomes: seq<StartOutcome>, i: nat)
    requires i < |outcomes|
    ensures var r, o := Replenished(m, outcomes[..i]), outcomes[i];
      Replenished(m, outcomes[..i + 1]) == if o.Started? then r[o.id := Idle] else r
  {
    assert outcomes[..i + 1] == outcomes[..i] + [outcomes[i]];
    ReplenishedGrows(m, outcomes[..i], outcomes[i]);
  }

  lemma RunningNext(m: Register, entries: seq<ListEntry>, i: nat)
    requires i < |entries|
    ensures var e := entries[i];
      RunningWorkers(m, entries[..i + 1]) ==
        RunningWorkers(m, entries[..i]) + if e.worker && e.id in m && m[e.id] != Error then {e.id} else {}
  {
    var e := entries[i];
    assert entries[..i + 1] == entries[..i] + [e];
    assert WorkerIds(entries[..i + 1]) == WorkerIds(entries[..i]) + if e.worker then {e.id} else {};
  }

  lemma SweptIs(m: Register, running: set<ContainerId>)
    ensures m - (m.Keys - running) == Restrict(m, running)
  {
  }

  lemma SweptCount(m: Register, running: set<ContainerId>)
    ensures |m| - |m.Keys - running| == |Restrict(m, running)|
  {
    var kept := Restrict(m, running);
    assert kept.Keys + (m.Keys - running) == m.Keys;
    assert |m| == |m.Keys| && |kept| == |kept.Keys|;
  }
}
