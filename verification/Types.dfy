/** Entities shared by the sequential classes and by the concurrent state machine. */
module Types {

  datatype Option<+T> = None | Some(value: T)

  /** A docker container id. The engine only ever compares ids. */
  datatype ContainerId = ContainerId(hash: string)

  datatype ContainerState = Idle | Busy | Error

  /** The engine's register: container id to the state recorded for it. */
  type Register = map<ContainerId, ContainerState>

  /** A code execution request. Its result channel is named by the job's number. */
  datatype Job = Job(language: string, code: string)

  /** The errors a job can be answered with; `Message` gives Go's text. */
  datatype Failure =
    | NoAvailableContainer
    | UnsupportedLanguage(language: string)
    | ExecutionError(reason: string)
    | JobQueueFull

  /** What a caller receives. `error == None` is Go's nil error. */
  datatype Result = Result(output: string, success: bool, error: Option<Failure>)

  /** The answers `executeJob` and `executeCode` can give. */
  function NoContainer(): Result {
    Result("", false, Some(NoAvailableContainer))
  }

  function Unsupported(language: string): Result {
    Result("", false, Some(UnsupportedLanguage(language)))
  }

  /** What `executeCode` returns once the command has ended with or without an error. */
  function FromRun(output: string, failure: Option<string>): Result {
    match failure
    case None => Result(output, true, None)
    case Some(reason) => Result(output, false, Some(ExecutionError(reason)))
  }

  function QueueFull(): Result {
    Result("", false, Some(JobQueueFull))
  }

  predicate NoneIdle(m: Register) {
    forall id <- m :: m[id] != Idle
  }

  ghost function InState(m: Register, st: ContainerState): set<ContainerId> {
    set id | id in m && m[id] == st
  }

  /** An assignment that only touches an id still registered. */
  function WithState(m: Register, id: ContainerId, st: ContainerState): (r: Register)
    ensures r.Keys == m.Keys
    ensures id in m ==> r[id] == st
    ensures forall other <- m :: other != id ==> r[other] == m[other]
  {
    if id in m then m[id := st] else m
  }
}

/** Facts about cardinalities and about bags gathered from a sequence of processes. */
module Bags {

  lemma SubsetSize<T>(a: set<T>, b: set<T>)
    requires a <= b
    ensures |a| <= |b|
    ensures |a| == |b| ==> a == b
  {
    if a != {} {
      var x :| x in a;
      SubsetSize(a - {x}, b - {x});
    }
  }

  /** The bag union of `f(p)` over all processes `p`. */
  ghost function Gather<P, T>(f: P -> multiset<T>, ps: seq<P>): multiset<T> {
    if ps == [] then multiset{} else f(ps[0]) + Gather(f, ps[1..])
  }

  lemma {:induction false} GatherReplace<P, T>(f: P -> multiset<T>, ps: seq<P>, i: nat, p: P)
    requires i < |ps|
    ensures Gather(f, ps[i := p]) + f(ps[i]) == Gather(f, ps) + f(p)
  {
    if i == 0 {
      assert ps[i := p][1..] == ps[1..];
    } else {
      var tail, tail' := ps[1..], ps[i := p][1..];
      assert tail' == tail[i - 1 := p];
      GatherReplace(f, tail, i - 1, p);
      assert Gather(f, ps[i := p]) + f(ps[i]) == f(ps[0]) + (Gather(f, tail') + f(tail[i - 1]));
    }
  }

  lemma Cancel<T>(a: multiset<T>, b: multiset<T>, x: multiset<T>)
    requires a + x == b + x
    ensures a == b
  {
    assert a == (a + x) - x;
    assert b == (b + x) - x;
  }

  lemma BagOfSet<T>(s: set<T>, x: T)
    requires x !in s
    ensures multiset(s + {x}) == multiset(s) + multiset{x}
  {
  }

  lemma BagShuffle<T>(a: multiset<T>, b: multiset<T>, x: multiset<T>)
    ensures (a + x) + b == (a + b) + x == a + (b + x)
  {
  }

  /** An item goes over from the second bag to the third. */
  lemma BagHandOver<T>(a: multiset<T>, b: multiset<T>, c: multiset<T>, x: multiset<T>)
    ensures (a + (b + x)) + c == (a + b) + (c + x)
  {
  }

  lemma BagMember<T>(a: multiset<T>, x: T)
    requires x !in a
    ensures a + multiset{x} == a[x := 1]
    ensures (a + multiset{x})[x := 0] == a
  {
  }

  /** One process changes: its old share leaves the bag and its new share enters. */
  lemma GatherUpdate<P, T>(f: P -> multiset<T>, ps: seq<P>, i: nat, p: P)
    requires i < |ps|
    ensures f(p) == f(ps[i]) ==> Gather(f, ps[i := p]) == Gather(f, ps)
    ensures f(ps[i]) == multiset{} ==> Gather(f, ps[i := p]) == Gather(f, ps) + f(p)
    ensures f(p) == multiset{} ==> Gather(f, ps) == Gather(f, ps[i := p]) + f(ps[i])
  {
    GatherReplace(f, ps, i, p);
    if f(p) == f(ps[i]) {
      Cancel(Gather(f, ps[i := p]), Gather(f, ps), f(p));
    }
  }

  /** A share is part of the whole, and two shares fit in it side by side. */
  lemma {:induction false} GatherHas<P, T>(f: P -> multiset<T>, ps: seq<P>, i: nat)
    requires i < |ps|
    ensures f(ps[i]) <= Gather(f, ps)
  {
    if i > 0 {
      GatherHas(f, ps[1..], i - 1);
    }
  }

  lemma {:induction false} GatherPair<P, T>(f: P -> multiset<T>, ps: seq<P>, i: nat, j: nat)
    requires i < j < |ps|
    ensures f(ps[i]) + f(ps[j]) <= Gather(f, ps)
  {
    if i == 0 {
      GatherHas(f, ps[1..], j - 1);
    } else {
      GatherPair(f, ps[1..], i - 1, j - 1);
    }
  }

  /** Whatever is in the bag was contributed by some process. */
  lemma {:induction false} GatherOwner<P, T>(f: P -> multiset<T>, ps: seq<P>, x: T) returns (i: nat)
    requires x in Gather(f, ps)
    ensures i < |ps| && x in f(ps[i])
  {
    if x in f(ps[0]) {
      i := 0;
    } else {
      i := GatherOwner(f, ps[1..], x);
      i := i + 1;
    }
  }

  /** If every process contributes at most one item, the bag is no larger than the crowd. */
  lemma {:induction false} GatherSize<P, T>(f: P -> multiset<T>, ps: seq<P>)
    requires forall p :: |f(p)| <= 1
    ensures |Gather(f, ps)| <= |ps|
    ensures (exists i: nat :: i < |ps| && f(ps[i]) == multiset{}) ==> |Gather(f, ps)| < |ps|
  {
    if ps != [] {
      GatherSize(f, ps[1..]);
      if i: nat :| i < |ps| && f(ps[i]) == multiset{} && i > 0 {
        assert f(ps[1..][i - 1]) == multiset{};
      }
    }
  }

  lemma {:induction false} GatherNothing<P, T>(f: P -> multiset<T>, ps: seq<P>)
    requires forall i: nat :: i < |ps| ==> f(ps[i]) == multiset{}
    ensures Gather(f, ps) == multiset{}
  {
    if ps != [] {
      assert f(ps[0]) == multiset{};
      forall i: nat | i < |ps[1..]| ensures f(ps[1..][i]) == multiset{} {
        assert ps[1..][i] == ps[i + 1];
      }
      GatherNothing(f, ps[1..]);
    }
  }

  ghost function Total<P>(f: P -> nat, ps: seq<P>): nat {
    if ps == [] then 0 else f(ps[0]) + Total(f, ps[1..])
  }

  lemma {:induction false} TotalUpdate<P>(f: P -> nat, ps: seq<P>, i: nat, p: P)
    requires i < |ps|
    ensures Total(f, ps[i := p]) + f(ps[i]) == Total(f, ps) + f(p)
  {
    if i == 0 {
      assert ps[i := p][1..] == ps[1..];
    } else {
      assert ps[i := p][1..] == ps[1..][i - 1 := p];
      TotalUpdate(f, ps[1..], i - 1, p);
    }
  }

  /** The numbers below `n`. */
  ghost function Below(n: nat): (r: set<nat>)
    ensures forall i: nat :: i in r <==> i < n
    ensures |r| == n
  {
    if n == 0 then {} else Below(n - 1) + {n - 1}
  }
}
