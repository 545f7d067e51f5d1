/** The listen-port allocator of the torrent clients (getAvailablePort and
    releasePort in main.go).  The allocator keeps the set of ports it has
    handed out; it draws up to fifty random candidates in [10000, 60000) and
    records and returns the first one not in the set.  When every draw is
    taken it returns a port from [60000, 65000) without recording it.

    rand.Intn is not modelled as a generator: the values it would return are
    passed in as a Draws record. */
module Ports {
  import opened Wrappers

  /** How many candidates the loop draws. */
  const Attempts: nat := 50
  /** Candidates are LoopBase + rand.Intn(LoopSpan). */
  const LoopBase: int := 10000
  const LoopSpan: nat := 50000
  /** The last-resort port is FallbackBase + rand.Intn(FallbackSpan). */
  const FallbackBase: int := 60000
  const FallbackSpan: nat := 5000

  predicate InLoopRange(p: int) {
    LoopBase <= p < LoopBase + LoopSpan
  }

  predicate InFallbackRange(p: int) {
    FallbackBase <= p < FallbackBase + FallbackSpan
  }

  /** The results of the rand.Intn calls one allocation would make: one per
      loop attempt, then one for the fallback. */
  datatype Draws = Draws(tries: seq<int>, fallback: int)

  /** What rand.Intn guarantees about its results. */
  predicate ValidDraws(d: Draws) {
    && |d.tries| == Attempts
    && (forall i :: 0 <= i < |d.tries| ==> 0 <= d.tries[i] < LoopSpan)
    && 0 <= d.fallback < FallbackSpan
  }

  function Candidate(t: int): int {
    LoopBase + t
  }

  /** The first attempt, from the i-th on, whose candidate is not in use. */
  function FirstFree(used: set<int>, tries: seq<int>, i: nat): (k: Option<nat>)
    requires i <= |tries|
    ensures k.Some? ==> i <= k.value < |tries| && Candidate(tries[k.value]) !in used
    ensures k.Some? ==> forall j :: i <= j < k.value ==> Candidate(tries[j]) in used
    ensures k.None? <==> forall j :: i <= j < |tries| ==> Candidate(tries[j]) in used
    decreases |tries| - i
  {
    if i == |tries| then None
    else if Candidate(tries[i]) !in used then Some(i)
    else FirstFree(used, tries, i + 1)
  }

  /** A port handed out, and whether it was recorded as used. */
  datatype Grant = Grant(port: int, recorded: bool)

  /** getAvailablePort: the first free candidate, recorded; otherwise the
      unrecorded fallback. */
  function Allocate(used: set<int>, d: Draws): (g: Grant)
    requires ValidDraws(d)
    ensures g.recorded ==> InLoopRange(g.port) && g.port !in used
    ensures g.recorded <==> exists j :: 0 <= j < Attempts && Candidate(d.tries[j]) !in used
    ensures !g.recorded ==> InFallbackRange(g.port) && g.port == FallbackBase + d.fallback
  {
    match FirstFree(used, d.tries, 0)
    case Some(k) => Grant(Candidate(d.tries[k]), true)
    case None => Grant(FallbackBase + d.fallback, false)
  }

  /** The used set after an allocation. */
  function UsedAfter(used: set<int>, g: Grant): (r: set<int>)
    ensures g.recorded ==> r == used + {g.port}
    ensures !g.recorded ==> r == used
  {
    if g.recorded then used + {g.port} else used
  }

  /** releasePort: the port is no longer in use. */
  function Release(used: set<int>, p: int): (r: set<int>)
    ensures p !in r
    ensures forall q :: q != p ==> (q in r <==> q in used)
    ensures p !in used ==> r == used
  {
    used - {p}
  }

  // ---------------------------------------------------------------- properties

  /** A recorded port is the candidate of the first free attempt: every
      earlier candidate was already in use. */
  lemma AllocateTakesFirstFree(used: set<int>, d: Draws)
    requires ValidDraws(d) && Allocate(used, d).recorded
    ensures exists k :: 0 <= k < Attempts && Allocate(used, d).port == Candidate(d.tries[k])
                        && (forall j :: 0 <= j < k ==> Candidate(d.tries[j]) in used)
  {
    var k := FirstFree(used, d.tries, 0).value;
    assert Allocate(used, d).port == Candidate(d.tries[k]);
  }

  /** After an allocation from a set of loop ports, the port handed out is
      in use exactly when it was recorded, and no other port changed status. */
  lemma AllocateMarksOnlyItsPort(used: set<int>, d: Draws)
    requires ValidDraws(d)
    requires forall q :: q in used ==> InLoopRange(q)
    ensures var g := Allocate(used, d);
      (g.port in UsedAfter(used, g) <==> g.recorded)
      && (forall q :: q in UsedAfter(used, g) ==> InLoopRange(q))
      && forall q :: q != g.port ==> (q in UsedAfter(used, g) <==> q in used)
  {
  }

  /** When every loop port is taken the allocator falls back. */
  lemma FullPoolFallsBack(used: set<int>, d: Draws)
    requires ValidDraws(d)
    requires forall p :: InLoopRange(p) ==> p in used
    ensures !Allocate(used, d).recorded
  {
    forall j | 0 <= j < Attempts
      ensures Candidate(d.tries[j]) in used
    {
      assert InLoopRange(Candidate(d.tries[j]));
    }
  }

  /** A released port is handed out again the next time it is drawn first. */
  lemma ReleasedIsAllocatable(used: set<int>, p: int, d: Draws)
    requires ValidDraws(d) && d.tries[0] == p - LoopBase
    ensures Allocate(Release(used, p), d) == Grant(p, true)
  {
  }

  /** Allocating, then releasing the port handed out, restores the used set
      whenever the port was handed out by the loop. */
  lemma AllocateThenRelease(used: set<int>, d: Draws)
    requires ValidDraws(d)
    ensures var g := Allocate(used, d);
      g.recorded ==> Release(UsedAfter(used, g), g.port) == used
  {
  }
}
