/** The profiles of a workload: a map from names to counted pointers. Jobs and composed profiles hold
    pointers too; a profile lives as long as somebody holds it. */
module Profiles {

  type Name = string

  /** The profiles that each profile is composed of. */
  type Links = map<Name, seq<Name>>

  ghost predicate Closed(links: Links) {
    forall q, i :: q in links && 0 <= i < |links[q]| ==> links[q][i] in links
  }

  /** Every composed profile comes after its parts: there are no circular profiles. */
  ghost predicate Ranked(links: Links, rank: map<Name, nat>) {
    && rank.Keys == links.Keys && Closed(links)
    && forall q, i :: q in links && 0 <= i < |links[q]| ==> rank[links[q][i]] < rank[q]
  }

  function Occurrences(s: seq<Name>, p: Name): (n: nat)
    ensures n > 0 <==> p in s
  {
    if s == [] then 0 else (if s[0] == p then 1 else 0) + Occurrences(s[1..], p)
  }

  /** How many pointers to p the living profiles among names hold. */
  function HeldBy(links: Links, alive: set<Name>, names: seq<Name>, p: Name): (n: nat)
    ensures n > 0 ==> exists q :: q in names && q in alive && q in links && p in links[q]
    ensures (exists q :: q in names && q in alive && q in links && p in links[q]) ==> n > 0
  {
    if names == [] then 0
    else
      (if names[0] in alive && names[0] in links then Occurrences(links[names[0]], p) else 0)
      + HeldBy(links, alive, names[1..], p)
  }

  ghost predicate Chain(links: Links, path: seq<Name>) {
    forall i :: 0 <= i < |path| - 1 ==> path[i] in links && path[i + 1] in links[path[i]]
  }

  /** p is the profile of a job, or part of one. */
  ghost predicate UsedAlong(links: Links, jobs: seq<Name>, path: seq<Name>, p: Name) {
    path != [] && path[0] in jobs && path[|path| - 1] == p && Chain(links, path)
  }

  ghost predicate Used(links: Links, jobs: seq<Name>, p: Name) {
    exists path :: UsedAlong(links, jobs, path, p)
  }

  lemma PartIsUsed(links: Links, jobs: seq<Name>, q: Name, p: Name)
    requires Used(links, jobs, q) && q in links && p in links[q]
    ensures Used(links, jobs, p)
  {
    var path :| UsedAlong(links, jobs, path, q);
    assert UsedAlong(links, jobs, path + [p], p);
  }

  lemma JobsProfileIsUsed(links: Links, jobs: seq<Name>, p: Name)
    requires p in jobs
    ensures Used(links, jobs, p)
  {
    assert UsedAlong(links, jobs, [p], p);
  }

  // ----- what a clean-up keeps -----

  /** The map lists q before p. */
  ghost predicate ListedBefore(names: seq<Name>, q: Name, p: Name) {
    exists i, j :: 0 <= i < j < |names| && names[i] == q && names[j] == p
  }

  /** A chain of parts leads to p from a job's profile, or from a composed profile that the map does not list
      before its own part on the chain. */
  ghost predicate KeptAlong(links: Links, jobs: seq<Name>, names: seq<Name>, path: seq<Name>, p: Name) {
    && path != [] && path[|path| - 1] == p && Chain(links, path)
    && (path[0] in jobs || (|path| > 1 && !ListedBefore(names, path[0], path[1])))
  }

  ghost predicate Kept(links: Links, jobs: seq<Name>, names: seq<Name>, p: Name) {
    exists path :: KeptAlong(links, jobs, names, path, p)
  }

  ghost predicate Distinct(names: seq<Name>) {
    forall i, j :: 0 <= i < j < |names| ==> names[i] != names[j]
  }

  lemma KeptIfUsed(links: Links, jobs: seq<Name>, names: seq<Name>, p: Name)
    requires Used(links, jobs, p)
    ensures Kept(links, jobs, names, p)
  {
    var path :| UsedAlong(links, jobs, path, p);
    assert KeptAlong(links, jobs, names, path, p);
  }

  /** What nobody holds is kept in no order ... */
  lemma UnheldIsNotKept(links: Links, jobs: seq<Name>, names: seq<Name>, p: Name)
    requires p !in jobs && forall q :: q in links ==> p !in links[q]
    ensures !Kept(links, jobs, names, p)
  {
    if path :| KeptAlong(links, jobs, names, path, p) {
      HeldOnChain(links, path);
    }
  }

  lemma HeldOnChain(links: Links, path: seq<Name>)
    requires Chain(links, path) && |path| > 1
    ensures exists q :: q in links && path[|path| - 1] in links[q]
  {
    var q := path[|path| - 2];
    assert path[|path| - 2 + 1] in links[q];
  }

  /** ... and if composed profiles come before their parts, what is not used is kept neither. */
  lemma OnlyUsedIsKept(links: Links, jobs: seq<Name>, names: seq<Name>, p: Name)
    requires Closed(links) && (forall q :: q in links <==> q in names) && PartsLater(links, names)
    ensures Kept(links, jobs, names, p) <==> Used(links, jobs, p)
  {
    if Used(links, jobs, p) { KeptIfUsed(links, jobs, names, p); }
    if path :| KeptAlong(links, jobs, names, path, p) {
      if |path| > 1 {
        assert path[0] in names && path[0 + 1] in links[path[0]] && path[0 + 1] in names;
        var i :| 0 <= i < |names| && names[i] == path[0];
        var j :| 0 <= j < |names| && names[j] == path[1];
      }
      assert UsedAlong(links, jobs, path, p);
    }
  }

  /** The first n names were visited: of them those to keep are there, the others freed; the rest is all there. */
  ghost predicate Swept(links: Links, jobs: seq<Name>, names: seq<Name>, present: map<Name, bool>, alive: set<Name>,
                        n: nat)
    requires n <= |names|
  {
    && (forall p :: p in alive <==> p in present && present[p])
    && (forall k :: 0 <= k < n ==> names[k] in present
                                   && (present[names[k]] <==> Kept(links, jobs, names, names[k])))
    && (forall k :: n <= k < |names| ==> names[k] in present && present[names[k]])
  }

  lemma KeptPart(links: Links, jobs: seq<Name>, names: seq<Name>, q: Name, p: Name)
    requires q in links && p in links[q] && (Kept(links, jobs, names, q) || !ListedBefore(names, q, p))
    ensures Kept(links, jobs, names, p)
  {
    if path :| KeptAlong(links, jobs, names, path, q) {
      assert KeptAlong(links, jobs, names, path + [p], p);
    } else {
      assert KeptAlong(links, jobs, names, [q, p], p);
    }
  }

  /** Why p is kept: it is a job's, or part of a profile that is kept or not yet visited. */
  lemma KeptBecause(links: Links, jobs: seq<Name>, names: seq<Name>, p: Name)
    requires Kept(links, jobs, names, p) && p !in jobs
    ensures exists q :: q in links && p in links[q] && (Kept(links, jobs, names, q) || !ListedBefore(names, q, p))
  {
    var path :| KeptAlong(links, jobs, names, path, p);
    var n := |path| - 1;
    var q := path[n - 1];
    assert path[n - 1 + 1] in links[q];
    if n > 1 || path[0] in jobs {
      assert KeptAlong(links, jobs, names, path[..n], q);
    }
  }

  /** Whether p is to be kept is what its holders say when it is visited. */
  lemma KeptNow(links: Links, jobs: seq<Name>, names: seq<Name>, present: map<Name, bool>, alive: set<Name>, n: nat)
    requires Distinct(names) && (forall q :: q in links <==> q in names)
    requires n < |names| && Swept(links, jobs, names, present, alive, n)
    ensures Occurrences(jobs, names[n]) + HeldBy(links, alive, names, names[n]) > 0
       <==> Kept(links, jobs, names, names[n])
  {
    var p := names[n];
    hide Occurrences, HeldBy, Kept;
    if p in jobs {
      JobsProfileIsUsed(links, jobs, p);
      KeptIfUsed(links, jobs, names, p);
    } else if q :| q in names && q in alive && q in links && p in links[q] {
      HolderKeeps(links, jobs, names, present, alive, n, q);
    } else if Kept(links, jobs, names, p) {
      KeptBecause(links, jobs, names, p);
      var q :| q in links && p in links[q] && (Kept(links, jobs, names, q) || !ListedBefore(names, q, p));
      KeeperHolds(links, jobs, names, present, alive, n, q);
    }
  }

  lemma HolderKeeps(links: Links, jobs: seq<Name>, names: seq<Name>, present: map<Name, bool>, alive: set<Name>,
                    n: nat, q: Name)
    requires Distinct(names) && n < |names| && Swept(links, jobs, names, present, alive, n)
    requires q in names && q in alive && q in links && names[n] in links[q]
    ensures Kept(links, jobs, names, names[n])
  {
    var k :| 0 <= k < |names| && names[k] == q;
    hide Kept;
    if k >= n {
      assert !ListedBefore(names, q, names[n]);
    }
    KeptPart(links, jobs, names, q, names[n]);
  }

  lemma KeeperHolds(links: Links, jobs: seq<Name>, names: seq<Name>, present: map<Name, bool>, alive: set<Name>,
                    n: nat, q: Name)
    requires n < |names| && Swept(links, jobs, names, present, alive, n)
    requires q in names && (Kept(links, jobs, names, q) || !ListedBefore(names, q, names[n]))
    ensures q in alive
  {
    var k :| 0 <= k < |names| && names[k] == q;
    hide Kept;
  }

  lemma PartKnown(links: Links, q: Name, p: Name)
    requires Closed(links) && q in links && p in links[q]
    ensures p in links
  {
    var i :| 0 <= i < |links[q]| && links[q][i] == p;
  }

  lemma SweptPresent(links: Links, jobs: seq<Name>, names: seq<Name>, present: map<Name, bool>, alive: set<Name>,
                     n: nat)
    requires n < |names| && Swept(links, jobs, names, present, alive, n)
    ensures names[n] in present && present[names[n]]
  {
  }

  /** The visit of p left everything as it was if p was held besides the map, and else dropped the map's pointer. */
  ghost predicate Visited(before: map<Name, bool>, lived: set<Name>, present: map<Name, bool>, alive: set<Name>,
                          p: Name, held: bool)
    requires p in before
  {
    if held then present == before && alive == lived
    else present == before[p := false] && alive <= lived && (before[p] ==> p !in alive)
  }

  /** No used profile was dropped, none came back, and what was dropped was freed. */
  ghost predicate Trimmed(links: Links, jobs: seq<Name>, start: map<Name, bool>, present: map<Name, bool>,
                          alive: set<Name>)
  {
    && present.Keys == start.Keys
    && (forall p :: p in present && Used(links, jobs, p) ==> present[p] == start[p])
    && (forall p :: p in present && present[p] ==> start[p])
    && (forall p :: p in present && start[p] && !present[p] ==> p !in alive)
  }

  ghost predicate OnlyUsed(links: Links, jobs: seq<Name>, names: seq<Name>, alive: set<Name>, n: nat)
    requires n <= |names|
  {
    forall k :: 0 <= k < n && names[k] in alive ==> Used(links, jobs, names[k])
  }

  lemma TrimmedMeans(links: Links, jobs: seq<Name>, start: map<Name, bool>, present: map<Name, bool>, alive: set<Name>)
    requires Trimmed(links, jobs, start, present, alive)
    ensures present.Keys == start.Keys
    ensures forall p :: p in present && Used(links, jobs, p) ==> present[p] == start[p]
    ensures forall p :: p in present && present[p] ==> start[p]
    ensures forall p :: p in present && start[p] && !present[p] ==> p !in alive
  {
    hide Used;
  }

  lemma TrimmedMore(links: Links, jobs: seq<Name>, start: map<Name, bool>, before: map<Name, bool>, lived: set<Name>,
                    present: map<Name, bool>, alive: set<Name>, p: Name, held: bool)
    requires Trimmed(links, jobs, start, before, lived)
    requires p in before && Visited(before, lived, present, alive, p, held)
    requires before[p] && Used(links, jobs, p) ==> held
    ensures Trimmed(links, jobs, start, present, alive)
  {
    hide Used;
  }

  lemma OnlyUsedMore(links: Links, jobs: seq<Name>, names: seq<Name>, before: map<Name, bool>, lived: set<Name>,
                     present: map<Name, bool>, alive: set<Name>, i: nat, held: bool)
    requires i < |names| && OnlyUsed(links, jobs, names, lived, i)
    requires names[i] in before && Visited(before, lived, present, alive, names[i], held)
    requires !Used(links, jobs, names[i]) ==> !held && (names[i] in lived ==> before[names[i]])
    ensures OnlyUsed(links, jobs, names, alive, i + 1)
  {
    hide Used;
  }

  lemma SweptMore(links: Links, jobs: seq<Name>, names: seq<Name>, before: map<Name, bool>, lived: set<Name>,
                  present: map<Name, bool>, alive: set<Name>, i: nat, held: bool)
    requires i < |names| && Distinct(names) && Swept(links, jobs, names, before, lived, i)
    requires names[i] in before && Visited(before, lived, present, alive, names[i], held)
    requires held <==> Kept(links, jobs, names, names[i])
    requires forall p :: p in present && present[p] ==> p in alive
    ensures Swept(links, jobs, names, present, alive, i + 1)
  {
    hide Kept;
    assert forall p :: p in before && before[p] ==> p in lived;
  }

  class Profiles {
    const links: Links
    const names: seq<Name>         // in the order of the map, whatever it is
    var present: map<Name, bool>   // false: the pointer was dropped; the name stays known
    var jobs: seq<Name>            // the profiles of the jobs in memory
    var alive: set<Name>           // the profiles that were not freed

    function UseCount(p: Name): nat
      reads this
    {
      (if p in present && present[p] then 1 else 0) + Occurrences(jobs, p) + HeldBy(links, alive, names, p)
    }

    ghost predicate Valid()
      reads this
    {
      && Closed(links) && (forall p :: p in links <==> p in names) && Distinct(names) && present.Keys == links.Keys
      && (forall p :: p in jobs ==> p in links)
      && forall p :: UseCount(p) > 0 <==> p in alive
    }

    /** All profiles were loaded, linked, and given to the jobs. */
    constructor (links: Links, names: seq<Name>, jobs: seq<Name>)
      requires Closed(links) && (forall p :: p in links <==> p in names) && Distinct(names)
      requires forall p :: p in jobs ==> p in links
      ensures Valid() && this.links == links && this.names == names && this.jobs == jobs
      ensures forall p :: p in links ==> present[p]
    {
      this.links, this.names, this.jobs := links, names, jobs;
      present := map p | p in links :: true;
      alive := links.Keys;
    }

    /** exists: a name stays known when its pointer was dropped. */
    predicate Exists(p: Name)
      reads this
    {
      p in present
    }

    /** at: fails if the pointer was dropped. */
    method At(p: Name) returns (found: bool)
      ensures found <==> p in present && present[p]
    {
      found := Exists(p) && present[p];
    }

    /** Profiles that nobody holds are freed, which may free others. */
    method Free()
      requires forall p :: UseCount(p) > 0 ==> p in alive
      modifies this`alive
      ensures forall p :: UseCount(p) > 0 <==> p in alive
      ensures alive <= old(alive)
    {
      while exists p :: p in alive && UseCount(p) == 0
        invariant forall p :: UseCount(p) > 0 ==> p in alive
        invariant alive <= old(alive)
        decreases alive
      {
        var p :| p in alive && UseCount(p) == 0;
        var before := alive;
        alive := alive - {p};
        forall q ensures UseCount(q) > 0 ==> q in alive { FewerHolders(links, before, alive, names, q); }
      }
    }

    method DropPointer(p: Name)
      requires Valid() && p in present
      modifies this`present, this`alive
      ensures Valid() && present == old(present)[p := false] && alive <= old(alive)
      ensures old(UseCount(p)) < 2 && old(present)[p] ==> p !in alive
    {
      present := present[p := false];
      Free();
      FewerHolders(links, old(alive), alive, names, p);
    }

    lemma UsedIsAlive(p: Name)
      requires Valid() && Used(links, jobs, p)
      ensures p in alive && Occurrences(jobs, p) + HeldBy(links, alive, names, p) > 0
    {
      var path :| UsedAlong(links, jobs, path, p);
      UsedAlongIsAlive(path, p);
    }

    lemma {:induction false} UsedAlongIsAlive(path: seq<Name>, p: Name)
      requires Valid() && UsedAlong(links, jobs, path, p)
      ensures p in alive && Occurrences(jobs, p) + HeldBy(links, alive, names, p) > 0
      decreases |path|
    {
      if |path| > 1 {
        var n := |path| - 1;
        assert UsedAlong(links, jobs, path[..n], path[n - 1]);
        UsedAlongIsAlive(path[..n], path[n - 1]);
        var q := path[n - 1];
        assert q in names && q in alive && q in links && p in links[q];
      }
      assert UseCount(p) > 0;
    }

    /** One turn of the loop of the clean-up. */
    method Visit(i: nat)
      requires Valid() && i < |names|
      modifies this`present, this`alive
      ensures Valid() && names[i] in old(present)
      ensures Visited(old(present), old(alive), present, alive, names[i], old(UseCount(names[i])) >= 2)
    {
      hide HeldBy, Occurrences, Distinct, Closed;
      assert names[i] in links;
      hide Profiles.UseCount, Profiles.Valid;
      if UseCount(names[i]) < 2 {
        DropPointer(names[i]);
      }
    }

    /** What is known before a visit about who holds the profile. */
    lemma BeforeVisit(i: nat)
      requires Valid() && i < |names|
      ensures var p, held := names[i], UseCount(names[i]) >= 2;
              && p in present
              && (present[p] && Used(links, jobs, p) ==> held)
              && (PartsLater(links, names) && OnlyUsed(links, jobs, names, alive, i) && !Used(links, jobs, p) ==>
                    !held && (p in alive ==> present[p]))
              && (Swept(links, jobs, names, present, alive, i) ==> (held <==> Kept(links, jobs, names, p)))
    {
      var p := names[i];
      hide Swept, Kept, Used, HeldBy, Occurrences, PartsLater, Closed, OnlyUsed, Distinct;
      assert p in present && (UseCount(p) > 0 <==> p in alive);
      if Used(links, jobs, p) {
        UsedIsAlive(p);
      } else if PartsLater(links, names) && OnlyUsed(links, jobs, names, alive, i) {
        NotHeldLater(i);
      }
      if Swept(links, jobs, names, present, alive, i) {
        KeptNow(links, jobs, names, present, alive, i);
        SweptPresent(links, jobs, names, present, alive, i);
      }
    }

    /** One turn keeps what the clean-up promises for the names so far. */
    method VisitNext(i: nat, ghost start: map<Name, bool>)
      requires Valid() && i < |names| && Trimmed(links, jobs, start, present, alive)
      requires PartsLater(links, names) ==> OnlyUsed(links, jobs, names, alive, i)
      modifies this`present, this`alive
      ensures Valid() && Trimmed(links, jobs, start, present, alive)
      ensures PartsLater(links, names) ==> OnlyUsed(links, jobs, names, alive, i + 1)
      ensures old(Swept(links, jobs, names, present, alive, i)) ==> Swept(links, jobs, names, present, alive, i + 1)
    {
      assert Distinct(names);
      hide *;
      BeforeVisit(i);
      ghost var before, lived, held := present, alive, UseCount(names[i]) >= 2;
      Visit(i);
      TrimmedMore(links, jobs, start, before, lived, present, alive, names[i], held);
      if PartsLater(links, names) { OnlyUsedMore(links, jobs, names, before, lived, present, alive, i, held); }
      if Swept(links, jobs, names, before, lived, i) {
        AliveIfPresent();
        SweptMore(links, jobs, names, before, lived, present, alive, i, held);
      }
    }

    /** remove_unreferenced_profiles: in any order, no profile of a job and no part of one is dropped, and
        what is dropped is freed. If every composed profile comes before its parts, all others are dropped.
        In any other order exactly those remain that a chain of parts reaches from a job or from a composed
        profile listed late. */
    method RemoveUnreferencedProfiles()
      requires Valid()
      modifies this`present, this`alive
      ensures Valid() && present.Keys == old(present.Keys)
      ensures forall p :: p in present && Used(links, jobs, p) ==> present[p] == old(present)[p]
      ensures forall p :: p in present && present[p] ==> old(present)[p]
      ensures forall p :: p in present && old(present)[p] && !present[p] ==> p !in alive
      ensures PartsLater(links, names) ==> forall p :: p in present && present[p] ==> Used(links, jobs, p)
      ensures (forall p :: p in old(present) ==> old(present)[p]) ==>
                forall p :: p in present ==> (present[p] <==> Kept(links, jobs, names, p))
    {
      ghost var all := forall p :: p in present ==> present[p];
      ghost var start := present;
      hide *;
      if all { NothingSwept(); }
      Sweep(all);
      TrimmedMeans(links, jobs, start, present, alive);
      if PartsLater(links, names) { OnlyUsedLeft(); }
      if all { AllSwept(); }
    }

    /** The loop of the clean-up. */
    method Sweep(ghost all: bool)
      requires Valid() && (all ==> Swept(links, jobs, names, present, alive, 0))
      modifies this`present, this`alive
      ensures Valid() && Trimmed(links, jobs, old(present), present, alive)
      ensures PartsLater(links, names) ==> OnlyUsed(links, jobs, names, alive, |names|)
      ensures all ==> Swept(links, jobs, names, present, alive, |names|)
    {
      ghost var start := present;
      AtStart(start, alive);
      hide *;
      for i := 0 to |names|
        invariant Valid() && Trimmed(links, jobs, start, present, alive)
        invariant PartsLater(links, names) ==> OnlyUsed(links, jobs, names, alive, i)
        invariant all ==> Swept(links, jobs, names, present, alive, i)
      {
        VisitNext(i, start);
      }
    }

    lemma AtStart(start: map<Name, bool>, lived: set<Name>)
      ensures Trimmed(links, jobs, start, start, lived) && OnlyUsed(links, jobs, names, lived, 0)
    {
      hide Used;
    }

    lemma AliveIfPresent()
      requires Valid()
      ensures forall p :: p in present && present[p] ==> p in alive
    {
      hide HeldBy, Occurrences, Closed, Distinct;
      forall p | p in present && present[p] ensures p in alive { assert UseCount(p) > 0; }
    }

    lemma NothingSwept()
      requires Valid() && forall p :: p in present ==> present[p]
      ensures Swept(links, jobs, names, present, alive, 0)
    {
      hide Kept, HeldBy, Occurrences;
      forall p ensures p in alive <==> p in present && present[p] {
        if p in present {
          assert UseCount(p) > 0;
        } else {
          NobodyHoldsUnknown(p);
        }
      }
    }

    lemma NobodyHoldsUnknown(p: Name)
      requires Valid() && p !in links
      ensures p !in alive
    {
      if q :| q in names && q in alive && q in links && p in links[q] {
        PartKnown(links, q, p);
      }
      assert UseCount(p) == 0;
    }

    lemma AllSwept()
      requires Valid() && Swept(links, jobs, names, present, alive, |names|)
      ensures forall p :: p in present ==> (present[p] <==> Kept(links, jobs, names, p))
    {
      hide Kept;
      forall p | p in present ensures present[p] <==> Kept(links, jobs, names, p) {
        var k :| 0 <= k < |names| && names[k] == p;
      }
    }

    /** A SCHEDULER_RECV profile names its continuation and holds no pointer to it: after the clean-up the
        continuation is found if and only if the clean-up keeps it for other reasons. What no job and no
        composed profile holds is lost in every order of the map. */
    method CleanUpThenFind(continuation: Name) returns (found: bool)
      requires Valid() && forall p :: p in present ==> present[p]
      modifies this`present, this`alive
      ensures Valid() && (continuation in links && Used(links, jobs, continuation) ==> found)
      ensures found <==> continuation in links && Kept(links, jobs, names, continuation)
      ensures PartsLater(links, names) ==> (found <==> continuation in links && Used(links, jobs, continuation))
      ensures continuation !in jobs && (forall q :: q in links ==> continuation !in links[q]) ==> !found
    {
      RemoveUnreferencedProfiles();
      found := At(continuation);
      if PartsLater(links, names) { OnlyUsedIsKept(links, jobs, names, continuation); }
      if continuation !in jobs && forall q :: q in links ==> continuation !in links[q] {
        UnheldIsNotKept(links, jobs, names, continuation);
      }
    }

    lemma OnlyUsedLeft()
      requires Valid() && OnlyUsed(links, jobs, names, alive, |names|)
      ensures forall p :: p in present && present[p] ==> Used(links, jobs, p)
    {
      forall p | p in present && present[p] ensures Used(links, jobs, p) {
        assert p in names && UseCount(p) > 0;
      }
    }

    lemma NotHeldLater(i: nat)
      requires Valid() && i < |names| && PartsLater(links, names) && !Used(links, jobs, names[i])
      requires OnlyUsed(links, jobs, names, alive, i)
      ensures Occurrences(jobs, names[i]) == 0 && HeldBy(links, alive, names, names[i]) == 0
    {
      var p := names[i];
      if p in jobs { JobsProfileIsUsed(links, jobs, p); }
      if q :| q in names && q in alive && q in links && p in links[q] {
        var k :| 0 <= k < |names| && names[k] == q;
        assert k < i;
        PartIsUsed(links, jobs, q, p);
      }
    }

    /** delete_job: what the other jobs use stays alive. With garbage collection the map's pointers to the job's
        profile and to its parts are dropped, without it none. */
    method DeleteJob(k: nat, garbageCollect: bool, ghost rank: map<Name, nat>)
      requires Valid() && Ranked(links, rank) && k < |jobs|
      modifies this
      ensures Valid() && jobs == old(jobs[..k] + jobs[k + 1..]) && present.Keys == old(present.Keys)
      ensures forall p :: p in present ==>
                (present[p] <==> old(present)[p] && !(garbageCollect && Reaches(links, old(present), old(jobs)[k], p)))
      ensures forall p :: Used(links, jobs, p) ==> p in alive
    {
      var profile := jobs[k];
      ghost var before := jobs;
      assert profile in links;
      jobs := jobs[..k] + jobs[k + 1..];
      forall p ensures Occurrences(jobs, p) <= Occurrences(before, p) { OccurrencesWithout(before, k, p); }
      assert forall p :: p in jobs ==> p in before;
      Free();
      if garbageCollect {
        var known := RemoveProfile(profile, rank);
      }
      forall p | Used(links, jobs, p) ensures p in alive { UsedIsAlive(p); }
    }

    /** remove_profile: drops the pointers to the profile and, through profiles that are still there, to
        its parts. */
    method RemoveProfile(name: Name, ghost rank: map<Name, nat>) returns (ok: bool)
      requires Valid() && Ranked(links, rank)
      modifies this`present, this`alive
      ensures Valid() && present.Keys == old(present.Keys) && (ok <==> Exists(name))
      ensures forall p :: p in present ==>
                (present[p] <==> old(present)[p] && !(ok && Reaches(links, old(present), name, p)))
      decreases if name in rank then rank[name] + 1 else 0
    {
      hide Distinct;
      if !Exists(name) {
        return false;
      }
      if !present[name] {
        forall p ensures !Reaches(links, present, name, p) { NoWayFrom(links, present, name, p); }
        return true;
      }
      ghost var before := present;
      for k := 0 to |links[name]|
        invariant Valid() && present.Keys == before.Keys
        invariant forall p :: p in present ==>
                    (present[p] <==> before[p] && !ReachesAny(links, before, links[name][..k], p))
      {
        var sub := links[name][k];
        ghost var now := present;
        var known := RemoveProfile(sub, rank);
        assert links[name][..k + 1] == links[name][..k] + [sub];
        forall p | p in present
          ensures present[p] <==> before[p] && !ReachesAny(links, before, links[name][..k + 1], p)
        {
          ReachesNext(links, before, now, links[name], k, p);
        }
      }
      assert links[name][..|links[name]|] == links[name];
      assert present[name] by { NotItsOwnPart(links, before, rank, name); }
      DropPointer(name);
      forall p | p in present ensures present[p] <==> before[p] && !Reaches(links, before, name, p) {
        ReachesOrParts(links, before, name, p);
      }
      return true;
    }
  }

  ghost predicate PartsLater(links: Links, names: seq<Name>) {
    forall i, j :: 0 <= i < |names| && 0 <= j < |names| && names[i] in links && names[j] in links[names[i]] ==> i < j
  }

  // ----- ways through profiles that are present -----

  ghost predicate Way(links: Links, present: map<Name, bool>, path: seq<Name>, a: Name, p: Name) {
    && path != [] && path[0] == a && path[|path| - 1] == p && Chain(links, path)
    && forall i :: 0 <= i < |path| ==> path[i] in present && present[path[i]]
  }

  ghost predicate Reaches(links: Links, present: map<Name, bool>, a: Name, p: Name) {
    exists path :: Way(links, present, path, a, p)
  }

  ghost predicate ReachesAny(links: Links, present: map<Name, bool>, from: seq<Name>, p: Name) {
    exists i :: 0 <= i < |from| && Reaches(links, present, from[i], p)
  }

  lemma NoWayFrom(links: Links, present: map<Name, bool>, a: Name, p: Name)
    requires a in present && !present[a]
    ensures !Reaches(links, present, a, p)
  {
  }

  /** p is reached from a if it is a, or a's parts reach it. */
  lemma ReachesOrParts(links: Links, present: map<Name, bool>, a: Name, p: Name)
    requires a in links && a in present && present[a]
    ensures Reaches(links, present, a, p) <==> p == a || ReachesAny(links, present, links[a], p)
  {
    if p == a {
      assert Way(links, present, [a], a, a);
    }
    if Reaches(links, present, a, p) && p != a {
      var path :| Way(links, present, path, a, p);
      var i :| 0 <= i < |links[a]| && links[a][i] == path[1];
      assert Way(links, present, path[1..], path[1], p);
    }
    if ReachesAny(links, present, links[a], p) {
      var i :| 0 <= i < |links[a]| && Reaches(links, present, links[a][i], p);
      var path :| Way(links, present, path, links[a][i], p);
      assert Way(links, present, [a] + path, a, p);
    }
  }

  lemma {:induction false} WayGoesDown(links: Links, present: map<Name, bool>, rank: map<Name, nat>, path: seq<Name>,
                                       a: Name, p: Name)
    requires Ranked(links, rank) && a in links && Way(links, present, path, a, p)
    ensures p in links && rank[p] <= rank[a]
    decreases |path|
  {
    if |path| > 1 {
      var i :| 0 <= i < |links[a]| && links[a][i] == path[1];
      assert Way(links, present, path[1..], path[1], p);
      WayGoesDown(links, present, rank, path[1..], path[1], p);
    }
  }

  lemma NotItsOwnPart(links: Links, present: map<Name, bool>, rank: map<Name, nat>, a: Name)
    requires Ranked(links, rank) && a in links
    ensures !ReachesAny(links, present, links[a], a)
  {
    forall i | 0 <= i < |links[a]| ensures !Reaches(links, present, links[a][i], a) {
      if path :| Way(links, present, path, links[a][i], a) {
        WayGoesDown(links, present, rank, path, links[a][i], a);
      }
    }
  }

  /** What the first k parts reach is gone; then the next part reaches the rest of what it reached. */
  lemma ReachesNext(links: Links, before: map<Name, bool>, now: map<Name, bool>, parts: seq<Name>, k: nat, p: Name)
    requires k < |parts| && now.Keys == before.Keys && p in before
    requires forall q :: q in before ==> (now[q] <==> before[q] && !ReachesAny(links, before, parts[..k], q))
    ensures (before[p] && !ReachesAny(links, before, parts[..k + 1], p))
       <==> (now[p] && !Reaches(links, now, parts[k], p))
  {
    assert parts[..k + 1] == parts[..k] + [parts[k]];
    if Reaches(links, now, parts[k], p) {
      var path :| Way(links, now, path, parts[k], p);
      assert Way(links, before, path, parts[k], p);
      assert Reaches(links, before, parts[..k + 1][k], p);
    }
    if now[p] && Reaches(links, before, parts[k], p) {
      var path :| Way(links, before, path, parts[k], p);
      StillThere(links, before, now, parts[..k], path, parts[k], p);
    }
    if ReachesAny(links, before, parts[..k], p) {
      var i :| 0 <= i < k && Reaches(links, before, parts[i], p);
      assert Reaches(links, before, parts[..k + 1][i], p);
    }
    if ReachesAny(links, before, parts[..k + 1], p) && !ReachesAny(links, before, parts[..k], p) {
      var i :| 0 <= i < k + 1 && Reaches(links, before, parts[..k + 1][i], p);
      assert i < k ==> Reaches(links, before, parts[..k][i], p);
    }
  }

  lemma ReachesOn(links: Links, present: map<Name, bool>, b: Name, path: seq<Name>, i: nat, a: Name, p: Name)
    requires Way(links, present, path, a, p) && i < |path| && Reaches(links, present, b, path[i])
    ensures Reaches(links, present, b, p)
  {
    var way :| Way(links, present, way, b, path[i]);
    assert Way(links, present, way + path[i + 1..], b, p);
  }

  /** A way to a profile that is still there is still there. */
  lemma StillThere(links: Links, before: map<Name, bool>, now: map<Name, bool>, from: seq<Name>, path: seq<Name>,
                   a: Name, p: Name)
    requires now.Keys == before.Keys && Way(links, before, path, a, p) && p in now && now[p]
    requires forall q :: q in before ==> (now[q] <==> before[q] && !ReachesAny(links, before, from, q))
    ensures Way(links, now, path, a, p)
  {
    forall i | 0 <= i < |path| ensures now[path[i]] {
      if !now[path[i]] {
        assert ReachesAny(links, before, from, path[i]);
        var x :| 0 <= x < |from| && Reaches(links, before, from[x], path[i]);
        ReachesOn(links, before, from[x], path, i, a, p);
      }
    }
  }

  lemma {:induction false} OccurrencesWithout(s: seq<Name>, k: nat, p: Name)
    requires k < |s|
    ensures Occurrences(s[..k] + s[k + 1..], p) <= Occurrences(s, p)
  {
    if k == 0 {
      assert s[..0] + s[1..] == s[1..];
    } else {
      OccurrencesWithout(s[1..], k - 1, p);
      assert (s[..k] + s[k + 1..])[1..] == s[1..][..k - 1] + s[1..][k..];
    }
  }

  lemma {:induction false} FewerHolders(links: Links, alive: set<Name>, fewer: set<Name>, names: seq<Name>, p: Name)
    requires fewer <= alive
    ensures HeldBy(links, fewer, names, p) <= HeldBy(links, alive, names, p)
  {
    if names != [] {
      FewerHolders(links, alive, fewer, names[1..], p);
    }
  }

  /** A profile that waits for the scheduler, and its continuation, which is gone when the scheduler answers. */
  method LostContinuation() returns (found: bool)
    ensures !found
  {
    var profiles := new Profiles(map["wait" := [], "go on" := []], ["go on", "wait"], ["wait"]);
    found := profiles.CleanUpThenFind("go on");
  }
}
