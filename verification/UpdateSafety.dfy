/** What the passes write to stored resources: their status and their own finalizer, and nothing else. */
module UpdateSafety {
  import opened Basics
  import opened Conditions
  import opened Model
  import opened Machine
  import opened MachineFacts
  import opened Frames
  import opened System
  import opened Invariants
  import opened ReadyAgreement

  /** As long as its version is the one read again, the stored object is that one. */
  predicate LatestOk(w: World, k: Key, p: Pass) {
    p.pc.RemoveFinalizer? ==>
      p.latest.version < w.clock &&
      (k in w.resources && w.resources[k].version == p.latest.version ==> w.resources[k] == p.latest)
  }

  ghost predicate LatestInv(s: Sys) { forall k | k in s.passes :: LatestOk(s.w, k, s.passes[k]) }

  lemma RefetchLatest(w: World, k: Key, p: Pass, b: Beat)
    requires StoreOk(w) && PassOk(w, k, p) && p.pc.Refetch?
    ensures var (w', q) := Step(w, p, b); LatestOk(w', k, q)
  {
    hide StatusOk, Control, Finalized, Synced;
    ReadAnswer(w, k, b);
    assert NextCall(p) == GetResource(k);
    hide Api;
  }

  lemma StepLatest(w: World, k: Key, p: Pass, b: Beat)
    requires StoreOk(w) && PassOk(w, k, p) && !p.pc.Stopped?
    ensures var (w', q) := Step(w, p, b); LatestOk(w', k, q)
  {
    if p.pc.Refetch? {
      RefetchLatest(w, k, p, b);
    } else {
      hide Api, NextCall, Resume, StoreOk, PassOk;
      ComesToRemoval(p, Api(w, p.key, NextCall(p), b).1, b);
    }
  }

  lemma ComesToRemoval(p: Pass, r: Response, b: Beat)
    requires !p.pc.Refetch?
    ensures !Resume(p, r, b).pc.RemoveFinalizer?
  {
    ResumeCases(p, r, b);
    hide Resume, ResumeFront, ResumeSecret, ResumeSql, ResumeRepair, StatusStep, SameObject, IsReady;
    if p.pc.ReadCluster? {
      ReadClusterFacts(p, r, b);
    } else if p.pc.ReadCredential? {
      ReadCredentialFacts(p, r, b);
    } else if Front(p.pc) {
      FrontNeverRemoves(p, r, b);
    } else if Middle(p.pc) {
      MiddleFacts(p, r, b);
    } else if InSql(p.pc) {
      SqlFacts(p, r, b);
    } else if InRepair(p.pc) {
      RepairFacts(p, r, b);
    } else {
      EndNeverRemoves(p, r, b);
    }
  }

  lemma FrontNeverRemoves(p: Pass, r: Response, b: Beat)
    requires p.pc.ReadResource? || p.pc.AddFinalizer?
    ensures !ResumeFront(p, r, b).pc.RemoveFinalizer?
  {
    hide Resolve, Accept;
  }

  lemma EndNeverRemoves(p: Pass, r: Response, b: Beat)
    requires p.pc.WriteStatus? || p.pc.WriteFailure? || Dropping(p.pc) || p.pc.RemoveFinalizer? || p.pc.Stopped?
    ensures !ResumeEnd(p, r, b).pc.RemoveFinalizer?
  {
  }

  lemma OthersLatest(w: World, w': World, k: Key, p: Pass)
    requires LatestOk(w, k, p) && w.clock <= w'.clock
    requires k in w'.resources ==>
               w'.resources[k].version >= w.clock || (k in w.resources && w'.resources[k] == w.resources[k])
    ensures LatestOk(w', k, p)
  {
  }

  lemma NextLatest(s: Sys, e: Event)
    requires Inv(s) && LatestInv(s)
    ensures LatestInv(Next(s, e))
  {
    hide StoreOk, PassOk, Step, MoveWorld, LatestOk;
    match e {
      case Turn(k, b) =>
        if Running(s, k) {
          StepLatest(s.w, k, s.passes[k], b);
          forall k2 | k2 in s.passes && k2 != k
            ensures LatestOk(Step(s.w, s.passes[k], b).0, k2, s.passes[k2])
          {
            StepFrame(s.w, k, s.passes[k], b, k2);
            OthersLatest(s.w, Step(s.w, s.passes[k], b).0, k2, s.passes[k2]);
          }
        }
      case Start(k) =>
        SessionsLatest(s, k);
        StartsLatest(WithSession(s.w, k, IDLE), k);
      case Crash(k) => SessionsLatest(s, k);
      case Outside(m) =>
        var deleted := if m.RequestDeletion? then s.deleted + {m.key} else s.deleted;
        MoveKeepsStore(s.w, deleted, m);
        forall k | k in s.passes
          ensures LatestOk(MoveWorld(s.w, deleted, m), k, s.passes[k])
        {
          MoveIsNew(s.w, deleted, m, k);
          OthersLatest(s.w, MoveWorld(s.w, deleted, m), k, s.passes[k]);
        }
    }
  }

  lemma StartsLatest(w: World, k: Key)
    ensures LatestOk(w, k, InitialPass(k))
  {
  }

  lemma SessionsLatest(s: Sys, k: Key)
    requires LatestInv(s)
    ensures forall k2 | k2 in s.passes :: LatestOk(WithSession(s.w, k, IDLE), k2, s.passes[k2])
  {
  }

  lemma {:induction false} RunLatest(s: Sys, events: seq<Event>)
    requires Inv(s) && LatestInv(s)
    ensures LatestInv(Run(s, events))
    decreases |events|
  {
    hide Inv, LatestInv, Next;
    if events != [] {
      NextKeeps(s, events[0]);
      NextLatest(s, events[0]);
      RunLatest(Next(s, events[0]), events[1..]);
    }
  }

  // ---------------------------------------------------------------- the finalizer is due

  const NAME: string := "postgresdatabase.finalizers.homelab.mortenolsen.pro"

  /** The finalizer is added where it is missing, and removed where it is there. */
  predicate Due(p: Pass) {
    && (p.pc.AddFinalizer? ==> NAME !in p.obj.finalizers)
    && (p.pc.RemoveFinalizer? ==> NAME in p.latest.finalizers)
  }

  lemma {:induction false} ResolveAdds(p: Pass, f: Field, now: int)
    ensures Due(Resolve(p, f, now)) && !Resolve(p, f, now).pc.RemoveFinalizer?
    decreases FieldRank(f), 1
  {
    match SourceOf(p.cluster, f)
    case None =>
    case Some(source) =>
      if source.value != "" {
        AcceptAdds(p, f, source.value, now);
      }
  }

  lemma {:induction false} AcceptAdds(p: Pass, f: Field, value: string, now: int)
    ensures Due(Accept(p, f, value, now)) && !Accept(p, f, value, now).pc.RemoveFinalizer?
    decreases FieldRank(f), 0
  {
    hide UpdatePhase, Upsert;
    var q := SetField(p, f, value);
    match f
    case Host => ResolveAdds(q, User, now);
    case User => ResolveAdds(q, Password, now);
    case Password =>
  }

  lemma FrontAdds(p: Pass, r: Response, b: Beat)
    requires Front(p.pc)
    ensures Due(ResumeFront(p, r, b))
  {
    hide Resolve, Accept, SetCondition, UpdatePhase, IsTrue;
    match p.pc {
      case ReadCluster =>
        if r.FoundCluster? {
          var q := p.(cluster := r.cluster);
          var ready := ClusterIsReady(r.cluster);
          ResolveAdds(q, Host, b.now);
          ResolveAdds(SetCondition(q, "ClusterReady", ready, "cluster readiness", b.now), Host, b.now);
        }
      case ReadCredential(f) =>
        var source := SourceOf(p.cluster, f);
        if source.Some? && source.value.from.Some? && r.FoundSecret? && source.value.from.value.entry in r.data {
          AcceptAdds(p, f, r.data[source.value.from.value.entry], b.now);
        }
      case _ =>
    }
  }

  lemma EndAdds(p: Pass, r: Response, b: Beat)
    requires p.pc.WriteStatus? || p.pc.WriteFailure? || Dropping(p.pc) || p.pc.Refetch? || p.pc.RemoveFinalizer?
    ensures Due(ResumeEnd(p, r, b))
  {
  }

  lemma StepIsDue(w: World, p: Pass, b: Beat)
    requires !p.pc.Stopped?
    ensures Due(Step(w, p, b).1)
  {
    var r := Api(w, p.key, NextCall(p), b).1;
    ResumeCases(p, r, b);
    hide Api, NextCall, Resume, ResumeFront, ResumeSecret, ResumeSql, ResumeRepair, ResumeEnd, StatusStep, SameObject;
    if Front(p.pc) {
      FrontAdds(p, r, b);
    } else if Middle(p.pc) {
      MiddleFacts(p, r, b);
    } else if InSql(p.pc) {
      SqlFacts(p, r, b);
    } else if InRepair(p.pc) {
      RepairFacts(p, r, b);
    } else {
      EndAdds(p, r, b);
    }
  }

  lemma NextIsDue(s: Sys, e: Event)
    requires forall k | k in s.passes :: Due(s.passes[k])
    ensures forall k | k in Next(s, e).passes :: Due(Next(s, e).passes[k])
  {
    hide Due, Step, MoveWorld;
    match e {
      case Turn(k, b) =>
        if Running(s, k) {
          StepIsDue(s.w, s.passes[k], b);
        }
      case Start(k) => StartsDue(k);
      case _ =>
    }
  }

  lemma StartsDue(k: Key)
    ensures Due(InitialPass(k))
  {
  }

  lemma {:induction false} RunIsDue(s: Sys, events: seq<Event>)
    requires forall k | k in s.passes :: Due(s.passes[k])
    ensures forall k | k in Run(s, events).passes :: Due(Run(s, events).passes[k])
    decreases |events|
  {
    hide Due, Next;
    if events != [] {
      NextIsDue(s, events[0]);
      RunIsDue(Next(s, events[0]), events[1..]);
    }
  }

  // ---------------------------------------------------------------- what a turn does to its resource

  /** Nothing but the status has changed, and the version. */
  predicate OnlyStatus(before: Resource, after: Resource) {
    after.(status := before.status, version := before.version) == before
  }

  /** Nothing but the finalizers has changed, and the version. */
  predicate OnlyFinalizers(before: Resource, after: Resource) {
    after.(finalizers := before.finalizers, version := before.version) == before
  }

  /** What one write of a pass may do to the stored resource; None is a resource that has gone. */
  predicate MayBecome(before: Resource, after: Option<Resource>) {
    match after
    case Some(r) =>
      || OnlyStatus(before, r)
      || (&& OnlyFinalizers(before, r) && !before.deleting && NAME !in before.finalizers
          && r.finalizers == before.finalizers + [NAME])
      || (&& OnlyFinalizers(before, r) && before.deleting && NAME in before.finalizers && NAME !in r.finalizers
          && r.finalizers == Without(before.finalizers, NAME))
    case None => before.deleting && forall f | f in before.finalizers :: f == NAME
  }

  function Stored(w: World, k: Key): Option<Resource> { if k in w.resources then Some(w.resources[k]) else None }

  lemma {:induction false} EmptyWithout(finalizers: seq<string>)
    ensures Without(finalizers, NAME) == [] <==> forall f | f in finalizers :: f == NAME
    ensures NAME !in Without(finalizers, NAME)
  {
    if finalizers != [] {
      EmptyWithout(finalizers[1..]);
      var rest := finalizers[1..];
      assert finalizers == [finalizers[0]] + rest;
      if Without(rest, NAME) == [] && finalizers[0] == NAME {
        assert forall f | f in finalizers :: f == finalizers[0] || f in rest;
      } else if finalizers[0] == NAME {
        var f :| f in rest && f != NAME;
        assert f in finalizers;
      } else {
        assert finalizers[0] in finalizers;
      }
    }
  }

  lemma AddTouches(w: World, k: Key, p: Pass, b: Beat)
    requires StoreOk(w) && PassOk(w, k, p) && Due(p) && p.pc.AddFinalizer? && k in w.resources
    ensures MayBecome(w.resources[k], Stored(Api(w, k, NextCall(p), b).0, k))
  {
    hide StatusOk, Finalized, IsReady;
    ApiWrites(w, k, NextCall(p), b);
    hide Api;
  }

  lemma RemoveTouches(w: World, k: Key, p: Pass, b: Beat)
    requires StoreOk(w) && PassOk(w, k, p) && LatestOk(w, k, p) && Due(p) && p.pc.RemoveFinalizer? && k in w.resources
    ensures MayBecome(w.resources[k], Stored(Api(w, k, NextCall(p), b).0, k))
  {
    hide StatusOk, Finalized, Synced;
    ApiWrites(w, k, NextCall(p), b);
    EmptyWithout(w.resources[k].finalizers);
    hide Api, Without;
  }

  lemma StatusTouches(w: World, k: Key, p: Pass, b: Beat)
    requires StoreOk(w) && PassOk(w, k, p) && (p.pc.WriteStatus? || p.pc.WriteFailure?) && k in w.resources
    ensures MayBecome(w.resources[k], Stored(Api(w, k, NextCall(p), b).0, k))
  {
    StatusCall(p);
    ApiWrites(w, k, UpdateStatus(p.obj), b);
    hide NextCall, Api, Without, StoreOk, PassOk, Store, OnlyStatus;
    if Current(w, p.obj) {
      StatusStored(w, k, p);
    }
    SameIsOnlyStatus(w.resources[k]);
  }

  lemma StatusCall(p: Pass)
    requires p.pc.WriteStatus? || p.pc.WriteFailure?
    ensures NextCall(p) == UpdateStatus(p.obj)
  {
  }

  lemma SameIsOnlyStatus(r: Resource)
    ensures OnlyStatus(r, r)
  {
  }

  /** The resource a status is written to stays: while a pass works on a marked one, that one has its finalizer. */
  lemma StatusStored(w: World, k: Key, p: Pass)
    requires PassOk(w, k, p) && (p.pc.WriteStatus? || p.pc.WriteFailure?) && Current(w, p.obj)
    ensures var r := w.resources[k].(status := p.obj.status, version := w.clock);
            Written(w, UpdateStatus(p.obj)) == r && Stored(Store(w, r), k) == Some(r) && OnlyStatus(w.resources[k], r)
  {
    hide Finalized, IsReady, Coherent;
  }

  lemma TurnTouches(w: World, k: Key, p: Pass, b: Beat)
    requires StoreOk(w) && PassOk(w, k, p) && LatestOk(w, k, p) && Due(p) && !p.pc.Stopped?
    ensures var w' := Step(w, p, b).0;
            if k in w.resources then MayBecome(w.resources[k], Stored(w', k)) else k !in w'.resources
  {
    CallKinds(p);
    assert KubeWrite(NextCall(p)) ==> NextCall(p).resource.key == k;
    hide Api, Resume, NextCall, StoreOk, PassOk, LatestOk, Due;
    if p.pc.AddFinalizer? || p.pc.RemoveFinalizer? || p.pc.WriteStatus? || p.pc.WriteFailure? {
      ApiWrites(w, k, NextCall(p), b);
    } else {
      ApiKeepsResources(w, k, NextCall(p), b);
    }
    if k in w.resources {
      if p.pc.AddFinalizer? {
        AddTouches(w, k, p, b);
      } else if p.pc.RemoveFinalizer? {
        RemoveTouches(w, k, p, b);
      } else if p.pc.WriteStatus? || p.pc.WriteFailure? {
        StatusTouches(w, k, p, b);
      }
    }
  }

  /**
   * Over every run, one call of a pass leaves the resources of others alone, and its own as it is but for one of three
   * changes: its status; the finalizer put after the others, on a resource that was not marked for deletion and did not
   * have it; or the finalizer taken out of a resource that was marked and had it, the others staying in order. The
   * resource goes only when it was marked and no other finalizer was left. No call of a pass makes a resource.
   */
  lemma TouchesOnlyItsOwn(s: Sys, events: seq<Event>, k: Key, b: Beat, other: Key)
    requires Initial(s) && Running(Run(s, events), k)
    ensures var t := Run(s, events);
            var w' := Next(t, Turn(k, b)).w;
            && (if k in t.w.resources then MayBecome(t.w.resources[k], Stored(w', k)) else k !in w'.resources)
            && (other != k ==> Stored(w', other) == Stored(t.w, other))
  {
    InitialInv(s);
    RunKeeps(s, events);
    RunLatest(s, events);
    RunIsDue(s, events);
    hide Run, MayBecome, StoreOk, PassOk, LatestOk, Due, Step;
    var t := Run(s, events);
    TurnTouches(t.w, k, t.passes[k], b);
    if other != k {
      StepFrame(t.w, k, t.passes[k], b, other);
    }
  }
}
