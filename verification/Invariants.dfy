/**
 * What holds in every state of every run: the resources are well formed, every active pass agrees with the version it
 * read, and a finalizer that a pass relies on is still in the store.
 */
module Invariants {
  import opened Basics
  import opened Conditions
  import opened Model
  import opened Machine
  import opened MachineFacts
  import opened Frames
  import opened System

  predicate IsReady(r: Resource) { IsTrue(r.status.conditions, "Ready") }

  /** A status is untouched, or its phase follows from its conditions and the deletion mark its writer read. */
  predicate StatusOk(r: Resource) {
    && r.status.observedGeneration <= r.generation
    && (r.status == EMPTY_STATUS || Coherent(r.(deleting := false)) || (r.deleting && r.status.phase == Deleting))
  }

  predicate StoredOk(w: World, k: Key)
    requires k in w.resources
  {
    var r := w.resources[k];
    r.key == k && r.version < w.clock && r.uid < w.clock && StatusOk(r)
  }

  predicate StoreOk(w: World) { forall k | k in w.resources :: StoredOk(w, k) }

  /** A pass that has read its resource and has not ended. */
  predicate Live(p: Pass) { !p.pc.ReadResource? && !p.pc.Stopped? }

  predicate Normal(pc: Pc) { Middle(pc) || InSql(pc) || InRepair(pc) || pc.WriteStatus? }

  predicate Dropping(pc: Pc) {
    pc.OpenForDrop? || pc.BeginDrop? || pc.DropDatabaseStep? || pc.DropRoleStep? || pc.CommitDrop? || pc.RollbackDrop?
  }

  /** Where a pass can be, given the object it has in memory. */
  predicate Control(p: Pass) {
    && (Normal(p.pc) ==> !p.obj.deleting && HasFinalizer(p.obj))
    && (p.pc.AddFinalizer? ==> !p.obj.deleting)
    && (Dropping(p.pc) ==> p.obj.deleting && p.obj.spec.policy == "Delete")
    && (p.pc.Refetch? || p.pc.RemoveFinalizer? ==> p.obj.deleting)
    && (Live(p) && p.obj.deleting ==> HasFinalizer(p.obj))
    && (p.pc.RemoveFinalizer? ==> p.latest.uid == p.obj.uid && p.latest.deleting)
    && (p.pc.WriteFailure? || p.pc.WriteStatus? ==> Coherent(p.obj)) && p.pc != WriteFailure(Published)
    && (p.pc.WriteStatus? ==> p.obj.status.observedGeneration == p.obj.generation)
  }

  /** A finalizer in memory is in the store, on the same incarnation, with the deletion mark that was read. */
  predicate Finalized(w: World, k: Key, p: Pass) {
    Live(p) && HasFinalizer(p.obj) ==> Holding(w, k, p.obj.uid) && (p.obj.deleting ==> w.resources[k].deleting)
  }

  predicate Agrees(p: Pass, stored: Resource) {
    && stored.(status := p.obj.status) == p.obj
    && (!p.pc.WriteStatus? ==>
          (IsReady(p.obj) ==> IsReady(stored)) && p.obj.status.observedGeneration == stored.status.observedGeneration)
  }

  /** Optimistic concurrency: as long as the version is the one read, the stored object is the one in memory. */
  predicate Synced(w: World, k: Key, p: Pass) {
    Live(p) ==> p.obj.version < w.clock &&
                (k in w.resources && w.resources[k].version == p.obj.version ==> Agrees(p, w.resources[k]))
  }

  predicate PassOk(w: World, k: Key, p: Pass) {
    p.key == k && p.obj.key == k && p.latest.key == k && Control(p) && Finalized(w, k, p) && Synced(w, k, p)
  }

  ghost predicate Inv(s: Sys) { StoreOk(s.w) && forall k | k in s.passes :: PassOk(s.w, k, s.passes[k]) }

  // ---------------------------------------------------------------- a pass takes a step

  lemma OthersKeep(w: World, w': World, k: Key, p: Pass)
    requires PassOk(w, k, p) && w.clock <= w'.clock
    requires k in w'.resources <==> k in w.resources
    requires k in w.resources ==> w'.resources[k] == w.resources[k]
    ensures PassOk(w', k, p)
  {
  }

  lemma StartKeeps(w: World, k: Key)
    ensures PassOk(w, k, InitialPass(k))
  {
  }

  lemma ReadKeeps(w: World, k: Key, p: Pass, b: Beat)
    requires StoreOk(w) && PassOk(w, k, p) && p.pc.ReadResource?
    ensures var (w', r) := Api(w, k, NextCall(p), b); w' == w && PassOk(w, k, ResumeFront(p, r, b))
  {
    hide Api, StatusOk, IsTrue, DatabasePhase, Resolve, FailWith, Accept;
    ReadAnswer(w, k, b);
  }

  lemma ReadAnswer(w: World, k: Key, b: Beat)
    ensures var (w', r) := Api(w, k, GetResource(k), b);
            w' == w && (r.Found? ==> k in w.resources && r.resource == w.resources[k])
  {
  }

  /** A response that leaves the object in memory alone but for its status. */
  lemma LocalKeeps(w: World, k: Key, p: Pass, q: Pass)
    requires PassOk(w, k, p) && SameObject(p, q) && StatusStep(p, q) && Control(q) && Live(p)
    requires !p.pc.WriteStatus?
    ensures PassOk(w, k, q)
  {
    hide Coherent, IsTrue;
  }

  lemma ReadClusterKeeps(w: World, k: Key, p: Pass, r: Response, b: Beat)
    requires PassOk(w, k, p) && p.pc.ReadCluster?
    ensures PassOk(w, k, ResumeFront(p, r, b))
  {
    hide ResumeFront, IsTrue, DatabasePhase;
    ReadClusterFacts(p, r, b);
    LocalKeeps(w, k, p, ResumeFront(p, r, b));
  }

  lemma ReadCredentialKeeps(w: World, k: Key, p: Pass, r: Response, b: Beat)
    requires PassOk(w, k, p) && p.pc.ReadCredential?
    ensures PassOk(w, k, ResumeFront(p, r, b))
  {
    hide ResumeFront, IsTrue, DatabasePhase;
    ReadCredentialFacts(p, r, b);
    LocalKeeps(w, k, p, ResumeFront(p, r, b));
  }

  lemma MiddleKeeps(w: World, k: Key, p: Pass, r: Response, b: Beat)
    requires PassOk(w, k, p) && Middle(p.pc)
    ensures PassOk(w, k, ResumeSecret(p, r, b))
  {
    hide ResumeSecret, IsTrue, DatabasePhase;
    MiddleFacts(p, r, b);
    LocalKeeps(w, k, p, ResumeSecret(p, r, b));
  }

  lemma SqlKeeps(w: World, k: Key, p: Pass, r: Response, b: Beat)
    requires PassOk(w, k, p) && InSql(p.pc)
    ensures PassOk(w, k, ResumeSql(p, r, b))
  {
    hide ResumeSql, IsTrue, DatabasePhase;
    SqlFacts(p, r, b);
    LocalKeeps(w, k, p, ResumeSql(p, r, b));
  }

  lemma RepairKeeps(w: World, k: Key, p: Pass, r: Response, b: Beat)
    requires PassOk(w, k, p) && InRepair(p.pc)
    ensures PassOk(w, k, ResumeRepair(p, r, b))
  {
    hide ResumeRepair, IsTrue, DatabasePhase;
    RepairFacts(p, r, b);
    LocalKeeps(w, k, p, ResumeRepair(p, r, b));
  }

  lemma DropFacts(p: Pass, r: Response, b: Beat)
    requires Dropping(p.pc)
    ensures var q := ResumeEnd(p, r, b);
            q == p.(pc := q.pc) && (Dropping(q.pc) || q.pc == Refetch)
  {
  }

  lemma DropKeeps(w: World, k: Key, p: Pass, r: Response, b: Beat)
    requires PassOk(w, k, p) && Dropping(p.pc)
    ensures PassOk(w, k, ResumeEnd(p, r, b))
  {
    hide ResumeEnd, IsTrue, DatabasePhase;
    DropFacts(p, r, b);
    LocalKeeps(w, k, p, ResumeEnd(p, r, b));
  }

  lemma RefetchKeeps(w: World, k: Key, p: Pass, b: Beat)
    requires StoreOk(w) && PassOk(w, k, p) && p.pc.Refetch?
    ensures var (w', r) := Api(w, k, NextCall(p), b); w' == w && PassOk(w, k, ResumeEnd(p, r, b))
  {
    hide IsTrue, DatabasePhase, StatusOk, SessionCall, StatementCall;
  }

  lemma StoreKeeps(w: World, r: Resource)
    requires StoreOk(w) && r.version == w.clock && r.uid <= w.clock && StatusOk(r)
    ensures StoreOk(Store(w, r))
  {
    hide StatusOk;
  }

  lemma WriteRefused(w: World, k: Key, p: Pass, q: Pass)
    requires PassOk(w, k, p) && q == p.(pc := q.pc) && (q.pc.Stopped? || (q.pc.Refetch? && p.obj.deleting))
    requires !p.pc.WriteStatus? || q.pc.Stopped?
    requires Live(p)
    ensures PassOk(w, k, q)
  {
    hide IsTrue, Coherent;
  }

  /** The object that carries the new finalizer, as stored and as kept in memory. */
  lemma AddFinalizerStored(w: World, k: Key, p: Pass, keepsStatus: bool)
    requires StoreOk(w) && PassOk(w, k, p) && p.pc.AddFinalizer? && Current(w, p.obj)
    ensures var after := Rewritten(w, w.resources[k], p.obj.(finalizers := p.obj.finalizers + [FINALIZER]));
            var obj := if keepsStatus then after.(status := p.obj.status) else after;
            && StoreOk(Store(w, after)) && PassOk(Store(w, after), k, p.(obj := obj, pc := OpenConnection))
  {
    hide IsTrue, DatabasePhase;
    var after := Rewritten(w, w.resources[k], p.obj.(finalizers := p.obj.finalizers + [FINALIZER]));
    assert Agrees(p, w.resources[k]);
    StoreKeeps(w, after);
    assert FINALIZER in after.finalizers;
    assert Store(w, after).resources[k] == after;
  }

  lemma AddFinalizerKeeps(w: World, k: Key, p: Pass, b: Beat)
    requires StoreOk(w) && PassOk(w, k, p) && p.pc.AddFinalizer?
    ensures var (w', r) := Api(w, k, NextCall(p), b);
            PassOk(w', k, ResumeFront(p, r, b)) && StoreOk(w')
  {
    hide IsTrue, DatabasePhase, Api, StoreOk, Control, Finalized, Synced, Coherent;
    var c := NextCall(p);
    var (w', r) := Api(w, k, c, b);
    ApiWrites(w, k, c, b);
    if w' != w {
      AddFinalizerStored(w, k, p, b.keepsStatus);
    }
    StoppedIsOk(w', k, p, Errored);
  }

  lemma StoppedIsOk(w: World, k: Key, p: Pass, ending: Ending)
    requires p.key == k && p.obj.key == k && p.latest.key == k
    ensures PassOk(w, k, p.(pc := Stopped(ending)))
  {
  }

  /** A status write that goes through leaves a well-formed object with the status of the pass. */
  lemma StatusWriteStored(w: World, k: Key, p: Pass)
    requires StoreOk(w) && PassOk(w, k, p) && (p.pc.WriteStatus? || p.pc.WriteFailure?) && Current(w, p.obj)
    ensures var after := w.resources[k].(status := p.obj.status, version := w.clock);
            && StoreOk(Store(w, after)) && StatusOk(after)
            && (p.obj.deleting ==> PassOk(Store(w, after), k, p.(pc := Refetch)))
  {
    hide IsTrue;
    var after := w.resources[k].(status := p.obj.status, version := w.clock);
    assert Agrees(p, w.resources[k]);
    assert StatusOk(after) by {
      assert Coherent(p.obj) && after.deleting == p.obj.deleting && after.generation == p.obj.generation;
    }
    StoreKeeps(w, after);
  }

  lemma StatusWriteKeeps(w: World, k: Key, p: Pass, b: Beat)
    requires StoreOk(w) && PassOk(w, k, p) && (p.pc.WriteStatus? || p.pc.WriteFailure?)
    ensures var (w', r) := Api(w, k, NextCall(p), b);
            PassOk(w', k, ResumeEnd(p, r, b)) && StoreOk(w')
  {
    hide Api, ResumeEnd, StoreOk, Control, Finalized, Synced, StatusOk, Coherent, Store;
    var c := NextCall(p);
    var (w', r) := Api(w, k, c, b);
    ApiWrites(w, k, c, b);
    StatusWriteResumes(p, r, b);
    var q := ResumeEnd(p, r, b);
    if q.pc.Stopped? {
      StoppedIsOk(w', k, p, q.pc.ending);
    }
    if w' != w {
      StatusWriteStored(w, k, p);
    } else if q.pc == Refetch {
      WriteRefused(w, k, p, q);
    }
  }

  lemma StatusWriteResumes(p: Pass, r: Response, b: Beat)
    requires p.pc.WriteStatus? || p.pc.WriteFailure?
    ensures var q := ResumeEnd(p, r, b);
            q == p.(pc := q.pc) && (q.pc.Stopped? || (q.pc == Refetch && p.pc.WriteFailure? && p.obj.deleting))
  {
  }

  lemma RemoveFinalizerKeeps(w: World, k: Key, p: Pass, b: Beat)
    requires StoreOk(w) && PassOk(w, k, p) && p.pc.RemoveFinalizer?
    ensures var (w', r) := Api(w, k, NextCall(p), b);
            PassOk(w', k, ResumeEnd(p, r, b)) && StoreOk(w')
  {
    hide IsTrue, DatabasePhase, Without, Api, Control, Finalized, Synced;
    var c := NextCall(p);
    var (w', r) := Api(w, k, c, b);
    ApiWrites(w, k, c, b);
    if w' != w {
      StoreKeeps(w, Written(w, c));
    }
    StoppedIsOk(w', k, p, if r.Updated? then Released else if r.Conflict? then Requeued else Errored);
  }

  /** One call of a pass keeps the store and the pass in order. */
  lemma StepKeeps(w: World, k: Key, p: Pass, b: Beat)
    requires StoreOk(w) && PassOk(w, k, p) && !p.pc.Stopped?
    ensures var (w', p') := Step(w, p, b); StoreOk(w') && PassOk(w', k, p')
  {
    var (w', r) := Api(w, k, NextCall(p), b);
    var q := Resume(p, r, b);
    assert StoreOk(w') && PassOk(w', k, q) by {
      if WritesObject(p.pc) {
        WriterKeeps(w, k, p, b);
      } else {
        CallKinds(p);
        ApiKeepsResources(w, k, NextCall(p), b);
        ReaderKeeps(w, k, p, b);
        OthersKeep(w, w', k, q);
      }
    }
    TraceIsIrrelevant(w', k, q, p.trace + [Observation(NextCall(p), r)]);
  }

  lemma TraceIsIrrelevant(w: World, k: Key, p: Pass, trace: seq<Observation>)
    requires PassOk(w, k, p)
    ensures PassOk(w, k, p.(trace := trace))
  {
    hide IsTrue, DatabasePhase;
  }

  lemma WriterKeeps(w: World, k: Key, p: Pass, b: Beat)
    requires StoreOk(w) && PassOk(w, k, p) && WritesObject(p.pc)
    ensures var (w', r) := Api(w, k, NextCall(p), b); StoreOk(w') && PassOk(w', k, Resume(p, r, b))
  {
    hide ResumeFront, ResumeEnd, Api, StoreOk, PassOk;
    match p.pc {
      case AddFinalizer => AddFinalizerKeeps(w, k, p, b);
      case RemoveFinalizer => RemoveFinalizerKeeps(w, k, p, b);
      case WriteStatus => StatusWriteKeeps(w, k, p, b);
      case WriteFailure(_) => StatusWriteKeeps(w, k, p, b);
    }
  }

  lemma ReaderKeeps(w: World, k: Key, p: Pass, b: Beat)
    requires StoreOk(w) && PassOk(w, k, p) && !WritesObject(p.pc) && !p.pc.Stopped?
    ensures var (w', r) := Api(w, k, NextCall(p), b); PassOk(w, k, Resume(p, r, b))
  {
    hide ResumeFront, ResumeSecret, ResumeSql, ResumeRepair, ResumeEnd, Api, StoreOk, PassOk;
    var r := Api(w, k, NextCall(p), b).1;
    if p.pc.ReadResource? {
      ReadKeeps(w, k, p, b);
    } else if p.pc.ReadCluster? {
      ReadClusterKeeps(w, k, p, r, b);
    } else if p.pc.ReadCredential? {
      ReadCredentialKeeps(w, k, p, r, b);
    } else if Middle(p.pc) {
      MiddleKeeps(w, k, p, r, b);
    } else if InSql(p.pc) {
      SqlKeeps(w, k, p, r, b);
    } else if InRepair(p.pc) {
      RepairKeeps(w, k, p, r, b);
    } else if p.pc.Refetch? {
      RefetchKeeps(w, k, p, b);
    } else {
      DropKeeps(w, k, p, r, b);
    }
  }

  // ---------------------------------------------------------------- something happens outside

  /** A write from outside that keeps the incarnation, the finalizer and a deletion mark keeps every pass in order. */
  lemma EditKeeps(w: World, r: Resource, k: Key, p: Pass)
    requires StoreOk(w) && PassOk(w, k, p) && r.version == w.clock
    requires r.key in w.resources && r.uid == w.resources[r.key].uid
    requires HasFinalizer(w.resources[r.key]) ==> HasFinalizer(r)
    requires w.resources[r.key].deleting ==> r.deleting
    ensures PassOk(Store(w, r), k, p)
  {
    hide StatusOk, Control;
    if r.key != k {
      OthersKeep(w, Store(w, r), k, p);
    }
  }

  lemma CreateKeeps(w: World, r: Resource, k: Key, p: Pass)
    requires StoreOk(w) && PassOk(w, k, p) && r.version == w.clock && r.key !in w.resources
    ensures PassOk(Store(w, r), k, p)
  {
    hide StatusOk, Control;
    if r.key != k {
      OthersKeep(w, Store(w, r), k, p);
    }
  }

  /** An edit that leaves the status alone keeps it in order. */
  lemma StatusLasts(r: Resource, r': Resource)
    requires StatusOk(r) && r'.status == r.status && r.generation <= r'.generation && (r.deleting ==> r'.deleting)
    ensures StatusOk(r')
  {
    hide DatabasePhase;
  }

  lemma MoveKeepsStore(w: World, deleted: set<Key>, m: Move)
    requires StoreOk(w)
    ensures StoreOk(MoveWorld(w, deleted, m)) && w.clock <= MoveWorld(w, deleted, m).clock
  {
    hide StatusOk;
    match m {
      case CreateResource(k, fs, spec) =>
        if k !in w.resources {
          StartsUntouched(k, w.clock, fs, spec);
          StoreKeeps(w, Resource(k, w.clock, w.clock, 1, false, fs, spec, EMPTY_STATUS));
        }
      case EditSpec(k, spec) =>
        if k in w.resources {
          var r := w.resources[k];
          var r' := r.(spec := spec, generation := r.generation + 1, version := w.clock);
          StatusLasts(r, r');
          StoreKeeps(w, r');
        }
      case EditFinalizers(k, fs) =>
        if k in w.resources {
          var r := w.resources[k];
          StatusLasts(r, r.(finalizers := fs, version := w.clock));
          StoreKeeps(w, r.(finalizers := fs, version := w.clock));
        }
      case RequestDeletion(k) =>
        if k in w.resources {
          var r := w.resources[k];
          var r' := r.(deleting := true, generation := r.generation + 1, version := w.clock);
          StatusLasts(r, r');
          StoreKeeps(w, r');
        }
      case _ =>
    }
  }

  lemma StartsUntouched(k: Key, clock: nat, finalizers: seq<string>, spec: Spec)
    ensures StatusOk(Resource(k, clock, clock, 1, false, finalizers, spec, EMPTY_STATUS))
  {
  }

  lemma MoveKeepsPass(w: World, deleted: set<Key>, m: Move, k: Key, p: Pass)
    requires StoreOk(w) && PassOk(w, k, p)
    ensures PassOk(MoveWorld(w, deleted, m), k, p)
  {
    hide IsTrue, DatabasePhase, StatusOk, Control;
    match m {
      case CreateResource(q, fs, spec) =>
        if q !in w.resources {
          CreateKeeps(w, Resource(q, w.clock, w.clock, 1, false, fs, spec, EMPTY_STATUS), k, p);
        }
      case EditSpec(q, spec) =>
        if q in w.resources {
          var r := w.resources[q];
          EditKeeps(w, r.(spec := spec, generation := r.generation + 1, version := w.clock), k, p);
        }
      case EditFinalizers(q, fs) =>
        if q in w.resources && (FINALIZER in fs <==> HasFinalizer(w.resources[q])) {
          EditKeeps(w, w.resources[q].(finalizers := fs, version := w.clock), k, p);
        }
      case RequestDeletion(q) =>
        if q in w.resources {
          var r := w.resources[q];
          EditKeeps(w, r.(deleting := true, generation := r.generation + 1, version := w.clock), k, p);
        }
      case _ => OthersKeep(w, MoveWorld(w, deleted, m), k, p);
    }
  }

  // ---------------------------------------------------------------- whole runs

  lemma {:induction false} TurnKeeps(s: Sys, k: Key, b: Beat)
    requires Inv(s) && Running(s, k)
    ensures Inv(TurnSystem(s, k, b))
  {
    hide StoreOk, PassOk, Creates;
    var p := s.passes[k];
    var (w', p') := Step(s.w, p, b);
    StepKeeps(s.w, k, p, b);
    forall k2 | k2 in s.passes && k2 != k
      ensures PassOk(w', k2, s.passes[k2])
    {
      StepFrame(s.w, k, p, b, k2);
      OthersKeep(s.w, w', k2, s.passes[k2]);
    }
  }

  /** A pass touches no object but its own. */
  lemma StepFrame(w: World, k: Key, p: Pass, b: Beat, k2: Key)
    requires StoreOk(w) && PassOk(w, k, p) && k2 != k
    ensures var w' := Step(w, p, b).0;
            && (k2 in w'.resources <==> k2 in w.resources)
            && (k2 in w.resources ==> w'.resources[k2] == w.resources[k2])
            && w.clock <= w'.clock
  {
    hide Resume, Api, StatusOk, Control, Finalized, Synced;
    assert KubeWrite(NextCall(p)) ==> NextCall(p).resource.key == k;
    ApiFrame(w, k, NextCall(p), b, k2);
  }

  lemma {:induction false} NextKeeps(s: Sys, e: Event)
    requires Inv(s)
    ensures Inv(Next(s, e))
  {
    hide StoreOk, PassOk, TurnSystem, MoveWorld;
    match e {
      case Start(k) =>
        StartKeeps(WithSession(s.w, k, IDLE), k);
        SessionsAreIrrelevant(s, k);
      case Turn(k, b) =>
        if Running(s, k) {
          TurnKeeps(s, k, b);
        }
      case Crash(k) => SessionsAreIrrelevant(s, k);
      case Outside(m) =>
        var deleted := if m.RequestDeletion? then s.deleted + {m.key} else s.deleted;
        MoveKeepsStore(s.w, deleted, m);
        forall k | k in s.passes
          ensures PassOk(MoveWorld(s.w, deleted, m), k, s.passes[k])
        {
          MoveKeepsPass(s.w, deleted, m, k, s.passes[k]);
        }
    }
  }

  lemma SessionsAreIrrelevant(s: Sys, k: Key)
    requires Inv(s)
    ensures StoreOk(WithSession(s.w, k, IDLE))
    ensures forall k2 | k2 in s.passes :: PassOk(WithSession(s.w, k, IDLE), k2, s.passes[k2])
  {
    forall k2 | k2 in s.passes
      ensures PassOk(WithSession(s.w, k, IDLE), k2, s.passes[k2])
    {
      OthersKeep(s.w, WithSession(s.w, k, IDLE), k2, s.passes[k2]);
    }
  }

  lemma {:induction false} RunKeeps(s: Sys, events: seq<Event>)
    requires Inv(s)
    ensures Inv(Run(s, events))
    decreases |events|
  {
    hide Inv, Next;
    if events != [] {
      NextKeeps(s, events[0]);
      RunKeeps(Next(s, events[0]), events[1..]);
    }
  }

  lemma InitialInv(s: Sys)
    requires Initial(s)
    ensures Inv(s)
  {
  }
}
