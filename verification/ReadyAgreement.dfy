/**
 * When a stored Ready condition that is True stands beside another condition that is not: exactly after a pass that
 * gave up before its ownership repair, on a resource that was Ready before.
 */
module ReadyAgreement {
  import opened Conditions
  import opened Model
  import opened Machine
  import opened MachineFacts
  import opened Frames
  import opened System
  import opened Invariants
  import opened StatusSafety
  import opened FailureReports

  predicate AllTrue(r: Resource) {
    IsTrue(r.status.conditions, "ClusterReady") && IsTrue(r.status.conditions, "SecretReady")
    && IsTrue(r.status.conditions, "ConnectionReady") && IsTrue(r.status.conditions, "DatabaseReady")
  }

  /** Ready is True although one of the four conditions it sums up is not. */
  predicate Disagrees(r: Resource) { IsReady(r) && !AllTrue(r) }

  predicate RepairCall(c: Call) {
    c.QueryWrongOwners? || c.FetchRow? || c.CloseRows? || c.Begin? || c.SetLockTimeout? || c.AlterOwner? || c.Commit?
    || c.Rollback?
  }

  /** The last thing the pass did was a step of the ownership repair. */
  predicate WasRepairing(p: Pass) { p.trace != [] && RepairCall(p.trace[|p.trace| - 1].call) }

  /** What a pass about to write a status has in Ready. */
  predicate Marked(p: Pass) {
    && (p.pc.WriteStatus? ==> Holds(p, "Ready") == AllReady(p))
    && (p.pc.WriteFailure? && WasRepairing(p) ==> !Holds(p, "Ready"))
  }

  /** The places from which a status may still be written, with Ready as it was read. */
  predicate Unchanged(p: Pass) {
    || p.pc.ReadCluster? || p.pc.ReadCredential? || p.pc.AddFinalizer? || Middle(p.pc) || InSql(p.pc) || InRepair(p.pc)
    || (p.pc.WriteFailure? && !WasRepairing(p))
  }

  /** Ready in memory is Ready in the store, as long as the version is the one read. */
  predicate KeepsReady(w: World, k: Key, p: Pass) {
    Unchanged(p) && k in w.resources && w.resources[k].version == p.obj.version ==>
      (IsReady(p.obj) <==> IsReady(w.resources[k]))
  }

  ghost predicate ReadyInv(s: Sys) {
    forall k | k in s.passes :: Marked(s.passes[k]) && KeepsReady(s.w, k, s.passes[k])
  }

  // ---------------------------------------------------------------- one call

  lemma RepairCalled(p: Pass)
    ensures InRepair(p.pc) ==> RepairCall(NextCall(p))
    ensures Front(p.pc) || Middle(p.pc) || InSql(p.pc) ==> !RepairCall(NextCall(p))
  {
  }

  /** What each family of answers makes of Ready. */
  lemma ReadyGoesOn(p: Pass, r: Response, b: Beat)
    requires !p.pc.ReadResource? && !p.pc.AddFinalizer?
    ensures var q := Resume(p, r, b);
            && (q.pc.WriteStatus? ==> InRepair(p.pc) && Holds(q, "Ready") == AllReady(q))
            && (q.pc.WriteFailure? && InRepair(p.pc) ==> !Holds(q, "Ready"))
            && (q.pc.WriteFailure? ==> Front(p.pc) || Middle(p.pc) || InSql(p.pc) || InRepair(p.pc))
            && (InRepair(p.pc) && !q.pc.WriteStatus? && !q.pc.WriteFailure? ==> q.obj == p.obj)
            && (!InRepair(p.pc) ==> Holds(q, "Ready") == Holds(p, "Ready"))
            && q.obj.version == p.obj.version
  {
    ResumeCases(p, r, b);
    hide Resume, ResumeFront, ResumeSecret, ResumeSql, ResumeRepair, StatusStep, IsTrue;
    if p.pc.ReadCluster? {
      ReadClusterFacts(p, r, b);
    } else if p.pc.ReadCredential? {
      ReadCredentialFacts(p, r, b);
    } else if Middle(p.pc) {
      MiddleFacts(p, r, b);
    } else if InSql(p.pc) {
      SqlFacts(p, r, b);
    } else if InRepair(p.pc) {
      RepairFacts(p, r, b);
    } else {
      EndGoesOn(p, r, b);
    }
  }

  lemma EndGoesOn(p: Pass, r: Response, b: Beat)
    requires !Front(p.pc) && !Middle(p.pc) && !InSql(p.pc) && !InRepair(p.pc)
    ensures var q := ResumeEnd(p, r, b); q.obj == p.obj && !q.pc.WriteStatus? && !q.pc.WriteFailure? && !Unchanged(q)
  {
  }

  lemma FrontGoesOn(p: Pass, r: Response, b: Beat)
    requires p.pc.ReadResource? || p.pc.AddFinalizer?
    ensures var q := ResumeFront(p, r, b); !q.pc.WriteStatus? && !q.pc.WriteFailure?
  {
    hide Resolve, Accept;
  }

  /** The last observation decides whether the pass was repairing. */
  lemma LastCall(p: Pass, q: Pass, r: Response)
    requires q.trace == p.trace + [Observation(NextCall(p), r)]
    ensures WasRepairing(q) == RepairCall(NextCall(p))
  {
    assert q.trace[|p.trace|] == Observation(NextCall(p), r);
  }

  lemma StepMarked(w: World, p: Pass, b: Beat)
    ensures Marked(Step(w, p, b).1)
  {
    var r := Api(w, p.key, NextCall(p), b).1;
    var q := Step(w, p, b).1;
    ResumeCases(p, r, b);
    RepairCalled(p);
    LastCall(p, q, r);
    hide Api, NextCall, Resume, ResumeFront, IsTrue, WasRepairing;
    if p.pc.ReadResource? || p.pc.AddFinalizer? {
      FrontGoesOn(p, r, b);
    } else {
      ReadyGoesOn(p, r, b);
    }
  }

  lemma ReadKeepsReady(w: World, k: Key, p: Pass, b: Beat)
    requires PassOk(w, k, p) && p.pc.ReadResource?
    ensures var (w', q) := Step(w, p, b); KeepsReady(w', k, q)
  {
    hide Api, Control, Finalized, Synced, IsTrue;
    ReadAnswer(w, k, b);
  }

  lemma FinalizerKeepsReady(w: World, k: Key, p: Pass, b: Beat)
    requires StoreOk(w) && PassOk(w, k, p) && KeepsReady(w, k, p) && p.pc.AddFinalizer?
    ensures var (w', q) := Step(w, p, b); KeepsReady(w', k, q)
  {
    hide Api, StatusOk, Control, Finalized, Synced, IsTrue;
    ApiWrites(w, k, NextCall(p), b);
  }

  /** The answer to such a call leaves Ready as it was, wherever a status may still be written. */
  lemma LocalUnchanged(p: Pass, r: Response, b: Beat)
    requires !p.pc.ReadResource? && !WritesObject(p.pc)
    ensures var q := After(p, r, b);
            q.obj.version == p.obj.version && (Unchanged(q) ==> Unchanged(p) && Holds(q, "Ready") == Holds(p, "Ready"))
  {
    hide After, Unchanged, IsTrue;
    if Early(p.pc) {
      EarlyUnchanged(p, r, b);
    } else if InRepair(p.pc) {
      RepairUnchanged(p, r, b);
    } else {
      LateUnchanged(p, r, b);
    }
  }

  predicate Early(pc: Pc) { pc.ReadCluster? || pc.ReadCredential? || Middle(pc) || InSql(pc) }

  lemma EarlyUnchanged(p: Pass, r: Response, b: Beat)
    requires Early(p.pc)
    ensures var q := After(p, r, b);
            q.obj.version == p.obj.version && (Unchanged(q) ==> Unchanged(p) && Holds(q, "Ready") == Holds(p, "Ready"))
  {
    hide NextCall, Resume, IsTrue, WasRepairing;
    ReadyGoesOn(p, r, b);
  }

  lemma RepairUnchanged(p: Pass, r: Response, b: Beat)
    requires InRepair(p.pc)
    ensures var q := After(p, r, b);
            q.obj.version == p.obj.version && (Unchanged(q) ==> Unchanged(p) && Holds(q, "Ready") == Holds(p, "Ready"))
  {
    hide NextCall, Resume, IsTrue, WasRepairing;
    RepairCalled(p);
    LastCall(p, After(p, r, b), r);
    ReadyGoesOn(p, r, b);
  }

  lemma LateUnchanged(p: Pass, r: Response, b: Beat)
    requires Dropping(p.pc) || p.pc.Refetch? || p.pc.Stopped?
    ensures var q := After(p, r, b);
            q.obj.version == p.obj.version && (Unchanged(q) ==> Unchanged(p) && Holds(q, "Ready") == Holds(p, "Ready"))
  {
    ResumeCases(p, r, b);
    hide NextCall, Resume, ResumeEnd, IsTrue, WasRepairing;
    EndGoesOn(p, r, b);
  }

  /** A call that writes no object, and is not the read of the resource. */
  lemma LocalKeepsReady(w: World, k: Key, p: Pass, b: Beat)
    requires PassOk(w, k, p) && KeepsReady(w, k, p) && !p.pc.ReadResource? && !WritesObject(p.pc)
    ensures var (w', q) := Step(w, p, b); KeepsReady(w', k, q)
  {
    var r := Api(w, k, NextCall(p), b).1;
    assert Step(w, p, b) == (Api(w, k, NextCall(p), b).0, After(p, r, b));
    CallKinds(p);
    hide Step, Api, NextCall, After, IsTrue, Unchanged, Control, Finalized, Synced;
    ApiKeepsResources(w, k, NextCall(p), b);
    LocalUnchanged(p, r, b);
  }

  lemma StepKeepsReady(w: World, k: Key, p: Pass, b: Beat)
    requires StoreOk(w) && PassOk(w, k, p) && KeepsReady(w, k, p) && !p.pc.Stopped?
    ensures var (w', q) := Step(w, p, b); KeepsReady(w', k, q)
  {
    hide Step, StoreOk, KeepsReady, Control, Finalized, Synced;
    if p.pc.ReadResource? {
      ReadKeepsReady(w, k, p, b);
    } else if p.pc.AddFinalizer? {
      FinalizerKeepsReady(w, k, p, b);
    } else if WritesObject(p.pc) {
      WriteEndsIt(w, k, p, b);
    } else {
      LocalKeepsReady(w, k, p, b);
    }
  }

  /** Nothing is written after a write. */
  lemma WriteEndsIt(w: World, k: Key, p: Pass, b: Beat)
    requires WritesObject(p.pc) && !p.pc.AddFinalizer?
    ensures var (w', q) := Step(w, p, b); KeepsReady(w', k, q)
  {
    var r := Api(w, p.key, NextCall(p), b).1;
    hide Api, NextCall, Resume, IsTrue;
    AfterWrite(p, r, b);
  }

  lemma AfterWrite(p: Pass, r: Response, b: Beat)
    requires WritesObject(p.pc) && !p.pc.AddFinalizer?
    ensures var q := Resume(p, r, b); q.pc.Stopped? || q.pc.Refetch?
  {
  }

  // ---------------------------------------------------------------- whole runs

  /** What happens outside leaves an object alone or gives it a new version. */
  lemma MoveKeepsReady(w: World, deleted: set<Key>, m: Move, k: Key, p: Pass)
    requires StoreOk(w) && PassOk(w, k, p) && KeepsReady(w, k, p)
    ensures KeepsReady(MoveWorld(w, deleted, m), k, p)
  {
    hide StatusOk, Control, Finalized, IsTrue;
    MoveIsNew(w, deleted, m, k);
    hide MoveWorld;
    if Unchanged(p) {
      assert p.obj.version < w.clock;
    }
  }

  lemma MoveIsNew(w: World, deleted: set<Key>, m: Move, k: Key)
    requires StoreOk(w)
    ensures var w' := MoveWorld(w, deleted, m);
            k in w'.resources && w'.resources[k].version < w.clock ==>
              k in w.resources && w'.resources[k] == w.resources[k]
  {
    hide StatusOk;
  }

  lemma NextKeepsReady(s: Sys, e: Event)
    requires Inv(s) && ReadyInv(s)
    ensures ReadyInv(Next(s, e))
  {
    hide StoreOk, PassOk, Step, MoveWorld, KeepsReady, Marked;
    match e {
      case Turn(k, b) =>
        if Running(s, k) {
          StepMarked(s.w, s.passes[k], b);
          StepKeepsReady(s.w, k, s.passes[k], b);
          forall k2 | k2 in s.passes && k2 != k
            ensures KeepsReady(Step(s.w, s.passes[k], b).0, k2, s.passes[k2])
          {
            OtherKeepsReady(s.w, k, s.passes[k], b, k2, s.passes[k2]);
          }
        }
      case Start(k) =>
        StartsReady(WithSession(s.w, k, IDLE), k);
        SessionsAside(s, k);
      case Crash(k) => SessionsAside(s, k);
      case Outside(m) =>
        var deleted := if m.RequestDeletion? then s.deleted + {m.key} else s.deleted;
        forall k | k in s.passes
          ensures KeepsReady(MoveWorld(s.w, deleted, m), k, s.passes[k])
        {
          MoveKeepsReady(s.w, deleted, m, k, s.passes[k]);
        }
    }
  }

  lemma OtherKeepsReady(w: World, k: Key, p: Pass, b: Beat, k2: Key, p2: Pass)
    requires StoreOk(w) && PassOk(w, k, p) && k2 != k && KeepsReady(w, k2, p2)
    ensures KeepsReady(Step(w, p, b).0, k2, p2)
  {
    hide StoreOk, PassOk, Step;
    StepFrame(w, k, p, b, k2);
  }

  lemma StartsReady(w: World, k: Key)
    ensures Marked(InitialPass(k)) && KeepsReady(w, k, InitialPass(k))
  {
  }

  lemma SessionsAside(s: Sys, k: Key)
    requires ReadyInv(s)
    ensures forall k2 | k2 in s.passes :: KeepsReady(WithSession(s.w, k, IDLE), k2, s.passes[k2])
  {
  }

  lemma {:induction false} RunKeepsReady(s: Sys, events: seq<Event>)
    requires Inv(s) && ReadyInv(s)
    ensures ReadyInv(Run(s, events))
    decreases |events|
  {
    hide Inv, ReadyInv, Next;
    if events != [] {
      NextKeeps(s, events[0]);
      NextKeepsReady(s, events[0]);
      RunKeepsReady(Next(s, events[0]), events[1..]);
    }
  }

  lemma BlamedIsOneOfFour(o: Observation, deleting: bool)
    ensures Blamed(o, deleting) in {"ClusterReady", "SecretReady", "ConnectionReady", "DatabaseReady"}
  {
  }

  /** A pass that gives up has one of the four conditions False. */
  lemma GivesUpWithFalse(p: Pass)
    requires Reports(p) && p.pc.WriteFailure?
    ensures !AllTrue(p.obj)
  {
    BlamedIsOneOfFour(p.trace[|p.trace| - 1], p.obj.deleting);
    hide Blamed;
  }

  /**
   * Over every run and every status that changes: Ready is left True beside one of the four conditions that is not, if
   * and only if the writing pass gave up before its ownership repair and Ready was True before. A final write never
   * leaves such a status, and a repair that failed always turns Ready off.
   */
  lemma StaleReadyIff(s: Sys, events: seq<Event>, e: Event, k: Key)
    requires Initial(s)
    requires var t := Run(s, events);
             k in t.w.resources && k in Next(t, e).w.resources
             && t.w.resources[k].uid == Next(t, e).w.resources[k].uid
    ensures var t := Run(s, events);
            var (before, after) := (t.w.resources[k], Next(t, e).w.resources[k]);
            after.status != before.status ==>
              && k in t.passes
              && var p := t.passes[k];
                 && (Disagrees(after) <==> p.pc.WriteFailure? && !WasRepairing(p) && IsReady(before))
                 && (p.pc.WriteStatus? ==> (IsReady(after) <==> AllTrue(after)))
                 && (p.pc.WriteFailure? && WasRepairing(p) ==> !IsReady(after))
  {
    var t := Run(s, events);
    InitialInv(s);
    RunKeeps(s, events);
    RunReports(s, events);
    RunKeepsReady(s, events);
    NextStatus(t, e, k);
    hide Next, Run, PassOk, StoreOk, IsTrue, WasRepairing, Reports;
    if Next(t, e).w.resources[k].status != t.w.resources[k].status && t.passes[k].pc.WriteFailure? {
      GivesUpWithFalse(t.passes[k]);
    }
  }
}
