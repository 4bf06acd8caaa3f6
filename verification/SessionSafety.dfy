/**
 * Lock discipline: what a pass holds open on the server, at every point of every run. The cursor is closed before the
 * first transaction begins, at most one transaction is open, it has altered at most the object at hand, and nothing
 * is left open at the end of a pass.
 */
module SessionSafety {
  import opened Basics
  import opened Conditions
  import opened Model
  import opened Machine
  import opened MachineFacts
  import opened Frames
  import opened System
  import opened Invariants

  function RepairChange(p: Pass): Change { SetOwner(DbName(p), if p.todo != [] then p.todo[0] else "", RoleName(p)) }

  function DropChanges(p: Pass): seq<Change> { [RemoveDatabase(DbName(p)), RemoveRole(RoleName(p))] }

  predicate OneTransaction(s: Session, changes: seq<Change>) {
    s == Session(None, [Transaction(changes, false)])
  }

  predicate AtMost(s: Session, changes: seq<Change>) {
    s.cursor == None && |s.transactions| == 1 && s.transactions[0].changes <= changes
  }

  /** Exactly what the session of a pass holds, by the place the pass has reached. */
  predicate SessionOk(s: Session, p: Pass) {
    match p.pc
    case FetchWrongOwner => s.cursor.Some? && s.transactions == []
    case CloseListing(_) => s.transactions == []
    case LimitLockWait => OneTransaction(s, []) && p.todo != []
    case RepairOwner => OneTransaction(s, []) && p.todo != []
    case CommitRepair => OneTransaction(s, [RepairChange(p)]) && p.todo != []
    case RollbackRepair => AtMost(s, [RepairChange(p)]) && p.todo != []
    case BeginRepair => s == IDLE && p.todo != []
    case DropDatabaseStep => OneTransaction(s, [])
    case DropRoleStep => OneTransaction(s, DropChanges(p)[..1])
    case CommitDrop => OneTransaction(s, DropChanges(p))
    case RollbackDrop => AtMost(s, DropChanges(p))
    case _ => s == IDLE
  }

  /** What is left to repair is a final part of the listing. */
  predicate TodoOk(p: Pass) {
    && (p.pc.FetchWrongOwner? || p.pc.CloseListing? ==> p.todo == [])
    && (Repairing(p.pc) ==> 0 < |p.todo| <= |p.listed| && p.todo == p.listed[|p.listed| - |p.todo|..])
  }

  predicate Repairing(pc: Pc) {
    pc.BeginRepair? || pc.LimitLockWait? || pc.RepairOwner? || pc.CommitRepair? || pc.RollbackRepair?
  }

  predicate DisciplineOk(s: Session, p: Pass) { SessionOk(s, p) && TodoOk(p) }

  ghost predicate SessionInv(s: Sys) {
    forall k | k in s.passes :: s.passes[k].key == k && DisciplineOk(SessionOf(s.w, k), s.passes[k])
  }

  /** The places at which a pass holds nothing on the server, and owes nothing to the listing. */
  predicate Idle(pc: Pc) {
    !(pc.FetchWrongOwner? || pc.CloseListing? || Repairing(pc) || pc.DropDatabaseStep? || pc.DropRoleStep?
      || pc.CommitDrop? || pc.RollbackDrop?)
  }

  lemma IdleStaysIdle(p: Pass, r: Response, b: Beat)
    requires Idle(p.pc) && !p.pc.ListWrongOwners? && !p.pc.BeginDrop?
    ensures Idle(Resume(p, r, b).pc)
  {
    hide ResumeFront, ResumeSecret, ResumeSql, ResumeRepair, StatusStep, SameObject;
    if p.pc.ReadCluster? {
      ReadClusterFacts(p, r, b);
    } else if p.pc.ReadCredential? {
      ReadCredentialFacts(p, r, b);
    } else if Front(p.pc) {
      FrontIsIdle(p, r, b);
    } else if Middle(p.pc) {
      MiddleFacts(p, r, b);
    } else if InSql(p.pc) {
      SqlFacts(p, r, b);
    }
  }

  lemma IdleCalls(p: Pass)
    requires Idle(p.pc) && !p.pc.ListWrongOwners? && !p.pc.BeginDrop?
    ensures !SessionUse(NextCall(p))
  {
  }

  lemma FrontIsIdle(p: Pass, r: Response, b: Beat)
    requires p.pc.ReadResource? || p.pc.AddFinalizer?
    ensures Idle(ResumeFront(p, r, b).pc)
  {
  }

  lemma ListDiscipline(w: World, k: Key, p: Pass, b: Beat)
    requires DisciplineOk(SessionOf(w, k), p) && p.pc.ListWrongOwners?
    ensures var (w', r) := Api(w, k, NextCall(p), b);
            DisciplineOk(SessionOf(w', k), ResumeRepair(p, r, b))
  {
    hide RepairFailed, Repaired, IsListing, WrongObjects, KubeCall, StatementCall, UserNameOf, DatabaseNameOf;
    hide StatusStep, SameObject;
    RepairFailedFacts(p, b);
  }

  lemma FetchDiscipline(w: World, k: Key, p: Pass, b: Beat)
    requires DisciplineOk(SessionOf(w, k), p) && p.pc.FetchWrongOwner?
    ensures var (w', r) := Api(w, k, NextCall(p), b);
            DisciplineOk(SessionOf(w', k), ResumeRepair(p, r, b))
  {
    hide RepairFailed, Repaired, KubeCall, StatementCall, UserNameOf, DatabaseNameOf, StatusStep, SameObject;
  }

  lemma CloseDiscipline(w: World, k: Key, p: Pass, b: Beat)
    requires DisciplineOk(SessionOf(w, k), p) && p.pc.CloseListing?
    ensures var (w', r) := Api(w, k, NextCall(p), b);
            DisciplineOk(SessionOf(w', k), ResumeRepair(p, r, b))
  {
    hide RepairFailed, Repaired, KubeCall, StatementCall, UserNameOf, DatabaseNameOf, StatusStep, SameObject;
    RepairFailedFacts(p, b);
    RepairedFacts(p, b);
  }

  lemma BeginDiscipline(w: World, k: Key, p: Pass, b: Beat)
    requires DisciplineOk(SessionOf(w, k), p) && p.pc.BeginRepair?
    ensures var (w', r) := Api(w, k, NextCall(p), b);
            DisciplineOk(SessionOf(w', k), ResumeRepair(p, r, b))
  {
    hide RepairFailed, Repaired, KubeCall, StatementCall, UserNameOf, DatabaseNameOf, StatusStep, SameObject;
    RepairFailedFacts(p, b);
  }

  lemma LimitDiscipline(w: World, k: Key, p: Pass, b: Beat)
    requires DisciplineOk(SessionOf(w, k), p) && p.pc.LimitLockWait?
    ensures var (w', r) := Api(w, k, NextCall(p), b);
            DisciplineOk(SessionOf(w', k), ResumeRepair(p, r, b))
  {
    hide RepairFailed, Repaired, KubeCall, StatementCall, UserNameOf, DatabaseNameOf, StatusStep, SameObject;
    var none: seq<Change> := [];
    assert none + none == none;
    RepairFailedFacts(p, b);
  }

  lemma AlterDiscipline(w: World, k: Key, p: Pass, b: Beat)
    requires DisciplineOk(SessionOf(w, k), p) && p.pc.RepairOwner?
    ensures var (w', r) := Api(w, k, NextCall(p), b);
            DisciplineOk(SessionOf(w', k), ResumeRepair(p, r, b))
  {
    hide RepairFailed, Repaired, KubeCall, StatementCall, UserNameOf, DatabaseNameOf, StatusStep, SameObject;
    RepairFailedFacts(p, b);
    assert [] + [RepairChange(p)] == [RepairChange(p)];
  }

  lemma RollbackDiscipline(w: World, k: Key, p: Pass, b: Beat)
    requires DisciplineOk(SessionOf(w, k), p) && p.pc.RollbackRepair?
    ensures var (w', r) := Api(w, k, NextCall(p), b);
            DisciplineOk(SessionOf(w', k), ResumeRepair(p, r, b))
  {
    hide RepairFailed, Repaired, KubeCall, StatementCall, UserNameOf, DatabaseNameOf, StatusStep, SameObject;
    RepairFailedFacts(p, b);
  }

  lemma CommitCloses(w: World, k: Key, b: Beat, changes: seq<Change>)
    requires OneTransaction(SessionOf(w, k), changes)
    ensures SessionOf(Api(w, k, Commit, b).0, k) == IDLE
  {
    hide ApplyAll;
  }

  lemma AfterCommit(p: Pass, r: Response, b: Beat)
    requires p.pc.CommitRepair? && p.todo != [] && TodoOk(p)
    ensures DisciplineOk(IDLE, ResumeRepair(p, r, b))
  {
    hide RepairFailed, Repaired, UserNameOf, DatabaseNameOf, StatusStep, SameObject, IsTrue, AllReady, ConnectionOf;
    if r == Done {
      RepairedFacts(p.(todo := p.todo[1..]), b);
    } else {
      RepairFailedFacts(p, b);
    }
  }

  lemma CommitDiscipline(w: World, k: Key, p: Pass, b: Beat)
    requires DisciplineOk(SessionOf(w, k), p) && p.pc.CommitRepair?
    ensures var (w', r) := Api(w, k, NextCall(p), b);
            DisciplineOk(SessionOf(w', k), ResumeRepair(p, r, b))
  {
    hide Api, ResumeRepair, TodoOk, UserNameOf, DatabaseNameOf;
    CommitCloses(w, k, b, [RepairChange(p)]);
    AfterCommit(p, Api(w, k, Commit, b).1, b);
  }

  lemma BeginDropDiscipline(w: World, k: Key, p: Pass, b: Beat)
    requires DisciplineOk(SessionOf(w, k), p) && p.pc.BeginDrop?
    ensures var (w', r) := Api(w, k, NextCall(p), b);
            DisciplineOk(SessionOf(w', k), ResumeEnd(p, r, b))
  {
    hide KubeCall, StatementCall, UserNameOf, DatabaseNameOf;
  }

  lemma DropDatabaseDiscipline(w: World, k: Key, p: Pass, b: Beat)
    requires DisciplineOk(SessionOf(w, k), p) && p.pc.DropDatabaseStep?
    ensures var (w', r) := Api(w, k, NextCall(p), b);
            DisciplineOk(SessionOf(w', k), ResumeEnd(p, r, b))
  {
    hide KubeCall, StatementCall, UserNameOf, DatabaseNameOf;
    assert [] + [RemoveDatabase(DbName(p))] == DropChanges(p)[..1];
  }

  lemma DropRoleDiscipline(w: World, k: Key, p: Pass, b: Beat)
    requires DisciplineOk(SessionOf(w, k), p) && p.pc.DropRoleStep?
    ensures var (w', r) := Api(w, k, NextCall(p), b);
            DisciplineOk(SessionOf(w', k), ResumeEnd(p, r, b))
  {
    hide KubeCall, StatementCall, UserNameOf, DatabaseNameOf;
    assert DropChanges(p)[..1] + [RemoveRole(RoleName(p))] == DropChanges(p);
  }

  lemma DropEndDiscipline(w: World, k: Key, p: Pass, b: Beat)
    requires DisciplineOk(SessionOf(w, k), p) && (p.pc.CommitDrop? || p.pc.RollbackDrop?)
    ensures var (w', r) := Api(w, k, NextCall(p), b);
            DisciplineOk(SessionOf(w', k), ResumeEnd(p, r, b))
  {
    hide KubeCall, StatementCall, UserNameOf, DatabaseNameOf, ApplyAll;
  }

  lemma CallDiscipline(w: World, k: Key, p: Pass, b: Beat)
    requires p.key == k && DisciplineOk(SessionOf(w, k), p)
    ensures var (w', r) := Api(w, k, NextCall(p), b); DisciplineOk(SessionOf(w', k), Resume(p, r, b))
  {
    hide Api, NextCall, ResumeFront, ResumeSecret, ResumeSql, ResumeRepair, ResumeEnd;
    var (w', r) := Api(w, k, NextCall(p), b);
    if p.pc.ListWrongOwners? {
      ListDiscipline(w, k, p, b);
    } else if p.pc.FetchWrongOwner? {
      FetchDiscipline(w, k, p, b);
    } else if p.pc.CloseListing? {
      CloseDiscipline(w, k, p, b);
    } else if p.pc.CommitRepair? {
      CommitDiscipline(w, k, p, b);
    } else if p.pc.BeginRepair? {
      BeginDiscipline(w, k, p, b);
    } else if p.pc.LimitLockWait? {
      LimitDiscipline(w, k, p, b);
    } else if p.pc.RepairOwner? {
      AlterDiscipline(w, k, p, b);
    } else if p.pc.RollbackRepair? {
      RollbackDiscipline(w, k, p, b);
    } else if p.pc.CommitDrop? || p.pc.RollbackDrop? {
      DropEndDiscipline(w, k, p, b);
    } else if p.pc.BeginDrop? {
      BeginDropDiscipline(w, k, p, b);
    } else if p.pc.DropDatabaseStep? {
      DropDatabaseDiscipline(w, k, p, b);
    } else if p.pc.DropRoleStep? {
      DropRoleDiscipline(w, k, p, b);
    } else {
      IdleStaysIdle(p, r, b);
      IdleCalls(p);
      ApiKeepsSessions(w, k, NextCall(p), b);
    }
  }

  lemma StepDiscipline(w: World, k: Key, p: Pass, b: Beat)
    requires p.key == k && DisciplineOk(SessionOf(w, k), p)
    ensures var (w', p') := Step(w, p, b); DisciplineOk(SessionOf(w', k), p')
  {
    var (w', r) := Api(w, k, NextCall(p), b);
    CallDiscipline(w, k, p, b);
    hide Api, Resume, NextCall;
    IgnoresTrace(SessionOf(w', k), Resume(p, r, b), p.trace + [Observation(NextCall(p), r)]);
  }

  lemma IgnoresTrace(s: Session, p: Pass, trace: seq<Observation>)
    requires DisciplineOk(s, p)
    ensures DisciplineOk(s, p.(trace := trace))
  {
  }

  lemma NextKeepsSession(s: Sys, e: Event)
    requires SessionInv(s)
    ensures SessionInv(Next(s, e))
  {
    hide DisciplineOk, Step, MoveWorld;
    match e {
      case Turn(k, b) =>
        if Running(s, k) {
          StepDiscipline(s.w, k, s.passes[k], b);
          StepKeepsKey(s.w, s.passes[k], b);
          forall k2 | k2 in s.passes && k2 != k
            ensures SessionOf(Step(s.w, s.passes[k], b).0, k2) == SessionOf(s.w, k2)
          {
            OtherSessions(s.w, s.passes[k], b, k2);
          }
        }
      case Start(k) => StartsIdle(s.w, k);
      case Outside(m) =>
        MoveKeepsSessions(s.w, if m.RequestDeletion? then s.deleted + {m.key} else s.deleted, m);
      case _ =>
    }
  }

  lemma StartsIdle(w: World, k: Key)
    ensures DisciplineOk(SessionOf(WithSession(w, k, IDLE), k), InitialPass(k))
  {
  }

  lemma OtherSessions(w: World, p: Pass, b: Beat, k2: Key)
    requires k2 != p.key
    ensures SessionOf(Step(w, p, b).0, k2) == SessionOf(w, k2)
  {
    hide Api, NextCall, Resume;
    ApiSessionFrame(w, p.key, NextCall(p), b, k2);
  }

  lemma MoveKeepsSessions(w: World, deleted: set<Key>, m: Move)
    ensures MoveWorld(w, deleted, m).sessions == w.sessions
  {
  }

  lemma {:induction false} RunKeepsSession(s: Sys, events: seq<Event>)
    requires SessionInv(s)
    ensures SessionInv(Run(s, events))
    decreases |events|
  {
    hide SessionInv, Next;
    if events != [] {
      NextKeepsSession(s, events[0]);
      RunKeepsSession(Next(s, events[0]), events[1..]);
    }
  }

  /**
   * In every state of every run: a pass has at most one open transaction, and no cursor next to it; the objects its
   * open transaction has altered are at most the one it is repairing, which it listed; and a pass that has ended,
   * whichever way, holds nothing.
   */
  lemma LockDiscipline(s: Sys, events: seq<Event>, k: Key)
    requires Initial(s) && k in Run(s, events).passes
    ensures var t := Run(s, events);
            var (session, p) := (SessionOf(t.w, k), t.passes[k]);
            && |session.transactions| <= 1
            && (session.transactions != [] ==> session.cursor.None?)
            && (forall o | o in Locked(session) :: p.todo != [] && o == p.todo[0] && o in p.listed)
            && (p.pc.Stopped? ==> session == IDLE)
  {
    RunKeepsSession(s, events);
    var t := Run(s, events);
    LockedAtMostOne(SessionOf(t.w, k), t.passes[k]);
  }

  lemma LockedAtMostOne(s: Session, p: Pass)
    requires DisciplineOk(s, p)
    ensures |s.transactions| <= 1 && (s.transactions != [] ==> s.cursor.None?)
    ensures forall o | o in Locked(s) :: p.todo != [] && o == p.todo[0] && o in p.listed
  {
    hide UserNameOf, DatabaseNameOf;
    if Repairing(p.pc) {
      assert p.listed[|p.listed| - |p.todo|] == p.todo[0];
    }
  }

  // ---------------------------------------------------------------- the first failure ends the repair

  predicate Refused(o: Observation) {
    (o.call.AlterOwner? || o.call.SetLockTimeout?) && o.response != Done
  }

  /** Once a repair statement has been refused, for a lock timeout or otherwise, the pass only winds down. */
  predicate WindsDown(p: Pass) {
    (exists i | 0 <= i < |p.trace| :: Refused(p.trace[i])) ==>
      !p.obj.deleting && (p.pc.RollbackRepair? || p.pc == WriteFailure(Errored) || p.pc == Stopped(Errored))
  }

  lemma WindDownStep(p: Pass, c: Call, r: Response, b: Beat)
    requires WindsDown(p) && Control(p) && c == NextCall(p) && !p.pc.Stopped?
    ensures WindsDown(Resume(p, r, b).(trace := p.trace + [Observation(c, r)]))
  {
    var q := Resume(p, r, b);
    var trace := p.trace + [Observation(c, r)];
    var ended := exists i | 0 <= i < |p.trace| :: Refused(p.trace[i]);
    if exists i | 0 <= i < |trace| :: Refused(trace[i]) {
      if !Refused(Observation(c, r)) {
        var i :| 0 <= i < |trace| && Refused(trace[i]);
        assert i < |p.trace| && Refused(p.trace[i]);
      }
      assert ended || Refused(Observation(c, r));
      if ended {
        WindDownNext(p, r, b);
      } else {
        RefusedNext(p, c, r, b);
      }
    }
  }

  lemma WindDownNext(p: Pass, r: Response, b: Beat)
    requires !p.obj.deleting && (p.pc.RollbackRepair? || p.pc == WriteFailure(Errored))
    ensures var q := Resume(p, r, b);
            !q.obj.deleting && (q.pc == WriteFailure(Errored) || q.pc == Stopped(Errored))
  {
    hide RepairFailed;
    RepairFailedFacts(p, b);
  }

  lemma RefusedNext(p: Pass, c: Call, r: Response, b: Beat)
    requires Control(p) && c == NextCall(p) && Refused(Observation(c, r))
    ensures var q := Resume(p, r, b); !q.obj.deleting && q.pc.RollbackRepair?
  {
    assert p.pc.LimitLockWait? || p.pc.RepairOwner?;
  }

  lemma {:induction false} RunWindsDown(s: Sys, events: seq<Event>)
    requires Inv(s) && forall k | k in s.passes :: WindsDown(s.passes[k])
    ensures forall k | k in Run(s, events).passes :: WindsDown(Run(s, events).passes[k])
    decreases |events|
  {
    if events != [] {
      NextKeeps(s, events[0]);
      NextWindsDown(s, events[0]);
      RunWindsDown(Next(s, events[0]), events[1..]);
    }
  }

  lemma NextWindsDown(s: Sys, e: Event)
    requires Inv(s) && forall k | k in s.passes :: WindsDown(s.passes[k])
    ensures forall k | k in Next(s, e).passes :: WindsDown(Next(s, e).passes[k])
  {
    hide Resume, Api, NextCall, WindsDown, StoreOk, MoveWorld, Control, Finalized, Synced;
    match e {
      case Turn(k, b) =>
        if Running(s, k) {
          var p := s.passes[k];
          WindDownStep(p, NextCall(p), Api(s.w, p.key, NextCall(p), b).1, b);
        }
      case Start(k) => NothingRefusedYet(k);
      case _ =>
    }
  }

  lemma NothingRefusedYet(k: Key)
    ensures WindsDown(InitialPass(k))
  {
  }

  /** A pass ends at its first lock timeout: it rolls back, records the failure and stops. */
  lemma EndsAtFirstTimeout(s: Sys, events: seq<Event>, k: Key)
    requires Initial(s) && k in Run(s, events).passes
    ensures var p := Run(s, events).passes[k];
            (exists i | 0 <= i < |p.trace| :: Refused(p.trace[i])) ==>
              p.pc.RollbackRepair? || p.pc == WriteFailure(Errored) || p.pc == Stopped(Errored)
  {
    InitialInv(s);
    RunWindsDown(s, events);
    assert WindsDown(Run(s, events).passes[k]);
  }

  // ---------------------------------------------------------------- no wait without a limit

  /** Every ownership statement comes right after a lock timeout was set, in the transaction begun right before that. */
  predicate LimitedAt(trace: seq<Observation>, i: nat)
    requires i < |trace|
  {
    trace[i].call.AlterOwner? ==>
      i >= 2 && trace[i - 1] == Observation(SetLockTimeout, Done) && trace[i - 2] == Observation(Begin, Done)
  }

  predicate EndsWith(trace: seq<Observation>, o: Observation) { trace != [] && trace[|trace| - 1] == o }

  ghost predicate Limited(p: Pass) {
    && (forall i: nat | i < |p.trace| :: LimitedAt(p.trace, i))
    && (p.pc.LimitLockWait? ==> EndsWith(p.trace, Observation(Begin, Done)))
    && (p.pc.RepairOwner? ==> |p.trace| >= 2 && EndsWith(p.trace, Observation(SetLockTimeout, Done))
                              && p.trace[|p.trace| - 2] == Observation(Begin, Done))
  }

  /** How a pass comes to set the timeout, and how it comes to an ownership statement. */
  lemma ComesToRepair(p: Pass, r: Response, b: Beat)
    ensures var q := Resume(p, r, b);
            && (q.pc.LimitLockWait? ==> p.pc.BeginRepair? && r == Done)
            && (q.pc.RepairOwner? ==> p.pc.LimitLockWait? && r == Done)
  {
    ResumeCases(p, r, b);
    hide Resume, ResumeFront, ResumeSecret, ResumeSql, ResumeRepair, StatusStep, SameObject;
    if p.pc.ReadCluster? {
      ReadClusterFacts(p, r, b);
    } else if p.pc.ReadCredential? {
      ReadCredentialFacts(p, r, b);
    } else if Front(p.pc) {
      FrontIsIdle(p, r, b);
    } else if Middle(p.pc) {
      MiddleFacts(p, r, b);
    } else if InSql(p.pc) {
      SqlFacts(p, r, b);
    } else if InRepair(p.pc) {
      RepairOrder(p, r, b);
    }
  }

  lemma RepairOrder(p: Pass, r: Response, b: Beat)
    requires InRepair(p.pc)
    ensures var q := ResumeRepair(p, r, b);
            && (q.pc.LimitLockWait? ==> p.pc.BeginRepair? && r == Done)
            && (q.pc.RepairOwner? ==> p.pc.LimitLockWait? && r == Done)
  {
    hide SetCondition, UpdatePhase;
  }

  lemma StepLimited(w: World, p: Pass, b: Beat)
    requires Limited(p)
    ensures Limited(Step(w, p, b).1)
  {
    var r := Api(w, p.key, NextCall(p), b).1;
    var trace := p.trace + [Observation(NextCall(p), r)];
    assert Step(w, p, b).1.trace == trace;
    ComesToRepair(p, r, b);
    RepairCalls(p);
    hide Api, Resume, NextCall;
    forall i: nat | i < |trace|
      ensures LimitedAt(trace, i)
    {
      assert i < |p.trace| ==> LimitedAt(p.trace, i);
    }
  }

  lemma RepairCalls(p: Pass)
    ensures p.pc.BeginRepair? ==> NextCall(p) == Begin
    ensures p.pc.LimitLockWait? ==> NextCall(p) == SetLockTimeout
    ensures NextCall(p).AlterOwner? <==> p.pc.RepairOwner?
  {
  }

  lemma {:induction false} RunLimited(s: Sys, events: seq<Event>)
    requires forall k | k in s.passes :: Limited(s.passes[k])
    ensures forall k | k in Run(s, events).passes :: Limited(Run(s, events).passes[k])
    decreases |events|
  {
    hide Limited, Step, MoveWorld;
    if events != [] {
      var e := events[0];
      if e.Turn? && Running(s, e.key) {
        StepLimited(s.w, s.passes[e.key], e.beat);
      } else if e.Start? {
        StartsLimited(e.key);
      }
      RunLimited(Next(s, e), events[1..]);
    }
  }

  lemma StartsLimited(k: Key)
    ensures Limited(InitialPass(k))
  {
  }

  /** Over every run, no pass ever waits for the lock of an object without a limit: see LimitedAt. */
  lemma EveryWaitIsLimited(s: Sys, events: seq<Event>, k: Key, i: nat)
    requires Initial(s) && k in Run(s, events).passes && i < |Run(s, events).passes[k].trace|
    ensures var trace := Run(s, events).passes[k].trace;
            trace[i].call.AlterOwner? ==>
              i >= 2 && trace[i - 1] == Observation(SetLockTimeout, Done) && trace[i - 2] == Observation(Begin, Done)
  {
    RunLimited(s, events);
    assert Limited(Run(s, events).passes[k]);
    assert LimitedAt(Run(s, events).passes[k].trace, i);
  }
}
