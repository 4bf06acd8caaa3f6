/**
 * Convergence: what one published pass in which no optional statement failed leaves behind, that two such passes
 * always suffice, and that from then on no pass, failing or not, changes the server or the secrets.
 */
module Convergence {
  import opened Basics
  import opened Model
  import opened Machine
  import opened MachineFacts
  import opened Frames
  import opened Invariants
  import opened SecretSafety
  import opened SessionSafety
  import opened DeletionSafety
  import opened RepairSafety

  /** The statements whose failure a pass only logs. */
  predicate Clean(trace: seq<Observation>) {
    forall o | o in trace :: o.call.AlterUser? || o.call.AlterDatabaseOwner? || o.call.GrantIn? ==> o.response == Done
  }

  function AllGrants(user: string): set<Grant> {
    {OnDatabase(user), OnSchema(user), CreateOnSchema(user), ByDefault(0, user), ByDefault(1, user), ByDefault(2, user)}
  }

  /** The one case that a single pass does not settle: the database was there before the role, with another owner. */
  predicate Stuck(s: Server, d: string, user: string) {
    d in s.databases && user !in s.roles && s.databases[d].owner != user
  }

  /** What has been granted by the time a pass gets here. */
  function GrantsBefore(pc: Pc, user: string): set<Grant> {
    match pc
    case GrantDatabase => {}
    case OpenDatabase => {OnDatabase(user)}
    case PingDatabase => {OnDatabase(user)}
    case GrantSchema => {OnDatabase(user)}
    case GrantCreate => {OnDatabase(user), OnSchema(user)}
    case GrantDefault(n) =>
      {OnDatabase(user), OnSchema(user), CreateOnSchema(user)} + (set i | 0 <= i < n :: ByDefault(i, user))
    case _ => AllGrants(user)
  }

  predicate HasPassword(s: Server, user: string, password: string) { user in s.roles && s.roles[user] == password }

  predicate Settled(s0: Server, s: Server, grants: set<Grant>, d: string, user: string, password: string) {
    && HasPassword(s, user, password)
    && d in s.databases && grants <= s.databases[d].grants
    && (s.databases[d].owner == user <==> !Stuck(s0, d, user))
  }

  /** What the statements so far have made of the server, given the server before the pass. */
  predicate Reached(s0: Server, s: Server, pc: Pc, userExists: bool, d: string, user: string, password: string) {
    match pc
    case MakeRole => s == s0
    case ChangePassword => s == s0 && userExists && user in s0.roles
    case MakeDatabase =>
      HasPassword(s, user, password) && s.databases == s0.databases && userExists == (user in s0.roles)
    case ChangeDatabaseOwner =>
      HasPassword(s, user, password) && s.databases == s0.databases && d in s.databases && user in s0.roles
    case GrantDefault(n) => n <= 2 && Settled(s0, s, GrantsBefore(pc, user), d, user, password)
    case WriteFailure(_) => true
    case Stopped(ending) => ending.Published? ==> Settled(s0, s, AllGrants(user), d, user, password)
    case _ => if Front(pc) || Middle(pc) then s == s0 else Settled(s0, s, GrantsBefore(pc, user), d, user, password)
  }

  predicate ReachedBy(s0: Server, s: Server, p: Pass, q: Pass) {
    Reached(s0, s, q.pc, q.userExists, DbName(p), RoleName(p), q.secretPassword)
  }

  // ---------------------------------------------------------------- the statements

  lemma RoleReached(s0: Server, w: World, k: Key, p: Pass, b: Beat)
    requires p.pc.MakeRole? && ReachedBy(s0, w.server, p, p)
    ensures var (w', r) := Api(w, k, NextCall(p), b); ReachedBy(s0, w'.server, p, ResumeSql(p, r, b))
  {
    hide KubeCall, SessionCall, DatabaseNameOf, UserNameOf, SetCondition, UpdatePhase;
  }

  lemma PasswordReached(s0: Server, w: World, k: Key, p: Pass, b: Beat)
    requires p.pc.ChangePassword? && ReachedBy(s0, w.server, p, p)
    ensures var (w', r) := Api(w, k, NextCall(p), b); r == Done ==> ReachedBy(s0, w'.server, p, ResumeSql(p, r, b))
  {
    hide KubeCall, SessionCall, DatabaseNameOf, UserNameOf, SetCondition, UpdatePhase;
  }

  lemma DatabaseReached(s0: Server, w: World, k: Key, p: Pass, b: Beat)
    requires p.pc.MakeDatabase? && ReachedBy(s0, w.server, p, p)
    ensures var (w', r) := Api(w, k, NextCall(p), b); ReachedBy(s0, w'.server, p, ResumeSql(p, r, b))
  {
    hide KubeCall, SessionCall, DatabaseNameOf, UserNameOf, SetCondition, UpdatePhase;
  }

  lemma OwnerReached(s0: Server, w: World, k: Key, p: Pass, b: Beat)
    requires p.pc.ChangeDatabaseOwner? && ReachedBy(s0, w.server, p, p)
    ensures var (w', r) := Api(w, k, NextCall(p), b); r == Done ==> ReachedBy(s0, w'.server, p, ResumeSql(p, r, b))
  {
    hide KubeCall, SessionCall, DatabaseNameOf, UserNameOf, SetCondition, UpdatePhase;
  }

  predicate Granting(pc: Pc) { pc.GrantDatabase? || pc.GrantSchema? || pc.GrantCreate? || pc.GrantDefault? }

  /** The grant a pass is about to make. */
  function GrantOf(pc: Pc, user: string): Grant
    requires Granting(pc)
  {
    match pc
    case GrantDatabase => OnDatabase(user)
    case GrantSchema => OnSchema(user)
    case GrantCreate => CreateOnSchema(user)
    case GrantDefault(n) => ByDefault(n, user)
  }

  lemma GrantEffect(s0: Server, w: World, k: Key, g: Grant, grants: set<Grant>, d: string, password: string, b: Beat)
    requires Settled(s0, w.server, grants, d, g.user, password)
    ensures var (w', r) := Api(w, k, GrantIn(d, g), b);
            r == Done ==> Settled(s0, w'.server, grants + {g}, d, g.user, password)
  {
  }

  function GrantNext(pc: Pc): Pc
    requires Granting(pc)
  {
    match pc
    case GrantDatabase => OpenDatabase
    case GrantSchema => GrantCreate
    case GrantCreate => GrantDefault(0)
    case GrantDefault(n) => if n < 2 then GrantDefault(n + 1) else ListWrongOwners
  }

  lemma GrantCalls(p: Pass, b: Beat)
    requires Granting(p.pc)
    ensures NextCall(p) == GrantIn(DbName(p), GrantOf(p.pc, RoleName(p)))
    ensures ResumeSql(p, Done, b) == p.(pc := GrantNext(p.pc))
  {
    hide DbName, RoleName;
  }

  lemma GrantReached(s0: Server, w: World, k: Key, p: Pass, b: Beat)
    requires Granting(p.pc) && ReachedBy(s0, w.server, p, p)
    ensures var (w', r) := Api(w, k, NextCall(p), b); r == Done ==> ReachedBy(s0, w'.server, p, ResumeSql(p, r, b))
  {
    hide Api, NextCall, DbName, RoleName, Settled, ResumeSql, GrantsBefore;
    GrantCalls(p, b);
    GrantEffect(s0, w, k, GrantOf(p.pc, RoleName(p)), GrantsBefore(p.pc, RoleName(p)), DbName(p), p.secretPassword, b);
    GrantsAddUp(p.pc, RoleName(p));
  }

  lemma GrantsAddUp(pc: Pc, user: string)
    requires Granting(pc) && (pc.GrantDefault? ==> pc.kind <= 2)
    ensures GrantsBefore(pc, user) + {GrantOf(pc, user)} == GrantsBefore(GrantNext(pc), user)
  {
    if pc.GrantDefault? {
      assert (set i | 0 <= i < pc.kind + 1 :: ByDefault(i, user)) ==
             (set i | 0 <= i < pc.kind :: ByDefault(i, user)) + {ByDefault(pc.kind, user)};
    }
  }

  lemma OpenReached(s0: Server, w: World, k: Key, p: Pass, b: Beat)
    requires (p.pc.OpenDatabase? || p.pc.PingDatabase?) && ReachedBy(s0, w.server, p, p)
    ensures var (w', r) := Api(w, k, NextCall(p), b); ReachedBy(s0, w'.server, p, ResumeSql(p, r, b))
  {
    CallKinds(p);
    hide Api, NextCall, Settled, DbName, RoleName, SetCondition, UpdatePhase;
    ApiKeepsServer(w, k, NextCall(p), b);
  }

  lemma SqlReached(s0: Server, w: World, k: Key, p: Pass, b: Beat)
    requires InSql(p.pc) && ReachedBy(s0, w.server, p, p)
    ensures var (w', r) := Api(w, k, NextCall(p), b);
            Clean([Observation(NextCall(p), r)]) ==> ReachedBy(s0, w'.server, p, ResumeSql(p, r, b))
  {
    var (w', r) := Api(w, k, NextCall(p), b);
    CallKinds(p);
    assert Observation(NextCall(p), r) in [Observation(NextCall(p), r)];
    hide Api, NextCall, ResumeSql, ReachedBy;
    if p.pc.MakeRole? {
      RoleReached(s0, w, k, p, b);
    } else if p.pc.ChangePassword? {
      PasswordReached(s0, w, k, p, b);
    } else if p.pc.MakeDatabase? {
      DatabaseReached(s0, w, k, p, b);
    } else if p.pc.ChangeDatabaseOwner? {
      OwnerReached(s0, w, k, p, b);
    } else if Granting(p.pc) {
      GrantReached(s0, w, k, p, b);
    } else {
      OpenReached(s0, w, k, p, b);
    }
  }

  // ---------------------------------------------------------------- before and after the statements

  lemma EntersAtMakeRole(p: Pass, r: Response, b: Beat)
    requires Front(p.pc) || Middle(p.pc)
    requires p.pc.ReadResource? || !p.obj.deleting
    ensures var q := Resume(p, r, b);
            Front(q.pc) || Middle(q.pc) || q.pc.MakeRole? || q.pc.WriteFailure?
            || q.pc == Stopped(Ignored) || q.pc == Stopped(Errored)
  {
    ResumeCases(p, r, b);
    hide Resume, ResumeFront, ResumeSecret, SameObject, StatusStep;
    if p.pc.ReadCluster? {
      ReadClusterFacts(p, r, b);
    } else if p.pc.ReadCredential? {
      ReadCredentialFacts(p, r, b);
    } else if Middle(p.pc) {
      MiddleFacts(p, r, b);
    } else {
      FrontEnters(p, r, b);
    }
  }

  lemma FrontEnters(p: Pass, r: Response, b: Beat)
    requires p.pc.ReadResource? || p.pc.AddFinalizer?
    ensures var q := ResumeFront(p, r, b);
            Front(q.pc) || q.pc == OpenConnection || q.pc == Stopped(Ignored) || q.pc == Stopped(Errored)
  {
    hide Resolve, Accept;
  }

  lemma EarlyReached(s0: Server, w: World, k: Key, p: Pass, b: Beat, d: string, user: string)
    requires Front(p.pc) || Middle(p.pc)
    requires (p.pc.ReadResource? || !p.obj.deleting) && w.server == s0
    ensures var (w', r) := Api(w, k, NextCall(p), b);
            var q := Resume(p, r, b);
            Reached(s0, w'.server, q.pc, q.userExists, d, user, q.secretPassword)
  {
    CallKinds(p);
    hide Api, NextCall, Resume;
    ApiKeepsServer(w, k, NextCall(p), b);
    EntersAtMakeRole(p, Api(w, k, NextCall(p), b).1, b);
  }

  /** The repair changes owners of objects and nothing else. */
  predicate SameButObjects(s: Server, s': Server) {
    && s'.roles == s.roles && s'.databases.Keys == s.databases.Keys
    && forall d | d in s.databases :: s'.databases[d].owner == s.databases[d].owner
                                      && s'.databases[d].grants == s.databases[d].grants
  }

  lemma RepairEffect(w: World, k: Key, p: Pass, b: Beat)
    requires InRepair(p.pc) && DisciplineOk(SessionOf(w, k), p)
    ensures SameButObjects(w.server, Api(w, k, NextCall(p), b).0.server)
  {
    CallKinds(p);
    hide Api, NextCall, SessionOk, DbName, RoleName;
    if p.pc.CommitRepair? {
      assert NextCall(p) == Commit by { CommitIsCommit(p); }
      assert OneTransaction(SessionOf(w, k), [RepairChange(p)]) by { CommitHolds(SessionOf(w, k), p); }
      CommitsOne(w, k, b, RepairChange(p));
    } else {
      ApiKeepsServer(w, k, NextCall(p), b);
    }
  }

  lemma CommitIsCommit(p: Pass)
    requires p.pc.CommitRepair?
    ensures NextCall(p) == Commit
  {
  }

  lemma CommitHolds(s: Session, p: Pass)
    requires p.pc.CommitRepair? && SessionOk(s, p)
    ensures OneTransaction(s, [RepairChange(p)])
  {
  }

  lemma RepairReached(s0: Server, w: World, k: Key, p: Pass, b: Beat)
    requires InRepair(p.pc) && DisciplineOk(SessionOf(w, k), p) && ReachedBy(s0, w.server, p, p)
    ensures var (w', r) := Api(w, k, NextCall(p), b); ReachedBy(s0, w'.server, p, ResumeRepair(p, r, b))
  {
    var (w', r) := Api(w, k, NextCall(p), b);
    hide Api, NextCall, ResumeRepair, DisciplineOk, SameButObjects, Settled, DbName, RoleName;
    RepairEffect(w, k, p, b);
    RepairKeepsPass(p, r, b);
    StaysSettled(s0, w.server, w'.server, DbName(p), RoleName(p), p.secretPassword);
  }

  lemma RepairKeepsPass(p: Pass, r: Response, b: Beat)
    requires InRepair(p.pc)
    ensures var q := ResumeRepair(p, r, b);
            && q.secretPassword == p.secretPassword
            && (InRepair(q.pc) || q.pc == WriteStatus || q.pc == WriteFailure(Errored))
  {
    hide ResumeRepair, StatusStep, SameObject;
    RepairFacts(p, r, b);
  }

  lemma StaysSettled(s0: Server, s: Server, s': Server, d: string, user: string, password: string)
    requires Settled(s0, s, AllGrants(user), d, user, password) && SameButObjects(s, s')
    ensures Settled(s0, s', AllGrants(user), d, user, password)
  {
  }

  lemma EndReached(s0: Server, w: World, k: Key, p: Pass, b: Beat)
    requires (p.pc.WriteStatus? || p.pc.WriteFailure?) && Control(p) && !p.obj.deleting && ReachedBy(s0, w.server, p, p)
    ensures var (w', r) := Api(w, k, NextCall(p), b); ReachedBy(s0, w'.server, p, ResumeEnd(p, r, b))
  {
    CallKinds(p);
    hide Api, NextCall, Control, DbName, RoleName, Settled;
    assert p.pc != WriteFailure(Published) by { NoFailureIsPublished(p); }
    ApiKeepsServer(w, k, NextCall(p), b);
  }

  lemma NoFailureIsPublished(p: Pass)
    requires Control(p)
    ensures p.pc != WriteFailure(Published)
  {
  }

  // ---------------------------------------------------------------- the secret

  /** From the first statement on, the stored secret holds the password the pass works with. */
  predicate PasswordKept(w: World, k: Key, p: Pass) {
    InSql(p.pc) || InRepair(p.pc) || p.pc.WriteStatus? || p.pc == Stopped(Published) ==>
      StoredPassword(w, k, p.secretPassword)
  }

  lemma PasswordNextKept(w: World, k: Key, p: Pass, b: Beat)
    requires PassOk(w, k, p) && !p.pc.Stopped? && PasswordKept(w, k, p) && (p.pc.ReadResource? || !p.obj.deleting)
    ensures var (w', r) := Api(w, k, NextCall(p), b); PasswordKept(w', k, Resume(p, r, b))
  {
    var (w', r) := Api(w, k, NextCall(p), b);
    hide Api, NextCall, Resume, StoredPassword, Finalized, Synced, Control;
    ResumeCases(p, r, b);
    if Front(p.pc) || (Middle(p.pc) && !p.pc.ReadSecret? && !p.pc.WriteSecret?) {
      EntersAtMakeRole(p, r, b);
      EntersPasswordSteps(p, r, b);
    } else if Middle(p.pc) {
      EntersAtMakeRole(p, r, b);
      PasswordIsStored(w, k, p, b);
    } else {
      KeepsPassword(p, r, b);
      if InSql(p.pc) || InRepair(p.pc) || p.pc.WriteStatus? {
        StoredPasswordLasts(w, k, p, b, k, p.secretPassword);
      } else {
        EndsUnpublished(p, r, b);
      }
    }
  }

  lemma EndsUnpublished(p: Pass, r: Response, b: Beat)
    requires !Front(p.pc) && !Middle(p.pc) && !InSql(p.pc) && !InRepair(p.pc) && !p.pc.WriteStatus? && !p.pc.Stopped?
    requires Control(p)
    ensures var q := ResumeEnd(p, r, b);
            !InSql(q.pc) && !InRepair(q.pc) && !q.pc.WriteStatus? && q.pc != Stopped(Published)
  {
  }

  lemma KeepsPassword(p: Pass, r: Response, b: Beat)
    requires !Front(p.pc) && !Middle(p.pc)
    ensures Resume(p, r, b).secretPassword == p.secretPassword
  {
    ResumeCases(p, r, b);
    hide Resume, ResumeSql, ResumeRepair, StatusStep, SameObject;
    if InSql(p.pc) {
      SqlFacts(p, r, b);
    } else if InRepair(p.pc) {
      RepairFacts(p, r, b);
    }
  }

  // ---------------------------------------------------------------- whole passes

  /** Where a pass on resource r stands that began with the server at s0. */
  ghost predicate OnTheWay(s0: Server, r: Resource, w: World, k: Key, p: Pass) {
    && AllOk(s0, r, w, k, p) && PasswordKept(w, k, p)
    && k in w.resources && w.resources[k].spec == r.spec && !w.resources[k].deleting
    && (Clean(p.trace) ==>
          Reached(s0, w.server, p.pc, p.userExists, DatabaseNameOf(r), UserNameOf(r), p.secretPassword))
  }

  /** The stored resource keeps its specification and stays unmarked. */
  lemma StaysStored(w: World, k: Key, p: Pass, b: Beat, r: Resource)
    requires StoreOk(w) && PassOk(w, k, p) && Live(p) && WorksOn(p, r)
    requires k in w.resources && w.resources[k].spec == r.spec && !w.resources[k].deleting
    ensures var w' := Step(w, p, b).0; k in w'.resources && w'.resources[k].spec == r.spec && !w'.resources[k].deleting
  {
    var c := NextCall(p);
    StepWorld(w, p, b);
    CallKinds(p);
    hide Step, Api, StatusOk, Finalized, Synced;
    if WritesObject(p.pc) {
      assert c.resource.spec == p.obj.spec && c.resource.key == k;
      ApiWrites(w, k, c, b);
    } else {
      ApiKeepsResources(w, k, c, b);
    }
  }

  lemma StepReached(s0: Server, w: World, k: Key, p: Pass, b: Beat)
    requires PassOk(w, k, p) && DisciplineOk(SessionOf(w, k), p) && Live(p) && !p.obj.deleting
    requires ReachedBy(s0, w.server, p, p)
    ensures var (w', r) := Api(w, k, NextCall(p), b);
            Clean([Observation(NextCall(p), r)]) ==> ReachedBy(s0, w'.server, p, Resume(p, r, b))
  {
    var (w', r) := Api(w, k, NextCall(p), b);
    assert Early(p.pc) || InRepair(p.pc) || p.pc.WriteStatus? || p.pc.WriteFailure? by { Kinds(p); }
    ResumeCases(p, r, b);
    if Front(p.pc) || Middle(p.pc) {
      hide Api, NextCall, Resume, Control, Finalized, Synced, DisciplineOk, DbName, RoleName, Settled;
      EarlyReached(s0, w, k, p, b, DbName(p), RoleName(p));
    } else {
      hide Api, NextCall, Resume, ReachedBy, DisciplineOk, Clean;
      hide ResumeFront, ResumeSecret, ResumeSql, ResumeRepair, ResumeEnd;
      if InSql(p.pc) {
        SqlReached(s0, w, k, p, b);
      } else if InRepair(p.pc) {
        RepairReached(s0, w, k, p, b);
      } else {
        EndReached(s0, w, k, p, b);
      }
    }
  }

  lemma StepOnTheWay(s0: Server, r: Resource, w: World, k: Key, p: Pass, b: Beat)
    requires OnTheWay(s0, r, w, k, p) && Live(p)
    ensures var (w', p') := Step(w, p, b); OnTheWay(s0, r, w', k, p')
  {
    var (w', p') := Step(w, p, b);
    assert AllOk(s0, r, w', k, p') by {
      hide RepairOk, StoreOk, PassOk, DisciplineOk, Step;
      StepKeeps(w, k, p, b);
      StepDiscipline(w, k, p, b);
      RepairStepOk(s0, r, w, k, p, b);
    }
    hide StoreOk, Control, Finalized, Synced, DisciplineOk, Progress, Reached, StoredPassword;
    StaysStored(w, k, p, b, r);
    PasswordNextKept(w, k, p, b);
    StepStaysClean(s0, w, k, p, b);
    NamesOf(p, r);
  }

  lemma StepStaysClean(s0: Server, w: World, k: Key, p: Pass, b: Beat)
    requires PassOk(w, k, p) && DisciplineOk(SessionOf(w, k), p) && Live(p) && !p.obj.deleting
    requires Clean(p.trace) ==> ReachedBy(s0, w.server, p, p)
    ensures var (w', p') := Step(w, p, b); Clean(p'.trace) ==> ReachedBy(s0, w'.server, p, p')
  {
    var (w', r) := Api(w, k, NextCall(p), b);
    var o := Observation(NextCall(p), r);
    hide Api, NextCall, Resume, ReachedBy, Control, Finalized, Synced, DisciplineOk;
    if Clean(p.trace + [o]) {
      assert forall o1 | o1 in p.trace :: o1 in p.trace + [o];
      assert o in p.trace + [o];
      StepReached(s0, w, k, p, b);
      TraceAside(s0, w'.server, p, Resume(p, r, b), p.trace + [o]);
    }
  }

  lemma TraceAside(s0: Server, s: Server, p: Pass, q: Pass, trace: seq<Observation>)
    requires ReachedBy(s0, s, p, q)
    ensures ReachedBy(s0, s, p, q.(trace := trace))
  {
  }

  lemma {:induction false} DriveOnTheWay(s0: Server, r: Resource, w: World, k: Key, p: Pass, tape: seq<Beat>)
    requires OnTheWay(s0, r, w, k, p) && !p.pc.ReadResource?
    ensures var (w', p') := Drive(w, p, tape); OnTheWay(s0, r, w', k, p')
    decreases |tape|
  {
    hide OnTheWay, Step;
    if !p.pc.Stopped? && tape != [] {
      var (w1, p1) := Step(w, p, tape[0]);
      StepOnTheWay(s0, r, w, k, p, tape[0]);
      NeverRereads(w, p, tape[0]);
      DriveOnTheWay(s0, r, w1, k, p1, tape[1..]);
    }
  }

  lemma FirstOnTheWay(w: World, k: Key, b: Beat)
    requires StoreOk(w) && k in w.resources && !w.resources[k].deleting && SessionOf(w, k) == IDLE
    ensures var (w', p') := Step(w, InitialPass(k), b); OnTheWay(w.server, w.resources[k], w', k, p')
  {
    hide Step, AllOk, Settled, InitialPass;
    var (w', q) := Step(w, InitialPass(k), b);
    FirstStep(w, k, b);
    FirstAllOk(w, k, b);
  }

  lemma FirstStep(w: World, k: Key, b: Beat)
    ensures var (w', q) := Step(w, InitialPass(k), b);
            w' == w && (q.pc == ReadCluster || q.pc == Stopped(Ignored) || q.pc == Stopped(Errored))
  {
    hide Api;
    ReadAnswer(w, k, b);
  }

  lemma FirstAllOk(w: World, k: Key, b: Beat)
    requires StoreOk(w) && k in w.resources && !w.resources[k].deleting && SessionOf(w, k) == IDLE
    ensures var (w', q) := Step(w, InitialPass(k), b); AllOk(w.server, w.resources[k], w', k, q)
  {
    hide RepairOk, StoreOk, PassOk, DisciplineOk, Step;
    StartKeeps(w, k);
    StepKeeps(w, k, InitialPass(k), b);
    FirstStepOk(w, k, b);
    FirstStep(w, k, b);
    IdleNow(w, k, Step(w, InitialPass(k), b).1);
  }

  lemma IdleNow(w: World, k: Key, q: Pass)
    requires SessionOf(w, k) == IDLE && (q.pc == ReadCluster || q.pc == Stopped(Ignored) || q.pc == Stopped(Errored))
    ensures DisciplineOk(SessionOf(w, k), q)
  {
  }

  lemma RunOnTheWay(w: World, k: Key, tape: seq<Beat>)
    requires StoreOk(w) && k in w.resources && !w.resources[k].deleting && tape != []
    ensures var (w', p') := RunPass(w, k, tape); OnTheWay(w.server, w.resources[k], w', k, p')
  {
    var w0, p0 := WithSession(w, k, IDLE), InitialPass(k);
    var (w1, p1) := Step(w0, p0, tape[0]);
    assert RunPass(w, k, tape) == Drive(w1, p1, tape[1..]);
    hide Drive, Step, OnTheWay;
    FirstOnTheWay(w0, k, tape[0]);
    NeverRereads(w0, p0, tape[0]);
    DriveOnTheWay(w.server, w.resources[k], w1, k, p1, tape[1..]);
  }

  /** What a resource asks for, except for the owner of the database itself. */
  predicate Provided(w: World, k: Key, d: string, user: string) {
    && user in w.server.roles && StoredPassword(w, k, w.server.roles[user])
    && d in w.server.databases && AllGrants(user) <= w.server.databases[d].grants
    && WrongObjects(w.server.databases[d], user) == {}
  }

  predicate Converged(w: World, k: Key, d: string, user: string) {
    Provided(w, k, d, user) && w.server.databases[d].owner == user
  }

  /** A pass over resource k that was published with every statement answered, "already exists" included. */
  predicate CleanPass(w: World, k: Key, tape: seq<Beat>) {
    RunPass(w, k, tape).1.pc == Stopped(Published) && Clean(RunPass(w, k, tape).1.trace)
  }

  predicate Existing(w: World, k: Key) { StoreOk(w) && k in w.resources && !w.resources[k].deleting }

  /** The resource is still there, with the names it had. */
  lemma StillExisting(w: World, k: Key, tape: seq<Beat>)
    requires Existing(w, k)
    ensures var w' := RunPass(w, k, tape).0; Existing(w', k) && w'.resources[k].spec == w.resources[k].spec
  {
    if tape != [] {
      hide StoreOk, PassOk, DisciplineOk, RepairOk, RunPass, Reached;
      RunOnTheWay(w, k, tape);
    }
  }

  /**
   * One clean pass, from any server state, gives the role the password of the stored secret, makes every grant and
   * leaves no wrongly owned object. It makes the role the owner of the database exactly when it is not the case that
   * the database existed before the role, with another owner.
   */
  lemma OnePass(w: World, k: Key, tape: seq<Beat>)
    requires Existing(w, k) && CleanPass(w, k, tape)
    ensures var w' := RunPass(w, k, tape).0;
            var (d, u) := (DatabaseNameOf(w.resources[k]), UserNameOf(w.resources[k]));
            Provided(w', k, d, u) && (Converged(w', k, d, u) <==> !Stuck(w.server, d, u))
  {
    hide StoreOk, RunPass, DatabaseNameOf, UserNameOf, StoredPassword, OnTheWay, Clean;
    var (w', p') := RunPass(w, k, tape);
    NotEmpty(w, k, tape);
    RunOnTheWay(w, k, tape);
    AtomicPrefix(w, k, tape);
    AtTheEnd(w.server, w.resources[k], w', k, p');
  }

  lemma AtTheEnd(s0: Server, r: Resource, w: World, k: Key, p: Pass)
    requires OnTheWay(s0, r, w, k, p) && p.pc == Stopped(Published) && Clean(p.trace)
    requires Wrong(Objects(w.server, DatabaseNameOf(r)), UserNameOf(r)) == {}
    ensures Provided(w, k, DatabaseNameOf(r), UserNameOf(r))
    ensures Converged(w, k, DatabaseNameOf(r), UserNameOf(r)) <==> !Stuck(s0, DatabaseNameOf(r), UserNameOf(r))
  {
    hide AllOk, DatabaseNameOf, UserNameOf, StoredPassword;
    var (d, u) := (DatabaseNameOf(r), UserNameOf(r));
    assert WrongObjects(w.server.databases[d], u) == Wrong(Objects(w.server, d), u);
  }

  lemma NotEmpty(w: World, k: Key, tape: seq<Beat>)
    requires RunPass(w, k, tape).1.pc.Stopped?
    ensures tape != []
  {
  }

  /** Two clean passes in a row always converge. */
  lemma TwoPasses(w: World, k: Key, tape1: seq<Beat>, tape2: seq<Beat>)
    requires Existing(w, k) && CleanPass(w, k, tape1) && CleanPass(RunPass(w, k, tape1).0, k, tape2)
    ensures var r := w.resources[k];
            Converged(RunPass(RunPass(w, k, tape1).0, k, tape2).0, k, DatabaseNameOf(r), UserNameOf(r))
  {
    hide RunPass, Converged, Existing, CleanPass;
    var w1 := RunPass(w, k, tape1).0;
    assert k in w.resources && k in w1.resources && w1.resources[k].key == w.resources[k].key
           && w1.resources[k].spec == w.resources[k].spec by { SameResource(w, k, tape1); }
    StillExisting(w, k, tape1);
    OnePass(w, k, tape1);
    OnePass(w1, k, tape2);
  }

  lemma SameResource(w: World, k: Key, tape: seq<Beat>)
    requires Existing(w, k)
    ensures var w' := RunPass(w, k, tape).0;
            k in w.resources && k in w'.resources && w'.resources[k].key == w.resources[k].key
            && w'.resources[k].spec == w.resources[k].spec
  {
    StillExisting(w, k, tape);
    hide RunPass;
    assert StoredOk(w, k) && StoredOk(RunPass(w, k, tape).0, k);
  }
}
