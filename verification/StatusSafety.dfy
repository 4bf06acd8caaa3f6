/**
 * What the stored status of a PostgresDatabase means: its phase, its observed generation, and the work a pass has
 * done before it turns Ready on.
 */
module StatusSafety {
  import opened Basics
  import opened Conditions
  import opened Names
  import opened ConnectionUrl
  import opened Model
  import opened Machine
  import opened MachineFacts
  import opened Frames
  import opened System
  import opened Invariants
  import Text

  // ---------------------------------------------------------------- phase and generation

  /** Every stored status is untouched or coherent, in every state of every run. */
  lemma PhaseCoherence(s: Sys, events: seq<Event>, k: Key)
    requires Initial(s) && k in Run(s, events).w.resources
    ensures var r := Run(s, events).w.resources[k];
            && r.status.observedGeneration <= r.generation
            && (r.status == EMPTY_STATUS
                || PhaseMeans(r.status.phase, r.status.conditions, false, "DatabaseReady")
                || (r.deleting && r.status.phase == Deleting))
  {
    DatabasePhaseMeans(Run(s, events).w.resources[k].status.conditions, false);
    InitialInv(s);
    RunKeeps(s, events);
    assert StoredOk(Run(s, events).w, k);
  }

  /** What a turn of k's pass may do to k's stored status: nothing, or write its own coherent one. */
  predicate StatusWrite(before: Resource, after: Resource, p: Pass) {
    || after.status == before.status
    || (&& (p.pc.WriteStatus? || p.pc.WriteFailure?)
        && after.status == p.obj.status && before.version == p.obj.version
        && after.status.phase == DatabasePhase(after.status.conditions, p.obj.deleting)
        && before.status.observedGeneration <= after.status.observedGeneration <= after.generation
        && after.status.observedGeneration ==
           (if p.pc.WriteStatus? then before.generation else before.status.observedGeneration)
        && (IsReady(after) && !IsReady(before) ==> p.pc.WriteStatus?))
  }

  lemma TurnStatus(w: World, k: Key, p: Pass, b: Beat)
    requires StoreOk(w) && PassOk(w, k, p) && !p.pc.Stopped? && k in w.resources
    requires k in Api(w, k, NextCall(p), b).0.resources
    ensures var after := Api(w, k, NextCall(p), b).0.resources[k];
            StatusWrite(w.resources[k], after, p) && after.uid == w.resources[k].uid
  {
    hide Api, IsTrue, DatabasePhase, Finalized, Without;
    if WritesObject(p.pc) {
      ApiWrites(w, k, NextCall(p), b);
    } else {
      CallKinds(p);
      ApiKeepsResources(w, k, NextCall(p), b);
    }
  }

  lemma MoveStatus(w: World, deleted: set<Key>, m: Move, k: Key)
    requires StoreOk(w) && k in w.resources && k in MoveWorld(w, deleted, m).resources
    ensures var after := MoveWorld(w, deleted, m).resources[k];
            after.uid == w.resources[k].uid ==> after.status == w.resources[k].status
  {
    hide StatusOk;
  }

  /** Each event leaves a stored status alone, or is a turn of its own pass that writes a coherent one. */
  lemma NextStatus(s: Sys, e: Event, k: Key)
    requires Inv(s) && k in s.w.resources && k in Next(s, e).w.resources
    ensures var (before, after) := (s.w.resources[k], Next(s, e).w.resources[k]);
            before.uid == after.uid ==>
              || after.status == before.status
              || (e.Turn? && e.key == k && Running(s, k) && StatusWrite(before, after, s.passes[k]))
  {
    hide StoreOk, Resume, Api, MoveWorld, StatusWrite, Control, Finalized, Synced;
    match e {
      case Turn(k2, b) =>
        if Running(s, k2) {
          if k2 == k {
            TurnStatus(s.w, k, s.passes[k], b);
          } else {
            StepFrame(s.w, k2, s.passes[k2], b, k);
          }
        }
      case Outside(m) =>
        MoveStatus(s.w, if m.RequestDeletion? then s.deleted + {m.key} else s.deleted, m, k);
      case _ =>
    }
  }

  /**
   * Over every run: a status that changes is written by a turn of its resource's own pass, with the phase that follows
   * from its conditions and the deletion mark that pass read; the observed generation becomes the generation in a final
   * write and stays as it is in any other, so it never decreases and never exceeds the generation.
   */
  lemma EveryStatusWrite(s: Sys, events: seq<Event>, e: Event, k: Key)
    requires Initial(s)
    requires var t := Run(s, events);
             k in t.w.resources && k in Next(t, e).w.resources
             && t.w.resources[k].uid == Next(t, e).w.resources[k].uid
    ensures var t := Run(s, events);
            var (before, after) := (t.w.resources[k], Next(t, e).w.resources[k]);
            && before.status.observedGeneration <= after.status.observedGeneration <= after.generation
            && (after.status != before.status ==>
                  && e.Turn? && e.key == k && Running(t, k)
                  && (t.passes[k].pc.WriteStatus? || t.passes[k].pc.WriteFailure?)
                  && PhaseMeans(after.status.phase, after.status.conditions, t.passes[k].obj.deleting, "DatabaseReady")
                  && after.status.observedGeneration ==
                     if t.passes[k].pc.WriteStatus? then before.generation else before.status.observedGeneration)
  {
    var t := Run(s, events);
    if Running(t, k) {
      DatabasePhaseMeans(Next(t, e).w.resources[k].status.conditions, t.passes[k].obj.deleting);
    }
    InitialInv(s);
    RunKeeps(s, events);
    NextStatus(t, e, k);
    NextKeeps(t, e);
    hide Next, Run;
    assert StoredOk(Next(t, e).w, k);
  }

  // ---------------------------------------------------------------- Ready

  predicate Saw(p: Pass, c: Call, r: Response) { Observation(c, r) in p.trace }

  predicate SawCluster(p: Pass) {
    Saw(p, GetCluster(ClusterKeyOf(p.obj)), FoundCluster(p.cluster)) && ClusterIsReady(p.cluster)
  }

  predicate HasCredentials(p: Pass) { p.host != "" && p.user != "" && p.password != "" }

  predicate SawFound(p: Pass, q: Key, password: string) {
    exists i | 0 <= i < |p.trace| :: p.trace[i].call == GetSecret(q) && p.trace[i].response.FoundSecret?
                                     && PasswordIn(p.trace[i].response.data) == password
  }

  predicate HasSecret(p: Pass) {
    || SawFound(p, SecretKeyOf(p.obj.key), p.secretPassword)
    || Saw(p, CreateSecret(SecretKeyOf(p.obj.key),
                           SecretData(p.host, p.port, DbName(p), RoleName(p), p.secretPassword)), Done)
  }

  predicate HasRole(p: Pass) {
    || Saw(p, CreateUser(RoleName(p), p.secretPassword), Done)
    || Saw(p, CreateUser(RoleName(p), p.secretPassword), AlreadyExists)
  }

  predicate HasDatabase(p: Pass) {
    || Saw(p, CreateDatabase(DbName(p), RoleName(p)), Done)
    || Saw(p, CreateDatabase(DbName(p), RoleName(p)), AlreadyExists)
  }

  /** The ownership statement of an object went through, and so did the commit right after it. */
  predicate CommittedAt(trace: seq<Observation>, i: nat, c: Call) {
    i + 1 < |trace| && trace[i] == Observation(c, Done) && trace[i + 1] == Observation(Commit, Done)
  }

  predicate Committed(p: Pass, item: string) {
    exists i: nat | i < |p.trace| :: CommittedAt(p.trace, i, AlterOwner(DbName(p), item, RoleName(p)))
  }

  /** The connection to the pass's own database, with the credentials it resolved. */
  function TargetOf(p: Pass): Call { OpenTarget(p.host, p.port, p.user, p.password, DbName(p)) }

  /** How far the chain of a pass has come. */
  function Stage(pc: Pc): nat {
    match pc
    case AddFinalizer => 1
    case OpenConnection => 1
    case PingConnection => 1
    case ReadSecret => 2
    case DrawPassword => 2
    case OwnSecret => 2
    case WriteSecret => 2
    case MakeRole => 3
    case ChangePassword => 4
    case MakeDatabase => 4
    case ChangeDatabaseOwner => 5
    case GrantDatabase => 5
    case OpenDatabase => 6
    case PingDatabase => 7
    case GrantSchema => 8
    case GrantCreate => 9
    case GrantDefault(_) => 10
    case ListWrongOwners => 10
    case FetchWrongOwner => 11
    case CloseListing(complete) => if complete then 12 else 11
    case BeginRepair => 13
    case LimitLockWait => 13
    case RepairOwner => 13
    case CommitRepair => 13
    case RollbackRepair => 13
    case WriteStatus => 14
    case _ => 0
  }

  predicate FrontLevel(p: Pass, n: nat) {
    && (n >= 1 ==> SawCluster(p) && HasCredentials(p))
    && (n >= 2 ==> Saw(p, PingServer, Done))
    && (n >= 3 ==> HasSecret(p))
  }

  predicate StatementLevel(p: Pass, n: nat) {
    && (n >= 4 ==> HasRole(p))
    && (n >= 5 ==> HasDatabase(p))
    && (n >= 6 ==> Saw(p, GrantIn(DbName(p), OnDatabase(RoleName(p))), Done))
    && (n >= 7 ==> Saw(p, TargetOf(p), Done))
    && (n >= 8 ==> Saw(p, PingTarget(DbName(p)), Done))
    && (n >= 9 ==> Saw(p, GrantIn(DbName(p), OnSchema(RoleName(p))), Done))
    && (n >= 10 ==> Saw(p, GrantIn(DbName(p), CreateOnSchema(RoleName(p))), Done))
  }

  predicate ListingLevel(p: Pass, n: nat) {
    && (n >= 11 ==> Saw(p, QueryWrongOwners(DbName(p), RoleName(p)), Done))
    && (n >= 12 ==> Saw(p, FetchRow, EndOfRows))
    && (n >= 13 ==> Saw(p, CloseRows, Done))
  }

  /** What a pass that has come to stage n has itself observed. */
  predicate Level(p: Pass, n: nat) { FrontLevel(p, n) && StatementLevel(p, n) && ListingLevel(p, n) }

  predicate RepairEvidence(p: Pass) {
    && (Stage(p.pc) == 11 || Stage(p.pc) == 12 ==> p.todo == [])
    && (Stage(p.pc) >= 13 ==> |p.todo| <= |p.listed|)
    && (Stage(p.pc) >= 13 ==> forall i | 0 <= i < |p.listed| - |p.todo| :: Committed(p, p.listed[i]))
    && (p.pc.CommitRepair? ==> p.trace != [] && p.todo != [] &&
                               p.trace[|p.trace| - 1] ==
                               Observation(AlterOwner(DbName(p), p.todo[0], RoleName(p)), Done))
    && (Stage(p.pc) == 13 ==> p.todo != [] && p.todo == p.listed[|p.listed| - |p.todo|..])
    && (p.pc.WriteStatus? ==> p.todo == [])
  }

  predicate Evidence(p: Pass) {
    Level(p, Stage(p.pc)) && (p.pc.ReadCredential? && !p.obj.deleting ==> SawCluster(p)) && RepairEvidence(p)
  }

  // The evidence lasts as long as the names and values it is about.

  predicate SameLocals(p: Pass, q: Pass, o: Observation) {
    q.obj.key == p.obj.key && q.obj.spec == p.obj.spec && q.cluster == p.cluster && q.trace == p.trace + [o]
  }

  predicate SameValues(p: Pass, q: Pass) {
    q.host == p.host && q.user == p.user && q.password == p.password && q.port == p.port
    && q.secretPassword == p.secretPassword
  }

  lemma SawLasts(p: Pass, q: Pass, o: Observation, c: Call, r: Response)
    requires q.trace == p.trace + [o]
    ensures Saw(p, c, r) ==> Saw(q, c, r)
    ensures Saw(q, o.call, o.response)
  {
  }

  lemma SecretLasts(p: Pass, q: Pass, o: Observation)
    requires SameLocals(p, q, o) && SameValues(p, q) && HasSecret(p)
    ensures HasSecret(q)
  {
    if SawFound(p, SecretKeyOf(p.obj.key), p.secretPassword) {
      var i :| 0 <= i < |p.trace| && p.trace[i].call == GetSecret(SecretKeyOf(p.obj.key))
               && p.trace[i].response.FoundSecret?
               && PasswordIn(p.trace[i].response.data) == p.secretPassword;
      assert q.trace[i] == p.trace[i];
    }
  }

  lemma FrontLasts(p: Pass, q: Pass, o: Observation, n: nat)
    requires SameLocals(p, q, o) && Level(p, n) && n <= 2
    requires n >= 1 ==> HasCredentials(q)
    ensures Level(q, n)
  {
  }

  lemma FrontLevelLasts(p: Pass, q: Pass, o: Observation, n: nat)
    requires SameLocals(p, q, o) && SameValues(p, q) && FrontLevel(p, n)
    ensures FrontLevel(q, n)
  {
    hide HasSecret, ClusterIsReady;
    if n >= 3 {
      SecretLasts(p, q, o);
    }
  }

  lemma StatementLevelLasts(p: Pass, q: Pass, o: Observation, n: nat)
    requires q.trace == p.trace + [o] && DbName(q) == DbName(p) && RoleName(q) == RoleName(p)
    requires SameValues(p, q) && StatementLevel(p, n)
    ensures StatementLevel(q, n)
  {
    hide DbName, RoleName;
  }

  lemma ListingLevelLasts(p: Pass, q: Pass, o: Observation, n: nat)
    requires q.trace == p.trace + [o] && DbName(q) == DbName(p) && RoleName(q) == RoleName(p) && ListingLevel(p, n)
    ensures ListingLevel(q, n)
  {
    hide DbName, RoleName;
  }

  lemma LevelLasts(p: Pass, q: Pass, o: Observation, n: nat)
    requires SameLocals(p, q, o) && SameValues(p, q) && Level(p, n)
    ensures Level(q, n)
  {
    hide FrontLevel, StatementLevel, ListingLevel;
    SameNames(p, q);
    hide DbName, RoleName;
    FrontLevelLasts(p, q, o, n);
    StatementLevelLasts(p, q, o, n);
    ListingLevelLasts(p, q, o, n);
  }

  // ---------------------------------------------------------------- evidence is gathered step by step

  lemma NoEvidenceNeeded(p: Pass)
    requires Stage(p.pc) == 0 && !p.pc.ReadCredential?
    ensures Evidence(p)
  {
  }

  lemma ClusterEvidence(p: Pass, r: Response, b: Beat)
    requires p.pc.ReadCluster?
    ensures Evidence(After(p, r, b))
  {
    hide Level, RepairEvidence, After, ClusterIsReady, ClusterKeyOf, HasCredentials;
    ClusterIsRead(p, r, b);
    var q := After(p, r, b);
    NoRepairYet(q);
    if Stage(q.pc) >= 1 {
      FirstLevel(q);
    } else {
      LevelZero(q);
    }
  }

  lemma ClusterIsRead(p: Pass, r: Response, b: Beat)
    requires p.pc.ReadCluster?
    ensures var q := After(p, r, b);
            && Stage(q.pc) <= 1
            && (Stage(q.pc) == 1 ==> SawCluster(q) && HasCredentials(q))
            && (q.pc.ReadCredential? && !q.obj.deleting ==> SawCluster(q))
  {
    hide Resume, ResumeFront, StatusStep, ClusterIsReady, NextCall, ClusterKeyOf;
    var q := After(p, r, b);
    NextIsCluster(p);
    ResumeCases(p, r, b);
    ReadClusterFacts(p, r, b);
    assert Observation(GetCluster(ClusterKeyOf(p.obj)), r) in q.trace;
    SameClusterKey(p.obj, q.obj);
  }

  lemma FirstLevel(q: Pass)
    requires SawCluster(q) && HasCredentials(q)
    ensures Level(q, 1)
  {
    hide SawCluster, HasCredentials;
  }

  lemma LevelZero(q: Pass)
    ensures Level(q, 0)
  {
  }

  lemma SameClusterKey(r1: Resource, r2: Resource)
    requires r1.key == r2.key && r1.spec == r2.spec
    ensures ClusterKeyOf(r1) == ClusterKeyOf(r2)
  {
  }

  lemma CredentialEvidence(p: Pass, r: Response, b: Beat)
    requires Evidence(p) && p.pc.ReadCredential?
    ensures Evidence(After(p, r, b))
  {
    var o := Observation(NextCall(p), r);
    var q := After(p, r, b);
    hide ResumeFront, StatusStep, ClusterIsReady, NextCall, ClusterKeyOf, DbName, RoleName, HasSecret, Committed;
    ReadCredentialFacts(p, r, b);
    SameClusterKey(p.obj, q.obj);
    SawLasts(p, q, o, GetCluster(ClusterKeyOf(p.obj)), FoundCluster(p.cluster));
  }

  lemma NextIsCluster(p: Pass)
    requires p.pc.ReadCluster?
    ensures NextCall(p) == GetCluster(ClusterKeyOf(p.obj))
  {
  }

  lemma FinalizerEvidence(p: Pass, r: Response, b: Beat)
    requires Evidence(p) && p.pc.AddFinalizer?
    requires r.Updated? ==> r.resource.key == p.obj.key && r.resource.spec == p.obj.spec
    ensures Evidence(After(p, r, b))
  {
    hide After, Level, RepairEvidence, NextCall;
    var o := Observation(NextCall(p), r);
    var q := After(p, r, b);
    FinalizerGoesOn(p, r, b);
    if r.Updated? {
      LevelOne(p);
      FrontLasts(p, q, o, 1);
      NoRepairYet(q);
    } else {
      NoEvidenceNeeded(q);
    }
  }

  lemma FinalizerGoesOn(p: Pass, r: Response, b: Beat)
    requires p.pc.AddFinalizer?
    requires r.Updated? ==> r.resource.key == p.obj.key && r.resource.spec == p.obj.spec
    ensures var q := After(p, r, b);
            if r.Updated? then
              && SameLocals(p, q, Observation(NextCall(p), r)) && q.pc == OpenConnection
              && (HasCredentials(p) ==> HasCredentials(q))
            else q.pc.Stopped?
  {
    hide NextCall;
  }

  lemma NoRepairYet(p: Pass)
    requires Stage(p.pc) < 11
    ensures RepairEvidence(p)
  {
  }

  /** A failure leaves nothing to be shown. */
  lemma FailureEvidence(p: Pass, kind: string, message: string, now: int, ending: Ending, trace: seq<Observation>)
    ensures Evidence(FailWith(p, kind, message, now, ending).(trace := trace))
  {
    hide SetCondition, UpdatePhase;
  }

  lemma ConnectEvidence(p: Pass, r: Response, b: Beat)
    requires Evidence(p) && (p.pc.OpenConnection? || p.pc.PingConnection?)
    ensures Evidence(After(p, r, b))
  {
    var o := Observation(NextCall(p), r);
    var q := After(p, r, b);
    hide Level, RepairEvidence, FailWith, SetCondition, ResumeFront, ResumeSql, ResumeRepair, ResumeEnd;
    FailureEvidence(p, "ConnectionReady", "open failed", b.now, Errored, q.trace);
    FailureEvidence(p, "ConnectionReady", "ping failed", b.now, Errored, q.trace);
    SetConditionFacts(p, "ConnectionReady", true, "connected", b.now, "Ready");
    if r.Done? {
      assert SameLocals(p, q, o) && HasCredentials(q) by { LevelOne(p); }
      FrontLasts(p, q, o, 1);
      NoRepairYet(q);
      if p.pc.PingConnection? {
        LevelTwo(q, o);
      }
    }
  }

  lemma LevelOne(p: Pass)
    requires Level(p, 1) || Level(p, 2)
    ensures HasCredentials(p)
  {
    hide SawCluster;
  }

  lemma LevelTwo(q: Pass, o: Observation)
    requires Level(q, 1) && o == Observation(PingServer, Done) && o in q.trace
    ensures Level(q, 2)
  {
    hide SawCluster;
  }

  lemma LevelThree(q: Pass)
    requires Level(q, 2) && HasSecret(q)
    ensures Level(q, 3)
  {
    hide SawCluster, HasSecret;
  }

  lemma SecretEvidence(p: Pass, r: Response, b: Beat)
    requires Evidence(p) && (p.pc.ReadSecret? || p.pc.DrawPassword? || p.pc.OwnSecret? || p.pc.WriteSecret?)
    ensures Evidence(After(p, r, b))
  {
    var o := Observation(NextCall(p), r);
    var q := After(p, r, b);
    hide Level, RepairEvidence, NextCall, ResumeFront, ResumeSecret, ResumeSql, ResumeRepair, ResumeEnd, HasSecret;
    FailuresAreFailures(p, r, b);
    if q.pc.WriteFailure? {
      NoEvidenceNeeded(q);
    } else {
      assert SameLocals(p, q, o) && HasCredentials(q) by { LevelOne(p); }
      FrontLasts(p, q, o, 2);
      NoRepairYet(q);
      if q.pc.MakeRole? {
        SecretIsSeen(p, r, b);
        LevelThree(q);
      }
    }
  }

  lemma FailuresAreFailures(p: Pass, r: Response, b: Beat)
    requires p.pc.ReadSecret? || p.pc.DrawPassword? || p.pc.OwnSecret? || p.pc.WriteSecret?
    ensures var q := ResumeSecret(p, r, b);
            q.pc.WriteFailure? || q.pc.DrawPassword? || q.pc.OwnSecret? || q.pc.WriteSecret?
            || (q.pc.MakeRole? && (p.pc.ReadSecret? || p.pc.WriteSecret?))
    ensures var q := ResumeSecret(p, r, b);
            q.obj.key == p.obj.key && q.obj.spec == p.obj.spec && q.cluster == p.cluster && q.host == p.host
            && q.user == p.user && q.password == p.password && q.port == p.port
  {
    hide Upsert, DatabasePhase;
  }

  lemma SecretIsSeen(p: Pass, r: Response, b: Beat)
    requires p.pc.ReadSecret? || p.pc.WriteSecret?
    ensures ResumeSecret(p, r, b).pc.MakeRole? ==> HasSecret(After(p, r, b))
  {
    var q := After(p, r, b);
    hide Upsert, DatabasePhase, SecretData;
    assert q.trace[|p.trace|] == Observation(NextCall(p), r);
  }

  lemma NextLevel(q: Pass, n: nat)
    requires 3 <= n < 10 && Level(q, n)
    requires n == 3 ==> HasRole(q)
    requires n == 4 ==> HasDatabase(q)
    requires n == 5 ==> Saw(q, GrantIn(DbName(q), OnDatabase(RoleName(q))), Done)
    requires n == 6 ==> Saw(q, TargetOf(q), Done)
    requires n == 7 ==> Saw(q, PingTarget(DbName(q)), Done)
    requires n == 8 ==> Saw(q, GrantIn(DbName(q), OnSchema(RoleName(q))), Done)
    requires n == 9 ==> Saw(q, GrantIn(DbName(q), CreateOnSchema(RoleName(q))), Done)
    ensures Level(q, n + 1)
  {
    hide SawCluster, HasSecret, HasCredentials, DbName, RoleName;
  }

  lemma SqlEvidence(p: Pass, r: Response, b: Beat)
    requires Evidence(p) && InSql(p.pc)
    ensures Evidence(After(p, r, b))
  {
    var o := Observation(NextCall(p), r);
    var q := After(p, r, b);
    hide Level, RepairEvidence, NextCall, ResumeFront, ResumeSecret, ResumeSql, ResumeRepair, ResumeEnd;
    SqlFacts(p, r, b);
    if q.pc.WriteFailure? {
      NoEvidenceNeeded(q);
    } else {
      assert SameLocals(p, q, o) && SameValues(p, q);
      LevelLasts(p, q, o, Stage(p.pc));
      SqlStage(p, r, b);
      NoRepairYet(q);
      if Stage(q.pc) != Stage(p.pc) {
        SqlSeen(p, r, b);
        NextLevel(q, Stage(p.pc));
      }
    }
  }

  lemma SqlStage(p: Pass, r: Response, b: Beat)
    requires InSql(p.pc) && !ResumeSql(p, r, b).pc.WriteFailure?
    ensures Stage(ResumeSql(p, r, b).pc) == Stage(p.pc) || Stage(ResumeSql(p, r, b).pc) == Stage(p.pc) + 1
    ensures 3 <= Stage(p.pc) <= 10 && Stage(ResumeSql(p, r, b).pc) <= 10
  {
    hide SetCondition, UpdatePhase;
  }

  /** The statement that takes a pass to the next stage was answered the way that stage needs. */
  lemma SqlSeen(p: Pass, r: Response, b: Beat)
    requires InSql(p.pc) && !ResumeSql(p, r, b).pc.WriteFailure?
    requires Stage(ResumeSql(p, r, b).pc) == Stage(p.pc) + 1
    ensures StatementSeen(After(p, r, b), Stage(p.pc))
  {
    SqlAnswered(p, r, b);
    SqlKeepsNames(p, r, b);
    hide After, DbName, RoleName;
    AnswerIsSeen(p, After(p, r, b), r);
  }

  lemma SqlKeepsNames(p: Pass, r: Response, b: Beat)
    requires InSql(p.pc)
    ensures var q := After(p, r, b);
            DbName(q) == DbName(p) && RoleName(q) == RoleName(p) && SameValues(p, q)
            && q.trace == p.trace + [Observation(NextCall(p), r)]
  {
    ResumeCases(p, r, b);
    hide Resume, ResumeSql, StatusStep, NextCall;
    SqlFacts(p, r, b);
    SameNames(p, After(p, r, b));
  }

  lemma AnswerIsSeen(p: Pass, q: Pass, r: Response)
    requires InSql(p.pc) && DbName(q) == DbName(p) && RoleName(q) == RoleName(p) && SameValues(p, q)
    requires q.trace == p.trace + [Observation(NextCall(p), r)]
    requires r.Done? || (r.AlreadyExists? && (p.pc.MakeRole? || p.pc.MakeDatabase?))
    requires !p.pc.ChangePassword? && !p.pc.ChangeDatabaseOwner?
    ensures StatementSeen(q, Stage(p.pc))
  {
    hide DbName, RoleName;
    assert q.trace[|p.trace|] == Observation(NextCall(p), r);
  }

  predicate StatementSeen(q: Pass, n: nat) {
    && (n == 3 ==> HasRole(q))
    && (n == 4 ==> HasDatabase(q))
    && (n == 5 ==> Saw(q, GrantIn(DbName(q), OnDatabase(RoleName(q))), Done))
    && (n == 6 ==> Saw(q, TargetOf(q), Done))
    && (n == 7 ==> Saw(q, PingTarget(DbName(q)), Done))
    && (n == 8 ==> Saw(q, GrantIn(DbName(q), OnSchema(RoleName(q))), Done))
    && (n == 9 ==> Saw(q, GrantIn(DbName(q), CreateOnSchema(RoleName(q))), Done))
  }

  /** Going on from one stage to the next takes an answer that is no failure. */
  lemma SqlAnswered(p: Pass, r: Response, b: Beat)
    requires InSql(p.pc) && !ResumeSql(p, r, b).pc.WriteFailure?
    requires Stage(ResumeSql(p, r, b).pc) == Stage(p.pc) + 1
    ensures p.pc.MakeRole? ==> r.Done? || r.AlreadyExists?
    ensures p.pc.MakeDatabase? ==> r.Done? || r.AlreadyExists?
    ensures p.pc.ChangePassword? || p.pc.ChangeDatabaseOwner? ==> false
    ensures !p.pc.MakeRole? && !p.pc.MakeDatabase? ==> r.Done?
  {
    hide SetCondition, UpdatePhase;
  }

  // ---------------------------------------------------------------- the repair

  lemma CommittedLasts(p: Pass, q: Pass, o: Observation, item: string)
    requires Committed(p, item) && q.trace == p.trace + [o] && DbName(q) == DbName(p) && RoleName(q) == RoleName(p)
    ensures Committed(q, item)
  {
    hide DbName, RoleName;
    var c := AlterOwner(DbName(p), item, RoleName(p));
    var i: nat :| i < |p.trace| && CommittedAt(p.trace, i, c);
    assert CommittedAt(q.trace, i, c);
  }

  lemma CommitIsSeen(p: Pass, q: Pass)
    requires p.pc.CommitRepair? && RepairEvidence(p) && q.trace == p.trace + [Observation(Commit, Done)]
    requires DbName(q) == DbName(p) && RoleName(q) == RoleName(p)
    ensures Committed(q, p.todo[0])
  {
    hide DbName, RoleName, Committed;
    var i := |p.trace| - 1;
    assert CommittedAt(q.trace, i, AlterOwner(DbName(p), p.todo[0], RoleName(p)));
    assert Committed(q, p.todo[0]) by { CommittedWitness(q, p.todo[0], i); }
  }

  lemma CommittedWitness(q: Pass, item: string, i: nat)
    requires i < |q.trace| && CommittedAt(q.trace, i, AlterOwner(DbName(q), item, RoleName(q)))
    ensures Committed(q, item)
  {
  }

  lemma SameNames(p: Pass, q: Pass)
    requires q.obj.key == p.obj.key && q.obj.spec == p.obj.spec
    ensures DbName(q) == DbName(p) && RoleName(q) == RoleName(p)
  {
  }

  lemma RepairLevel(q: Pass, n: nat)
    requires 10 <= n < 14 && Level(q, n)
    requires n == 10 ==> Saw(q, QueryWrongOwners(DbName(q), RoleName(q)), Done)
    requires n == 11 ==> Saw(q, FetchRow, EndOfRows)
    requires n == 12 ==> Saw(q, CloseRows, Done)
    ensures Level(q, n + 1)
  {
    hide SawCluster, HasSecret, HasCredentials, DbName, RoleName, HasRole, HasDatabase;
  }

  lemma RepairLocals(p: Pass, r: Response, b: Beat)
    requires InRepair(p.pc)
    ensures SameLocals(p, After(p, r, b), Observation(NextCall(p), r)) && SameValues(p, After(p, r, b))
  {
    ResumeCases(p, r, b);
    hide Resume, ResumeRepair, NextCall, StatusStep, InRepair;
    RepairFacts(p, r, b);
  }

  /** Listing the objects: begun, read to its end, closed. */
  lemma ListingEvidence(p: Pass, r: Response, b: Beat)
    requires Evidence(p) && (p.pc.ListWrongOwners? || p.pc.FetchWrongOwner? || p.pc.CloseListing?)
    ensures Evidence(After(p, r, b))
  {
    hide After, Evidence, NextCall, ListingMove, SameLocals, SameValues;
    ListingNext(p, r, b);
    RepairLocals(p, r, b);
    ListingGoesOn(p, After(p, r, b), Observation(NextCall(p), r));
  }

  lemma ListingGoesOn(p: Pass, q: Pass, o: Observation)
    requires Evidence(p) && (p.pc.ListWrongOwners? || p.pc.FetchWrongOwner? || p.pc.CloseListing?)
    requires SameLocals(p, q, o) && SameValues(p, q) && ListingMove(p, q)
    ensures Evidence(q)
  {
    hide Level, Committed, DbName, RoleName, SameLocals, SameValues;
    if q.pc.WriteFailure? {
      NoEvidenceNeeded(q);
    } else {
      LevelLasts(p, q, o, Stage(p.pc));
      ListingReaches(p, q);
    }
  }

  lemma ListingReaches(p: Pass, q: Pass)
    requires p.pc.ListWrongOwners? || p.pc.FetchWrongOwner? || p.pc.CloseListing?
    requires ListingMove(p, q) && !q.pc.WriteFailure? && Level(q, Stage(p.pc))
    ensures Level(q, Stage(q.pc))
  {
    hide Level, DbName, RoleName;
    if q.pc.FetchWrongOwner? && p.pc.ListWrongOwners? {
      RepairLevel(q, 10);
    } else if q.pc == CloseListing(true) {
      RepairLevel(q, 11);
    } else if q.pc.BeginRepair? {
      RepairLevel(q, 12);
    } else if q.pc.WriteStatus? {
      RepairLevel(q, 12);
      RepairLevel(q, 13);
    }
  }

  /** The ways on while the objects are being listed. */
  predicate ListingMove(p: Pass, q: Pass) {
    || (q.pc.FetchWrongOwner? && p.pc.ListWrongOwners? && q.todo == []
        && Saw(q, QueryWrongOwners(DbName(q), RoleName(q)), Done))
    || (p.pc.FetchWrongOwner? && q.todo == p.todo && (q.pc.FetchWrongOwner? || q.pc == CloseListing(false)))
    || (p.pc.FetchWrongOwner? && q.pc == CloseListing(true) && q.todo == p.todo && Saw(q, FetchRow, EndOfRows))
    || (p.pc == CloseListing(true) && q.pc.BeginRepair? && q.listed != [] && q.todo == q.listed
       && Saw(q, CloseRows, Done))
    || (p.pc == CloseListing(true) && q.pc.WriteStatus? && q.listed == [] && q.todo == p.todo
       && Saw(q, CloseRows, Done))
    || q.pc.WriteFailure?
  }

  lemma ListingNext(p: Pass, r: Response, b: Beat)
    requires p.pc.ListWrongOwners? || p.pc.FetchWrongOwner? || p.pc.CloseListing?
    ensures ListingMove(p, After(p, r, b))
  {
    ResumeCases(p, r, b);
    hide Resume, Repaired, RepairFailed, DatabaseNameOf, UserNameOf, StatusStep, SameObject;
    RepairFailedFacts(p, b);
    RepairedFacts(p, b);
    assert Observation(NextCall(p), r) in After(p, r, b).trace;
  }

  /** The transactions: what has been committed so far is exactly what is no longer to do. */
  lemma TransactionEvidence(p: Pass, r: Response, b: Beat)
    requires Evidence(p) && Stage(p.pc) == 13
    ensures Evidence(After(p, r, b))
  {
    hide After, NextCall, TransactionMove, SameLocals, SameValues, Level, Committed, DbName, RoleName;
    assert Evidence(After(p, r, b)) by {
      hide Evidence;
      TransactionTodo(p);
      TransactionNext(p, r, b);
      RepairLocals(p, r, b);
      TransactionGoesOn(p, After(p, r, b), Observation(NextCall(p), r));
    }
  }

  lemma TransactionTodo(p: Pass)
    requires Evidence(p) && Stage(p.pc) == 13
    ensures p.todo != []
    ensures p.pc.BeginRepair? || p.pc.LimitLockWait? || p.pc.RepairOwner? || p.pc.CommitRepair? || p.pc.RollbackRepair?
  {
    hide Level, Committed, DbName, RoleName;
  }

  lemma TransactionGoesOn(p: Pass, q: Pass, o: Observation)
    requires Evidence(p) && Stage(p.pc) == 13
    requires SameLocals(p, q, o) && SameValues(p, q) && TransactionMove(p, q)
    ensures Evidence(q)
  {
    hide Level, RepairEvidence, SameValues;
    if q.pc.WriteFailure? {
      NoEvidenceNeeded(q);
    } else {
      LevelLasts(p, q, o, 13);
      if q.pc.WriteStatus? {
        RepairLevel(q, 13);
      }
      SameNames(p, q);
      CommittedSoFar(p, q, o);
    }
  }

  lemma CommittedSoFar(p: Pass, q: Pass, o: Observation)
    requires RepairEvidence(p) && Stage(p.pc) == 13 && q.trace == p.trace + [o]
    requires DbName(q) == DbName(p) && RoleName(q) == RoleName(p)
    requires TransactionMove(p, q) && !q.pc.WriteFailure?
    ensures RepairEvidence(q)
  {
    hide DbName, RoleName, Committed;
    forall i | 0 <= i < |q.listed| - |q.todo|
      ensures Committed(q, q.listed[i])
    {
      if i < |p.listed| - |p.todo| {
        CommittedLasts(p, q, o, p.listed[i]);
      } else {
        CommitIsSeen(p, q);
      }
    }
  }

  /** The ways on while the objects are being repaired. */
  predicate TransactionMove(p: Pass, q: Pass) {
    && p.todo != [] && q.listed == p.listed
    && (|| (q.todo == p.todo && (q.pc.LimitLockWait? || q.pc.RepairOwner? || q.pc.RollbackRepair?))
        || (q.todo == p.todo && q.pc.CommitRepair? && q.trace != [] &&
            q.trace[|q.trace| - 1] == Observation(AlterOwner(DbName(p), p.todo[0], RoleName(p)), Done))
        || (p.pc.CommitRepair? && q.trace == p.trace + [Observation(Commit, Done)] && q.todo == p.todo[1..] &&
            ((q.pc.BeginRepair? && q.todo != []) || (q.pc.WriteStatus? && q.todo == [])))
        || q.pc.WriteFailure?)
  }

  lemma TransactionNext(p: Pass, r: Response, b: Beat)
    requires p.todo != []
    requires p.pc.BeginRepair? || p.pc.LimitLockWait? || p.pc.RepairOwner? || p.pc.CommitRepair? || p.pc.RollbackRepair?
    ensures TransactionMove(p, After(p, r, b))
  {
    hide Resume, ResumeRepair, TransactionMove;
    ResumeCases(p, r, b);
    if p.pc.CommitRepair? {
      CommitNext(p, r, b);
    } else {
      StatementNext(p, r, b);
    }
  }

  lemma CommitNext(p: Pass, r: Response, b: Beat)
    requires p.todo != [] && p.pc.CommitRepair?
    ensures TransactionMove(p, ResumeRepair(p, r, b).(trace := p.trace + [Observation(NextCall(p), r)]))
  {
    hide Repaired, RepairFailed, DatabaseNameOf, UserNameOf, StatusStep, SameObject, IsTrue, ConnectionOf;
    if r == Done {
      RepairedFacts(p.(todo := p.todo[1..]), b);
    } else {
      RepairFailedFacts(p, b);
    }
  }

  lemma StatementNext(p: Pass, r: Response, b: Beat)
    requires p.todo != [] && (p.pc.BeginRepair? || p.pc.LimitLockWait? || p.pc.RepairOwner? || p.pc.RollbackRepair?)
    ensures TransactionMove(p, ResumeRepair(p, r, b).(trace := p.trace + [Observation(NextCall(p), r)]))
  {
    hide Repaired, RepairFailed, DatabaseNameOf, UserNameOf, StatusStep, SameObject;
    RepairFailedFacts(p, b);
  }

  // ---------------------------------------------------------------- whole runs

  lemma StepEvidence(w: World, k: Key, p: Pass, b: Beat)
    requires StoreOk(w) && PassOk(w, k, p) && !p.pc.Stopped? && Evidence(p)
    ensures Evidence(Step(w, p, b).1)
  {
    var r := Api(w, k, NextCall(p), b).1;
    assert Step(w, p, b).1 == After(p, r, b);
    hide Api, Evidence, StoreOk, Control, Finalized, Synced;
    if p.pc.ReadCluster? {
      ClusterEvidence(p, r, b);
    } else if p.pc.ReadCredential? {
      CredentialEvidence(p, r, b);
    } else if p.pc.AddFinalizer? {
      UpdateKeepsNames(w, k, p, b);
      FinalizerEvidence(p, r, b);
    } else if p.pc.OpenConnection? || p.pc.PingConnection? {
      ConnectEvidence(p, r, b);
    } else if Middle(p.pc) {
      SecretEvidence(p, r, b);
    } else if InSql(p.pc) {
      SqlEvidence(p, r, b);
    } else if p.pc.ListWrongOwners? || p.pc.FetchWrongOwner? || p.pc.CloseListing? {
      ListingEvidence(p, r, b);
    } else if InRepair(p.pc) {
      TransactionEvidence(p, r, b);
    } else {
      RestEvidence(p, r, b);
    }
  }

  lemma UpdateKeepsNames(w: World, k: Key, p: Pass, b: Beat)
    requires StoreOk(w) && PassOk(w, k, p) && p.pc.AddFinalizer?
    ensures var r := Api(w, k, NextCall(p), b).1;
            r.Updated? ==> r.resource.key == p.obj.key && r.resource.spec == p.obj.spec
  {
    hide Api, StatusOk, Control, Finalized, Synced;
    ApiWrites(w, k, NextCall(p), b);
  }

  lemma RestEvidence(p: Pass, r: Response, b: Beat)
    requires p.pc.ReadResource? || (!Front(p.pc) && !Middle(p.pc) && !InSql(p.pc) && !InRepair(p.pc) && !p.pc.Stopped?)
    ensures Evidence(After(p, r, b))
  {
    hide Resume, ResumeFront, ResumeEnd, NextCall, Evidence;
    ResumeCases(p, r, b);
    if p.pc.ReadResource? {
      ReadIsNoEvidence(p, r, b);
    } else {
      RestIsOver(p, r, b);
    }
    NoEvidenceNeeded(After(p, r, b));
  }

  lemma ReadIsNoEvidence(p: Pass, r: Response, b: Beat)
    requires p.pc.ReadResource?
    ensures var q := ResumeFront(p, r, b); Stage(q.pc) == 0 && !q.pc.ReadCredential?
  {
    hide Resolve, Accept, FailWith, SetCondition, UpdatePhase;
  }

  lemma RestIsOver(p: Pass, r: Response, b: Beat)
    requires p.pc.WriteStatus? || p.pc.WriteFailure? || Dropping(p.pc) || p.pc.Refetch? || p.pc.RemoveFinalizer?
    ensures var q := ResumeEnd(p, r, b); Stage(q.pc) == 0 && !q.pc.ReadCredential?
  {
  }

  ghost predicate EvidenceInv(s: Sys) { forall k | k in s.passes :: Evidence(s.passes[k]) }

  lemma NextEvidence(s: Sys, e: Event)
    requires Inv(s) && EvidenceInv(s)
    ensures EvidenceInv(Next(s, e))
  {
    hide Step, MoveWorld, StoreOk, Control, Finalized, Synced, Evidence;
    match e {
      case Turn(k, b) =>
        if Running(s, k) {
          StepEvidence(s.w, k, s.passes[k], b);
        }
      case Start(k) => NoEvidenceNeeded(InitialPass(k));
      case _ =>
    }
  }

  lemma {:induction false} RunEvidence(s: Sys, events: seq<Event>)
    requires Inv(s) && EvidenceInv(s)
    ensures EvidenceInv(Run(s, events))
    decreases |events|
  {
    hide Inv, EvidenceInv, Next;
    if events != [] {
      NextKeeps(s, events[0]);
      NextEvidence(s, events[0]);
      RunEvidence(Next(s, events[0]), events[1..]);
    }
  }

  /** What a pass must have done itself by the time it turns Ready on. */
  predicate DidEverything(p: Pass) {
    && SawCluster(p) && HasCredentials(p) && Saw(p, PingServer, Done) && HasSecret(p) && HasRole(p) && HasDatabase(p)
    && Saw(p, GrantIn(DbName(p), OnDatabase(RoleName(p))), Done)
    && Saw(p, TargetOf(p), Done) && Saw(p, PingTarget(DbName(p)), Done)
    && Saw(p, GrantIn(DbName(p), OnSchema(RoleName(p))), Done)
    && Saw(p, GrantIn(DbName(p), CreateOnSchema(RoleName(p))), Done)
    && Saw(p, QueryWrongOwners(DbName(p), RoleName(p)), Done) && Saw(p, FetchRow, EndOfRows) && Saw(p, CloseRows, Done)
    && forall i | 0 <= i < |p.listed| :: Committed(p, p.listed[i])
  }

  // ---------------------------------------------------------------- the connection

  ghost predicate ConnectionInv(s: Sys) {
    && (forall k | k in s.w.resources :: ConnectionOk(s.w.resources[k]))
    && (forall k | k in s.passes && Live(s.passes[k]) :: ConnectionOk(s.passes[k].obj))
    && (forall k | k in s.passes :: Described(s.passes[k]))
  }

  /** The final write comes after the repair, and only there. */
  lemma ComesToWrite(p: Pass, r: Response, b: Beat)
    ensures Described(Resume(p, r, b))
  {
    ResumeCases(p, r, b);
    hide Resume, ResumeFront, ResumeSecret, ResumeSql, ResumeRepair, StatusStep, SameObject, ConnectionOf, IsTrue;
    if p.pc.ReadCluster? {
      ReadClusterFacts(p, r, b);
    } else if p.pc.ReadCredential? {
      ReadCredentialFacts(p, r, b);
    } else if Front(p.pc) {
      FrontNeverWrites(p, r, b);
    } else if Middle(p.pc) {
      MiddleFacts(p, r, b);
    } else if InSql(p.pc) {
      SqlFacts(p, r, b);
    } else if InRepair(p.pc) {
      RepairFacts(p, r, b);
    } else {
      EndNeverWrites(p, r, b);
    }
  }

  lemma FrontNeverWrites(p: Pass, r: Response, b: Beat)
    requires p.pc.ReadResource? || p.pc.AddFinalizer?
    ensures !ResumeFront(p, r, b).pc.WriteStatus?
  {
    hide Resolve, Accept;
  }

  lemma EndNeverWrites(p: Pass, r: Response, b: Beat)
    requires p.pc.WriteStatus? || p.pc.WriteFailure? || Dropping(p.pc) || p.pc.Refetch? || p.pc.RemoveFinalizer?
             || p.pc.Stopped?
    ensures !ResumeEnd(p, r, b).pc.WriteStatus?
  {
  }

  lemma StepDescribed(w: World, p: Pass, b: Beat)
    ensures Described(Step(w, p, b).1)
  {
    var r := Api(w, p.key, NextCall(p), b).1;
    hide Api, Resume, NextCall, IsTrue;
    ComesToWrite(p, r, b);
    assert ConnectionOf(Resume(p, r, b)) == ConnectionOf(Step(w, p, b).1);
  }

  lemma LocalConnection(p: Pass, r: Response, b: Beat)
    requires !p.pc.ReadResource? && !p.pc.AddFinalizer? && ConnectionOk(p.obj)
    ensures ConnectionOk(Resume(p, r, b).obj)
  {
    ResumeCases(p, r, b);
    hide Resume, ResumeFront, ResumeSecret, ResumeSql, ResumeRepair, SameObject, ConnectionOk;
    if p.pc.ReadCluster? {
      ReadClusterFacts(p, r, b);
    } else if p.pc.ReadCredential? {
      ReadCredentialFacts(p, r, b);
    } else if Middle(p.pc) {
      MiddleFacts(p, r, b);
    } else if InSql(p.pc) {
      SqlFacts(p, r, b);
    } else if InRepair(p.pc) {
      RepairFacts(p, r, b);
    }
  }

  lemma FinalizerConnection(w: World, k: Key, p: Pass, b: Beat)
    requires PassOk(w, k, p) && p.pc.AddFinalizer? && ConnectionOk(p.obj)
    requires k in w.resources ==> ConnectionOk(w.resources[k])
    ensures ConnectionOk(ResumeFront(p, Api(w, k, NextCall(p), b).1, b).obj)
  {
    hide Api, Control, Finalized, Synced;
    ApiWrites(w, k, NextCall(p), b);
  }

  lemma StepConnection(w: World, k: Key, p: Pass, b: Beat)
    requires StoreOk(w) && PassOk(w, k, p) && !p.pc.Stopped? && (Live(p) ==> ConnectionOk(p.obj))
    requires k in w.resources ==> ConnectionOk(w.resources[k])
    ensures var (w', q) := Step(w, p, b);
            (Live(q) ==> ConnectionOk(q.obj)) && (k in w'.resources ==> ConnectionOk(w'.resources[k]))
  {
    var r := Api(w, k, NextCall(p), b).1;
    ResumeCases(p, r, b);
    hide Api, Resume, Control, Finalized, Synced, StoreOk, ConnectionOk;
    if p.pc.ReadResource? {
      ReadAnswer(w, k, b);
    } else if p.pc.AddFinalizer? {
      FinalizerConnection(w, k, p, b);
    } else {
      LocalConnection(p, r, b);
    }
    StoredConnection(w, k, p, b);
  }

  lemma StoredConnection(w: World, k: Key, p: Pass, b: Beat)
    requires StoreOk(w) && PassOk(w, k, p) && !p.pc.Stopped? && (Live(p) ==> ConnectionOk(p.obj))
    requires k in w.resources ==> ConnectionOk(w.resources[k])
    ensures var w' := Api(w, k, NextCall(p), b).0; k in w'.resources ==> ConnectionOk(w'.resources[k])
  {
    CallKinds(p);
    hide Api, Control, Finalized, Synced, StatusOk;
    if WritesObject(p.pc) {
      ApiWrites(w, k, NextCall(p), b);
    } else {
      ApiKeepsResources(w, k, NextCall(p), b);
    }
  }

  lemma NextConnection(s: Sys, e: Event)
    requires Inv(s) && ConnectionInv(s)
    ensures ConnectionInv(Next(s, e))
  {
    hide Step, StoreOk, PassOk, MoveWorld, ConnectionOk, Described;
    assert forall k :: Described(InitialPass(k)) by { NotWritingYet(); }
    match e {
      case Turn(k, b) =>
        if Running(s, k) {
          StepConnection(s.w, k, s.passes[k], b);
          StepDescribed(s.w, s.passes[k], b);
          forall k2 | k2 in Next(s, e).w.resources && k2 != k
            ensures ConnectionOk(Next(s, e).w.resources[k2])
          {
            StepFrame(s.w, k, s.passes[k], b, k2);
          }
        }
      case Outside(m) =>
        MoveConnections(s.w, if m.RequestDeletion? then s.deleted + {m.key} else s.deleted, m);
      case _ =>
    }
  }

  lemma NotWritingYet()
    ensures forall k :: Described(InitialPass(k))
  {
  }

  lemma MoveConnections(w: World, deleted: set<Key>, m: Move)
    requires forall k | k in w.resources :: ConnectionOk(w.resources[k])
    ensures forall k | k in MoveWorld(w, deleted, m).resources :: ConnectionOk(MoveWorld(w, deleted, m).resources[k])
  {
  }

  lemma {:induction false} RunConnections(s: Sys, events: seq<Event>)
    requires Inv(s) && ConnectionInv(s)
    ensures ConnectionInv(Run(s, events))
    decreases |events|
  {
    hide Inv, ConnectionInv, Next;
    if events != [] {
      NextKeeps(s, events[0]);
      NextConnection(s, events[0]);
      RunConnections(Next(s, events[0]), events[1..]);
    }
  }

  /** In every state of every run, the URL of a stored connection has its own user, host, port and database. */
  lemma ConnectionsAgree(s: Sys, events: seq<Event>, k: Key)
    requires Initial(s) && k in Run(s, events).w.resources
    ensures var c := Run(s, events).w.resources[k].status.connection;
            c.Some? ==>
              c.value.url == Url(c.value.user, None, c.value.host, Text.PrintInt(c.value.port), c.value.database)
  {
    InitialInv(s);
    RunConnections(s, events);
    assert ConnectionOk(Run(s, events).w.resources[k]);
  }

  lemma EvidenceIsEverything(p: Pass)
    requires Evidence(p) && p.pc.WriteStatus?
    ensures DidEverything(p)
  {
    hide SawCluster, HasCredentials, HasSecret, HasRole, HasDatabase, DbName, RoleName, Committed;
  }

  /** The connection of the resource a pass works on, with the host and port it resolved. */
  function OwnConnection(p: Pass): Connection {
    Connection(p.host, p.port, DbName(p), RoleName(p), Url(RoleName(p), None, p.host, Text.PrintInt(p.port), DbName(p)))
  }

  /**
   * Ready soundness: over every run, an event that turns the stored Ready condition from not True to True is the turn
   * of a pass that has itself observed the cluster Ready, resolved its credentials, pinged the server, had a connection
   * secret, completed every required statement, and listed and committed every ownership repair; and the connection it
   * publishes has the host and port it resolved and the database and user of its resource.
   */
  lemma ReadyIsEarned(s: Sys, events: seq<Event>, e: Event, k: Key)
    requires Initial(s)
    requires var t := Run(s, events);
             k in t.w.resources && k in Next(t, e).w.resources
             && t.w.resources[k].uid == Next(t, e).w.resources[k].uid
    ensures var t := Run(s, events);
            var (before, after) := (t.w.resources[k], Next(t, e).w.resources[k]);
            !IsReady(before) && IsReady(after) ==>
              && e.Turn? && e.key == k && k in t.passes && t.passes[k].pc.WriteStatus? && DidEverything(t.passes[k])
              && after.status.connection == Some(OwnConnection(t.passes[k]))
  {
    var t := Run(s, events);
    InitialInv(s);
    RunKeeps(s, events);
    RunEvidence(s, events);
    RunConnections(s, events);
    NextStatus(t, e, k);
    hide Next, Run, Evidence, PassOk, StoreOk, ConnectionOf, OwnConnection, ConnectionOk, DidEverything;
    if !IsReady(t.w.resources[k]) && IsReady(Next(t, e).w.resources[k]) {
      EvidenceIsEverything(t.passes[k]);
      ConnectionIsOwn(t.passes[k]);
    }
  }

  lemma ConnectionIsOwn(p: Pass)
    ensures ConnectionOf(p) == OwnConnection(p)
  {
    ConnectionIsOk(p);
  }

  // ---------------------------------------------------------------- the port

  /** The parse fallback of updateStatus is never taken: the stored port is the port in the stored URL. */
  lemma PortRoundTrip(p: Pass)
    ensures ScannedPort(Text.PrintInt(p.port)) == p.port
    ensures ConnectionOf(p).port == p.port
    ensures ConnectionOf(p).url ==
            Url(RoleName(p), None, p.host, Text.PrintInt(ConnectionOf(p).port), DbName(p))
  {
    Text.PrintIntChars(p.port);
    Text.ScanPrinted(p.port, "");
    assert Text.PrintInt(p.port) + "" == Text.PrintInt(p.port);
  }
}
