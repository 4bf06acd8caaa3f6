/**
 * One Reconcile pass of the database controller as a machine that makes one call at a time: `NextCall` is the call
 * the pass is about to make, `Resume` is what it does with the response. A pass can stop between any two calls.
 */
module Machine {
  import opened Basics
  import opened Conditions
  import opened Text
  import opened ConnectionUrl
  import opened Model

  datatype Field = Host | User | Password

  /** How a pass ended. */
  datatype Ending = Ignored | Published | Released | Requeued | Errored

  /** The call a pass is about to make. */
  datatype Pc =
    | ReadResource
    | ReadCluster
    | ReadCredential(field: Field)
    | AddFinalizer
    | OpenConnection
    | PingConnection
    | ReadSecret
    | DrawPassword
    | OwnSecret
    | WriteSecret
    | MakeRole
    | ChangePassword
    | MakeDatabase
    | ChangeDatabaseOwner
    | GrantDatabase
    | OpenDatabase
    | PingDatabase
    | GrantSchema
    | GrantCreate
    | GrantDefault(kind: nat)
    | ListWrongOwners
    | FetchWrongOwner
    | CloseListing(complete: bool)
    | BeginRepair
    | LimitLockWait
    | RepairOwner
    | CommitRepair
    | RollbackRepair
    | WriteStatus
    | WriteFailure(ending: Ending)
    | OpenForDrop
    | BeginDrop
    | DropDatabaseStep
    | DropRoleStep
    | CommitDrop
    | RollbackDrop
    | Refetch
    | RemoveFinalizer
    | Stopped(ending: Ending)

  datatype Observation = Observation(call: Call, response: Response)

  /** The local state of a pass: where it is, the object in memory, what it has resolved, and what it has seen. */
  datatype Pass = Pass(key: Key, pc: Pc, obj: Resource, cluster: Cluster, host: string, port: int, user: string,
                       password: string, secretPassword: string, userExists: bool, listed: seq<string>,
                       todo: seq<string>,
                       latest: Resource, trace: seq<Observation>)

  const NO_RESOURCE: Resource :=
    Resource(Key("", ""), 0, 0, 0, false, [], Spec(Key("", ""), "", "", ""), EMPTY_STATUS)

  function InitialPass(k: Key): Pass {
    Pass(k, ReadResource, NO_RESOURCE.(key := k), Cluster(None, 0, None, None, []), "", 0, "", "", "", false, [], [],
         NO_RESOURCE.(key := k), [])
  }

  function RoleName(p: Pass): string { UserNameOf(p.obj) }

  function DbName(p: Pass): string { DatabaseNameOf(p.obj) }

  predicate HasFinalizer(r: Resource) { FINALIZER in r.finalizers }

  function SourceOf(c: Cluster, f: Field): Option<Source> {
    match f
    case Host => c.host
    case User => c.user
    case Password => c.password
  }

  function CredentialKey(p: Pass, from: Selector): Key {
    Key(if from.namespace != "" then from.namespace else ClusterKeyOf(p.obj).namespace, from.name)
  }

  function NextCall(p: Pass): Call {
    match p.pc
    case ReadResource => GetResource(p.key)
    case ReadCluster => GetCluster(ClusterKeyOf(p.obj))
    case ReadCredential(f) =>
      var source := SourceOf(p.cluster, f);
      if source.Some? && source.value.from.Some? then GetSecret(CredentialKey(p, source.value.from.value)) else NoCall
    case AddFinalizer => Update(p.obj.(finalizers := p.obj.finalizers + [FINALIZER]))
    case OpenConnection => OpenServer(p.host, p.port, p.user, p.password)
    case PingConnection => PingServer
    case ReadSecret => GetSecret(SecretKeyOf(p.obj.key))
    case DrawPassword => ReadRandom
    case OwnSecret => SetOwnerReference
    case WriteSecret =>
      CreateSecret(SecretKeyOf(p.obj.key), SecretData(p.host, p.port, DbName(p), RoleName(p), p.secretPassword))
    case MakeRole => CreateUser(RoleName(p), p.secretPassword)
    case ChangePassword => AlterUser(RoleName(p), p.secretPassword)
    case MakeDatabase => CreateDatabase(DbName(p), RoleName(p))
    case ChangeDatabaseOwner => AlterDatabaseOwner(DbName(p), RoleName(p))
    case GrantDatabase => GrantIn(DbName(p), OnDatabase(RoleName(p)))
    case OpenDatabase => OpenTarget(p.host, p.port, p.user, p.password, DbName(p))
    case PingDatabase => PingTarget(DbName(p))
    case GrantSchema => GrantIn(DbName(p), OnSchema(RoleName(p)))
    case GrantCreate => GrantIn(DbName(p), CreateOnSchema(RoleName(p)))
    case GrantDefault(kind) => GrantIn(DbName(p), ByDefault(kind, RoleName(p)))
    case ListWrongOwners => QueryWrongOwners(DbName(p), RoleName(p))
    case FetchWrongOwner => FetchRow
    case CloseListing(_) => CloseRows
    case BeginRepair => Begin
    case LimitLockWait => SetLockTimeout
    case RepairOwner => AlterOwner(DbName(p), if p.todo != [] then p.todo[0] else "", RoleName(p))
    case CommitRepair => Commit
    case RollbackRepair => Rollback
    case WriteStatus => UpdateStatus(p.obj)
    case WriteFailure(_) => UpdateStatus(p.obj)
    case OpenForDrop => OpenServer(p.host, p.port, p.user, p.password)
    case BeginDrop => Begin
    case DropDatabaseStep => DropDatabase(DbName(p))
    case DropRoleStep => DropUser(RoleName(p))
    case CommitDrop => Commit
    case RollbackDrop => Rollback
    case Refetch => GetResource(p.obj.key)
    case RemoveFinalizer => Update(p.latest.(finalizers := Without(p.latest.finalizers, FINALIZER)))
    case Stopped(_) => NoCall
  }

  // ---------------------------------------------------------------- status

  function SetCondition(p: Pass, kind: string, ok: bool, message: string, now: int): Pass {
    var s := p.obj.status;
    p.(obj := p.obj.(status := s.(conditions := Upsert(s.conditions, Fresh(kind, ok, message, now, p.obj.generation)))))
  }

  function UpdatePhase(p: Pass): Pass {
    var s := p.obj.status;
    p.(obj := p.obj.(status := s.(phase := DatabasePhase(s.conditions, p.obj.deleting))))
  }

  predicate Holds(p: Pass, kind: string) { IsTrue(p.obj.status.conditions, kind) }

  predicate AllReady(p: Pass) {
    Holds(p, "ClusterReady") && Holds(p, "SecretReady") && Holds(p, "ConnectionReady") && Holds(p, "DatabaseReady")
  }

  function ScannedPort(text: string): int {
    if text == "" then 5432
    else match ScanInt(text) case None => 5432 case Some(n) => n
  }

  function ConnectionOf(p: Pass): Connection {
    var text := PrintInt(p.port);
    Connection(p.host, ScannedPort(text), DbName(p), RoleName(p), Url(RoleName(p), None, p.host, text, DbName(p)))
  }

  /** updateStatus up to its write: observed generation, overall Ready, phase, connection. */
  function Finish(p: Pass, now: int): Pass {
    var ready := AllReady(p);
    var p1 := p.(obj := p.obj.(status := p.obj.status.(observedGeneration := p.obj.generation)));
    var p2 := UpdatePhase(SetCondition(p1, "Ready", ready, if ready then "ready" else "not ready", now));
    var p3 := if ready then p2.(obj := p2.obj.(status := p2.obj.status.(connection := Some(ConnectionOf(p2))))) else p2;
    p3.(pc := WriteStatus)
  }

  /** A false condition, the phase that follows from it, and a status write before the pass gives up. */
  function FailWith(p: Pass, kind: string, message: string, now: int, ending: Ending): Pass {
    UpdatePhase(SetCondition(p, kind, false, message, now)).(pc := WriteFailure(ending))
  }

  /** Gives up without a status write. A deletion pass goes on to remove the finalizer all the same. */
  function GiveUp(p: Pass, ending: Ending): Pass {
    p.(pc := if p.obj.deleting then Refetch else Stopped(ending))
  }

  // ---------------------------------------------------------------- credentials

  function SetField(p: Pass, f: Field, value: string): Pass {
    match f
    case Host => p.(host := value)
    case User => p.(user := value)
    case Password => p.(password := value)
  }

  function FieldRank(f: Field): nat {
    match f
    case Host => 2
    case User => 1
    case Password => 0
  }

  /** resolveStringOrSecret for one field, up to the read of a secret. */
  function Resolve(p: Pass, f: Field, now: int): Pass
    decreases FieldRank(f), 1
  {
    match SourceOf(p.cluster, f)
    case None => GiveUp(p, Errored)
    case Some(source) =>
      if source.value != "" then Accept(p, f, source.value, now)
      else if source.from.None? then GiveUp(p, Errored)
      else p.(pc := ReadCredential(f))
  }

  function Accept(p: Pass, f: Field, value: string, now: int): Pass
    decreases FieldRank(f), 0
  {
    var q := SetField(p, f, value);
    match f
    case Host => Resolve(q, User, now)
    case User => Resolve(q, Password, now)
    case Password => Resolved(q, now)
  }

  /** The end of resolveClusterConnection, and what its two callers do next. */
  function Resolved(p: Pass, now: int): Pass {
    if p.host == "" then FailWith(p, "SecretReady", "host is not configured", now, Errored)
    else if p.user == "" then FailWith(p, "SecretReady", "user is not configured", now, Errored)
    else if p.password == "" then FailWith(p, "SecretReady", "password is not configured", now, Errored)
    else
      var q := SetCondition(p, "SecretReady", true, "resolved", now)
               .(port := if p.cluster.port == 0 then 5432 else p.cluster.port);
      if q.obj.deleting then q.(pc := if q.obj.spec.policy == "Delete" then OpenForDrop else Refetch)
      else q.(pc := if HasFinalizer(q.obj) then OpenConnection else AddFinalizer)
  }

  // ---------------------------------------------------------------- responses

  function ResumeFront(p: Pass, r: Response, b: Beat): Pass
    requires p.pc.ReadResource? || p.pc.ReadCluster? || p.pc.ReadCredential? || p.pc.AddFinalizer?
  {
    match p.pc
    case ReadResource =>
      if r.Found? then
        if r.resource.deleting && !HasFinalizer(r.resource) then p.(obj := r.resource, pc := Stopped(Ignored))
        else p.(obj := r.resource, pc := ReadCluster)
      else p.(pc := Stopped(if r.NotFound? then Ignored else Errored))
    case ReadCluster =>
      if r.FoundCluster? then
        var q := p.(cluster := r.cluster);
        if p.obj.deleting then Resolve(q, Host, b.now)
        else
          var ready := ClusterIsReady(r.cluster);
          var q2 := SetCondition(q, "ClusterReady", ready, "cluster readiness", b.now);
          if ready then Resolve(q2, Host, b.now) else UpdatePhase(q2).(pc := WriteFailure(Requeued))
      else if p.obj.deleting then p.(pc := Refetch)
      else FailWith(p, "ClusterReady", "cluster not read", b.now, if r.NotFound? then Requeued else Errored)
    case ReadCredential(f) =>
      var source := SourceOf(p.cluster, f);
      if source.None? || source.value.from.None? then GiveUp(p, Errored)
      else if r.FoundSecret? then
        var entry := source.value.from.value.entry;
        if entry in r.data then Accept(p, f, r.data[entry], b.now) else GiveUp(p, Errored)
      else if r.NotFound? then FailWith(p, "SecretReady", "secret not found", b.now, Requeued)
      else GiveUp(p, Errored)
    case AddFinalizer =>
      if r.Updated? then
        p.(obj := if b.keepsStatus then r.resource.(status := p.obj.status) else r.resource, pc := OpenConnection)
      else p.(pc := Stopped(Errored))
  }

  function ResumeSecret(p: Pass, r: Response, b: Beat): Pass
    requires p.pc.OpenConnection? || p.pc.PingConnection? || p.pc.ReadSecret? || p.pc.DrawPassword? || p.pc.OwnSecret?
             || p.pc.WriteSecret?
  {
    match p.pc
    case OpenConnection =>
      if r.Done? then p.(pc := PingConnection)
      else FailWith(p, "ConnectionReady", "open failed", b.now, Errored)
    case PingConnection =>
      if r.Done? then SetCondition(p, "ConnectionReady", true, "connected", b.now).(pc := ReadSecret)
      else FailWith(p, "ConnectionReady", "ping failed", b.now, Errored)
    case ReadSecret =>
      if r.NotFound? then p.(pc := DrawPassword)
      else if r.FoundSecret? then
        SetCondition(p, "SecretReady", true, "connection secret exists", b.now)
        .(secretPassword := PasswordIn(r.data), pc := MakeRole)
      else FailWith(p, "SecretReady", "connection secret not read", b.now, Errored)
    case DrawPassword =>
      if r.Bytes? then p.(secretPassword := PasswordFrom(r.bytes), pc := OwnSecret)
      else FailWith(p, "SecretReady", "no random password", b.now, Errored)
    case OwnSecret =>
      if r.Done? then p.(pc := WriteSecret)
      else FailWith(p, "SecretReady", "controller reference not set", b.now, Errored)
    case WriteSecret =>
      if r.Done? then SetCondition(p, "SecretReady", true, "connection secret created", b.now).(pc := MakeRole)
      else FailWith(p, "SecretReady", "connection secret not created", b.now, Errored)
  }

  predicate InSql(pc: Pc) {
    pc.MakeRole? || pc.ChangePassword? || pc.MakeDatabase? || pc.ChangeDatabaseOwner? || pc.GrantDatabase?
    || pc.OpenDatabase? || pc.PingDatabase? || pc.GrantSchema? || pc.GrantCreate? || pc.GrantDefault?
  }

  /** A statement the pass cannot do without: go on, or fail with DatabaseReady false. */
  function Required(p: Pass, r: Response, next: Pc, b: Beat): Pass {
    if r.Done? then p.(pc := next) else FailWith(p, "DatabaseReady", "statement failed", b.now, Errored)
  }

  function ResumeSql(p: Pass, r: Response, b: Beat): Pass
    requires InSql(p.pc)
  {
    match p.pc
    case MakeRole =>
      if r.AlreadyExists? then p.(userExists := true, pc := ChangePassword)
      else Required(p.(userExists := false), r, MakeDatabase, b)
    case ChangePassword => p.(pc := MakeDatabase)
    case MakeDatabase =>
      if r.AlreadyExists? then p.(pc := if p.userExists then ChangeDatabaseOwner else GrantDatabase)
      else Required(p, r, GrantDatabase, b)
    case ChangeDatabaseOwner => p.(pc := GrantDatabase)
    case GrantDatabase => Required(p, r, OpenDatabase, b)
    case OpenDatabase => Required(p, r, PingDatabase, b)
    case PingDatabase => Required(p, r, GrantSchema, b)
    case GrantSchema => Required(p, r, GrantCreate, b)
    case GrantCreate => Required(p, r, GrantDefault(0), b)
    case GrantDefault(kind) => p.(pc := if kind < 2 then GrantDefault(kind + 1) else ListWrongOwners)
  }

  predicate InRepair(pc: Pc) {
    pc.ListWrongOwners? || pc.FetchWrongOwner? || pc.CloseListing? || pc.BeginRepair? || pc.LimitLockWait?
    || pc.RepairOwner? || pc.CommitRepair? || pc.RollbackRepair?
  }

  function RepairFailed(p: Pass, b: Beat): Pass {
    FailWith(SetCondition(p, "DatabaseReady", false, "ownership repair failed", b.now),
             "Ready", "ownership repair failed; will retry", b.now, Errored)
  }

  function Repaired(p: Pass, b: Beat): Pass {
    Finish(SetCondition(p, "DatabaseReady", true, "created", b.now), b.now)
  }

  function ResumeRepair(p: Pass, r: Response, b: Beat): Pass
    requires InRepair(p.pc)
  {
    match p.pc
    case ListWrongOwners =>
      if r.Done? then p.(listed := [], todo := [], pc := FetchWrongOwner) else RepairFailed(p, b)
    case FetchWrongOwner =>
      if r.Row? then p.(listed := p.listed + [r.item]) else p.(pc := CloseListing(r.EndOfRows?))
    case CloseListing(complete) =>
      if !complete || !r.Done? then RepairFailed(p, b)
      else if p.listed == [] then Repaired(p, b)
      else p.(todo := p.listed, pc := BeginRepair)
    case BeginRepair => if r.Done? then p.(pc := LimitLockWait) else RepairFailed(p, b)
    case LimitLockWait => p.(pc := if r.Done? then RepairOwner else RollbackRepair)
    case RepairOwner => p.(pc := if r.Done? then CommitRepair else RollbackRepair)
    case CommitRepair =>
      if !r.Done? then RepairFailed(p, b)
      else
        var q := p.(todo := if p.todo != [] then p.todo[1..] else []);
        if q.todo == [] then Repaired(q, b) else q.(pc := BeginRepair)
    case RollbackRepair => RepairFailed(p, b)
  }

  function ResumeEnd(p: Pass, r: Response, b: Beat): Pass
    requires p.pc.WriteStatus? || p.pc.WriteFailure? || p.pc.OpenForDrop? || p.pc.BeginDrop? || p.pc.DropDatabaseStep?
             || p.pc.DropRoleStep? || p.pc.CommitDrop? || p.pc.RollbackDrop? || p.pc.Refetch? || p.pc.RemoveFinalizer?
             || p.pc.Stopped?
  {
    match p.pc
    case WriteStatus => p.(pc := Stopped(if r.Updated? then Published else Errored))
    case WriteFailure(ending) => GiveUp(p, ending)
    case OpenForDrop => p.(pc := if r.Done? then BeginDrop else Refetch)
    case BeginDrop => p.(pc := if r.Done? then DropDatabaseStep else Refetch)
    case DropDatabaseStep => p.(pc := if r.Done? then DropRoleStep else RollbackDrop)
    case DropRoleStep => p.(pc := if r.Done? then CommitDrop else RollbackDrop)
    case CommitDrop => p.(pc := Refetch)
    case RollbackDrop => p.(pc := Refetch)
    case Refetch =>
      if r.Found? then
        p.(latest := r.resource, pc := if HasFinalizer(r.resource) then RemoveFinalizer else Stopped(Ignored))
      else p.(pc := Stopped(if r.NotFound? then Ignored else Errored))
    case RemoveFinalizer =>
      p.(pc := Stopped(if r.Updated? then Released else if r.Conflict? then Requeued else Errored))
    case Stopped(_) => p
  }

  function Resume(p: Pass, r: Response, b: Beat): Pass {
    if p.pc.ReadResource? || p.pc.ReadCluster? || p.pc.ReadCredential? || p.pc.AddFinalizer? then ResumeFront(p, r, b)
    else if p.pc.OpenConnection? || p.pc.PingConnection? || p.pc.ReadSecret? || p.pc.DrawPassword? || p.pc.OwnSecret?
            || p.pc.WriteSecret? then ResumeSecret(p, r, b)
    else if InSql(p.pc) then ResumeSql(p, r, b)
    else if InRepair(p.pc) then ResumeRepair(p, r, b)
    else ResumeEnd(p, r, b)
  }

  /** One call of a pass: the world after it, and the pass after it has dealt with the response. */
  function Step(w: World, p: Pass, b: Beat): (World, Pass) {
    var (w', r) := Api(w, p.key, NextCall(p), b);
    (w', Resume(p, r, b).(trace := p.trace + [Observation(NextCall(p), r)]))
  }

  /** A pass driven by a tape of decisions; the pass dies where the tape ends. */
  function Drive(w: World, p: Pass, tape: seq<Beat>): (World, Pass)
    decreases |tape|
  {
    if p.pc.Stopped? || tape == [] then (w, p)
    else
      var (w', p') := Step(w, p, tape[0]);
      Drive(w', p', tape[1..])
  }

  /** A whole pass of resource k, cut off where the tape ends. Its connections are new. */
  function RunPass(w: World, k: Key, tape: seq<Beat>): (World, Pass) {
    Drive(WithSession(w, k, IDLE), InitialPass(k), tape)
  }
}
