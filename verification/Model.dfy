/**
 * The two stores the database controller works on, and the calls it makes on them. Every call is decided by an
 * adversary: it works, fails without effect, fails after its effect, or (for a read) hides an existing object.
 */
module Model {
  import opened Basics
  import opened Conditions
  import opened Names
  import opened ConnectionUrl

  const FINALIZER: string := "postgresdatabase.finalizers.homelab.mortenolsen.pro"

  // ---------------------------------------------------------------- Kubernetes objects

  datatype Key = Key(namespace: string, name: string)

  datatype Spec = Spec(cluster: Key, databaseName: string, userName: string, policy: string)

  datatype Connection = Connection(host: string, port: int, database: string, user: string, url: string)

  datatype Status = Status(observedGeneration: nat, conditions: seq<Condition>, phase: Phase,
                           connection: Option<Connection>)

  const EMPTY_STATUS: Status := Status(0, [], Unset, None)

  /** A PostgresDatabase. The uid tells incarnations apart; the version changes with every write. */
  datatype Resource = Resource(key: Key, uid: nat, version: nat, generation: nat, deleting: bool,
                               finalizers: seq<string>, spec: Spec, status: Status)

  datatype Selector = Selector(name: string, entry: string, namespace: string)

  /** A StringOrSecret. */
  datatype Source = Source(value: string, from: Option<Selector>)

  /** The part of a PostgresCluster that the database controller reads. */
  datatype Cluster = Cluster(host: Option<Source>, port: int, user: Option<Source>, password: Option<Source>,
                             conditions: seq<Condition>)

  function DatabaseNameOf(r: Resource): string { ChosenName(r.spec.databaseName, r.key.namespace, r.key.name) }

  function UserNameOf(r: Resource): string { ChosenName(r.spec.userName, r.key.namespace, r.key.name) }

  function ClusterKeyOf(r: Resource): Key {
    Key(if r.spec.cluster.namespace != "" then r.spec.cluster.namespace else r.key.namespace, r.spec.cluster.name)
  }

  function SecretKeyOf(k: Key): Key { Key(k.namespace, SecretName(k.name)) }

  /** Reading a missing entry of a secret's data gives the empty string. */
  function PasswordIn(data: map<string, string>): string { if "password" in data then data["password"] else "" }

  predicate ClusterIsReady(c: Cluster) {
    exists i | 0 <= i < |c.conditions| :: c.conditions[i].kind == "Ready" && c.conditions[i].status == True
  }

  /** RemoveFinalizer: every occurrence goes, the others keep their order. */
  function Without(finalizers: seq<string>, f: string): seq<string> {
    if finalizers == [] then []
    else (if finalizers[0] == f then [] else [finalizers[0]]) + Without(finalizers[1..], f)
  }

  // ---------------------------------------------------------------- PostgreSQL

  datatype Grant = OnDatabase(user: string) | OnSchema(user: string) | CreateOnSchema(user: string)
                 | ByDefault(kind: nat, user: string)

  /** A database: its owner, what has been granted in it, and the owner of each object of its public schema. */
  datatype Database = Database(owner: string, grants: set<Grant>, objects: map<string, string>)

  /**
   * Roles with their passwords, and databases. A new database starts with the objects of the template.
   * dropInTransaction says whether DROP DATABASE is accepted inside a transaction; PostgreSQL refuses it.
   */
  datatype Server = Server(roles: map<string, string>, databases: map<string, Database>,
                           template: map<string, string>, dropInTransaction: bool)

  datatype Change = SetOwner(database: string, item: string, user: string)
                  | RemoveDatabase(database: string)
                  | RemoveRole(user: string)

  datatype Transaction = Transaction(changes: seq<Change>, aborted: bool)

  /** What one pass holds open on the server: the rows left in its cursor, and its transactions. */
  datatype Session = Session(cursor: Option<seq<string>>, transactions: seq<Transaction>)

  const IDLE: Session := Session(None, [])

  datatype World = World(resources: map<Key, Resource>, secrets: map<Key, map<string, string>>,
                         clusters: map<Key, Cluster>, server: Server, sessions: map<Key, Session>, clock: nat)

  function SessionOf(w: World, k: Key): Session { if k in w.sessions then w.sessions[k] else IDLE }

  function WithSession(w: World, k: Key, s: Session): World { w.(sessions := w.sessions[k := s]) }

  /** Objects locked by a session: those its open transactions have altered. */
  function Locked(s: Session): set<string> {
    set i, j | 0 <= i < |s.transactions| && 0 <= j < |s.transactions[i].changes|
               && s.transactions[i].changes[j].SetOwner? :: s.transactions[i].changes[j].item
  }

  function WrongObjects(d: Database, user: string): set<string> {
    set o | o in d.objects && d.objects[o] != user
  }

  // ---------------------------------------------------------------- calls

  datatype Call =
    | GetResource(key: Key)
    | GetCluster(key: Key)
    | GetSecret(key: Key)
    | Update(resource: Resource)
    | UpdateStatus(resource: Resource)
    | ReadRandom
    | SetOwnerReference
    | CreateSecret(key: Key, data: map<string, string>)
    | OpenServer(host: string, port: int, user: string, password: string)
    | PingServer
    | CreateUser(user: string, password: string)
    | AlterUser(user: string, password: string)
    | CreateDatabase(database: string, user: string)
    | AlterDatabaseOwner(database: string, user: string)
    | GrantIn(database: string, grant: Grant)
    | OpenTarget(host: string, port: int, user: string, password: string, database: string)
    | PingTarget(database: string)
    | QueryWrongOwners(database: string, user: string)
    | FetchRow
    | CloseRows
    | Begin
    | SetLockTimeout
    | AlterOwner(database: string, item: string, user: string)
    | DropDatabase(database: string)
    | DropUser(user: string)
    | Commit
    | Rollback
    | NoCall

  datatype Response =
    | Done
    | Error
    | NotFound
    | Conflict
    | AlreadyExists
    | Found(resource: Resource)
    | FoundCluster(cluster: Cluster)
    | FoundSecret(data: map<string, string>)
    | Updated(resource: Resource)
    | Bytes(bytes: seq<Byte>)
    | Row(item: string)
    | EndOfRows

  datatype Luck = Works | Fails | FailsLate | Hides

  /**
   * The adversary's decision for one call: its luck, the clock reading, the order of a listing, the random bytes,
   * and whether the client's Update keeps the status the caller holds in memory.
   */
  datatype Beat = Beat(luck: Luck, now: int, order: seq<string>, bytes: seq<Byte>, keepsStatus: bool)

  predicate Takes(b: Beat) { b.luck == Works || b.luck == FailsLate }

  function Answer(b: Beat, ok: Response): Response { if b.luck == Works then ok else Error }

  /** A call with an effect on the world when it can succeed at all. */
  function Act(w: World, b: Beat, possible: bool, after: World): (World, Response) {
    if possible && Takes(b) then (after, Answer(b, Done)) else (w, Error)
  }

  function Read(b: Beat, present: bool, found: Response): Response {
    match b.luck
    case Works => if present then found else NotFound
    case Hides => NotFound
    case _ => Error
  }

  // ---------------------------------------------------------------- Kubernetes semantics

  /** The object as the API server stores it after an update of everything but the status. */
  function Rewritten(w: World, stored: Resource, r: Resource): Resource {
    stored.(finalizers := r.finalizers, spec := r.spec, version := w.clock)
  }

  /** An object marked for deletion goes away when its last finalizer does. */
  function Store(w: World, r: Resource): World {
    w.(resources := if r.deleting && r.finalizers == [] then w.resources - {r.key} else w.resources[r.key := r],
       clock := w.clock + 1)
  }

  /** Optimistic concurrency: a write goes through only against the version it was read at. */
  predicate Current(w: World, r: Resource) { r.key in w.resources && w.resources[r.key].version == r.version }

  function KubeCall(w: World, call: Call, b: Beat): (World, Response)
    requires call.GetResource? || call.GetCluster? || call.GetSecret? || call.Update? || call.UpdateStatus?
             || call.CreateSecret?
  {
    match call
    case GetResource(k) =>
      (w, Read(b, k in w.resources, if k in w.resources then Found(w.resources[k]) else NotFound))
    case GetCluster(k) =>
      (w, Read(b, k in w.clusters, if k in w.clusters then FoundCluster(w.clusters[k]) else NotFound))
    case GetSecret(k) =>
      (w, Read(b, k in w.secrets, if k in w.secrets then FoundSecret(w.secrets[k]) else NotFound))
    case Update(r) =>
      if !Takes(b) then (w, Error)
      else if r.key !in w.resources then (w, Answer(b, NotFound))
      else if !Current(w, r) then (w, Answer(b, Conflict))
      else
        var after := Rewritten(w, w.resources[r.key], r);
        (Store(w, after), Answer(b, Updated(after)))
    case UpdateStatus(r) =>
      if !Takes(b) then (w, Error)
      else if r.key !in w.resources then (w, Answer(b, NotFound))
      else if !Current(w, r) then (w, Answer(b, Conflict))
      else
        var after := w.resources[r.key].(status := r.status, version := w.clock);
        (Store(w, after), Answer(b, Updated(after)))
    case CreateSecret(k, data) =>
      if k in w.secrets && b.luck == Works then (w, AlreadyExists)
      else Act(w, b, k !in w.secrets, w.(secrets := w.secrets[k := data]))
  }

  // ---------------------------------------------------------------- PostgreSQL semantics

  function Apply(s: Server, c: Change): Server {
    match c
    case SetOwner(d, o, u) =>
      if d in s.databases && o in s.databases[d].objects
      then s.(databases := s.databases[d := s.databases[d].(objects := s.databases[d].objects[o := u])])
      else s
    case RemoveDatabase(d) => s.(databases := s.databases - {d})
    case RemoveRole(u) => s.(roles := s.roles - {u})
  }

  function ApplyAll(s: Server, changes: seq<Change>): Server
    decreases |changes|
  {
    if changes == [] then s else ApplyAll(Apply(s, changes[0]), changes[1..])
  }

  predicate IsListing(order: seq<string>, wrong: set<string>) {
    && (forall i, j | 0 <= i < j < |order| :: order[i] != order[j])
    && (forall o | o in order :: o in wrong)
    && (forall o | o in wrong :: o in order)
  }

  /** Statements outside a transaction: each takes effect at once. */
  function StatementCall(w: World, call: Call, b: Beat): (World, Response)
    requires call.CreateUser? || call.AlterUser? || call.CreateDatabase? || call.AlterDatabaseOwner? || call.GrantIn?
             || call.PingTarget?
  {
    var s := w.server;
    match call
    case CreateUser(u, p) =>
      if u in s.roles && b.luck == Works then (w, AlreadyExists)
      else Act(w, b, u !in s.roles, w.(server := s.(roles := s.roles[u := p])))
    case AlterUser(u, p) =>
      Act(w, b, u in s.roles, w.(server := s.(roles := s.roles[u := p])))
    case CreateDatabase(d, u) =>
      if d in s.databases && b.luck == Works then (w, AlreadyExists)
      else Act(w, b, d !in s.databases && u in s.roles,
               w.(server := s.(databases := s.databases[d := Database(u, {}, s.template)])))
    case AlterDatabaseOwner(d, u) =>
      if d in s.databases
      then Act(w, b, u in s.roles, w.(server := s.(databases := s.databases[d := s.databases[d].(owner := u)])))
      else (w, Error)
    case GrantIn(d, g) =>
      if d in s.databases
      then Act(w, b, g.user in s.roles,
               w.(server := s.(databases := s.databases[d := s.databases[d].(grants := s.databases[d].grants + {g})])))
      else (w, Error)
    case PingTarget(d) => Act(w, b, d in s.databases, w)
  }

  /** Adds a change to the innermost open transaction; a refused statement aborts that transaction. */
  function Stage(w: World, k: Key, b: Beat, possible: bool, changes: seq<Change>): (World, Response) {
    var session := SessionOf(w, k);
    var n := |session.transactions|;
    if n == 0 then (w, Error)
    else
      var t := session.transactions[n - 1];
      if possible && !t.aborted && Takes(b)
      then (WithSession(w, k,
          session.(transactions := session.transactions[n - 1 := t.(changes := t.changes + changes)])),
            Answer(b, Done))
      else (WithSession(w, k, session.(transactions := session.transactions[n - 1 := t.(aborted := true)])), Error)
  }

  /**
   * Cursors and transactions of the session of one pass. A query or BEGIN that reports an error leaves nothing
   * open: the driver discards the connection.
   */
  function SessionCall(w: World, k: Key, call: Call, b: Beat): (World, Response)
    requires call.QueryWrongOwners? || call.FetchRow? || call.CloseRows? || call.Begin? || call.SetLockTimeout?
             || call.AlterOwner? || call.DropDatabase? || call.DropUser? || call.Commit? || call.Rollback?
  {
    var s := w.server;
    var session := SessionOf(w, k);
    var n := |session.transactions|;
    match call
    case QueryWrongOwners(d, u) =>
      if d in s.databases && IsListing(b.order, WrongObjects(s.databases[d], u))
         && b.luck == Works
      then (WithSession(w, k, session.(cursor := Some(b.order))), Done)
      else (w, Error)
    case FetchRow =>
      if session.cursor.None? || b.luck != Works then (w, Error)
      else if session.cursor.value == [] then (w, EndOfRows)
      else (WithSession(w, k, session.(cursor := Some(session.cursor.value[1..]))), Row(session.cursor.value[0]))
    case CloseRows => (WithSession(w, k, session.(cursor := None)), Answer(b, Done))
    case Begin =>
      if b.luck == Works
      then (WithSession(w, k, session.(transactions := session.transactions + [Transaction([], false)])), Done)
      else (w, Error)
    case SetLockTimeout => Stage(w, k, b, true, [])
    case AlterOwner(d, o, u) =>
      Stage(w, k, b, d in s.databases && o in s.databases[d].objects && u in s.roles, [SetOwner(d, o, u)])
    case DropDatabase(d) => Stage(w, k, b, s.dropInTransaction, [RemoveDatabase(d)])
    case DropUser(u) => Stage(w, k, b, true, [RemoveRole(u)])
    case Commit =>
      if n == 0 then (w, Error)
      else
        var t := session.transactions[n - 1];
        var closed := WithSession(w, k, session.(transactions := session.transactions[..n - 1]));
        if !t.aborted && Takes(b) then (closed.(server := ApplyAll(s, t.changes)), Answer(b, Done))
        else (closed, Error)
    case Rollback =>
      if n == 0 then (w, Error)
      else (WithSession(w, k, session.(transactions := session.transactions[..n - 1])), Answer(b, Done))
  }

  /** One call of the pass of resource k. */
  function Api(w: World, k: Key, call: Call, b: Beat): (World, Response) {
    match call
    case NoCall => (w, Done)
    case SetOwnerReference => (w, Answer(b, Done))
    case OpenServer(_, _, _, _) => (w, Answer(b, Done))
    case OpenTarget(_, _, _, _, _) => (w, Answer(b, Done))
    case PingServer => (w, Answer(b, Done))
    case ReadRandom => (w, if |b.bytes| == 32 then Answer(b, Bytes(b.bytes)) else Error)
    case GetResource(_) => KubeCall(w, call, b)
    case GetCluster(_) => KubeCall(w, call, b)
    case GetSecret(_) => KubeCall(w, call, b)
    case Update(_) => KubeCall(w, call, b)
    case UpdateStatus(_) => KubeCall(w, call, b)
    case CreateSecret(_, _) => KubeCall(w, call, b)
    case CreateUser(_, _) => StatementCall(w, call, b)
    case AlterUser(_, _) => StatementCall(w, call, b)
    case CreateDatabase(_, _) => StatementCall(w, call, b)
    case AlterDatabaseOwner(_, _) => StatementCall(w, call, b)
    case GrantIn(_, _) => StatementCall(w, call, b)
    case PingTarget(_) => StatementCall(w, call, b)
    case _ => SessionCall(w, k, call, b)
  }
}
