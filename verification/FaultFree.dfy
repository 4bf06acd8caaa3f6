/**
 * A pass that meets no fault: it always ends with a published status after a number of calls that grows with the
 * wrongly owned objects only, and that status is Ready exactly when the pass still knows that its cluster is.
 */
module FaultFree {
  import opened Basics
  import opened Conditions
  import opened ConnectionUrl
  import opened Model
  import opened Machine
  import opened MachineFacts
  import opened Frames
  import opened Invariants
  import opened SecretSafety
  import opened SessionSafety
  import opened DeletionSafety
  import opened RepairSafety
  import opened Convergence

  // ---------------------------------------------------------------- what is asked of the world

  function CredentialSecret(r: Resource, from: Selector): Key {
    Key(if from.namespace != "" then from.namespace else ClusterKeyOf(r).namespace, from.name)
  }

  /** A field of the cluster resolves to a non-empty value: given as such, or in a secret that has it. */
  predicate Given(w: World, r: Resource, c: Cluster, f: Field) {
    && SourceOf(c, f).Some?
    && var source := SourceOf(c, f).value;
       || source.value != ""
       || (&& source.from.Some?
           && var q := CredentialSecret(r, source.from.value);
              q in w.secrets && source.from.value.entry in w.secrets[q] && w.secrets[q][source.from.value.entry] != "")
  }

  /** The cluster of a resource is there, with a host, a user and a password that resolve. */
  predicate CredentialsGiven(w: World, r: Resource) {
    && ClusterKeyOf(r) in w.clusters
    && var c := w.clusters[ClusterKeyOf(r)];
       Given(w, r, c, Host) && Given(w, r, c, User) && Given(w, r, c, Password)
  }

  predicate ClusterServes(w: World, r: Resource) {
    CredentialsGiven(w, r) && ClusterIsReady(w.clusters[ClusterKeyOf(r)])
  }

  /** A call that works, with random bytes, with a listing of the given objects where one is asked for. */
  predicate Smooth(b: Beat, wrong: set<string>, keeps: bool) {
    b.luck == Works && |b.bytes| == 32 && IsListing(b.order, wrong) && b.keepsStatus == keeps
  }

  // ---------------------------------------------------------------- credentials

  /** The fields before this one have been resolved. */
  predicate Before(p: Pass, f: Field) { (!f.Host? ==> p.host != "") && (f.Password? ==> p.user != "") }

  predicate FromSecret(c: Cluster, f: Field) {
    SourceOf(c, f).Some? && SourceOf(c, f).value.value == "" && SourceOf(c, f).value.from.Some?
  }

  predicate HasSource(c: Cluster, f: Field) {
    SourceOf(c, f).Some? && (SourceOf(c, f).value.value != "" || SourceOf(c, f).value.from.Some?)
  }

  predicate HasSources(c: Cluster) { HasSource(c, Host) && HasSource(c, User) && HasSource(c, Password) }

  /** The next field to read from a secret, or the end of the credentials. */
  predicate Resolving(p: Pass, q: Pass, rank: int) {
    && (q.pc.ReadCredential? ==>
          Before(q, q.pc.field) && FromSecret(q.cluster, q.pc.field) && FieldRank(q.pc.field) <= rank)
    && (q.pc.ReadCredential? || q.pc == AfterCredentials(p.obj))
    && q.cluster == p.cluster
  }

  lemma {:induction false} ResolvesOn(p: Pass, f: Field, now: int)
    requires HasSources(p.cluster) && Before(p, f)
    ensures Resolving(p, Resolve(p, f, now), FieldRank(f))
    decreases FieldRank(f), 1
  {
    var source := SourceOf(p.cluster, f).value;
    if source.value != "" {
      AcceptsOn(p, f, source.value, now);
    }
  }

  lemma {:induction false} AcceptsOn(p: Pass, f: Field, value: string, now: int)
    requires HasSources(p.cluster) && Before(p, f) && value != ""
    ensures Resolving(p, Accept(p, f, value, now), FieldRank(f) - 1)
    decreases FieldRank(f), 0
  {
    var q := SetField(p, f, value);
    match f
    case Host => ResolvesOn(q, User, now);
    case User => ResolvesOn(q, Password, now);
    case Password =>
  }

  // ---------------------------------------------------------------- where a pass without faults can be

  /** What the pass still knows of its cluster once the finalizer is there. */
  predicate Remembers(r: Resource, keeps: bool) {
    HasFinalizer(r) || keeps || IsTrue(r.status.conditions, "ClusterReady")
  }

  predicate Healthy(p: Pass, known: bool) {
    (Holds(p, "ClusterReady") == known) && Holds(p, "SecretReady") && Holds(p, "ConnectionReady")
  }

  predicate Path(w0: World, r: Resource, keeps: bool, w: World, k: Key, p: Pass) {
    var known := Remembers(r, keeps);
    match p.pc
    case ReadCluster => w == w0 && p.obj == r
    case ReadCredential(f) => w == w0 && Holds(p, "ClusterReady") && Before(p, f) && FromSecret(p.cluster, f)
                              && ClusterKeyOf(r) in w.clusters && p.cluster == w.clusters[ClusterKeyOf(r)]
                              && p.obj.finalizers == r.finalizers
    case AddFinalizer => w == w0 && Holds(p, "ClusterReady") && !HasFinalizer(r)
    case OpenConnection => Holds(p, "ClusterReady") == known
    case PingConnection => Holds(p, "ClusterReady") == known
    case ReadSecret => Holds(p, "ClusterReady") == known && Holds(p, "ConnectionReady")
    case DrawPassword => Unsaved(w, k, p, known)
    case OwnSecret => Unsaved(w, k, p, known)
    case WriteSecret => Unsaved(w, k, p, known)
    case CloseListing(complete) => complete && Healthy(p, known)
    case RollbackRepair => false
    case WriteStatus => Holds(p, "Ready") == known
    case Stopped(ending) =>
      ending.Published? && k in w.resources && (w.resources[k].status.phase == Ready <==> known)
    case _ => (InSql(p.pc) || InRepair(p.pc)) && Healthy(p, known)
  }

  predicate Unsaved(w: World, k: Key, p: Pass, known: bool) {
    Holds(p, "ClusterReady") == known && Holds(p, "ConnectionReady") && SecretKeyOf(k) !in w.secrets
  }

  /** A pass that has met no fault so far. */
  ghost predicate Fine(w0: World, r: Resource, keeps: bool, w: World, k: Key, p: Pass) {
    && OnTheWay(w0.server, r, w, k, p) && Clean(p.trace) && Path(w0, r, keeps, w, k, p)
    && (Live(p) ==> w.resources[k].version == p.obj.version)
  }

  /** Calls left, given the number of wrongly owned objects. */
  function Left(p: Pass, s: Session, wrong: nat): int {
    match p.pc
    case ReadResource => 5 * wrong + 28
    case ReadCluster => 5 * wrong + 27
    case ReadCredential(f) => 5 * wrong + 24 + FieldRank(f)
    case AddFinalizer => 5 * wrong + 23
    case OpenConnection => 5 * wrong + 22
    case PingConnection => 5 * wrong + 21
    case ReadSecret => 5 * wrong + 20
    case DrawPassword => 5 * wrong + 19
    case OwnSecret => 5 * wrong + 18
    case WriteSecret => 5 * wrong + 17
    case MakeRole => 5 * wrong + 16
    case ChangePassword => 5 * wrong + 15
    case MakeDatabase => 5 * wrong + 14
    case ChangeDatabaseOwner => 5 * wrong + 13
    case GrantDatabase => 5 * wrong + 12
    case OpenDatabase => 5 * wrong + 11
    case PingDatabase => 5 * wrong + 10
    case GrantSchema => 5 * wrong + 9
    case GrantCreate => 5 * wrong + 8
    case GrantDefault(n) => 5 * wrong + 7 - n
    case ListWrongOwners => 5 * wrong + 4
    case FetchWrongOwner => 4 * wrong + 3 + (if s.cursor.Some? then |s.cursor.value| else 0)
    case CloseListing(_) => 4 * wrong + 2
    case BeginRepair => 4 * |p.todo| + 1
    case LimitLockWait => 4 * |p.todo|
    case RepairOwner => 4 * |p.todo| - 1
    case CommitRepair => 4 * |p.todo| - 2
    case WriteStatus => 1
    case _ => 0
  }

  // ---------------------------------------------------------------- the front

  lemma ClusterPath(w: World, r: Resource, keeps: bool, k: Key, p: Pass, b: Beat)
    requires p.pc.ReadCluster? && p.key == k && Path(w, r, keeps, w, k, p) && !r.deleting
    requires ClusterServes(w, r) && b.luck == Works
    ensures var (w', answer) := Api(w, k, NextCall(p), b);
            var q := ResumeFront(p, answer, b);
            && w' == w && Path(w, r, keeps, w, k, q)
            && (q.pc.ReadCredential? || q.pc.AddFinalizer? || q.pc.OpenConnection?)
  {
    var (w', answer) := Api(w, k, NextCall(p), b);
    var c := w.clusters[ClusterKeyOf(r)];
    assert answer == FoundCluster(c) && w' == w;
    ReadClusterFacts(p, answer, b);
    var q1 := SetCondition(p.(cluster := c), "ClusterReady", true, "cluster readiness", b.now);
    hide Api, NextCall, ClusterIsReady, StatusStep, IsTrue, Upsert, DatabasePhase;
    ResolvesOn(q1, Host, b.now);
    hide Resolve;
  }

  lemma CredentialAnswer(w: World, r: Resource, k: Key, p: Pass, b: Beat)
    requires p.pc.ReadCredential? && p.obj.key == r.key && p.obj.spec == r.spec && FromSecret(p.cluster, p.pc.field)
    requires Given(w, r, p.cluster, p.pc.field) && b.luck == Works
    ensures var (w', answer) := Api(w, k, NextCall(p), b);
            var entry := SourceOf(p.cluster, p.pc.field).value.from.value.entry;
            w' == w && answer.FoundSecret? && entry in answer.data && answer.data[entry] != ""
  {
  }

  lemma CredentialGoesOn(p: Pass, answer: Response, b: Beat)
    requires p.pc.ReadCredential? && HasSources(p.cluster) && FromSecret(p.cluster, p.pc.field) && Before(p, p.pc.field)
    requires answer.FoundSecret?
    requires var entry := SourceOf(p.cluster, p.pc.field).value.from.value.entry;
             entry in answer.data && answer.data[entry] != ""
    ensures Resolving(p, ResumeFront(p, answer, b), FieldRank(p.pc.field) - 1)
  {
    hide Accept, Resolve, Resolving;
    AcceptsOn(p, p.pc.field, answer.data[SourceOf(p.cluster, p.pc.field).value.from.value.entry], b.now);
  }

  lemma HasAllSources(w: World, r: Resource)
    requires CredentialsGiven(w, r)
    ensures ClusterKeyOf(r) in w.clusters && HasSources(w.clusters[ClusterKeyOf(r)])
  {
    hide ClusterIsReady;
  }

  lemma CredentialPath(w: World, r: Resource, keeps: bool, k: Key, p: Pass, b: Beat)
    requires p.pc.ReadCredential? && Path(w, r, keeps, w, k, p) && WorksOn(p, r)
    requires ClusterServes(w, r) && b.luck == Works
    ensures var (w', answer) := Api(w, k, NextCall(p), b);
            var q := ResumeFront(p, answer, b);
            && w' == w && Path(w, r, keeps, w, k, q)
            && (q.pc.ReadCredential? ==> FieldRank(q.pc.field) < FieldRank(p.pc.field))
            && (q.pc.ReadCredential? || q.pc.AddFinalizer? || q.pc.OpenConnection?)
  {
    hide Api, NextCall, ClusterIsReady, StatusStep, IsTrue, ResumeFront, HasSources, ClusterKeyOf;
    var (w', answer) := Api(w, k, NextCall(p), b);
    HasAllSources(w, r);
    CredentialAnswer(w, r, k, p, b);
    ReadCredentialFacts(p, answer, b);
    CredentialGoesOn(p, answer, b);
  }

  lemma FinalizerPath(w0: World, r: Resource, keeps: bool, k: Key, p: Pass, b: Beat)
    requires p.pc.AddFinalizer? && p.key == k && p.obj.key == k && Path(w0, r, keeps, w0, k, p)
    requires k in w0.resources && w0.resources[k] == r && r.key == k && r.version == p.obj.version && !r.deleting
    requires b.luck == Works && b.keepsStatus == keeps
    ensures var (w', answer) := Api(w0, k, NextCall(p), b);
            var q := ResumeFront(p, answer, b);
            q.pc.OpenConnection? && Path(w0, r, keeps, w', k, q)
            && k in w'.resources && w'.resources[k].version == q.obj.version
  {
    hide Api, IsTrue;
    var c := NextCall(p);
    ApiWrites(w0, k, c, b);
    var (w', answer) := Api(w0, k, c, b);
    assert answer == Updated(Written(w0, c)) && w'.resources[k] == Written(w0, c);
  }

  // ---------------------------------------------------------------- the middle

  lemma OpenPath(w0: World, r: Resource, keeps: bool, w: World, k: Key, p: Pass, b: Beat)
    requires (p.pc.OpenConnection? || p.pc.PingConnection?) && Path(w0, r, keeps, w, k, p) && b.luck == Works
    ensures var (w', answer) := Api(w, k, NextCall(p), b);
            var q := ResumeSecret(p, answer, b);
            && w' == w && Path(w0, r, keeps, w, k, q)
            && (q.pc == if p.pc.OpenConnection? then PingConnection else ReadSecret)
  {
    hide FailWith, SetCondition, IsTrue, KubeCall, StatementCall, SessionCall;
    SetConditionFacts(p, "ConnectionReady", true, "connected", b.now, "ClusterReady");
  }

  lemma SecretReadPath(w0: World, r: Resource, keeps: bool, w: World, k: Key, p: Pass, b: Beat)
    requires p.pc.ReadSecret? && p.obj.key == k && Path(w0, r, keeps, w, k, p) && b.luck == Works
    ensures var (w', answer) := Api(w, k, NextCall(p), b);
            var q := ResumeSecret(p, answer, b);
            w' == w && Path(w0, r, keeps, w, k, q) && (q.pc.DrawPassword? || q.pc.MakeRole?)
  {
    hide FailWith, SetCondition, IsTrue, StatementCall, SessionCall;
    SecretSetFacts(p, "connection secret exists", b.now);
  }

  lemma SecretWritePath(w0: World, r: Resource, keeps: bool, w: World, k: Key, p: Pass, b: Beat)
    requires (p.pc.DrawPassword? || p.pc.OwnSecret? || p.pc.WriteSecret?) && p.obj.key == k
    requires Path(w0, r, keeps, w, k, p) && b.luck == Works && |b.bytes| == 32
    ensures var (w', answer) := Api(w, k, NextCall(p), b);
            var q := ResumeSecret(p, answer, b);
            && w'.resources == w.resources && Path(w0, r, keeps, w', k, q)
            && (if p.pc.DrawPassword? then q.pc == OwnSecret
                else if p.pc.OwnSecret? then q.pc == WriteSecret else q.pc == MakeRole)
  {
    hide FailWith, SetCondition, IsTrue, StatementCall, SessionCall, SecretData;
    SecretSetFacts(p, "connection secret created", b.now);
  }

  // ---------------------------------------------------------------- the statements

  lemma SqlAnswer(s0: Server, w: World, k: Key, p: Pass, b: Beat)
    requires InSql(p.pc) && ReachedBy(s0, w.server, p, p) && b.luck == Works
    ensures var answer := Api(w, k, NextCall(p), b).1;
            answer == Done || (answer == AlreadyExists && (p.pc.MakeRole? || p.pc.MakeDatabase?))
  {
    hide KubeCall, SessionCall, DatabaseNameOf, UserNameOf, GrantsBefore;
  }

  lemma SqlGoesOn(p: Pass, answer: Response, b: Beat)
    requires InSql(p.pc) && (p.pc.GrantDefault? ==> p.pc.kind <= 2)
    requires answer == Done || (answer == AlreadyExists && (p.pc.MakeRole? || p.pc.MakeDatabase?))
    ensures var q := ResumeSql(p, answer, b);
            && q.obj == p.obj && (InSql(q.pc) || q.pc.ListWrongOwners?)
            && forall s, s', n :: Left(q, s', n) < Left(p, s, n)
  {
  }

  lemma SqlPath(w0: World, r: Resource, keeps: bool, w: World, k: Key, p: Pass, b: Beat)
    requires InSql(p.pc) && Path(w0, r, keeps, w, k, p) && ReachedBy(w0.server, w.server, p, p) && b.luck == Works
    ensures var (w', answer) := Api(w, k, NextCall(p), b);
            var q := ResumeSql(p, answer, b);
            && w'.resources == w.resources && Path(w0, r, keeps, w', k, q) && q.obj == p.obj
            && (forall s, s', n :: Left(q, s', n) < Left(p, s, n))
            && Clean([Observation(NextCall(p), answer)])
  {
    CallKinds(p);
    hide Api, NextCall, ResumeSql, Settled, DbName, RoleName, IsTrue, Left;
    SqlAnswer(w0.server, w, k, p, b);
    SqlGoesOn(p, Api(w, k, NextCall(p), b).1, b);
    ApiKeepsResources(w, k, NextCall(p), b);
  }

  // ---------------------------------------------------------------- the repair

  lemma {:induction false} ListingCount(order: seq<string>, wrong: set<string>)
    requires IsListing(order, wrong)
    ensures |order| == |wrong|
    decreases |order|
  {
    if order == [] {
      assert wrong == {};
    } else {
      var rest := wrong - {order[0]};
      assert forall o | o in order[1..] :: o in order;
      assert forall o | o in rest :: o in order[1..] by {
        assert order == [order[0]] + order[1..];
      }
      ListingCount(order[1..], rest);
    }
  }

  lemma ListWorks(w: World, k: Key, p: Pass, b: Beat)
    requires p.pc.ListWrongOwners? && DbName(p) in w.server.databases && b.luck == Works
    requires IsListing(b.order, Wrong(Objects(w.server, DbName(p)), RoleName(p)))
    ensures var (w', answer) := Api(w, k, NextCall(p), b);
            answer == Done && SessionOf(w', k).cursor == Some(b.order)
  {
    var (d, u) := (DbName(p), RoleName(p));
    assert WrongObjects(w.server.databases[d], u) == Wrong(Objects(w.server, d), u);
    hide UserNameOf, DatabaseNameOf, IsListing, WrongObjects;
  }

  lemma FetchWorks(w: World, k: Key, b: Beat)
    requires SessionOf(w, k).cursor.Some? && b.luck == Works
    ensures var (w', answer) := Api(w, k, FetchRow, b);
            if SessionOf(w, k).cursor.value == [] then answer == EndOfRows
            else answer.Row? && SessionOf(w', k).cursor == Some(SessionOf(w, k).cursor.value[1..])
  {
  }

  lemma StatementWorks(w: World, k: Key, p: Pass, b: Beat)
    requires (p.pc.BeginRepair? || p.pc.LimitLockWait? || p.pc.CommitRepair?) && DisciplineOk(SessionOf(w, k), p)
    requires b.luck == Works
    ensures Api(w, k, NextCall(p), b).1 == Done
  {
    hide ApplyAll, UserNameOf, DatabaseNameOf, Apply;
  }

  lemma AlterWorks(w: World, k: Key, p: Pass, b: Beat)
    requires p.pc.RepairOwner? && DisciplineOk(SessionOf(w, k), p) && b.luck == Works
    requires DbName(p) in w.server.databases && RoleName(p) in w.server.roles
             && p.todo[0] in Objects(w.server, DbName(p))
    ensures Api(w, k, NextCall(p), b).1 == Done
  {
    hide UserNameOf, DatabaseNameOf;
  }

  /** What is still to do was listed, and what was listed is there. */
  lemma TodoIsThere(base: map<string, string>, objects: map<string, string>, s: Session, p: Pass, user: string)
    requires Repairing(p.pc) && TodoOk(p) && Progress(base, objects, s, p, user)
    ensures p.todo[0] in objects
  {
    assert p.todo[0] == p.listed[|p.listed| - |p.todo|];
    assert p.todo[0] in p.listed;
  }

  /** The answer a repair step gets when nothing goes wrong. */
  predicate Answered(pc: Pc, s: Session, answer: Response) {
    if pc.FetchWrongOwner? then s.cursor.Some? && (if s.cursor.value == [] then answer == EndOfRows else answer.Row?)
    else answer == Done
  }

  lemma RepairAnswer(base: map<string, string>, w: World, k: Key, p: Pass, b: Beat)
    requires InRepair(p.pc) && !p.pc.RollbackRepair? && DisciplineOk(SessionOf(w, k), p) && b.luck == Works
    requires Progress(base, Objects(w.server, DbName(p)), SessionOf(w, k), p, RoleName(p))
    requires DbName(p) in w.server.databases && RoleName(p) in w.server.roles
    requires IsListing(b.order, Wrong(base, RoleName(p)))
    ensures var (w', answer) := Api(w, k, NextCall(p), b);
            && Answered(p.pc, SessionOf(w, k), answer)
            && (p.pc.ListWrongOwners? ==> SessionOf(w', k).cursor == Some(b.order))
            && (answer.Row? ==> SessionOf(w', k).cursor == Some(SessionOf(w, k).cursor.value[1..]))
  {
    if p.pc.FetchWrongOwner? {
      FetchWorks(w, k, b);
      hide Api;
    } else if p.pc.CloseListing? {
      hide Progress, UserNameOf, DatabaseNameOf;
    } else {
      hide Api, NextCall, UserNameOf, DatabaseNameOf, SessionOk, IsListing, Objects;
      if p.pc.ListWrongOwners? {
        EarlyIsUntouched(base, Objects(w.server, DbName(p)), SessionOf(w, k), p, RoleName(p));
        ListWorks(w, k, p, b);
      } else if p.pc.RepairOwner? {
        TodoIsThere(base, Objects(w.server, DbName(p)), SessionOf(w, k), p, RoleName(p));
        AlterWorks(w, k, p, b);
      } else {
        StatementWorks(w, k, p, b);
      }
    }
  }

  predicate Onward(p: Pass, s: Session, q: Pass, s': Session, wrong: nat) {
    && (q.pc.WriteStatus? || (InRepair(q.pc) && !q.pc.RollbackRepair? && q.pc != CloseListing(false)))
    && Left(q, s', wrong) < Left(p, s, wrong)
  }

  lemma ListingGoesOn(p: Pass, s: Session, q: Pass, s': Session, answer: Response, wrong: nat)
    requires p.pc.ListWrongOwners? || p.pc.FetchWrongOwner? || p.pc == CloseListing(true)
    requires Answered(p.pc, s, answer) && RepairMoves(p, answer, q)
    requires p.pc.ListWrongOwners? ==> s'.cursor.Some? && |s'.cursor.value| == wrong
    requires answer.Row? ==> s'.cursor == Some(s.cursor.value[1..])
    requires p.pc.CloseListing? ==> |p.listed| == wrong
    ensures Onward(p, s, q, s', wrong)
  {
  }

  lemma CommitGoesOn(p: Pass, s: Session, q: Pass, s': Session, wrong: nat)
    requires p.pc.CommitRepair? && p.todo != [] && RepairMoves(p, Done, q)
    ensures Onward(p, s, q, s', wrong)
  {
  }

  lemma StatementGoesOn(p: Pass, s: Session, s': Session, b: Beat, wrong: nat)
    requires p.pc.BeginRepair? || p.pc.LimitLockWait? || p.pc.RepairOwner?
    ensures Onward(p, s, ResumeRepair(p, Done, b), s', wrong)
  {
  }

  lemma RepairGoesOn(p: Pass, s: Session, s': Session, answer: Response, b: Beat, wrong: nat)
    requires InRepair(p.pc) && !p.pc.RollbackRepair? && p.pc != CloseListing(false) && Answered(p.pc, s, answer)
    requires Repairing(p.pc) ==> p.todo != []
    requires p.pc.ListWrongOwners? ==> s'.cursor.Some? && |s'.cursor.value| == wrong
    requires answer.Row? ==> s'.cursor == Some(s.cursor.value[1..])
    requires p.pc.CloseListing? ==> |p.listed| == wrong
    ensures Onward(p, s, ResumeRepair(p, answer, b), s', wrong)
  {
    hide ResumeRepair, RepairMoves, Onward;
    if p.pc.CommitRepair? {
      CommitMovesOn(p, Done, b);
      CommitGoesOn(p, s, ResumeRepair(p, Done, b), s', wrong);
    } else if Repairing(p.pc) {
      StatementGoesOn(p, s, s', b, wrong);
    } else {
      ListingMovesOn(p, answer, b);
      ListingGoesOn(p, s, ResumeRepair(p, answer, b), s', answer, wrong);
    }
  }

  lemma RepairPath(w0: World, r: Resource, keeps: bool, w: World, k: Key, p: Pass, answer: Response, b: Beat, w': World)
    requires InRepair(p.pc) && Path(w0, r, keeps, w, k, p)
    requires var q := ResumeRepair(p, answer, b);
             q.pc.WriteStatus? || (InRepair(q.pc) && !q.pc.RollbackRepair? && q.pc != CloseListing(false))
    ensures Path(w0, r, keeps, w', k, ResumeRepair(p, answer, b))
  {
    hide ResumeRepair, IsTrue, StatusStep;
    RepairFacts(p, answer, b);
  }

  // ---------------------------------------------------------------- the final write

  lemma PhaseIsReady(r: Resource)
    requires Coherent(r) && !r.deleting
    ensures r.status.phase == Ready <==> IsReady(r)
  {
  }

  lemma WritePath(w0: World, r: Resource, keeps: bool, w: World, k: Key, p: Pass, b: Beat)
    requires StoreOk(w) && PassOk(w, k, p) && p.pc.WriteStatus? && Path(w0, r, keeps, w, k, p) && b.luck == Works
    requires k in w.resources && w.resources[k].version == p.obj.version && !w.resources[k].deleting
    ensures var (w', answer) := Api(w, k, NextCall(p), b); Path(w0, r, keeps, w', k, ResumeEnd(p, answer, b))
  {
    hide StatusOk, Finalized, Synced, Coherent, IsTrue, DatabasePhase;
    assert StoredOk(w, k);
    WriteWorks(w, k, p.obj, b);
    WritesCoherent(p);
    PhaseIsReady(p.obj);
  }

  lemma WriteWorks(w: World, k: Key, r: Resource, b: Beat)
    requires k in w.resources && r.key == k && w.resources[k].key == k && !w.resources[k].deleting
    requires w.resources[k].version == r.version && b.luck == Works
    ensures var (w', answer) := Api(w, k, UpdateStatus(r), b);
            answer.Updated? && k in w'.resources && w'.resources[k].status == r.status
  {
  }

  lemma WritesCoherent(p: Pass)
    requires Control(p) && p.pc.WriteStatus?
    ensures Coherent(p.obj) && !p.obj.deleting
  {
  }

  // ---------------------------------------------------------------- whole passes

  /** One more call without a fault, and one call closer to the end. */
  predicate Advances(w0: World, r: Resource, keeps: bool, w: World, k: Key, p: Pass, w': World, q: Pass, wrong: nat) {
    && Path(w0, r, keeps, w', k, q)
    && Left(q, SessionOf(w', k), wrong) < Left(p, SessionOf(w, k), wrong)
    && (Live(q) ==> k in w'.resources && w'.resources[k].version == q.obj.version)
  }

  predicate Plain(c: Call) { !c.AlterUser? && !c.AlterDatabaseOwner? && !c.GrantIn? }

  lemma ReadAdvances(w: World, r: Resource, keeps: bool, k: Key, p: Pass, b: Beat, wrong: nat)
    requires p.pc.ReadCluster? || p.pc.ReadCredential?
    requires p.key == k && p.obj.key == k && r.key == k && WorksOn(p, r) && !r.deleting && Path(w, r, keeps, w, k, p)
    requires k in w.resources && w.resources[k] == r && r.version == p.obj.version
    requires ClusterServes(w, r) && b.luck == Works && b.keepsStatus == keeps
    ensures var (w', answer) := Api(w, k, NextCall(p), b);
            Advances(w, r, keeps, w, k, p, w', ResumeFront(p, answer, b), wrong) && Plain(NextCall(p))
  {
    hide Api, NextCall, ResumeFront, Path, ClusterServes, Plain;
    PlainCall(p);
    FrontKeepsVersion(p, Api(w, k, NextCall(p), b).1, b);
    if p.pc.ReadCluster? {
      ClusterPath(w, r, keeps, k, p, b);
    } else {
      CredentialPath(w, r, keeps, k, p, b);
    }
  }

  lemma FinalizerAdvances(w: World, r: Resource, keeps: bool, k: Key, p: Pass, b: Beat, wrong: nat)
    requires p.pc.AddFinalizer?
    requires p.key == k && p.obj.key == k && r.key == k && WorksOn(p, r) && !r.deleting && Path(w, r, keeps, w, k, p)
    requires k in w.resources && w.resources[k] == r && r.version == p.obj.version
    requires ClusterServes(w, r) && b.luck == Works && b.keepsStatus == keeps
    ensures var (w', answer) := Api(w, k, NextCall(p), b);
            Advances(w, r, keeps, w, k, p, w', ResumeFront(p, answer, b), wrong) && Plain(NextCall(p))
  {
    hide Api, NextCall, ResumeFront, Path, ClusterServes, Plain;
    PlainCall(p);
    FinalizerPath(w, r, keeps, k, p, b);
  }

  lemma FrontAdvances(w: World, r: Resource, keeps: bool, k: Key, p: Pass, b: Beat, wrong: nat)
    requires p.pc.ReadCluster? || p.pc.ReadCredential? || p.pc.AddFinalizer?
    requires p.key == k && p.obj.key == k && r.key == k && WorksOn(p, r) && !r.deleting && Path(w, r, keeps, w, k, p)
    requires k in w.resources && w.resources[k] == r && r.version == p.obj.version
    requires ClusterServes(w, r) && b.luck == Works && b.keepsStatus == keeps
    ensures var (w', answer) := Api(w, k, NextCall(p), b);
            Advances(w, r, keeps, w, k, p, w', ResumeFront(p, answer, b), wrong) && Plain(NextCall(p))
  {
    hide Api, NextCall, ResumeFront, Path, ClusterServes, Plain, Advances, WorksOn;
    if p.pc.AddFinalizer? {
      FinalizerAdvances(w, r, keeps, k, p, b, wrong);
    } else {
      ReadAdvances(w, r, keeps, k, p, b, wrong);
    }
  }

  lemma FrontKeepsVersion(p: Pass, answer: Response, b: Beat)
    requires p.pc.ReadCluster? || p.pc.ReadCredential?
    ensures ResumeFront(p, answer, b).obj.version == p.obj.version
  {
    hide ResumeFront, StatusStep;
    if p.pc.ReadCluster? {
      ReadClusterFacts(p, answer, b);
    } else {
      ReadCredentialFacts(p, answer, b);
    }
  }

  lemma PlainCall(p: Pass)
    requires !InSql(p.pc)
    ensures Plain(NextCall(p))
  {
    CallKinds(p);
    hide NextCall;
  }

  lemma MiddleKeepsVersion(p: Pass, answer: Response, b: Beat)
    requires Middle(p.pc)
    ensures ResumeSecret(p, answer, b).obj.version == p.obj.version
  {
    hide ResumeSecret, StatusStep;
    MiddleFacts(p, answer, b);
  }

  lemma MiddleAdvances(w0: World, r: Resource, keeps: bool, w: World, k: Key, p: Pass, b: Beat, wrong: nat)
    requires Middle(p.pc) && p.obj.key == k && Path(w0, r, keeps, w, k, p)
    requires k in w.resources && w.resources[k].version == p.obj.version && b.luck == Works && |b.bytes| == 32
    ensures var (w', answer) := Api(w, k, NextCall(p), b);
            Advances(w0, r, keeps, w, k, p, w', ResumeSecret(p, answer, b), wrong) && Plain(NextCall(p))
  {
    hide Api, NextCall, ResumeSecret, Path, Plain;
    PlainCall(p);
    MiddleKeepsVersion(p, Api(w, k, NextCall(p), b).1, b);
    if p.pc.OpenConnection? || p.pc.PingConnection? {
      OpenPath(w0, r, keeps, w, k, p, b);
    } else if p.pc.ReadSecret? {
      SecretReadPath(w0, r, keeps, w, k, p, b);
    } else {
      SecretWritePath(w0, r, keeps, w, k, p, b);
    }
  }

  lemma RepairAdvances(w0: World, r: Resource, keeps: bool, w: World, k: Key, p: Pass, b: Beat,
                       base: map<string, string>)
    requires InRepair(p.pc) && Path(w0, r, keeps, w, k, p) && DisciplineOk(SessionOf(w, k), p) && b.luck == Works
    requires Progress(base, Objects(w.server, DbName(p)), SessionOf(w, k), p, RoleName(p))
    requires DbName(p) in w.server.databases && RoleName(p) in w.server.roles
    requires k in w.resources && w.resources[k].version == p.obj.version && IsListing(b.order, Wrong(base, RoleName(p)))
    ensures var (w', answer) := Api(w, k, NextCall(p), b);
            && Advances(w0, r, keeps, w, k, p, w', ResumeRepair(p, answer, b), |Wrong(base, RoleName(p))|)
            && Plain(NextCall(p))
  {
    var (w', answer) := Api(w, k, NextCall(p), b);
    hide Api, NextCall, ResumeRepair, Path, DbName, RoleName, DisciplineOk, Progress, Wrong, Left, Plain, IsListing;
    hide Objects;
    PlainCall(p);
    PathInRepair(w0, r, keeps, w, k, p);
    RepairComesCloser(w, k, p, b, base);
    RepairPath(w0, r, keeps, w, k, p, answer, b, w');
    RepairKeepsVersion(w, k, p, answer, b);
  }

  lemma PathInRepair(w0: World, r: Resource, keeps: bool, w: World, k: Key, p: Pass)
    requires InRepair(p.pc) && Path(w0, r, keeps, w, k, p)
    ensures p.pc != CloseListing(false) && !p.pc.RollbackRepair?
  {
    hide IsTrue;
  }

  lemma RepairComesCloser(w: World, k: Key, p: Pass, b: Beat, base: map<string, string>)
    requires InRepair(p.pc) && p.pc != CloseListing(false) && !p.pc.RollbackRepair?
    requires DisciplineOk(SessionOf(w, k), p) && b.luck == Works
    requires Progress(base, Objects(w.server, DbName(p)), SessionOf(w, k), p, RoleName(p))
    requires DbName(p) in w.server.databases && RoleName(p) in w.server.roles
    requires IsListing(b.order, Wrong(base, RoleName(p)))
    ensures var (w', answer) := Api(w, k, NextCall(p), b);
            Onward(p, SessionOf(w, k), ResumeRepair(p, answer, b), SessionOf(w', k), |Wrong(base, RoleName(p))|)
  {
    var (w', answer) := Api(w, k, NextCall(p), b);
    var wrong := Wrong(base, RoleName(p));
    hide Api, NextCall, ResumeRepair, UserNameOf, DatabaseNameOf, SessionOk, IsListing, Wrong, Left, Onward;
    RepairAnswer(base, w, k, p, b);
    ListingCount(b.order, wrong);
    if p.pc.CloseListing? {
      ListingCount(p.listed, wrong);
    }
    RepairGoesOn(p, SessionOf(w, k), SessionOf(w', k), answer, b, |wrong|);
  }

  lemma RepairKeepsVersion(w: World, k: Key, p: Pass, answer: Response, b: Beat)
    requires InRepair(p.pc)
    ensures ResumeRepair(p, answer, b).obj.version == p.obj.version
    ensures Api(w, k, NextCall(p), b).0.resources == w.resources
  {
    CallKinds(p);
    hide Api, NextCall, ResumeRepair, StatusStep;
    RepairFacts(p, answer, b);
    ApiKeepsResources(w, k, NextCall(p), b);
  }

  lemma SqlAdvances(w0: World, r: Resource, keeps: bool, w: World, k: Key, p: Pass, b: Beat, wrong: nat)
    requires InSql(p.pc) && Path(w0, r, keeps, w, k, p) && ReachedBy(w0.server, w.server, p, p) && b.luck == Works
    requires k in w.resources && w.resources[k].version == p.obj.version
    ensures var (w', answer) := Api(w, k, NextCall(p), b);
            && Advances(w0, r, keeps, w, k, p, w', ResumeSql(p, answer, b), wrong)
            && Clean([Observation(NextCall(p), answer)])
  {
    hide Api, NextCall, ResumeSql, Path, Left, ReachedBy;
    SqlPath(w0, r, keeps, w, k, p, b);
  }

  lemma FineFacts(w0: World, r: Resource, keeps: bool, w: World, k: Key, p: Pass)
    requires Fine(w0, r, keeps, w, k, p) && Live(p) && Existing(w0, k) && w0.resources[k] == r
    ensures r.key == k && !r.deleting && p.key == k && p.obj.key == k && WorksOn(p, r) && Path(w0, r, keeps, w, k, p)
    ensures k in w.resources && w.resources[k].version == p.obj.version && !w.resources[k].deleting
    ensures StoreOk(w) && PassOk(w, k, p) && DisciplineOk(SessionOf(w, k), p)
    ensures DbName(p) == DatabaseNameOf(r) && RoleName(p) == UserNameOf(r)
    ensures ReachedBy(w0.server, w.server, p, p)
    ensures Progress(Objects(w0.server, DbName(p)), Objects(w.server, DbName(p)), SessionOf(w, k), p, RoleName(p))
    ensures InRepair(p.pc) ==> DbName(p) in w.server.databases && RoleName(p) in w.server.roles
  {
    assert StoredOk(w0, k);
    NamesOf(p, r);
    hide Path, Progress, DisciplineOk, Control, Finalized, Synced, StatusOk, DbName, RoleName;
    if InRepair(p.pc) {
      InRepairServer(w0, r, w, k, p);
    }
  }

  lemma StepAdvances(w0: World, r: Resource, keeps: bool, w: World, k: Key, p: Pass, b: Beat)
    requires Fine(w0, r, keeps, w, k, p) && Live(p)
    requires Existing(w0, k) && w0.resources[k] == r && ClusterServes(w0, r)
    requires Smooth(b, Wrong(Objects(w0.server, DatabaseNameOf(r)), UserNameOf(r)), keeps)
    ensures var (w', answer) := Api(w, k, NextCall(p), b);
            && Advances(w0, r, keeps, w, k, p, w', Resume(p, answer, b),
                        |Wrong(Objects(w0.server, DatabaseNameOf(r)), UserNameOf(r))|)
            && Clean([Observation(NextCall(p), answer)])
  {
    hide Fine, Existing, ClusterServes, StoreOk, PassOk, DisciplineOk, ReachedBy, Progress, Advances, WorksOn;
    hide Api, NextCall, Resume, ResumeFront, ResumeSecret, ResumeSql, ResumeRepair, ResumeEnd, DbName, RoleName;
    hide DatabaseNameOf, UserNameOf;
    FineFacts(w0, r, keeps, w, k, p);
    ResumeCases(p, Api(w, k, NextCall(p), b).1, b);
    var base := Objects(w0.server, DbName(p));
    if InSql(p.pc) {
      hide Path;
      SqlAdvances(w0, r, keeps, w, k, p, b, |Wrong(base, RoleName(p))|);
    } else {
      PlainCall(p);
      PlainIsClean(NextCall(p), Api(w, k, NextCall(p), b).1);
      if p.pc.ReadCluster? || p.pc.ReadCredential? || p.pc.AddFinalizer? {
        assert w == w0;
        hide Path;
        FrontAdvances(w, r, keeps, k, p, b, |Wrong(base, RoleName(p))|);
      } else if Middle(p.pc) {
        hide Path;
        MiddleAdvances(w0, r, keeps, w, k, p, b, |Wrong(base, RoleName(p))|);
      } else if InRepair(p.pc) {
        hide Path;
        RepairAdvances(w0, r, keeps, w, k, p, b, base);
      } else {
        assert p.pc.WriteStatus?;
        hide Path;
        WriteAdvances(w0, r, keeps, w, k, p, b, |Wrong(base, RoleName(p))|);
      }
    }
  }

  lemma PlainIsClean(c: Call, answer: Response)
    requires Plain(c)
    ensures Clean([Observation(c, answer)])
  {
  }

  lemma WriteAdvances(w0: World, r: Resource, keeps: bool, w: World, k: Key, p: Pass, b: Beat, wrong: nat)
    requires StoreOk(w) && PassOk(w, k, p) && p.pc.WriteStatus? && Path(w0, r, keeps, w, k, p) && b.luck == Works
    requires k in w.resources && w.resources[k].version == p.obj.version && !w.resources[k].deleting
    ensures var (w', answer) := Api(w, k, NextCall(p), b);
            Advances(w0, r, keeps, w, k, p, w', ResumeEnd(p, answer, b), wrong)
  {
    hide StoreOk, PassOk, Api, NextCall, ResumeEnd, Path;
    WritePath(w0, r, keeps, w, k, p, b);
    WriteEnds(p, Api(w, k, NextCall(p), b).1, b);
  }

  lemma WriteEnds(p: Pass, answer: Response, b: Beat)
    requires p.pc.WriteStatus?
    ensures ResumeEnd(p, answer, b).pc.Stopped?
  {
  }

  lemma InRepairServer(w0: World, r: Resource, w: World, k: Key, p: Pass)
    requires OnTheWay(w0.server, r, w, k, p) && Clean(p.trace) && InRepair(p.pc)
    ensures DbName(p) in w.server.databases && RoleName(p) in w.server.roles
  {
    NamesOf(p, r);
    hide AllOk, DbName, RoleName, DatabaseNameOf, UserNameOf;
  }

  lemma PathIgnoresTrace(w0: World, r: Resource, keeps: bool, w: World, k: Key, p: Pass, trace: seq<Observation>)
    requires Path(w0, r, keeps, w, k, p)
    ensures Path(w0, r, keeps, w, k, p.(trace := trace))
  {
  }

  lemma CleanAppend(trace: seq<Observation>, o: Observation)
    requires Clean(trace) && Clean([o])
    ensures Clean(trace + [o])
  {
    assert o in [o];
  }

  lemma StepFine(w0: World, r: Resource, keeps: bool, w: World, k: Key, p: Pass, b: Beat)
    requires Fine(w0, r, keeps, w, k, p) && Live(p)
    requires Existing(w0, k) && w0.resources[k] == r && ClusterServes(w0, r)
    requires Smooth(b, Wrong(Objects(w0.server, DatabaseNameOf(r)), UserNameOf(r)), keeps)
    ensures var (w', p') := Step(w, p, b);
            var wrong := |Wrong(Objects(w0.server, DatabaseNameOf(r)), UserNameOf(r))|;
            && Fine(w0, r, keeps, w', k, p')
            && Left(p', SessionOf(w', k), wrong) < Left(p, SessionOf(w, k), wrong)
  {
    var (w', answer) := Api(w, k, NextCall(p), b);
    var o := Observation(NextCall(p), answer);
    var q := Resume(p, answer, b);
    assert Step(w, p, b) == (w', q.(trace := p.trace + [o]));
    assert OnTheWay(w0.server, r, w', k, q.(trace := p.trace + [o])) by {
      hide OnTheWay, Path;
      StepOnTheWay(w0.server, r, w, k, p, b);
    }
    hide OnTheWay, Path, Step, Existing, ClusterServes, Smooth, Api, NextCall, Resume, Clean, Objects, Wrong;
    StepAdvances(w0, r, keeps, w, k, p, b);
    CleanAppend(p.trace, o);
    PathIgnoresTrace(w0, r, keeps, w', k, q, p.trace + [o]);
  }

  /** The places a pass without faults goes through. */
  predicate OnPath(pc: Pc) {
    pc.ReadCluster? || pc.ReadCredential? || pc.AddFinalizer? || Middle(pc) || InSql(pc)
    || (InRepair(pc) && !pc.RollbackRepair?) || pc.WriteStatus?
  }

  lemma PathStays(w0: World, r: Resource, keeps: bool, w: World, k: Key, p: Pass)
    requires Path(w0, r, keeps, w, k, p)
    ensures OnPath(p.pc) || p.pc == Stopped(Published)
  {
    hide IsTrue;
  }

  lemma NoneLeft(p: Pass, s: Session, wrong: nat)
    requires OnPath(p.pc) && (p.pc.GrantDefault? ==> p.pc.kind <= 2) && (Repairing(p.pc) ==> p.todo != [])
    ensures Left(p, s, wrong) > 0 && Live(p)
  {
  }

  lemma FineIsNotOver(w0: World, r: Resource, keeps: bool, w: World, k: Key, p: Pass, wrong: nat)
    requires Fine(w0, r, keeps, w, k, p) && !p.pc.Stopped?
    ensures Left(p, SessionOf(w, k), wrong) > 0 && Live(p)
  {
    hide RepairOk, StoreOk, Control, Finalized, Synced, SessionOk, Path, Settled, OnPath, Left;
    PathStays(w0, r, keeps, w, k, p);
    NoneLeft(p, SessionOf(w, k), wrong);
  }

  lemma {:induction false} DriveFine(w0: World, r: Resource, keeps: bool, w: World, k: Key, p: Pass, tape: seq<Beat>)
    requires Fine(w0, r, keeps, w, k, p)
    requires Existing(w0, k) && w0.resources[k] == r && ClusterServes(w0, r)
    requires var wrong := Wrong(Objects(w0.server, DatabaseNameOf(r)), UserNameOf(r));
             && |tape| >= Left(p, SessionOf(w, k), |wrong|)
             && forall b | b in tape :: Smooth(b, wrong, keeps)
    ensures var (w', p') := Drive(w, p, tape); Fine(w0, r, keeps, w', k, p') && p'.pc.Stopped?
    decreases |tape|
  {
    var wrong := Wrong(Objects(w0.server, DatabaseNameOf(r)), UserNameOf(r));
    hide Fine, Step, Existing, ClusterServes, Smooth, Left, Objects, Wrong;
    if !p.pc.Stopped? {
      FineIsNotOver(w0, r, keeps, w, k, p, |wrong|);
      assert tape[0] in tape;
      StepFine(w0, r, keeps, w, k, p, tape[0]);
      var (w1, p1) := Step(w, p, tape[0]);
      DriveFine(w0, r, keeps, w1, k, p1, tape[1..]);
    }
  }

  lemma FirstFine(w: World, k: Key, b: Beat, keeps: bool)
    requires Existing(w, k) && SessionOf(w, k) == IDLE && b.luck == Works
    ensures var (w', p') := Step(w, InitialPass(k), b);
            Fine(w, w.resources[k], keeps, w', k, p') && p'.pc.ReadCluster?
  {
    var p, r, answer := InitialPass(k), w.resources[k], Api(w, k, GetResource(k), b).1;
    assert answer == Found(r);
    assert Step(w, p, b) == (w, After(p, answer, b));
    var q := After(p, answer, b);
    assert q.pc == ReadCluster && q.obj == r && Clean(q.trace);
    assert OnTheWay(w.server, r, w, k, q) by {
      hide OnTheWay, After, Step;
      FirstOnTheWay(w, k, b);
    }
    hide OnTheWay, Step, After;
  }

  /**
   * A pass over a served resource in which no call fails ends with a published status, within a number of calls that
   * is linear in the wrongly owned objects; every statement was answered; and the stored phase is Ready if and only if
   * the finalizer was already there, or the update that added it kept the status in memory, or the stored status said
   * so before.
   */
  lemma FaultFreePass(w: World, k: Key, tape: seq<Beat>, keeps: bool)
    requires Existing(w, k) && ClusterServes(w, w.resources[k])
    requires var r := w.resources[k];
             var wrong := Wrong(Objects(w.server, DatabaseNameOf(r)), UserNameOf(r));
             |tape| >= 5 * |wrong| + 28 && forall b | b in tape :: Smooth(b, wrong, keeps)
    ensures var (w', p') := RunPass(w, k, tape);
            && CleanPass(w, k, tape) && k in w'.resources
            && (w'.resources[k].status.phase == Ready <==>
                  HasFinalizer(w.resources[k]) || keeps || IsTrue(w.resources[k].status.conditions, "ClusterReady"))
  {
    var w0, p0, r := WithSession(w, k, IDLE), InitialPass(k), w.resources[k];
    var wrong := Wrong(Objects(w.server, DatabaseNameOf(r)), UserNameOf(r));
    assert tape[0] in tape;
    var (w1, p1) := Step(w0, p0, tape[0]);
    assert RunPass(w, k, tape) == Drive(w1, p1, tape[1..]);
    FreshSession(w, k);
    hide Drive, Step, ClusterServes, RunPass, Existing, Fine, Smooth, Objects, Wrong, WithSession;
    SmoothWorks(tape[0], wrong, keeps);
    FirstFine(w0, k, tape[0], keeps);
    DriveFine(w0, r, keeps, w1, k, p1, tape[1..]);
    FineAtEnd(w0, r, keeps, RunPass(w, k, tape).0, k, RunPass(w, k, tape).1);
  }

  lemma SmoothWorks(b: Beat, wrong: set<string>, keeps: bool)
    requires Smooth(b, wrong, keeps)
    ensures b.luck == Works
  {
  }

  lemma FreshSession(w: World, k: Key)
    requires Existing(w, k) && ClusterServes(w, w.resources[k])
    ensures var w0 := WithSession(w, k, IDLE);
            && Existing(w0, k) && w0.resources == w.resources && w0.server == w.server && SessionOf(w0, k) == IDLE
            && ClusterServes(w0, w.resources[k])
  {
    hide StatusOk, ClusterIsReady;
  }

  lemma FineAtEnd(w0: World, r: Resource, keeps: bool, w: World, k: Key, p: Pass)
    requires Fine(w0, r, keeps, w, k, p) && p.pc.Stopped?
    ensures p.pc == Stopped(Published) && Clean(p.trace) && k in w.resources
    ensures w.resources[k].status.phase == Ready <==> Remembers(r, keeps)
  {
    hide OnTheWay, IsTrue, Remembers;
  }
}
