/**
 * The database controller as the methods it is written in: they change the object in memory and call the two stores.
 * Each call takes the next decision of the tape, and the methods die where the tape ends. Every method keeps what the
 * rest of the tape will lead to, so that a whole Reconcile does exactly what the machine of module Machine does.
 */
module Reconciler {
  import opened Basics
  import opened Conditions
  import opened Names
  import opened ConnectionUrl
  import opened Text
  import opened Model
  import opened Machine
  import opened MachineFacts
  import opened Invariants
  import opened DatabaseObject

  /** A method goes on with a value, ends the pass, or dies in the middle of it. */
  datatype Outcome<+T> = On(value: T) | Ended(ending: Ending) | Died {
    predicate IsFailure() { !On? }
    function PropagateFailure<U>(): Outcome<U>
      requires !On?
    {
      if Died? then Died else Ended(ending)
    }
    function Extract(): T
      requires On?
    {
      value
    }
  }

  /** The credentials of a cluster. */
  datatype Admin = Admin(host: string, port: int, user: string, password: string)

  /** What has been read of a listing. */
  datatype Rows = Rows(items: seq<string>, complete: bool)

  // ---------------------------------------------------------------- resolving does not look at where the pass is

  lemma {:induction false} ResolveIgnores(p: Pass, f: Field, now: int, pc: Pc)
    ensures Resolve(p.(pc := pc), f, now) == Resolve(p, f, now)
    decreases FieldRank(f), 1
  {
    match SourceOf(p.cluster, f)
    case None =>
    case Some(source) =>
      if source.value != "" {
        AcceptIgnores(p, f, source.value, now, pc);
      }
  }

  lemma {:induction false} AcceptIgnores(p: Pass, f: Field, value: string, now: int, pc: Pc)
    ensures Accept(p.(pc := pc), f, value, now) == Accept(p, f, value, now)
    decreases FieldRank(f), 0
  {
    var q := SetField(p, f, value);
    assert SetField(p.(pc := pc), f, value) == q.(pc := pc);
    match f
    case Host => ResolveIgnores(q, User, now, pc);
    case User => ResolveIgnores(q, Password, now, pc);
    case Password =>
  }

  lemma {:induction false} ResolveTrace(p: Pass, f: Field, now: int, trace: seq<Observation>)
    ensures Resolve(p.(trace := trace), f, now) == Resolve(p, f, now).(trace := trace)
    decreases FieldRank(f), 1
  {
    match SourceOf(p.cluster, f)
    case None =>
    case Some(source) =>
      if source.value != "" {
        AcceptTrace(p, f, source.value, now, trace);
      }
  }

  lemma {:induction false} AcceptTrace(p: Pass, f: Field, value: string, now: int, trace: seq<Observation>)
    ensures Accept(p.(trace := trace), f, value, now) == Accept(p, f, value, now).(trace := trace)
    decreases FieldRank(f), 0
  {
    var q := SetField(p, f, value);
    assert SetField(p.(trace := trace), f, value) == q.(trace := trace);
    match f
    case Host => ResolveTrace(q, User, now, trace);
    case User => ResolveTrace(q, Password, now, trace);
    case Password =>
  }

  // ---------------------------------------------------------------- what each answer makes of a pass

  /** The pass with the answer to its call noted. */
  function Told(p: Pass, r: Response): Pass { p.(trace := p.trace + [Observation(NextCall(p), r)]) }

  lemma FailTrace(p: Pass, kind: string, message: string, now: int, ending: Ending, trace: seq<Observation>)
    ensures FailWith(p, kind, message, now, ending).(trace := trace) ==
            FailWith(p.(trace := trace), kind, message, now, ending)
  {
    hide Upsert, DatabasePhase;
  }

  lemma SetTrace(p: Pass, kind: string, ok: bool, message: string, now: int, trace: seq<Observation>)
    ensures SetCondition(p, kind, ok, message, now).(trace := trace) ==
            SetCondition(p.(trace := trace), kind, ok, message, now)
  {
    hide Upsert;
  }

  lemma ClusterTrace(p: Pass, r: Response, b: Beat, trace: seq<Observation>)
    requires p.pc.ReadCluster?
    ensures ResumeFront(p.(trace := trace), r, b) == ResumeFront(p, r, b).(trace := trace)
  {
    hide FailWith, Resolve, Accept, SetCondition, DatabasePhase, ClusterIsReady;
    FailTrace(p, "ClusterReady", "cluster not read", b.now, if r.NotFound? then Requeued else Errored, trace);
    if r.FoundCluster? {
      var q := p.(cluster := r.cluster);
      var ready := ClusterIsReady(r.cluster);
      SetTrace(q, "ClusterReady", ready, "cluster readiness", b.now, trace);
      ResolveTrace(q, Host, b.now, trace);
      ResolveTrace(SetCondition(q, "ClusterReady", ready, "cluster readiness", b.now), Host, b.now, trace);
    }
  }

  lemma CredentialTrace(p: Pass, r: Response, b: Beat, trace: seq<Observation>)
    requires p.pc.ReadCredential?
    ensures ResumeFront(p.(trace := trace), r, b) == ResumeFront(p, r, b).(trace := trace)
  {
    hide FailWith, Resolve, Accept, NextCall, SourceOf;
    var source := SourceOf(p.cluster, p.pc.field);
    if source.Some? && source.value.from.Some? {
      if r.NotFound? {
        FailTrace(p, "SecretReady", "secret not found", b.now, Requeued, trace);
      } else if r.FoundSecret? && source.value.from.value.entry in r.data {
        AcceptTrace(p, p.pc.field, r.data[source.value.from.value.entry], b.now, trace);
      }
    }
  }

  lemma FrontTrace(p: Pass, r: Response, b: Beat, trace: seq<Observation>)
    requires Front(p.pc)
    ensures ResumeFront(p.(trace := trace), r, b) == ResumeFront(p, r, b).(trace := trace)
  {
    if p.pc.ReadCluster? {
      hide ResumeFront;
      ClusterTrace(p, r, b, trace);
    } else if p.pc.ReadCredential? {
      hide ResumeFront;
      CredentialTrace(p, r, b, trace);
    }
  }

  lemma OpenTrace(p: Pass, r: Response, b: Beat, trace: seq<Observation>)
    requires p.pc.OpenConnection? || p.pc.PingConnection? || p.pc.ReadSecret?
    ensures ResumeSecret(p.(trace := trace), r, b) == ResumeSecret(p, r, b).(trace := trace)
  {
    hide FailWith, SetCondition, PasswordIn;
    FailTrace(p, "ConnectionReady", "open failed", b.now, Errored, trace);
    FailTrace(p, "ConnectionReady", "ping failed", b.now, Errored, trace);
    SetTrace(p, "ConnectionReady", true, "connected", b.now, trace);
    FailTrace(p, "SecretReady", "connection secret not read", b.now, Errored, trace);
    SetTrace(p, "SecretReady", true, "connection secret exists", b.now, trace);
  }

  lemma SecretTrace(p: Pass, r: Response, b: Beat, trace: seq<Observation>)
    requires p.pc.DrawPassword? || p.pc.OwnSecret? || p.pc.WriteSecret?
    ensures ResumeSecret(p.(trace := trace), r, b) == ResumeSecret(p, r, b).(trace := trace)
  {
    hide FailWith, SetCondition, PasswordFrom;
    FailTrace(p, "SecretReady", "no random password", b.now, Errored, trace);
    FailTrace(p, "SecretReady", "controller reference not set", b.now, Errored, trace);
    FailTrace(p, "SecretReady", "connection secret not created", b.now, Errored, trace);
    SetTrace(p, "SecretReady", true, "connection secret created", b.now, trace);
  }

  lemma MiddleTrace(p: Pass, r: Response, b: Beat, trace: seq<Observation>)
    requires Middle(p.pc)
    ensures ResumeSecret(p.(trace := trace), r, b) == ResumeSecret(p, r, b).(trace := trace)
  {
    hide ResumeSecret;
    if p.pc.OpenConnection? || p.pc.PingConnection? || p.pc.ReadSecret? {
      OpenTrace(p, r, b, trace);
    } else {
      SecretTrace(p, r, b, trace);
    }
  }

  lemma RequiredTrace(p: Pass, r: Response, next: Pc, b: Beat, trace: seq<Observation>)
    ensures Required(p.(trace := trace), r, next, b) == Required(p, r, next, b).(trace := trace)
  {
    hide FailWith;
    FailTrace(p, "DatabaseReady", "statement failed", b.now, Errored, trace);
  }

  lemma SqlTrace(p: Pass, r: Response, b: Beat, trace: seq<Observation>)
    requires InSql(p.pc)
    ensures ResumeSql(p.(trace := trace), r, b) == ResumeSql(p, r, b).(trace := trace)
  {
    hide Required;
    forall q: Pass, next: Pc | true
      ensures Required(q.(trace := trace), r, next, b) == Required(q, r, next, b).(trace := trace)
    {
      RequiredTrace(q, r, next, b, trace);
    }
  }

  lemma RepairTrace(p: Pass, r: Response, b: Beat, trace: seq<Observation>)
    requires InRepair(p.pc)
    ensures ResumeRepair(p.(trace := trace), r, b) == ResumeRepair(p, r, b).(trace := trace)
  {
    hide RepairFailed, Repaired;
    RepairFailedTrace(p, b, trace);
    RepairedTrace(p, b, trace);
    RepairedTrace(p.(todo := if p.todo != [] then p.todo[1..] else []), b, trace);
  }

  lemma RepairFailedTrace(p: Pass, b: Beat, trace: seq<Observation>)
    ensures RepairFailed(p.(trace := trace), b) == RepairFailed(p, b).(trace := trace)
  {
    hide Upsert, DatabasePhase;
  }

  lemma RepairedTrace(p: Pass, b: Beat, trace: seq<Observation>)
    ensures Repaired(p.(trace := trace), b) == Repaired(p, b).(trace := trace)
  {
    hide Upsert, DatabasePhase, ConnectionOf;
    assert forall q: Pass :: ConnectionOf(q.(trace := trace)) == ConnectionOf(q) by { ConnectionTrace(trace); }
  }

  lemma ConnectionTrace(trace: seq<Observation>)
    ensures forall q: Pass :: ConnectionOf(q.(trace := trace)) == ConnectionOf(q)
  {
  }

  lemma EndTrace(p: Pass, r: Response, b: Beat, trace: seq<Observation>)
    requires p.pc.Refetch? || p.pc.RemoveFinalizer? || p.pc.WriteStatus? || p.pc.WriteFailure?
    ensures ResumeEnd(p.(trace := trace), r, b) == ResumeEnd(p, r, b).(trace := trace)
  {
  }

  lemma DropTrace(p: Pass, r: Response, b: Beat, trace: seq<Observation>)
    requires Dropping(p.pc) || p.pc.Stopped?
    ensures ResumeEnd(p.(trace := trace), r, b) == ResumeEnd(p, r, b).(trace := trace)
  {
  }

  /** A pass deals with an answer in the same way whether or not it has noted it already. */
  lemma AnswerNoted(p: Pass, r: Response, b: Beat)
    ensures After(p, r, b) == Resume(Told(p, r), r, b)
  {
    hide ResumeFront, ResumeSecret, ResumeSql, ResumeRepair, ResumeEnd;
    var trace := p.trace + [Observation(NextCall(p), r)];
    if Front(p.pc) {
      FrontTrace(p, r, b, trace);
    } else if Middle(p.pc) {
      MiddleTrace(p, r, b, trace);
    } else if InSql(p.pc) {
      SqlTrace(p, r, b, trace);
    } else if InRepair(p.pc) {
      RepairTrace(p, r, b, trace);
    } else if Dropping(p.pc) || p.pc.Stopped? {
      DropTrace(p, r, b, trace);
    } else {
      EndTrace(p, r, b, trace);
    }
  }

  lemma NextIsCluster(p: Pass)
    requires p.pc.ReadCluster?
    ensures NextCall(p) == GetCluster(ClusterKeyOf(p.obj))
  {
  }

  lemma OneCall(w: World, p: Pass, beats: seq<Beat>, answer: Response)
    requires !p.pc.Stopped? && beats != [] && answer == Api(w, p.key, NextCall(p), beats[0]).1
    ensures Step(w, p, beats[0]) == (Api(w, p.key, NextCall(p), beats[0]).0, After(p, answer, beats[0]))
    ensures Drive(w, p, beats) == Drive(Step(w, p, beats[0]).0, Step(w, p, beats[0]).1, beats[1..])
  {
    hide Api, NextCall, Resume;
  }

  class DatabaseReconciler {
    const request: Key
    var world: World
    var beats: seq<Beat>
    var beat: Beat
    ghost var pass: Pass
    ghost var here: Pass

    constructor (request: Key, world: World, beats: seq<Beat>)
      ensures this.request == request && this.world == world && this.beats == beats
    {
      this.request, this.world, this.beats := request, world, beats;
      beat := Beat(Works, 0, [], [], true);
      pass, here := InitialPass(request), InitialPass(request);
    }

    /** The pass is about the requested resource. */
    ghost predicate Mine(p: Pass) { p.key == request && p.obj.key == request }

    /** What the rest of the tape will make of the world and of the pass. */
    ghost function Fate(): (World, Pass)
      reads this`world, this`pass, this`beats
    {
      Drive(world, pass, beats)
    }

    /** The pass is at this call, with the object as it is in memory. */
    ghost predicate At(db: PostgresDatabase, pc: Pc)
      reads this, db, db.book
    {
      pass.pc == pc && pass.obj == db.View() && Mine(pass)
    }

    /** The pass has ended in a way that its caller can see; a deletion pass goes on to its finalizer. */
    ghost predicate Over<T>(outcome: Outcome<T>, deleting: bool)
      reads this`beats, this`pass
    {
      match outcome
      case On(_) => true
      case Died => beats == []
      case Ended(ending) => pass.pc == if deleting then Refetch else Stopped(ending)
    }

    /** The pass has ended the way it says, or its tape is used up. */
    ghost predicate Concluded<T>(outcome: Outcome<T>)
      reads this`beats, this`pass
    {
      match outcome
      case On(_) => pass.pc == Stopped(Published)
      case Died => beats == []
      case Ended(ending) => pass.pc == Stopped(ending)
    }

    /** The stored objects are well formed, and the pass agrees with them. */
    ghost predicate Sound()
      reads this`world, this`pass
    {
      StoreOk(world) && PassOk(world, request, pass)
    }

    // -------------------------------------------------------------- calls

    method Do(call: Call) returns (r: Outcome<Response>)
      requires call == NextCall(pass) && !pass.pc.Stopped? && Mine(pass)
      requires Sound()
      modifies this
      ensures Fate() == old(Fate()) && Sound()
      ensures !r.Ended? && Over(r, false)
      ensures r.On? ==> here == Told(old(pass), r.value) && pass == Resume(here, r.value, beat)
                        && |beats| < |old(beats)|
      ensures r.On? ==> r.value == Api(old(world), request, call, beat).1
    {
      if beats == [] {
        return Died;
      }
      beat := beats[0];
      var (after, answer) := Api(world, request, call, beat);
      OneCall(world, pass, beats, answer);
      AnswerNoted(pass, answer, beat);
      StepKeeps(world, request, pass, beat);
      hide Api, Drive, Step, After, StoreOk, PassOk, Told, NextCall, Resume;
      here := Told(pass, answer);
      world, pass, beats := after, After(pass, answer, beat), beats[1..];
      return On(answer);
    }

    lemma SoundFacts()
      requires Sound()
      ensures Mine(pass) && (Normal(pass.pc) ==> !pass.obj.deleting)
    {
      hide StoreOk, Finalized, Synced;
    }

    /** The status write at the end of a pass that gives up, whatever comes of it. */
    method Write<T>(db: PostgresDatabase, ending: Ending) returns (r: Outcome<T>)
      requires pass.pc == WriteFailure(ending) && pass.obj == db.View() && Mine(pass)
      requires Sound()
      modifies this
      ensures Fate() == old(Fate()) && Sound()
      ensures !r.On? && Over(r, old(db.deleting)) && (r.Ended? ==> r.ending == ending)
    {
      hide Fate, Sound;
      hide ResumeFront, ResumeSecret, ResumeSql, ResumeRepair;
      var answer :- Do(Call.UpdateStatus(db.View()));
      return Ended(ending);
    }

    /** The condition that failed, the phase that follows from it, and the write. */
    method Report<T>(db: PostgresDatabase, kind: string, message: string, ending: Ending) returns (r: Outcome<T>)
      requires here.obj == db.View() && Mine(here) && pass == FailWith(here, kind, message, beat.now, ending)
      requires Sound()
      modifies this, db, db.book
      ensures Fate() == old(Fate()) && Sound()
      ensures !r.On? && Over(r, old(db.deleting)) && (r.Ended? ==> r.ending == ending)
    {
      hide Upsert, DatabasePhase, Fate, Sound;
      hide ResumeFront, ResumeSecret, ResumeSql, ResumeRepair, ResumeEnd;
      db.SetCondition(kind, false, message, beat.now);
      db.UpdatePhase();
      r := Write(db, ending);
    }

    // -------------------------------------------------------------- the cluster and its credentials

    method FetchAndValidateCluster(db: PostgresDatabase) returns (r: Outcome<Cluster>)
      requires At(db, ReadCluster) && !db.deleting
      requires Sound()
      modifies this, db, db.book
      ensures Fate() == old(Fate()) && Sound() && Over(r, false)
      ensures r.On? ==> here.obj == db.View() && Mine(here) && here.cluster == r.value && !db.deleting
                        && pass == Resolve(here, Host, beat.now)
    {
      hide Upsert, DatabasePhase, ClusterIsReady, NextCall, Resolve, FailWith, Fate, Sound;
      hide ResumeSecret, ResumeSql, ResumeRepair, ResumeEnd;
      NextIsCluster(pass);
      var answer :- Do(GetCluster(ClusterKeyOf(db.View())));
      if !answer.FoundCluster? {
        r := Report(db, "ClusterReady", "cluster not read", if answer.NotFound? then Requeued else Errored);
        return;
      }
      here := here.(cluster := answer.cluster);
      r := ValidateCluster(db, answer.cluster);
    }

    method ValidateCluster(db: PostgresDatabase, cluster: Cluster) returns (r: Outcome<Cluster>)
      requires here.obj == db.View() && Mine(here) && here.cluster == cluster && !db.deleting
      requires var ready := ClusterIsReady(cluster);
               var checked := SetCondition(here, "ClusterReady", ready, "cluster readiness", beat.now);
               pass == if ready then Resolve(checked, Host, beat.now)
                       else UpdatePhase(checked).(pc := WriteFailure(Requeued))
      requires Sound()
      modifies this, db, db.book
      ensures Fate() == old(Fate()) && Sound() && Over(r, false)
      ensures r.On? ==> here.obj == db.View() && Mine(here) && here.cluster == r.value && !db.deleting
                        && pass == Resolve(here, Host, beat.now)
    {
      hide Upsert, DatabasePhase, ClusterIsReady, NextCall, Resolve, Fate, Sound, PhaseMeans;
      var ready := ClusterIsReady(cluster);
      db.SetCondition("ClusterReady", ready, "cluster readiness", beat.now);
      here := SetCondition(here, "ClusterReady", ready, "cluster readiness", beat.now);
      if ready {
        return On(cluster);
      }
      db.UpdatePhase();
      r := Write(db, Requeued);
    }

    /** resolveStringOrSecret for one field of the cluster. */
    method ResolveField(db: PostgresDatabase, source: Option<Source>, namespace: string, ghost f: Field)
      returns (r: Outcome<string>)
      requires here.obj == db.View() && Mine(here) && SourceOf(here.cluster, f) == source
      requires namespace == ClusterKeyOf(here.obj).namespace && pass == Resolve(here, f, beat.now)
      requires Sound()
      modifies this, db, db.book
      ensures Fate() == old(Fate()) && Sound() && Over(r, old(db.deleting))
      ensures r.On? ==> here.obj == db.View() && here == old(here).(pc := here.pc, trace := here.trace)
                        && pass == Accept(here, f, r.value, beat.now)
    {
      hide Upsert, DatabasePhase, FailWith, Accept, Fate, Sound;
      hide ResumeSecret, ResumeSql, ResumeRepair, ResumeEnd;
      if source.None? {
        return Ended(Errored);
      }
      if source.value.value != "" {
        return On(source.value.value);
      }
      if source.value.from.None? {
        return Ended(Errored);
      }
      var from := source.value.from.value;
      var k := Key(if from.namespace != "" then from.namespace else namespace, from.name);
      var answer :- Do(GetSecret(k));
      if answer.NotFound? {
        r := Report(db, "SecretReady", "secret not found", Requeued);
        return;
      }
      if !answer.FoundSecret? || from.entry !in answer.data {
        return Ended(Errored);
      }
      return On(answer.data[from.entry]);
    }

    method ResolveClusterConnection(db: PostgresDatabase, cluster: Cluster, namespace: string)
      returns (r: Outcome<Admin>)
      requires here.obj == db.View() && Mine(here) && here.cluster == cluster
      requires namespace == ClusterKeyOf(here.obj).namespace && pass == Resolve(here, Host, beat.now)
      requires Sound()
      modifies this, db, db.book
      ensures Fate() == old(Fate()) && Sound() && Over(r, old(db.deleting))
      ensures r.On? ==> here.obj == db.View() && Mine(here) && pass == here.(pc := AfterCredentials(here.obj))
                        && db.deleting == old(db.deleting)
                        && Admin(here.host, here.port, here.user, here.password) == r.value
                        && r.value.host != "" && r.value.user != "" && r.value.password != ""
    {
      hide Upsert, DatabasePhase, FailWith, Resolve, Fate, Sound;
      var host :- ResolveField(db, cluster.host, namespace, Host);
      here := here.(host := host);
      var user :- ResolveField(db, cluster.user, namespace, User);
      here := here.(user := user);
      var password :- ResolveField(db, cluster.password, namespace, Password);
      here := here.(password := password);
      r := Validate(db, Admin(host, if cluster.port == 0 then 5432 else cluster.port, user, password));
    }

    /** The end of resolveClusterConnection: every credential must be there. */
    method Validate(db: PostgresDatabase, admin: Admin) returns (r: Outcome<Admin>)
      requires here.obj == db.View() && Mine(here) && pass == Resolved(here, beat.now)
      requires here.host == admin.host && here.user == admin.user && here.password == admin.password
      requires admin.port == if here.cluster.port == 0 then 5432 else here.cluster.port
      requires Sound()
      modifies this, db, db.book
      ensures Fate() == old(Fate()) && Sound() && Over(r, old(db.deleting))
      ensures r.On? ==> here.obj == db.View() && Mine(here) && pass == here.(pc := AfterCredentials(here.obj))
                        && db.deleting == old(db.deleting)
                        && Admin(here.host, here.port, here.user, here.password) == r.value
                        && r.value.host != "" && r.value.user != "" && r.value.password != ""
    {
      hide Upsert, DatabasePhase, FailWith, Fate, Sound;
      if admin.host == "" {
        r := Report(db, "SecretReady", "host is not configured", Errored);
        return;
      }
      if admin.user == "" {
        r := Report(db, "SecretReady", "user is not configured", Errored);
        return;
      }
      if admin.password == "" {
        r := Report(db, "SecretReady", "password is not configured", Errored);
        return;
      }
      db.SetCondition("SecretReady", true, "resolved", beat.now);
      here := SetCondition(here, "SecretReady", true, "resolved", beat.now).(port := admin.port);
      return On(admin);
    }

    method EnsureFinalizer(db: PostgresDatabase) returns (r: Outcome<()>)
      requires pass.obj == db.View() && Mine(pass) && pass.pc == AfterCredentials(pass.obj) && !db.deleting
      requires Sound()
      modifies this, db, db.book
      ensures Fate() == old(Fate()) && Sound() && Over(r, false)
      ensures r.On? ==> At(db, OpenConnection) && !db.deleting
                        && pass == old(pass).(obj := pass.obj, pc := pass.pc, trace := pass.trace)
    {
      hide Fate, Sound;
      hide ResumeSecret, ResumeSql, ResumeRepair, ResumeEnd;
      if FINALIZER !in db.finalizers {
        db.finalizers := db.finalizers + [FINALIZER];
        var answer :- Do(Update(db.View()));
        if !answer.Updated? {
          return Ended(Errored);
        }
        db.Load(if beat.keepsStatus then answer.resource.(status := db.View().status) else answer.resource);
      }
      SoundFacts();
      return On(());
    }

    // -------------------------------------------------------------- the connection and its secret

    /** The credentials a pass has resolved. */
    ghost function Credentials(p: Pass): Admin { Admin(p.host, p.port, p.user, p.password) }

    /** The pass has the credentials, and its object is the one in memory. */
    ghost predicate Has(db: PostgresDatabase, p: Pass, admin: Admin)
      reads this`beat, db, db.book
    {
      p.obj == db.View() && Mine(p) && !db.deleting && Credentials(p) == admin
    }

    method ConnectToDatabase(db: PostgresDatabase, admin: Admin) returns (r: Outcome<()>)
      requires pass.pc == OpenConnection && Has(db, pass, admin)
      requires Sound()
      modifies this, db, db.book
      ensures Fate() == old(Fate()) && Sound() && Over(r, false)
      ensures r.On? ==> pass.pc == ReadSecret && Has(db, pass, admin)
    {
      hide Upsert, DatabasePhase, FailWith, Fate, Sound, Fresh, UserNameOf, DatabaseNameOf, PasswordFrom, PasswordIn;
      hide ResumeFront, ResumeSql, ResumeRepair, ResumeEnd;
      var connected :- Do(OpenServer(admin.host, admin.port, admin.user, admin.password));
      if !connected.Done? {
        r := Report(db, "ConnectionReady", "open failed", Errored);
        return;
      }
      var pinged :- Do(PingServer);
      if !pinged.Done? {
        r := Report(db, "ConnectionReady", "ping failed", Errored);
        return;
      }
      db.SetCondition("ConnectionReady", true, "connected", beat.now);
      return On(());
    }

    method EnsureConnectionSecret(db: PostgresDatabase, admin: Admin) returns (r: Outcome<string>)
      requires pass.pc == ReadSecret && Has(db, pass, admin)
      requires Sound()
      modifies this, db, db.book
      ensures Fate() == old(Fate()) && Sound() && Over(r, false)
      ensures r.On? ==> pass.pc == MakeRole && Has(db, pass, admin) && pass.secretPassword == r.value
    {
      hide Upsert, DatabasePhase, FailWith, Fate, Sound, SecretData, PasswordFrom, PasswordIn, UserNameOf;
      hide DatabaseNameOf;
      hide ResumeFront, ResumeSql, ResumeRepair, ResumeEnd;
      var answer :- Do(GetSecret(SecretKeyOf(db.key)));
      if answer.NotFound? {
        var password :- DrawPassword(db, admin);
        r := CreateConnectionSecret(db, SecretKeyOf(db.key), admin, password);
      } else if !answer.FoundSecret? {
        r := Report(db, "SecretReady", "connection secret not read", Errored);
      } else {
        db.SetCondition("SecretReady", true, "connection secret exists", beat.now);
        return On(PasswordIn(answer.data));
      }
    }

    method DrawPassword(db: PostgresDatabase, ghost admin: Admin) returns (r: Outcome<string>)
      requires pass.pc == Pc.DrawPassword && Has(db, pass, admin)
      requires Sound()
      modifies this, db, db.book
      ensures Fate() == old(Fate()) && Sound() && Over(r, false)
      ensures r.On? ==> pass.pc == OwnSecret && Has(db, pass, admin) && pass.secretPassword == r.value
                        && db.key == old(db.key)
    {
      hide Upsert, DatabasePhase, FailWith, Fate, Sound, PasswordFrom;
      hide ResumeFront, ResumeSql, ResumeRepair, ResumeEnd;
      var random :- Do(ReadRandom);
      if !random.Bytes? {
        r := Report(db, "SecretReady", "no random password", Errored);
        return;
      }
      var password := GenerateRandomPassword(|random.bytes|, Some(random.bytes));
      return On(password.value);
    }

    method CreateConnectionSecret(db: PostgresDatabase, k: Key, admin: Admin, password: string)
      returns (r: Outcome<string>)
      requires pass.pc == OwnSecret && Has(db, pass, admin) && pass.secretPassword == password
               && k == SecretKeyOf(db.key)
      requires Sound()
      modifies this, db, db.book
      ensures Fate() == old(Fate()) && Sound() && Over(r, false)
      ensures r.On? ==> pass.pc == MakeRole && Has(db, pass, admin) && pass.secretPassword == r.value
    {
      hide Upsert, DatabasePhase, FailWith, Fate, Sound, Fresh;
      hide ResumeFront, ResumeSql, ResumeRepair, ResumeEnd, PasswordFrom, PasswordIn;
      var owned :- Do(SetOwnerReference);
      if !owned.Done? {
        r := Report(db, "SecretReady", "controller reference not set", Errored);
        return;
      }
      var _ :- StoreConnectionSecret(db, k, admin, password);
      return On(password);
    }

    method StoreConnectionSecret(db: PostgresDatabase, k: Key, admin: Admin, password: string) returns (r: Outcome<()>)
      requires pass.pc == WriteSecret && Has(db, pass, admin) && pass.secretPassword == password
               && k == SecretKeyOf(db.key)
      requires Sound()
      modifies this, db, db.book
      ensures Fate() == old(Fate()) && Sound() && Over(r, false)
      ensures r.On? ==> pass.pc == MakeRole && Has(db, pass, admin) && pass.secretPassword == password
    {
      hide Upsert, DatabasePhase, FailWith, Fate, Sound, SecretData, UserNameOf, DatabaseNameOf, Fresh, SecretKeyOf;
      hide ResumeFront, ResumeSql, ResumeRepair, ResumeEnd, PasswordFrom, PasswordIn;
      var (d, u) := (DatabaseNameOf(db.View()), UserNameOf(db.View()));
      var created :- Do(CreateSecret(k, SecretData(admin.host, admin.port, d, u, password)));
      if !created.Done? {
        r := Report(db, "SecretReady", "connection secret not created", Errored);
        return;
      }
      db.SetCondition("SecretReady", true, "connection secret created", beat.now);
      return On(());
    }

    // -------------------------------------------------------------- the role and the database

    /** A statement of createDatabaseAndUser. */
    method Exec(call: Call) returns (r: Outcome<Response>)
      requires call == NextCall(pass) && InSql(pass.pc) && Mine(pass)
      requires Sound()
      modifies this
      ensures Fate() == old(Fate()) && Sound()
      ensures !r.Ended? && Over(r, false)
      ensures r.On? ==> here == Told(old(pass), r.value) && pass == ResumeSql(here, r.value, beat)
    {
      hide Fate, Sound, ResumeFront, ResumeSecret, ResumeSql, ResumeRepair, ResumeEnd, NextCall;
      r := Do(call);
    }

    /** The names that every statement is about. */
    ghost predicate Names(p: Pass, d: string, u: string) { d == DbName(p) && u == RoleName(p) }

    method CreateDatabaseAndUser(db: PostgresDatabase, admin: Admin, password: string) returns (r: Outcome<()>)
      requires pass.pc == MakeRole && Has(db, pass, admin) && pass.secretPassword == password
      requires Sound()
      modifies this, db, db.book
      ensures Fate() == old(Fate()) && Sound() && Over(r, false)
      ensures r.On? ==> Has(db, here, admin) && pass == Finish(here, beat.now)
    {
      hide Upsert, DatabasePhase, FailWith, Fate, Sound, UserNameOf, DatabaseNameOf, Finish, Repaired, RepairFailed;
      hide Resume, ResumeSql, ResumeRepair, NextCall;
      var (d, u) := (DatabaseNameOf(db.View()), UserNameOf(db.View()));
      var userExists :- CreateRole(db, admin, d, u, password);
      var _ :- CreateOrAdoptDatabase(db, admin, d, u, userExists);
      r := GrantAndRepair(db, admin, d, u);
    }

    method GrantAndRepair(db: PostgresDatabase, admin: Admin, d: string, u: string) returns (r: Outcome<()>)
      requires pass.pc == Pc.GrantDatabase && Has(db, pass, admin) && Names(pass, d, u)
      requires Sound()
      modifies this, db, db.book
      ensures Fate() == old(Fate()) && Sound() && Over(r, false)
      ensures r.On? ==> Has(db, here, admin) && pass == Finish(here, beat.now)
    {
      hide FailWith, Fate, Sound, UserNameOf, DatabaseNameOf, Finish, Repaired, RepairFailed, Resume, NextCall;
      var _ :- GrantPrivileges(db, admin, d, u);
      var repaired :- TransferObjectOwnership(db, admin, d, u);
      r := Conclude(db, admin, repaired);
    }

    method GrantPrivileges(db: PostgresDatabase, admin: Admin, d: string, u: string) returns (r: Outcome<()>)
      requires pass.pc == Pc.GrantDatabase && Has(db, pass, admin) && Names(pass, d, u)
      requires Sound()
      modifies this, db, db.book
      ensures Fate() == old(Fate()) && Sound() && Over(r, false)
      ensures r.On? ==> pass.pc == ListWrongOwners && Has(db, pass, admin) && Names(pass, d, u)
    {
      hide Fate, Sound, Has, Names;
      var _ :- GrantOnDatabase(db, admin, d, u);
      var _ :- ConnectToTarget(db, admin, d, u);
      var _ :- GrantInDatabase(db, admin, d, u);
      var _ :- GrantDefaults(db, admin, d, u);
      return On(());
    }

    /** What createDatabaseAndUser makes of the result of the repair. */
    method Conclude(db: PostgresDatabase, ghost admin: Admin, repaired: bool) returns (r: Outcome<()>)
      requires Has(db, here, admin) && pass == if repaired then Repaired(here, beat) else RepairFailed(here, beat)
      requires Sound()
      modifies this, db, db.book
      ensures Fate() == old(Fate()) && Sound() && Over(r, false)
      ensures r.On? ==> Has(db, here, admin) && pass == Finish(here, beat.now)
    {
      hide Upsert, DatabasePhase, FailWith, Fate, Sound, Finish;
      hide ResumeFront, ResumeSecret, ResumeSql, ResumeRepair, ResumeEnd;
      if !repaired {
        db.SetCondition("DatabaseReady", false, "ownership repair failed", beat.now);
        here := SetCondition(here, "DatabaseReady", false, "ownership repair failed", beat.now);
        r := Report(db, "Ready", "ownership repair failed; will retry", Errored);
        return;
      }
      db.SetCondition("DatabaseReady", true, "created", beat.now);
      here := SetCondition(here, "DatabaseReady", true, "created", beat.now);
      return On(());
    }

    method CreateRole(db: PostgresDatabase, ghost admin: Admin, d: string, u: string, password: string)
      returns (r: Outcome<bool>)
      requires pass.pc == MakeRole && Has(db, pass, admin) && Names(pass, d, u) && pass.secretPassword == password
      requires Sound()
      modifies this, db, db.book
      ensures Fate() == old(Fate()) && Sound() && Over(r, false)
      ensures r.On? ==> pass.pc == MakeDatabase && pass.userExists == r.value && Has(db, pass, admin)
                        && Names(pass, d, u)
    {
      hide Upsert, DatabasePhase, FailWith, Fate, Sound, UserNameOf, DatabaseNameOf;
      hide ResumeFront, ResumeSecret, ResumeRepair, ResumeEnd;
      var answer :- Exec(CreateUser(u, password));
      if answer.Done? {
        return On(false);
      }
      if !answer.AlreadyExists? {
        here := here.(userExists := false);
        r := Report(db, "DatabaseReady", "statement failed", Errored);
        return;
      }
      answer :- Exec(AlterUser(u, password));
      return On(true);
    }

    method CreateOrAdoptDatabase(db: PostgresDatabase, ghost admin: Admin, d: string, u: string, userExists: bool)
      returns (r: Outcome<()>)
      requires pass.pc == MakeDatabase && pass.userExists == userExists && Has(db, pass, admin) && Names(pass, d, u)
      requires Sound()
      modifies this, db, db.book
      ensures Fate() == old(Fate()) && Sound() && Over(r, false)
      ensures r.On? ==> pass.pc == Pc.GrantDatabase && Has(db, pass, admin) && Names(pass, d, u)
    {
      hide Upsert, DatabasePhase, FailWith, Fate, Sound, UserNameOf, DatabaseNameOf;
      hide ResumeFront, ResumeSecret, ResumeRepair, ResumeEnd;
      var answer :- Exec(CreateDatabase(d, u));
      if !answer.Done? {
        if !answer.AlreadyExists? {
          r := Report(db, "DatabaseReady", "statement failed", Errored);
          return;
        }
        if userExists {
          answer :- Exec(AlterDatabaseOwner(d, u));
        }
      }
      return On(());
    }

    method GrantOnDatabase(db: PostgresDatabase, ghost admin: Admin, d: string, u: string) returns (r: Outcome<()>)
      requires pass.pc == Pc.GrantDatabase && Has(db, pass, admin) && Names(pass, d, u)
      requires Sound()
      modifies this, db, db.book
      ensures Fate() == old(Fate()) && Sound() && Over(r, false)
      ensures r.On? ==> pass.pc == OpenDatabase && Has(db, pass, admin) && Names(pass, d, u)
    {
      hide Upsert, DatabasePhase, FailWith, Fate, Sound, UserNameOf, DatabaseNameOf;
      hide ResumeFront, ResumeSecret, ResumeRepair, ResumeEnd;
      var answer :- Exec(GrantIn(d, OnDatabase(u)));
      if !answer.Done? {
        r := Report(db, "DatabaseReady", "statement failed", Errored);
        return;
      }
      return On(());
    }

    method ConnectToTarget(db: PostgresDatabase, admin: Admin, d: string, u: string) returns (r: Outcome<()>)
      requires pass.pc == OpenDatabase && Has(db, pass, admin) && Names(pass, d, u)
      requires Sound()
      modifies this, db, db.book
      ensures Fate() == old(Fate()) && Sound() && Over(r, false)
      ensures r.On? ==> pass.pc == GrantSchema && Has(db, pass, admin) && Names(pass, d, u)
    {
      hide Upsert, DatabasePhase, FailWith, Fate, Sound, UserNameOf, DatabaseNameOf;
      hide ResumeFront, ResumeSecret, ResumeRepair, ResumeEnd;
      var answer :- Exec(OpenTarget(admin.host, admin.port, admin.user, admin.password, d));
      if answer.Done? {
        answer :- Exec(PingTarget(d));
      }
      if !answer.Done? {
        r := Report(db, "DatabaseReady", "statement failed", Errored);
        return;
      }
      return On(());
    }

    method GrantInDatabase(db: PostgresDatabase, ghost admin: Admin, d: string, u: string) returns (r: Outcome<()>)
      requires pass.pc == GrantSchema && Has(db, pass, admin) && Names(pass, d, u)
      requires Sound()
      modifies this, db, db.book
      ensures Fate() == old(Fate()) && Sound() && Over(r, false)
      ensures r.On? ==> pass.pc == GrantDefault(0) && Has(db, pass, admin) && Names(pass, d, u)
    {
      hide Upsert, DatabasePhase, FailWith, Fate, Sound, UserNameOf, DatabaseNameOf;
      hide ResumeFront, ResumeSecret, ResumeRepair, ResumeEnd;
      var answer :- Exec(GrantIn(d, OnSchema(u)));
      if answer.Done? {
        answer :- Exec(GrantIn(d, CreateOnSchema(u)));
      }
      if !answer.Done? {
        r := Report(db, "DatabaseReady", "statement failed", Errored);
        return;
      }
      return On(());
    }

    /** The three grants for objects to come; their failure is only logged. */
    method GrantDefaults(db: PostgresDatabase, ghost admin: Admin, d: string, u: string) returns (r: Outcome<()>)
      requires pass.pc == GrantDefault(0) && Has(db, pass, admin) && Names(pass, d, u)
      requires Sound()
      modifies this
      ensures Fate() == old(Fate()) && Sound() && Over(r, false) && !r.Ended?
      ensures r.On? ==> pass.pc == ListWrongOwners && Has(db, pass, admin) && Names(pass, d, u)
    {
      hide Fate, Sound, UserNameOf, DatabaseNameOf;
      hide ResumeFront, ResumeSecret, ResumeRepair, ResumeEnd;
      var answer :- Exec(GrantIn(d, ByDefault(0, u)));
      answer :- Exec(GrantIn(d, ByDefault(1, u)));
      answer :- Exec(GrantIn(d, ByDefault(2, u)));
      return On(());
    }

    /** A call of transferObjectOwnership. */
    method Repair(call: Call) returns (r: Outcome<Response>)
      requires call == NextCall(pass) && InRepair(pass.pc) && Mine(pass)
      requires Sound()
      modifies this
      ensures Fate() == old(Fate()) && Sound() && !r.Ended? && Over(r, false)
      ensures r.On? ==> here == Told(old(pass), r.value) && pass == ResumeRepair(here, r.value, beat)
                        && |beats| < |old(beats)|
    {
      hide Fate, Sound, ResumeFront, ResumeSecret, ResumeSql, ResumeRepair, ResumeEnd, NextCall;
      r := Do(call);
    }

    /** transferObjectOwnership: lists once, then repairs in one transaction per object, up to the first failure. */
    method TransferObjectOwnership(db: PostgresDatabase, ghost admin: Admin, d: string, u: string)
      returns (r: Outcome<bool>)
      requires pass.pc == ListWrongOwners && Has(db, pass, admin) && Names(pass, d, u)
      requires Sound()
      modifies this
      ensures Fate() == old(Fate()) && Sound() && !r.Ended? && Over(r, false)
      ensures r.On? ==> Has(db, here, admin)
                        && pass == if r.value then Repaired(here, beat) else RepairFailed(here, beat)
    {
      hide Fate, Sound, UserNameOf, DatabaseNameOf, Repaired, RepairFailed;
      hide ResumeFront, ResumeSecret, ResumeSql, ResumeEnd;
      var listing :- ListObjects(db, admin, d, u);
      if listing.None? {
        return On(false);
      }
      var items := listing.value;
      for i := 0 to |items|
        invariant Fate() == old(Fate()) && Sound() && Has(db, here, admin)
        invariant if i == |items| then pass == Repaired(here, beat)
                  else pass.pc == BeginRepair && pass.todo == items[i..] && Has(db, pass, admin) && Names(pass, d, u)
      {
        var repaired :- RepairObject(db, admin, d, u, items[i]);
        if !repaired {
          return On(false);
        }
      }
      return On(true);
    }

    /** The rows of the listing, or nothing if it could not be read to its end. */
    method ListObjects(db: PostgresDatabase, ghost admin: Admin, d: string, u: string)
      returns (r: Outcome<Option<seq<string>>>)
      requires pass.pc == ListWrongOwners && Has(db, pass, admin) && Names(pass, d, u)
      requires Sound()
      modifies this
      ensures Fate() == old(Fate()) && Sound() && !r.Ended? && Over(r, false)
      ensures r.On? ==> Has(db, here, admin)
      ensures r.On? && r.value.None? ==> pass == RepairFailed(here, beat)
      ensures r.On? && r.value == Some([]) ==> pass == Repaired(here, beat)
      ensures r.On? && r.value.Some? && r.value != Some([]) ==>
                pass.pc == BeginRepair && pass.todo == r.value.value && Has(db, pass, admin) && Names(pass, d, u)
    {
      hide Fate, Sound, UserNameOf, DatabaseNameOf, Repaired, RepairFailed;
      hide ResumeFront, ResumeSecret, ResumeSql, ResumeEnd;
      var answer :- Repair(QueryWrongOwners(d, u));
      if !answer.Done? {
        return On(None);
      }
      var rows :- ReadRows(db, admin, d, u);
      answer :- Repair(CloseRows);
      return On(if rows.complete && answer.Done? then Some(rows.items) else None);
    }

    /** The rows of the listing, and whether they came to an end without an error. */
    method ReadRows(db: PostgresDatabase, ghost admin: Admin, d: string, u: string) returns (r: Outcome<Rows>)
      requires pass.pc == FetchWrongOwner && pass.listed == [] && Has(db, pass, admin) && Names(pass, d, u)
      requires Sound()
      modifies this
      ensures Fate() == old(Fate()) && Sound() && !r.Ended? && Over(r, false)
      ensures r.On? ==> pass.pc == CloseListing(r.value.complete) && pass.listed == r.value.items
                        && Has(db, pass, admin) && Names(pass, d, u)
    {
      hide Fate, Sound, Told, Names, UserNameOf, DatabaseNameOf, ResumeRepair;
      hide ResumeFront, ResumeSecret, ResumeSql, ResumeEnd;
      var items: seq<string> := [];
      var answer :- Fetch(db, admin, d, u);
      while answer.Row?
        invariant Fate() == old(Fate()) && Sound() && Has(db, pass, admin) && Names(pass, d, u)
        invariant if answer.Row? then pass.pc == FetchWrongOwner && pass.listed == items + [answer.item]
                  else pass.pc == CloseListing(answer.EndOfRows?) && pass.listed == items
        decreases |beats|
      {
        items := items + [answer.item];
        answer :- Fetch(db, admin, d, u);
      }
      return On(Rows(items, answer.EndOfRows?));
    }

    /** One row. */
    method Fetch(db: PostgresDatabase, ghost admin: Admin, d: string, u: string) returns (r: Outcome<Response>)
      requires pass.pc == FetchWrongOwner && Has(db, pass, admin) && Names(pass, d, u)
      requires Sound()
      modifies this
      ensures Fate() == old(Fate()) && Sound() && !r.Ended? && Over(r, false)
      ensures r.On? ==> |beats| < |old(beats)| && Has(db, pass, admin) && Names(pass, d, u)
                        && if r.value.Row? then pass.pc == FetchWrongOwner
                           && pass.listed == old(pass).listed + [r.value.item]
                           else pass.pc == CloseListing(r.value.EndOfRows?) && pass.listed == old(pass).listed
    {
      hide Fate, Sound, UserNameOf, DatabaseNameOf, Repaired, RepairFailed;
      hide ResumeFront, ResumeSecret, ResumeSql, ResumeEnd;
      r := Repair(FetchRow);
    }

    /** One object, in a transaction of its own. */
    method RepairObject(db: PostgresDatabase, ghost admin: Admin, d: string, u: string, item: string)
      returns (r: Outcome<bool>)
      requires pass.pc == BeginRepair && pass.todo != [] && pass.todo[0] == item && Has(db, pass, admin)
               && Names(pass, d, u)
      requires Sound()
      modifies this
      ensures Fate() == old(Fate()) && Sound() && !r.Ended? && Over(r, false)
      ensures r.On? ==> Has(db, here, admin)
      ensures r.On? && !r.value ==> pass == RepairFailed(here, beat)
      ensures r.On? && r.value ==>
                if |old(pass).todo| == 1 then pass == Repaired(here, beat)
                else pass.pc == BeginRepair && pass.todo == old(pass).todo[1..] && Has(db, pass, admin)
                     && Names(pass, d, u)
    {
      hide Fate, Sound, UserNameOf, DatabaseNameOf, Repaired, RepairFailed;
      hide ResumeFront, ResumeSecret, ResumeSql, ResumeEnd;
      var answer :- Repair(Begin);
      if !answer.Done? {
        return On(false);
      }
      var altered :- AlterOne(db, admin, d, u, item);
      if !altered {
        return On(false);
      }
      answer :- Repair(Commit);
      if answer.Done? {
        here := here.(todo := here.todo[1..]);
      }
      return On(answer.Done?);
    }

    /** Limits the wait for the lock and changes the owner; rolls back if either fails. */
    method AlterOne(db: PostgresDatabase, ghost admin: Admin, d: string, u: string, item: string)
      returns (r: Outcome<bool>)
      requires pass.pc == LimitLockWait && pass.todo != [] && pass.todo[0] == item && Has(db, pass, admin)
               && Names(pass, d, u)
      requires Sound()
      modifies this
      ensures Fate() == old(Fate()) && Sound() && !r.Ended? && Over(r, false)
      ensures r.On? && !r.value ==> Has(db, here, admin) && pass == RepairFailed(here, beat)
      ensures r.On? && r.value ==> pass.pc == CommitRepair && pass.todo == old(pass).todo && Has(db, pass, admin)
                                   && Names(pass, d, u)
    {
      hide Fate, Sound, UserNameOf, DatabaseNameOf, Repaired, RepairFailed;
      hide ResumeFront, ResumeSecret, ResumeSql, ResumeEnd;
      var answer :- Repair(SetLockTimeout);
      if answer.Done? {
        answer :- Repair(AlterOwner(d, item, u));
        if answer.Done? {
          return On(true);
        }
      }
      r := Abandon(db, admin);
    }

    method Abandon(db: PostgresDatabase, ghost admin: Admin) returns (r: Outcome<bool>)
      requires pass.pc == RollbackRepair && Has(db, pass, admin)
      requires Sound()
      modifies this
      ensures Fate() == old(Fate()) && Sound() && !r.Ended? && Over(r, false)
      ensures r.On? ==> !r.value && Has(db, here, admin) && pass == RepairFailed(here, beat)
    {
      hide Fate, Sound, UserNameOf, DatabaseNameOf, Repaired, RepairFailed;
      hide ResumeFront, ResumeSecret, ResumeSql, ResumeEnd;
      var answer :- Repair(Rollback);
      return On(false);
    }

    // -------------------------------------------------------------- deletion

    /** A deletion pass that has come to its finalizer, or died on the way. */
    ghost predicate AtFinalizer<T>(outcome: Outcome<T>)
      reads this`beats, this`pass
    {
      if outcome.Died? then beats == [] else Mine(pass) && pass.pc == Refetch
    }

    method HandleDeletion(db: PostgresDatabase) returns (r: Outcome<()>)
      requires At(db, ReadCluster) && db.deleting && FINALIZER in db.finalizers
      requires Sound()
      modifies this, db, db.book
      ensures Fate() == old(Fate()) && Sound() && !r.On?
      ensures if r.Died? then beats == [] else pass.pc == Stopped(r.ending)
    {
      hide Fate, Sound;
      hide ResumeFront, ResumeSecret, ResumeSql, ResumeRepair;
      var _ :- CleanUp(db);
      var answer :- Attempt(GetResource(request));
      if answer.NotFound? {
        return Ended(Ignored);
      }
      if !answer.Found? {
        return Ended(Errored);
      }
      var latest := answer.resource;
      if FINALIZER !in latest.finalizers {
        return Ended(Ignored);
      }
      answer :- Attempt(Update(latest.(finalizers := Without(latest.finalizers, FINALIZER))));
      return Ended(if answer.Updated? then Released else if answer.Conflict? then Requeued else Errored);
    }

    /** A call of a deletion pass. */
    method Attempt(call: Call) returns (r: Outcome<Response>)
      requires call == NextCall(pass) && (Dropping(pass.pc) || pass.pc.Refetch? || pass.pc.RemoveFinalizer?)
      requires Sound()
      modifies this
      ensures Fate() == old(Fate()) && Sound()
      ensures !r.Ended? && Over(r, true)
      ensures r.On? ==> here == Told(old(pass), r.value) && pass == ResumeEnd(here, r.value, beat)
    {
      hide Fate, Sound, Resume, ResumeEnd, NextCall, Told, Live;
      SoundFacts();
      ghost var before := pass;
      r := Do(call);
      if r.On? {
        SamePlace(before, r.value);
        ResumeCases(here, r.value, beat);
      }
    }

    lemma SamePlace(p: Pass, answer: Response)
      ensures Told(p, answer).pc == p.pc
    {
    }

    /** Drops what it may and can; nothing it meets keeps the finalizer in place. */
    method CleanUp(db: PostgresDatabase) returns (r: Outcome<()>)
      requires At(db, ReadCluster) && db.deleting
      requires Sound()
      modifies this, db, db.book
      ensures Fate() == old(Fate()) && Sound() && !r.Ended? && AtFinalizer(r)
    {
      hide Fate, Sound, ResumeSecret, ResumeSql, ResumeRepair, ResumeEnd, Resolve;
      NextIsCluster(pass);
      var answer :- Do(GetCluster(ClusterKeyOf(db.View())));
      if !answer.FoundCluster? {
        return On(());
      }
      here := here.(cluster := answer.cluster);
      r := CleanUpIn(db, answer.cluster, ClusterKeyOf(db.View()).namespace);
    }

    method CleanUpIn(db: PostgresDatabase, cluster: Cluster, namespace: string) returns (r: Outcome<()>)
      requires here.obj == db.View() && Mine(here) && here.cluster == cluster && db.deleting
      requires namespace == ClusterKeyOf(here.obj).namespace && pass == Resolve(here, Host, beat.now)
      requires Sound()
      modifies this, db, db.book
      ensures Fate() == old(Fate()) && Sound() && !r.Ended? && AtFinalizer(r)
    {
      hide Fate, Sound, Resume, NextCall, Resolve;
      var admin := ResolveClusterConnection(db, cluster, namespace);
      SoundFacts();
      match admin {
        case Died => return Died;
        case Ended(_) => return On(());
        case On(value) =>
          if db.spec.policy == "Delete" {
            r := DropDatabaseAndUser(db, value);
          } else {
            return On(());
          }
      }
    }

    method DropDatabaseAndUser(db: PostgresDatabase, admin: Admin) returns (r: Outcome<()>)
      requires At(db, OpenForDrop) && Credentials(pass) == admin
      requires Sound()
      modifies this
      ensures Fate() == old(Fate()) && Sound() && !r.Ended? && AtFinalizer(r)
    {
      hide Fate, Sound, UserNameOf, DatabaseNameOf;
      hide ResumeFront, ResumeSecret, ResumeSql, ResumeRepair;
      var answer :- Attempt(OpenServer(admin.host, admin.port, admin.user, admin.password));
      if answer.Done? {
        answer :- Attempt(Begin);
        if answer.Done? {
          r := DropBoth(db);
          return;
        }
      }
      return On(());
    }

    method DropBoth(db: PostgresDatabase) returns (r: Outcome<()>)
      requires At(db, DropDatabaseStep)
      requires Sound()
      modifies this
      ensures Fate() == old(Fate()) && Sound() && !r.Ended? && AtFinalizer(r)
    {
      hide Fate, Sound, UserNameOf, DatabaseNameOf;
      hide ResumeFront, ResumeSecret, ResumeSql, ResumeRepair;
      var (d, u) := (DatabaseNameOf(db.View()), UserNameOf(db.View()));
      var answer :- Attempt(DropDatabase(d));
      if !answer.Done? {
        answer :- Attempt(Rollback);
        return On(());
      }
      answer :- Attempt(DropUser(u));
      r := EndDrop(answer.Done?);
    }

    method EndDrop(dropped: bool) returns (r: Outcome<()>)
      requires pass.pc == if dropped then CommitDrop else RollbackDrop
      requires Sound()
      modifies this
      ensures Fate() == old(Fate()) && Sound() && !r.Ended? && AtFinalizer(r)
    {
      hide Fate, Sound;
      hide ResumeFront, ResumeSecret, ResumeSql, ResumeRepair;
      SoundFacts();
      if dropped {
        var answer :- Attempt(Commit);
      } else {
        var answer :- Attempt(Rollback);
      }
      SoundFacts();
      return On(());
    }

    // -------------------------------------------------------------- Reconcile

    method UpdateStatus(db: PostgresDatabase, admin: Admin) returns (r: Outcome<()>)
      requires Has(db, here, admin) && pass == Finish(here, beat.now)
      requires Sound()
      modifies this, db, db.book
      ensures Fate() == old(Fate()) && Sound() && Over(r, false)
      ensures r.On? ==> pass.pc == Stopped(Published) && Mine(pass) && !pass.obj.deleting
    {
      hide Fate, Sound, SetCondition, Machine.UpdatePhase, ConnectionOf;
      hide ResumeFront, ResumeSecret, ResumeSql, ResumeRepair;
      FinishFacts(here, beat.now);
      db.FinishStatus(here, admin.host, PrintInt(admin.port), beat.now);
      var answer :- Do(Call.UpdateStatus(db.View()));
      if !answer.Updated? {
        return Ended(Errored);
      }
      return On(());
    }

    /** Everything after the resource has been read and is not marked for deletion. */
    method Converge(db: PostgresDatabase) returns (r: Outcome<()>)
      requires At(db, ReadCluster) && !db.deleting
      requires Sound()
      modifies this, db, db.book
      ensures Fate() == old(Fate()) && Sound()
      ensures Concluded(r)
    {
      hide Fate, Sound, Has, Finish, Resume, NextCall;
      var admin :- Prepare(db);
      var _ :- ConnectToDatabase(db, admin);
      var password :- EnsureConnectionSecret(db, admin);
      var _ :- CreateDatabaseAndUser(db, admin, password);
      var _ :- UpdateStatus(db, admin);
      return On(());
    }

    /** Up to the finalizer: nothing has been created yet. */
    method Prepare(db: PostgresDatabase) returns (r: Outcome<Admin>)
      requires At(db, ReadCluster) && !db.deleting
      requires Sound()
      modifies this, db, db.book
      ensures Fate() == old(Fate()) && Sound() && Over(r, false)
      ensures r.On? ==> pass.pc == OpenConnection && Has(db, pass, r.value)
    {
      hide Fate, Sound, Resolve, Resume, NextCall;
      var cluster :- FetchAndValidateCluster(db);
      var admin :- ResolveClusterConnection(db, cluster, ClusterKeyOf(db.View()).namespace);
      var _ :- EnsureFinalizer(db);
      return On(admin);
    }

    /**
     * A Reconcile of the requested resource, with new connections, does to the world exactly what RunPass does; and
     * it has either ended the way the machine ended, or used up its tape.
     */
    method Reconcile() returns (r: Outcome<()>)
      requires StoreOk(world)
      modifies this
      ensures (world, pass) == RunPass(old(world), request, old(beats))
      ensures Concluded(r)
    {
      world := WithSession(world, request, IDLE);
      pass := InitialPass(request);
      ghost var fate := Fate();
      r := Pass();
      assert Fate() == fate;
    }

    method Pass() returns (r: Outcome<()>)
      requires pass == InitialPass(request)
      requires Sound()
      modifies this
      ensures Fate() == old(Fate()) && Sound()
      ensures Concluded(r)
    {
      hide Fate, Sound;
      hide ResumeSecret, ResumeSql, ResumeRepair, ResumeEnd;
      var answer :- Do(GetResource(request));
      if answer.NotFound? {
        return Ended(Ignored);
      }
      if !answer.Found? {
        return Ended(Errored);
      }
      var db := new PostgresDatabase(request);
      db.Load(answer.resource);
      SoundFacts();
      r := Dispatch(db);
    }

    /** Deletion is handled first, before anything else is read. */
    method Dispatch(db: PostgresDatabase) returns (r: Outcome<()>)
      requires pass.obj == db.View() && Mine(pass)
      requires pass.pc == if db.deleting && FINALIZER !in db.finalizers then Stopped(Ignored) else ReadCluster
      requires Sound()
      modifies this, db, db.book
      ensures Fate() == old(Fate()) && Sound()
      ensures Concluded(r)
    {
      hide Fate, Sound;
      if db.deleting {
        if FINALIZER !in db.finalizers {
          return Ended(Ignored);
        }
        r := HandleDeletion(db);
      } else {
        r := Converge(db);
      }
    }
  }
}
