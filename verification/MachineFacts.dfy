/**
 * What one response may do to the local state of a pass, family by family: which fields it leaves alone, what it
 * does to the status in memory, and where the pass can go next.
 */
module MachineFacts {
  import opened Basics
  import opened Conditions
  import opened ConnectionUrl
  import opened Text
  import opened Model
  import opened Machine

  /** Only the status of the object in memory may differ. */
  predicate SameObject(p: Pass, q: Pass) {
    q.key == p.key && q.trace == p.trace && q.latest == p.latest && q.obj.(status := p.obj.status) == p.obj
  }

  predicate Coherent(r: Resource) { r.status.phase == DatabasePhase(r.status.conditions, r.deleting) }

  /** The published connection is consistent: its URL is made of its own fields. */
  predicate ConnectionOk(r: Resource) {
    var c := r.status.connection;
    c.Some? ==> c.value.url == Url(c.value.user, None, c.value.host, PrintInt(c.value.port), c.value.database)
  }

  lemma ConnectionIsOk(p: Pass)
    ensures ConnectionOk(p.obj.(status := p.obj.status.(connection := Some(ConnectionOf(p)))))
    ensures ScannedPort(PrintInt(p.port)) == p.port
  {
    PrintIntChars(p.port);
    ScanPrinted(p.port, "");
    assert PrintInt(p.port) + "" == PrintInt(p.port);
  }

  /** Before its final write a pass neither observes a generation nor turns Ready on; every write is coherent. */
  predicate StatusStep(p: Pass, q: Pass) {
    && (q.pc.WriteStatus? || q.pc.WriteFailure? ==> Coherent(q.obj)) && q.pc != WriteFailure(Published)
    && (q.pc.WriteStatus? ==> q.obj.status.observedGeneration == q.obj.generation)
    && (ConnectionOk(p.obj) ==> ConnectionOk(q.obj))
    && (!q.pc.WriteStatus? ==>
          && q.obj.status.observedGeneration == p.obj.status.observedGeneration
          && (Holds(q, "Ready") ==> Holds(p, "Ready")))
  }

  lemma SetConditionFacts(p: Pass, kind: string, ok: bool, message: string, now: int, other: string)
    ensures var q := SetCondition(p, kind, ok, message, now);
            && SameObject(p, q) && q.pc == p.pc
            && Holds(q, kind) == ok
            && (other != kind ==> Holds(q, other) == Holds(p, other))
            && q == p.(obj := q.obj)
            && q.obj.status == p.obj.status.(conditions := q.obj.status.conditions)
  {
    var c := Fresh(kind, ok, message, now, p.obj.generation);
    UpsertLookup(p.obj.status.conditions, c, other);
    UpsertLookup(p.obj.status.conditions, c, kind);
  }

  lemma FailWithFacts(p: Pass, kind: string, message: string, now: int, ending: Ending)
    requires ending != Published
    ensures var q := FailWith(p, kind, message, now, ending);
            && SameObject(p, q) && StatusStep(p, q) && q.pc == WriteFailure(ending) && Coherent(q.obj)
            && q.obj.status.connection == p.obj.status.connection
            && q == p.(obj := q.obj, pc := q.pc) && !Holds(q, kind)
            && (kind != "Ready" ==> Holds(q, "Ready") == Holds(p, "Ready"))
  {
    SetConditionFacts(p, kind, false, message, now, "Ready");
  }

  lemma FourAside(p: Pass, ok: bool, message: string, now: int)
    ensures var q := SetCondition(p, "Ready", ok, message, now);
            && SameObject(p, q) && q.pc == p.pc && q == p.(obj := q.obj) && Holds(q, "Ready") == ok
            && q.obj.status == p.obj.status.(conditions := q.obj.status.conditions) && AllReady(q) == AllReady(p)
  {
    hide SetCondition, IsTrue;
    SetConditionFacts(p, "Ready", ok, message, now, "ClusterReady");
    SetConditionFacts(p, "Ready", ok, message, now, "SecretReady");
    SetConditionFacts(p, "Ready", ok, message, now, "ConnectionReady");
    SetConditionFacts(p, "Ready", ok, message, now, "DatabaseReady");
  }

  lemma FinishFacts(p: Pass, now: int)
    ensures var q := Finish(p, now);
            && SameObject(p, q) && StatusStep(p, q) && q.pc == WriteStatus
            && q == p.(obj := q.obj, pc := q.pc) && Holds(q, "Ready") == AllReady(p) == AllReady(q)
            && (AllReady(p) ==> q.obj.status.connection == Some(ConnectionOf(p)))
  {
    var p1 := p.(obj := p.obj.(status := p.obj.status.(observedGeneration := p.obj.generation)));
    var message := if AllReady(p) then "ready" else "not ready";
    ConnectionIsOk(UpdatePhase(SetCondition(p1, "Ready", AllReady(p), message, now)));
    FourAside(p1, AllReady(p), message, now);
    assert AllReady(p1) == AllReady(p);
  }

  /** The step after the last credential. */
  function AfterCredentials(r: Resource): Pc {
    if r.deleting then if r.spec.policy == "Delete" then OpenForDrop else Refetch
    else if HasFinalizer(r) then OpenConnection else AddFinalizer
  }

  /** Where resolving the credentials can lead. */
  predicate AfterResolve(p: Pass, q: Pass) {
    && (q.pc.ReadCredential? || q.pc.WriteFailure? || q.pc.Refetch? || q.pc.OpenForDrop? || q.pc == Stopped(Errored)
        || q.pc.AddFinalizer? || q.pc.OpenConnection?)
    && (q.pc.Refetch? || q.pc.OpenForDrop? ==> p.obj.deleting)
    && (q.pc.Stopped? || q.pc.AddFinalizer? || q.pc.OpenConnection? ==> !p.obj.deleting)
    && (q.pc.OpenForDrop? ==> p.obj.spec.policy == "Delete")
    && (q.pc.OpenConnection? ==> HasFinalizer(p.obj))
    && (q.pc.AddFinalizer? || q.pc.OpenConnection? || q.pc.OpenForDrop? ==>
          q.host != "" && q.user != "" && q.password != "" && Holds(q, "SecretReady"))
    && (q.pc.ReadCredential? || q.pc.AddFinalizer? || q.pc.OpenConnection? ==>
          Holds(q, "ClusterReady") == Holds(p, "ClusterReady"))
    && q.cluster == p.cluster && q.secretPassword == p.secretPassword && q.listed == p.listed
    && q.obj.status.connection == p.obj.status.connection && Holds(q, "Ready") == Holds(p, "Ready")
  }

  lemma ResolvedFacts(p: Pass, now: int)
    ensures var q := Resolved(p, now); SameObject(p, q) && StatusStep(p, q) && AfterResolve(p, q)
  {
    if p.host == "" {
      FailWithFacts(p, "SecretReady", "host is not configured", now, Errored);
    } else if p.user == "" {
      FailWithFacts(p, "SecretReady", "user is not configured", now, Errored);
    } else if p.password == "" {
      FailWithFacts(p, "SecretReady", "password is not configured", now, Errored);
    } else {
      SetConditionFacts(p, "SecretReady", true, "resolved", now, "Ready");
      SetConditionFacts(p, "SecretReady", true, "resolved", now, "ClusterReady");
    }
  }

  lemma {:induction false} ResolveFacts(p: Pass, f: Field, now: int)
    ensures var q := Resolve(p, f, now); SameObject(p, q) && StatusStep(p, q) && AfterResolve(p, q)
    decreases FieldRank(f), 1
  {
    match SourceOf(p.cluster, f)
    case None =>
    case Some(source) =>
      if source.value != "" {
        AcceptFacts(p, f, source.value, now);
      }
  }

  lemma {:induction false} AcceptFacts(p: Pass, f: Field, value: string, now: int)
    ensures var q := Accept(p, f, value, now); SameObject(p, q) && StatusStep(p, q) && AfterResolve(p, q)
    decreases FieldRank(f), 0
  {
    var q := SetField(p, f, value);
    match f
    case Host => ResolveFacts(q, User, now);
    case User => ResolveFacts(q, Password, now);
    case Password => ResolvedFacts(q, now);
  }

  /** The pass as it goes on after a response. */
  function After(p: Pass, r: Response, b: Beat): Pass {
    Resume(p, r, b).(trace := p.trace + [Observation(NextCall(p), r)])
  }

  // ---------------------------------------------------------------- one lemma per family of responses

  predicate Front(pc: Pc) { pc.ReadResource? || pc.ReadCluster? || pc.ReadCredential? || pc.AddFinalizer? }

  predicate Middle(pc: Pc) {
    pc.OpenConnection? || pc.PingConnection? || pc.ReadSecret? || pc.DrawPassword? || pc.OwnSecret? || pc.WriteSecret?
  }

  lemma ResumeCases(p: Pass, r: Response, b: Beat)
    ensures Front(p.pc) ==> Resume(p, r, b) == ResumeFront(p, r, b)
    ensures Middle(p.pc) ==> Resume(p, r, b) == ResumeSecret(p, r, b)
    ensures InSql(p.pc) ==> Resume(p, r, b) == ResumeSql(p, r, b)
    ensures InRepair(p.pc) ==> Resume(p, r, b) == ResumeRepair(p, r, b)
    ensures !Front(p.pc) && !Middle(p.pc) && !InSql(p.pc) && !InRepair(p.pc) ==> Resume(p, r, b) == ResumeEnd(p, r, b)
  {
    hide ResumeFront, ResumeSecret, ResumeSql, ResumeRepair, ResumeEnd;
  }

  lemma ReadClusterFacts(p: Pass, r: Response, b: Beat)
    requires p.pc.ReadCluster?
    ensures var q := ResumeFront(p, r, b);
            && SameObject(p, q) && StatusStep(p, q) && q.secretPassword == p.secretPassword && q.listed == p.listed
            && Holds(q, "Ready") == Holds(p, "Ready")
            && (q.pc.ReadCredential? || q.pc.WriteFailure? || q.pc.Refetch? || q.pc.OpenForDrop?
                || q.pc == Stopped(Errored) || q.pc.AddFinalizer? || q.pc.OpenConnection?)
            && (q.pc.Refetch? || q.pc.OpenForDrop? ==> p.obj.deleting)
            && (q.pc.Stopped? || q.pc.AddFinalizer? || q.pc.OpenConnection? ==> !p.obj.deleting)
            && (q.pc.OpenForDrop? ==> p.obj.spec.policy == "Delete")
            && (q.pc.OpenConnection? ==> HasFinalizer(p.obj))
            && (q.pc.AddFinalizer? || q.pc.OpenConnection? || q.pc.OpenForDrop? ==>
                  q.host != "" && q.user != "" && q.password != "" && Holds(q, "SecretReady"))
            && (q.pc.AddFinalizer? || q.pc.OpenConnection? || (q.pc.ReadCredential? && !p.obj.deleting) ==>
                  r.FoundCluster? && q.cluster == r.cluster && ClusterIsReady(r.cluster) && Holds(q, "ClusterReady"))
  {
    if r.FoundCluster? {
      var q := p.(cluster := r.cluster);
      if p.obj.deleting {
        ResolveFacts(q, Host, b.now);
      } else {
        var ready := ClusterIsReady(r.cluster);
        var q2 := SetCondition(q, "ClusterReady", ready, "cluster readiness", b.now);
        SetConditionFacts(q, "ClusterReady", ready, "cluster readiness", b.now, "Ready");
        if ready {
          ResolveFacts(q2, Host, b.now);
        }
      }
    } else if !p.obj.deleting {
      FailWithFacts(p, "ClusterReady", "cluster not read", b.now, if r.NotFound? then Requeued else Errored);
    }
  }

  lemma ReadCredentialFacts(p: Pass, r: Response, b: Beat)
    requires p.pc.ReadCredential?
    ensures var q := ResumeFront(p, r, b);
            SameObject(p, q) && StatusStep(p, q) && AfterResolve(p, q)
  {
    hide Upsert, IsTrue, DatabasePhase;
    var f := p.pc.field;
    var source := SourceOf(p.cluster, f);
    if source.Some? && source.value.from.Some? {
      if r.FoundSecret? {
        if source.value.from.value.entry in r.data {
          AcceptFacts(p, f, r.data[source.value.from.value.entry], b.now);
        }
      } else if r.NotFound? {
        FailWithFacts(p, "SecretReady", "secret not found", b.now, Requeued);
      }
    }
  }

  /** What the connection and secret steps may do to a pass. */
  predicate MiddleStep(p: Pass, q: Pass) {
    && SameObject(p, q) && StatusStep(p, q) && (Middle(q.pc) || q.pc == MakeRole || q.pc == WriteFailure(Errored))
    && Holds(q, "Ready") == Holds(p, "Ready")
    && q.cluster == p.cluster && q.host == p.host && q.user == p.user && q.password == p.password && q.port == p.port
    && q.listed == p.listed
    && (q.pc == MakeRole ==> Holds(q, "SecretReady") && Holds(q, "ConnectionReady") == Holds(p, "ConnectionReady"))
    && (q.pc == ReadSecret ==> Holds(q, "ConnectionReady"))
    && (Middle(q.pc) && !q.pc.ReadSecret? ==> Holds(q, "ConnectionReady") == Holds(p, "ConnectionReady"))
    && (q.pc != WriteFailure(Errored) ==> Holds(q, "ClusterReady") == Holds(p, "ClusterReady"))
  }

  lemma OpenFacts(p: Pass, r: Response, b: Beat)
    requires p.pc.OpenConnection?
    ensures MiddleStep(p, ResumeSecret(p, r, b))
  {
    hide FailWith, Upsert, IsTrue, DatabasePhase;
    FailWithFacts(p, "ConnectionReady", "open failed", b.now, Errored);
  }

  lemma PingFacts(p: Pass, r: Response, b: Beat)
    requires p.pc.PingConnection?
    ensures MiddleStep(p, ResumeSecret(p, r, b))
  {
    hide FailWith, SetCondition, IsTrue, DatabasePhase;
    SetConditionFacts(p, "ConnectionReady", true, "connected", b.now, "Ready");
    SetConditionFacts(p, "ConnectionReady", true, "connected", b.now, "ClusterReady");
    FailWithFacts(p, "ConnectionReady", "ping failed", b.now, Errored);
  }

  lemma SecretSetFacts(p: Pass, message: string, now: int)
    ensures var q := SetCondition(p, "SecretReady", true, message, now);
            && SameObject(p, q) && q == p.(obj := q.obj) && Holds(q, "SecretReady")
            && q.obj.status == p.obj.status.(conditions := q.obj.status.conditions)
            && Holds(q, "Ready") == Holds(p, "Ready") && Holds(q, "ClusterReady") == Holds(p, "ClusterReady")
            && Holds(q, "ConnectionReady") == Holds(p, "ConnectionReady")
  {
    hide Upsert, IsTrue, DatabasePhase;
    SetConditionFacts(p, "SecretReady", true, message, now, "Ready");
    SetConditionFacts(p, "SecretReady", true, message, now, "ClusterReady");
    SetConditionFacts(p, "SecretReady", true, message, now, "ConnectionReady");
  }

  lemma SecretReadFacts(p: Pass, r: Response, b: Beat)
    requires p.pc.ReadSecret?
    ensures MiddleStep(p, ResumeSecret(p, r, b))
  {
    hide FailWith, SetCondition, IsTrue, DatabasePhase;
    SecretSetFacts(p, "connection secret exists", b.now);
    FailWithFacts(p, "SecretReady", "connection secret not read", b.now, Errored);
  }

  lemma SecretMakeFacts(p: Pass, r: Response, b: Beat)
    requires p.pc.DrawPassword? || p.pc.OwnSecret?
    ensures MiddleStep(p, ResumeSecret(p, r, b))
  {
    hide FailWith, SetCondition, IsTrue, Coherent, ConnectionOk, PasswordFrom;
    if p.pc.DrawPassword? {
      FailWithFacts(p, "SecretReady", "no random password", b.now, Errored);
    } else {
      FailWithFacts(p, "SecretReady", "controller reference not set", b.now, Errored);
    }
  }

  lemma SecretWriteFacts(p: Pass, r: Response, b: Beat)
    requires p.pc.WriteSecret?
    ensures MiddleStep(p, ResumeSecret(p, r, b))
  {
    hide FailWith, SetCondition, IsTrue, DatabasePhase;
    SecretSetFacts(p, "connection secret created", b.now);
    FailWithFacts(p, "SecretReady", "connection secret not created", b.now, Errored);
  }

  lemma MiddleFacts(p: Pass, r: Response, b: Beat)
    requires Middle(p.pc)
    ensures MiddleStep(p, ResumeSecret(p, r, b))
  {
    hide ResumeSecret, MiddleStep;
    match p.pc {
      case OpenConnection => OpenFacts(p, r, b);
      case PingConnection => PingFacts(p, r, b);
      case ReadSecret => SecretReadFacts(p, r, b);
      case DrawPassword => SecretMakeFacts(p, r, b);
      case OwnSecret => SecretMakeFacts(p, r, b);
      case WriteSecret => SecretWriteFacts(p, r, b);
    }
  }

  lemma SqlFacts(p: Pass, r: Response, b: Beat)
    requires InSql(p.pc)
    ensures var q := ResumeSql(p, r, b);
            && SameObject(p, q) && StatusStep(p, q)
            && (InSql(q.pc) || q.pc == ListWrongOwners || q.pc == WriteFailure(Errored))
            && q.(obj := p.obj, pc := p.pc, userExists := p.userExists) == p
            && (q.pc != WriteFailure(Errored) ==> q.obj == p.obj) && Holds(q, "Ready") == Holds(p, "Ready")
  {
    hide FailWith, Coherent, ConnectionOk, IsTrue;
    FailWithFacts(p, "DatabaseReady", "statement failed", b.now, Errored);
    FailWithFacts(p.(userExists := false), "DatabaseReady", "statement failed", b.now, Errored);
  }

  lemma RepairedFacts(p: Pass, b: Beat)
    ensures var q := Repaired(p, b);
            && SameObject(p, q) && StatusStep(p, q) && q.pc == WriteStatus && q == p.(obj := q.obj, pc := q.pc)
            && Holds(q, "Ready") == (Holds(p, "ClusterReady") && Holds(p, "SecretReady") && Holds(p, "ConnectionReady"))
            && Holds(q, "Ready") == AllReady(q)
            && (Holds(q, "Ready") ==> q.obj.status.connection == Some(ConnectionOf(p)))
  {
    var p1 := SetCondition(p, "DatabaseReady", true, "created", b.now);
    SetConditionFacts(p, "DatabaseReady", true, "created", b.now, "ClusterReady");
    SetConditionFacts(p, "DatabaseReady", true, "created", b.now, "SecretReady");
    SetConditionFacts(p, "DatabaseReady", true, "created", b.now, "ConnectionReady");
    FinishFacts(p1, b.now);
    assert ConnectionOf(p1) == ConnectionOf(p);
  }

  lemma RepairFailedFacts(p: Pass, b: Beat)
    ensures var q := RepairFailed(p, b);
            && SameObject(p, q) && StatusStep(p, q) && q.pc == WriteFailure(Errored)
            && q == p.(obj := q.obj, pc := q.pc)
            && !Holds(q, "Ready")
  {
    var p1 := SetCondition(p, "DatabaseReady", false, "ownership repair failed", b.now);
    SetConditionFacts(p, "DatabaseReady", false, "ownership repair failed", b.now, "Ready");
    FailWithFacts(p1, "Ready", "ownership repair failed; will retry", b.now, Errored);
  }

  /** What the ownership repair may do to a pass. */
  predicate RepairStep(p: Pass, q: Pass) {
    && SameObject(p, q) && StatusStep(p, q)
    && (InRepair(q.pc) || q.pc == WriteStatus || q.pc == WriteFailure(Errored))
    && q.(obj := p.obj, pc := p.pc, listed := p.listed, todo := p.todo) == p
    && (InRepair(q.pc) ==> q.obj == p.obj)
    && (q.pc == WriteStatus ==>
          Holds(q, "Ready") == (Holds(p, "ClusterReady") && Holds(p, "SecretReady") && Holds(p, "ConnectionReady")))
    && Described(q)
    && (q.pc == WriteStatus ==> Holds(q, "Ready") == AllReady(q))
    && (q.pc == WriteFailure(Errored) ==> !Holds(q, "Ready"))
  }

  /** A pass about to write Ready has the connection of its own resource in the status. */
  predicate Described(p: Pass) {
    p.pc == WriteStatus && Holds(p, "Ready") ==> p.obj.status.connection == Some(ConnectionOf(p))
  }

  lemma ListingFacts(p: Pass, r: Response, b: Beat)
    requires p.pc.ListWrongOwners? || p.pc.FetchWrongOwner? || p.pc.CloseListing?
    ensures RepairStep(p, ResumeRepair(p, r, b))
  {
    hide RepairFailed, Repaired, IsTrue, DatabasePhase;
    RepairFailedFacts(p, b);
    RepairedFacts(p, b);
  }

  lemma TransactionFacts(p: Pass, r: Response, b: Beat)
    requires p.pc.BeginRepair? || p.pc.LimitLockWait? || p.pc.RepairOwner? || p.pc.RollbackRepair?
    ensures RepairStep(p, ResumeRepair(p, r, b))
  {
    hide RepairFailed, Repaired, IsTrue, DatabasePhase;
    RepairFailedFacts(p, b);
  }

  lemma CommitFacts(p: Pass, r: Response, b: Beat)
    requires p.pc.CommitRepair?
    ensures RepairStep(p, ResumeRepair(p, r, b))
  {
    hide RepairFailed, Repaired, DatabasePhase, IsTrue;
    RepairFailedFacts(p, b);
    RepairedFacts(p.(todo := if p.todo != [] then p.todo[1..] else []), b);
  }

  lemma RepairFacts(p: Pass, r: Response, b: Beat)
    requires InRepair(p.pc)
    ensures RepairStep(p, ResumeRepair(p, r, b))
  {
    hide ResumeRepair, RepairStep;
    if p.pc.ListWrongOwners? || p.pc.FetchWrongOwner? || p.pc.CloseListing? {
      ListingFacts(p, r, b);
    } else if p.pc.CommitRepair? {
      CommitFacts(p, r, b);
    } else {
      TransactionFacts(p, r, b);
    }
  }

  lemma {:induction false} StepKeepsKey(w: World, p: Pass, b: Beat)
    ensures Step(w, p, b).1.key == p.key
  {
    var r := Api(w, p.key, NextCall(p), b).1;
    if p.pc.ReadCluster? {
      ReadClusterFacts(p, r, b);
    } else if p.pc.ReadCredential? {
      ReadCredentialFacts(p, r, b);
    } else if Middle(p.pc) {
      MiddleFacts(p, r, b);
    } else if InSql(p.pc) {
      SqlFacts(p, r, b);
    } else if InRepair(p.pc) {
      RepairFacts(p, r, b);
    }
  }
}
