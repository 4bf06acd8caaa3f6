/**
 * What a pass asks for and whom it works for, written out: the cluster it reads, the secrets it asks for, the server
 * it connects to, the names in its statements, and the entries of the secret it creates. In every run these follow
 * from the key and the specification of the resource the pass read, and from the answers it got.
 */
module CallSafety {
  import opened Basics
  import opened Conditions
  import opened ConnectionUrl
  import opened Text
  import opened Model
  import opened Machine
  import opened MachineFacts
  import opened Frames
  import opened System
  import opened Invariants
  import opened SpecSafety
  import StatusSafety

  // ---------------------------------------------------------------- what is said of one call

  /** The referenced cluster, in the namespace of the reference, or else in that of the resource. */
  predicate ReadsReferenced(c: Call, k: Key, spec: Spec) {
    && (c.GetCluster? ==>
          && c.key.name == spec.cluster.name
          && (spec.cluster.namespace != "" ==> c.key.namespace == spec.cluster.namespace)
          && (spec.cluster.namespace == "" ==> c.key.namespace == k.namespace))
    && (c.GetResource? ==> c.key == k)
  }

  /** Every call on a database is on this one. */
  predicate OnDatabaseNamed(c: Call, database: string) {
    (c.CreateDatabase? || c.AlterDatabaseOwner? || c.GrantIn? || c.OpenTarget? || c.PingTarget? || c.QueryWrongOwners?
     || c.AlterOwner? || c.DropDatabase?) ==> c.database == database
  }

  /** Every statement about a role is about this one. */
  predicate ForRoleNamed(c: Call, role: string) {
    && ((c.CreateUser? || c.AlterUser? || c.CreateDatabase? || c.AlterDatabaseOwner? || c.QueryWrongOwners?
         || c.AlterOwner? || c.DropUser?) ==> c.user == role)
    && (c.GrantIn? ==> c.grant.user == role)
  }

  /** The two names are decided apart: the explicit one if it is given, else namespace, underscore and name. */
  predicate UsesOwnNames(c: Call, k: Key, spec: Spec) {
    && (spec.databaseName != "" ==> OnDatabaseNamed(c, spec.databaseName))
    && (spec.databaseName == "" ==> OnDatabaseNamed(c, k.namespace + "_" + k.name))
    && (spec.userName != "" ==> ForRoleNamed(c, spec.userName))
    && (spec.userName == "" ==> ForRoleNamed(c, k.namespace + "_" + k.name))
  }

  /** The secret is the resource's own, has six entries, and names the role and the database by the same two rules. */
  predicate CreatesOwnSecret(c: Call, k: Key, spec: Spec) {
    c.CreateSecret? ==>
      && c.key == Key(k.namespace, k.name + "-connection")
      && c.data.Keys == {"host", "port", "database", "user", "password", "url"}
      && (spec.databaseName != "" ==> c.data["database"] == spec.databaseName)
      && (spec.databaseName == "" ==> c.data["database"] == k.namespace + "_" + k.name)
      && (spec.userName != "" ==> c.data["user"] == spec.userName)
      && (spec.userName == "" ==> c.data["user"] == k.namespace + "_" + k.name)
      && c.data["url"] == "postgresql://" + c.data["user"] + ":" + c.data["password"] + "@" + c.data["host"] + ":"
                          + c.data["port"] + "/" + c.data["database"] + "?sslmode=disable"
  }

  /** The values a pass has come to know are the ones it uses. */
  predicate UsesOwnValues(c: Call, p: Pass) {
    && (c.OpenServer? || c.OpenTarget? ==>
          c.host == p.host && c.port == p.port && c.user == p.user && c.password == p.password)
    && (c.CreateSecret? ==>
          && {"host", "port", "password"} <= c.data.Keys
          && c.data["host"] == p.host && c.data["port"] == PrintInt(p.port) && c.data["password"] == p.secretPassword)
    && (c.CreateUser? || c.AlterUser? ==> c.password == p.secretPassword)
  }

  /** The secret that a credential of the cluster names; without a namespace it is in the cluster's. */
  predicate NamedBy(q: Key, source: Option<Source>, k: Key, spec: Spec) {
    && source.Some? && source.value.value == "" && source.value.from.Some?
    && var from := source.value.from.value;
       && q.name == from.name
       && (from.namespace != "" ==> q.namespace == from.namespace)
       && (from.namespace == "" && spec.cluster.namespace != "" ==> q.namespace == spec.cluster.namespace)
       && (from.namespace == "" && spec.cluster.namespace == "" ==> q.namespace == k.namespace)
  }

  predicate FoundAtSecond(trace: seq<Observation>) {
    |trace| >= 2 && trace[1].call.GetCluster? && trace[1].response.FoundCluster?
  }

  predicate Pinged(trace: seq<Observation>, i: nat)
    requires i <= |trace|
  {
    exists j | 0 <= j < i :: trace[j].call.PingServer?
  }

  /** Before the ping a pass asks for the credentials of the cluster it found, afterwards for its own secret. */
  predicate AsksFor(trace: seq<Observation>, i: nat, k: Key, spec: Spec)
    requires i < |trace|
  {
    trace[i].call.GetSecret? ==>
      if Pinged(trace, i) then trace[i].call.key == Key(k.namespace, k.name + "-connection")
      else
        && FoundAtSecond(trace)
        && var c := trace[1].response.cluster;
           || NamedBy(trace[i].call.key, c.host, k, spec)
           || NamedBy(trace[i].call.key, c.user, k, spec)
           || NamedBy(trace[i].call.key, c.password, k, spec)
  }

  /** A value comes from its source: the literal, or the named entry of the named secret, as the pass was told. */
  predicate ComesFrom(value: string, source: Option<Source>, trace: seq<Observation>, k: Key, spec: Spec) {
    && source.Some?
    && (source.value.value != "" ==> value == source.value.value)
    && (source.value.value == "" ==> exists j | 0 <= j < |trace| :: ReadsEntry(trace[j], source, value, k, spec))
  }

  predicate ReadsEntry(o: Observation, source: Option<Source>, value: string, k: Key, spec: Spec) {
    && o.call.GetSecret? && NamedBy(o.call.key, source, k, spec) && o.response.FoundSecret?
    && var entry := source.value.from.value.entry;
       entry in o.response.data && o.response.data[entry] == value
  }

  /** The password comes from the resource's own secret: as it was found, or as it was created. */
  predicate Secures(o: Observation, password: string, k: Key) {
    || (&& o.call == GetSecret(Key(k.namespace, k.name + "-connection")) && o.response.FoundSecret?
        && ("password" in o.response.data ==> o.response.data["password"] == password)
        && ("password" !in o.response.data ==> password == ""))
    || (&& o.call.CreateSecret? && o.call.key == Key(k.namespace, k.name + "-connection") && o.response == Done
        && "password" in o.call.data && o.call.data["password"] == password)
  }

  predicate Secured(trace: seq<Observation>, password: string, k: Key) {
    exists j | 0 <= j < |trace| :: Secures(trace[j], password, k)
  }

  // ---------------------------------------------------------------- what every pass keeps

  /** The first call reads the resource; the pass works on its key and specification from then on. */
  predicate Begun(p: Pass) {
    if p.pc.ReadResource? then p.trace == []
    else
      && p.trace != [] && p.trace[0].call == GetResource(p.key)
      && (Live(p) || |p.trace| > 1 ==>
            && p.trace[0].response.Found? && p.obj.key == p.key
            && p.trace[0].response.resource.key == p.obj.key && p.trace[0].response.resource.spec == p.obj.spec)
  }

  predicate CallOk(p: Pass, i: nat)
    requires i < |p.trace|
  {
    var c := p.trace[i].call;
    && ReadsReferenced(c, p.obj.key, p.obj.spec) && UsesOwnNames(c, p.obj.key, p.obj.spec)
    && CreatesOwnSecret(c, p.obj.key, p.obj.spec) && UsesOwnValues(c, p) && AsksFor(p.trace, i, p.obj.key, p.obj.spec)
  }

  ghost predicate Spoken(p: Pass) { forall i: nat | i < |p.trace| :: CallOk(p, i) }

  predicate UsesCredentials(c: Call) { c.OpenServer? || c.OpenTarget? || c.CreateSecret? }

  predicate UsesPassword(c: Call) { c.CreateSecret? || c.CreateUser? || c.AlterUser? }

  predicate BeforePassword(pc: Pc) { pc.OpenConnection? || pc.PingConnection? || pc.ReadSecret? || pc.DrawPassword? }

  /** Nothing is used before it is known. */
  ghost predicate Quiet(p: Pass) {
    && (Front(p.pc) ==> forall o | o in p.trace ::
          !UsesCredentials(o.call) && !UsesPassword(o.call) && !o.call.PingServer?)
    && (BeforePassword(p.pc) ==> forall o | o in p.trace :: !UsesPassword(o.call))
    && (p.pc.ReadSecret? ==> exists o | o in p.trace :: o.call.PingServer?)
  }

  /** The places at which the cluster has been found. */
  predicate Informed(pc: Pc) {
    pc.ReadCredential? || pc.AddFinalizer? || Middle(pc) || InSql(pc) || InRepair(pc) || pc.OpenForDrop?
    || pc.BeginDrop? || pc.DropDatabaseStep? || pc.DropRoleStep? || pc.CommitDrop? || pc.RollbackDrop?
  }

  predicate Knows(p: Pass) {
    && (p.pc.ReadCluster? ==> |p.trace| == 1)
    && (Informed(p.pc) ==> FoundAtSecond(p.trace) && p.trace[1].response.cluster == p.cluster)
    && (p.pc.ReadCredential? ==> LooksUp(p.cluster, p.pc.field))
  }

  /** The field has no literal value, and names a secret. */
  predicate LooksUp(c: Cluster, f: Field) {
    SourceOf(c, f).Some? && SourceOf(c, f).value.value == "" && SourceOf(c, f).value.from.Some?
  }

  predicate HostKnown(p: Pass) { ComesFrom(p.host, p.cluster.host, p.trace, p.obj.key, p.obj.spec) }

  predicate UserKnown(p: Pass) { ComesFrom(p.user, p.cluster.user, p.trace, p.obj.key, p.obj.spec) }

  predicate PasswordKnown(p: Pass) { ComesFrom(p.password, p.cluster.password, p.trace, p.obj.key, p.obj.spec) }

  predicate PortKnown(p: Pass) {
    (p.cluster.port != 0 ==> p.port == p.cluster.port) && (p.cluster.port == 0 ==> p.port == 5432)
  }

  /** Every credential resolved so far comes from its source. */
  predicate Resolves(p: Pass) {
    && (p.pc.ReadCredential? && !p.pc.field.Host? ==> HostKnown(p))
    && (p.pc == ReadCredential(Password) ==> UserKnown(p))
    && (Informed(p.pc) && !p.pc.ReadCredential? ==> HostKnown(p) && UserKnown(p) && PasswordKnown(p) && PortKnown(p))
  }

  predicate Protects(p: Pass) {
    InSql(p.pc) || InRepair(p.pc) ==> Secured(p.trace, p.secretPassword, p.obj.key)
  }

  /** Every connection is made with what the cluster gives, every password set is that of the secret. */
  predicate SourcedAt(trace: seq<Observation>, i: nat, k: Key, spec: Spec)
    requires i < |trace|
  {
    var c := trace[i].call;
    && (c.OpenServer? || c.OpenTarget? ==>
          && FoundAtSecond(trace)
          && var cluster := trace[1].response.cluster;
             && ComesFrom(c.host, cluster.host, trace, k, spec) && ComesFrom(c.user, cluster.user, trace, k, spec)
             && ComesFrom(c.password, cluster.password, trace, k, spec)
             && (cluster.port != 0 ==> c.port == cluster.port) && (cluster.port == 0 ==> c.port == 5432))
    && (c.CreateUser? || c.AlterUser? ==> Secured(trace, c.password, k))
  }

  ghost predicate Sourced(p: Pass) { forall i: nat | i < |p.trace| :: SourcedAt(p.trace, i, p.obj.key, p.obj.spec) }

  ghost predicate CallInv(p: Pass) {
    Begun(p) && Spoken(p) && Quiet(p) && Knows(p) && Resolves(p) && Protects(p) && Sourced(p)
  }

  // ---------------------------------------------------------------- the next call

  lemma NextCluster(p: Pass)
    requires p.key == p.obj.key
    ensures ReadsReferenced(NextCall(p), p.obj.key, p.obj.spec)
  {
    hide UserNameOf, DatabaseNameOf, SecretData;
  }

  lemma NextUsesNames(p: Pass)
    ensures UsesOwnNames(NextCall(p), p.obj.key, p.obj.spec)
  {
    ChosenNames(p.obj);
    hide UserNameOf, DatabaseNameOf, SecretData, ClusterKeyOf;
  }

  lemma NextCreates(p: Pass)
    ensures CreatesOwnSecret(NextCall(p), p.obj.key, p.obj.spec)
  {
    ChosenNames(p.obj);
    UrlWritten(RoleName(p), Some(p.secretPassword), p.host, PrintInt(p.port), DbName(p));
    hide UserNameOf, DatabaseNameOf, ClusterKeyOf, Url;
  }

  lemma NextUses(p: Pass)
    ensures UsesOwnValues(NextCall(p), p)
  {
    hide UserNameOf, DatabaseNameOf, ClusterKeyOf, Url;
  }

  lemma NextNames(p: Pass)
    requires p.key == p.obj.key
    ensures var c := NextCall(p);
            && ReadsReferenced(c, p.obj.key, p.obj.spec) && UsesOwnNames(c, p.obj.key, p.obj.spec)
            && CreatesOwnSecret(c, p.obj.key, p.obj.spec) && UsesOwnValues(c, p)
  {
    hide NextCall, ReadsReferenced, UsesOwnNames, CreatesOwnSecret, UsesOwnValues;
    NextCluster(p);
    NextUsesNames(p);
    NextCreates(p);
    NextUses(p);
  }

  lemma ChosenNames(r: Resource)
    ensures r.spec.databaseName != "" ==> DatabaseNameOf(r) == r.spec.databaseName
    ensures r.spec.databaseName == "" ==> DatabaseNameOf(r) == r.key.namespace + "_" + r.key.name
    ensures r.spec.userName != "" ==> UserNameOf(r) == r.spec.userName
    ensures r.spec.userName == "" ==> UserNameOf(r) == r.key.namespace + "_" + r.key.name
  {
  }

  /** Which calls are made where. */
  lemma NextKinds(p: Pass)
    ensures var c := NextCall(p);
            && (c.GetSecret? ==> p.pc.ReadCredential? || p.pc.ReadSecret?)
            && (c.PingServer? <==> p.pc.PingConnection?)
            && (UsesCredentials(c) ==>
                  p.pc.OpenConnection? || p.pc.OpenForDrop? || p.pc.OpenDatabase? || p.pc.WriteSecret?)
            && (UsesPassword(c) ==> p.pc.WriteSecret? || p.pc.MakeRole? || p.pc.ChangePassword?)
            && (c.CreateUser? || c.AlterUser? ==> p.pc.MakeRole? || p.pc.ChangePassword?)
  {
    hide SecretData;
  }

  lemma CredentialNamed(p: Pass)
    requires p.pc.ReadCredential? && LooksUp(p.cluster, p.pc.field)
    ensures NextCall(p).GetSecret? && NamedBy(NextCall(p).key, SourceOf(p.cluster, p.pc.field), p.obj.key, p.obj.spec)
  {
  }

  /** What the next call asks for. */
  lemma NextAsks(p: Pass, trace: seq<Observation>, r: Response)
    requires Quiet(p) && Knows(p) && trace == p.trace + [Observation(NextCall(p), r)]
    ensures AsksFor(trace, |p.trace|, p.obj.key, p.obj.spec)
  {
    var c := NextCall(p);
    NextKinds(p);
    assert trace[|p.trace|].call == c;
    if p.pc.ReadCredential? {
      CredentialNamed(p);
      hide NextCall, NamedBy;
      assert !Pinged(trace, |p.trace|) by {
        forall j | 0 <= j < |p.trace|
          ensures !trace[j].call.PingServer?
        {
          assert trace[j] in p.trace;
        }
      }
    } else if p.pc.ReadSecret? {
      assert c == GetSecret(Key(p.obj.key.namespace, p.obj.key.name + "-connection"));
      hide NextCall, NamedBy;
      var o :| o in p.trace && o.call.PingServer?;
      var j :| 0 <= j < |p.trace| && p.trace[j] == o;
      assert trace[j].call.PingServer?;
    } else {
      hide NextCall, NamedBy;
    }
  }

  // ---------------------------------------------------------------- what lasts

  predicate SameResource(p: Pass, q: Pass) { q.key == p.key && q.obj.key == p.obj.key && q.obj.spec == p.obj.spec }

  predicate SameCredentials(p: Pass, q: Pass) {
    q.cluster == p.cluster && q.host == p.host && q.port == p.port && q.user == p.user && q.password == p.password
  }

  lemma ComesFromLasts(value: string, source: Option<Source>, trace: seq<Observation>, o: Observation, k: Key,
                       spec: Spec)
    requires ComesFrom(value, source, trace, k, spec)
    ensures ComesFrom(value, source, trace + [o], k, spec)
  {
    hide ReadsEntry;
    if source.value.value == "" {
      var j :| 0 <= j < |trace| && ReadsEntry(trace[j], source, value, k, spec);
      assert (trace + [o])[j] == trace[j];
    }
  }

  lemma SecuredLasts(trace: seq<Observation>, o: Observation, password: string, k: Key)
    requires Secured(trace, password, k)
    ensures Secured(trace + [o], password, k)
  {
    hide Secures;
    var j :| 0 <= j < |trace| && Secures(trace[j], password, k);
    assert (trace + [o])[j] == trace[j];
  }

  /** The calls so far are still in order, and so is the new one. */
  lemma SpokenNext(p: Pass, q: Pass, r: Response)
    requires Begun(p) && Spoken(p) && Quiet(p) && Knows(p) && SameResource(p, q) && p.key == p.obj.key
    requires q.trace == p.trace + [Observation(NextCall(p), r)]
    requires UsesOwnValues(NextCall(p), q) && forall o | o in p.trace :: UsesOwnValues(o.call, q)
    ensures Spoken(q)
  {
    NextNames(p);
    NextAsks(p, q.trace, r);
    hide NextCall, ReadsReferenced, UsesOwnNames, CreatesOwnSecret, UsesOwnValues, Quiet, Begun, Knows;
    forall i: nat | i < |q.trace|
      ensures CallOk(q, i)
    {
      if i < |p.trace| {
        assert CallOk(p, i);
        assert p.trace[i] in p.trace && q.trace[i] == p.trace[i];
        AsksForLasts(p.trace, Observation(NextCall(p), r), i, p.obj.key, p.obj.spec);
      }
    }
  }

  lemma AsksForLasts(trace: seq<Observation>, o: Observation, i: nat, k: Key, spec: Spec)
    requires i < |trace| && AsksFor(trace, i, k, spec)
    ensures AsksFor(trace + [o], i, k, spec)
  {
    hide NamedBy;
    var longer := trace + [o];
    assert longer[i] == trace[i];
    assert forall j | 0 <= j < i :: longer[j] == trace[j];
    assert Pinged(longer, i) == Pinged(trace, i);
    if FoundAtSecond(trace) {
      assert longer[1] == trace[1];
    }
  }

  lemma SourcedLasts(trace: seq<Observation>, o: Observation, i: nat, k: Key, spec: Spec)
    requires i < |trace| && SourcedAt(trace, i, k, spec)
    ensures SourcedAt(trace + [o], i, k, spec)
  {
    hide ComesFrom, Secured;
    var c := trace[i].call;
    assert (trace + [o])[i] == trace[i];
    if c.OpenServer? || c.OpenTarget? {
      assert (trace + [o])[1] == trace[1];
      var cluster := trace[1].response.cluster;
      ComesFromLasts(c.host, cluster.host, trace, o, k, spec);
      ComesFromLasts(c.user, cluster.user, trace, o, k, spec);
      ComesFromLasts(c.password, cluster.password, trace, o, k, spec);
    }
    if c.CreateUser? || c.AlterUser? {
      SecuredLasts(trace, o, c.password, k);
    }
  }

  /** A call made with what the pass knows is made with what it was told. */
  lemma NextSourced(p: Pass, r: Response)
    requires Knows(p) && Resolves(p) && Protects(p)
    ensures SourcedAt(p.trace + [Observation(NextCall(p), r)], |p.trace|, p.obj.key, p.obj.spec)
  {
    NextKinds(p);
    NextUses(p);
    hide NextCall, ComesFrom, Secured;
    var o := Observation(NextCall(p), r);
    var trace := p.trace + [o];
    assert trace[|p.trace|] == o;
    if o.call.OpenServer? || o.call.OpenTarget? {
      assert trace[1] == p.trace[1];
      ComesFromLasts(p.host, p.cluster.host, p.trace, o, p.obj.key, p.obj.spec);
      ComesFromLasts(p.user, p.cluster.user, p.trace, o, p.obj.key, p.obj.spec);
      ComesFromLasts(p.password, p.cluster.password, p.trace, o, p.obj.key, p.obj.spec);
    }
    if o.call.CreateUser? || o.call.AlterUser? {
      SecuredLasts(p.trace, o, p.secretPassword, p.obj.key);
    }
  }

  lemma StillSourced(p: Pass, q: Pass, r: Response)
    requires Sourced(p) && Knows(p) && Resolves(p) && Protects(p) && SameResource(p, q)
    requires q.trace == p.trace + [Observation(NextCall(p), r)]
    ensures Sourced(q)
  {
    hide NextCall, SourcedAt, Knows, Resolves, Protects;
    forall i: nat | i < |q.trace|
      ensures SourcedAt(q.trace, i, q.obj.key, q.obj.spec)
    {
      if i < |p.trace| {
        assert SourcedAt(p.trace, i, p.obj.key, p.obj.spec);
        SourcedLasts(p.trace, Observation(NextCall(p), r), i, p.obj.key, p.obj.spec);
      } else {
        NextSourced(p, r);
      }
    }
  }

  // ---------------------------------------------------------------- the credentials are resolved

  /** The fields before this one come from their sources, as told in this trace. */
  predicate KnownUpTo(p: Pass, trace: seq<Observation>, f: Field) {
    && (!f.Host? ==> ComesFrom(p.host, p.cluster.host, trace, p.obj.key, p.obj.spec))
    && (f.Password? ==> ComesFrom(p.user, p.cluster.user, trace, p.obj.key, p.obj.spec))
  }

  predicate Known(p: Pass, trace: seq<Observation>) {
    KnownUpTo(p, trace, Password) && ComesFrom(p.password, p.cluster.password, trace, p.obj.key, p.obj.spec)
    && PortKnown(p)
  }

  predicate Resolving(q: Pass, trace: seq<Observation>) {
    && (q.pc.ReadCredential? ==> LooksUp(q.cluster, q.pc.field) && KnownUpTo(q, trace, q.pc.field))
    && (q.pc.AddFinalizer? || q.pc.OpenConnection? || q.pc.OpenForDrop? ==> Known(q, trace))
  }

  lemma ResolvedKnows(p: Pass, now: int, trace: seq<Observation>)
    requires KnownUpTo(p, trace, Password) && ComesFrom(p.password, p.cluster.password, trace, p.obj.key, p.obj.spec)
    ensures Resolving(Resolved(p, now), trace)
  {
    hide ComesFrom, Upsert, DatabasePhase;
  }

  lemma {:induction false} ResolveKnows(p: Pass, f: Field, now: int, trace: seq<Observation>)
    requires KnownUpTo(p, trace, f)
    ensures Resolving(Resolve(p, f, now), trace)
    decreases FieldRank(f), 1
  {
    match SourceOf(p.cluster, f)
    case None =>
    case Some(source) =>
      if source.value != "" {
        AcceptKnows(p, f, source.value, now, trace);
      }
  }

  lemma {:induction false} AcceptKnows(p: Pass, f: Field, value: string, now: int, trace: seq<Observation>)
    requires KnownUpTo(p, trace, f) && ComesFrom(value, SourceOf(p.cluster, f), trace, p.obj.key, p.obj.spec)
    ensures Resolving(Accept(p, f, value, now), trace)
    decreases FieldRank(f), 0
  {
    hide ComesFrom;
    var q := SetField(p, f, value);
    match f
    case Host => ResolveKnows(q, User, now, trace);
    case User => ResolveKnows(q, Password, now, trace);
    case Password => ResolvedKnows(q, now, trace);
  }

  // ---------------------------------------------------------------- one call

  /** The pass reads its resource, and goes on to the cluster or ends. */
  lemma ReadResumes(p: Pass, r: Response, b: Beat)
    requires p.pc.ReadResource?
    ensures var q := Resume(p, r, b);
            && q.key == p.key && (q.pc.ReadCluster? || q.pc.Stopped?)
            && (q.pc.ReadCluster? ==> r.Found? && q.obj == r.resource)
  {
  }

  lemma ReadStep(p: Pass, r: Response, b: Beat)
    requires CallInv(p) && p.pc.ReadResource? && After(p, r, b).obj.key == p.key
    ensures CallInv(After(p, r, b))
  {
    var q := After(p, r, b);
    ReadResumes(p, r, b);
    assert q.trace == [Observation(GetResource(p.key), r)];
    hide Resume, After, UsesOwnNames, CreatesOwnSecret, UsesOwnValues, ComesFrom;
    FirstCallOk(q, r);
  }

  lemma FirstCallOk(q: Pass, r: Response)
    requires q.trace == [Observation(GetResource(q.key), r)] && q.obj.key == q.key
    ensures CallOk(q, 0) && SourcedAt(q.trace, 0, q.obj.key, q.obj.spec)
    ensures forall o | o in q.trace :: o.call.GetResource?
  {
  }

  /** Where an answer about the cluster or a credential can lead, and what is known then. */
  predicate FrontResumed(p: Pass, q: Pass, trace: seq<Observation>) {
    && SameObject(p, q) && Resolving(q, trace)
    && FrontPlaces(q.pc)
  }

  predicate FrontPlaces(pc: Pc) {
    pc.ReadCredential? || pc.AddFinalizer? || pc.OpenConnection? || pc.OpenForDrop? || pc.WriteFailure?
    || pc.Refetch? || pc.Stopped?
  }

  lemma FailuresResolveNothing(q: Pass, trace: seq<Observation>)
    ensures q.pc.WriteFailure? || q.pc.Refetch? ==> Resolving(q, trace) && !Informed(q.pc)
  {
  }

  lemma ClusterResumes(p: Pass, r: Response, b: Beat, trace: seq<Observation>)
    requires p.pc.ReadCluster?
    ensures var q := ResumeFront(p, r, b);
            FrontResumed(p, q, trace) && (Informed(q.pc) ==> r.FoundCluster? && q.cluster == r.cluster)
  {
    hide FailWith, Resolve, Resolving, StatusStep, IsTrue, DatabasePhase, ClusterIsReady;
    ReadClusterFacts(p, r, b);
    FailWithFacts(p, "ClusterReady", "cluster not read", b.now, if r.NotFound? then Requeued else Errored);
    if r.FoundCluster? {
      var q := p.(cluster := r.cluster);
      var q2 := SetCondition(q, "ClusterReady", ClusterIsReady(r.cluster), "cluster readiness", b.now);
      ResolveFacts(q, Host, b.now);
      ResolveFacts(q2, Host, b.now);
      ResolveKnows(q, Host, b.now, trace);
      ResolveKnows(q2, Host, b.now, trace);
    }
    FailuresResolveNothing(ResumeFront(p, r, b), trace);
  }

  lemma CredentialResumes(p: Pass, r: Response, b: Beat, trace: seq<Observation>)
    requires p.pc.ReadCredential? && LooksUp(p.cluster, p.pc.field) && KnownUpTo(p, trace, p.pc.field)
    requires var source := SourceOf(p.cluster, p.pc.field);
             var entry := source.value.from.value.entry;
             r.FoundSecret? && entry in r.data ==> ComesFrom(r.data[entry], source, trace, p.obj.key, p.obj.spec)
    ensures var q := ResumeFront(p, r, b); FrontResumed(p, q, trace) && q.cluster == p.cluster
  {
    hide FailWith, Accept, Resolving, StatusStep, IsTrue, ComesFrom, KnownUpTo;
    ReadCredentialFacts(p, r, b);
    FailWithFacts(p, "SecretReady", "secret not found", b.now, Requeued);
    var entry := SourceOf(p.cluster, p.pc.field).value.from.value.entry;
    if r.FoundSecret? && entry in r.data {
      AcceptKnows(p, p.pc.field, r.data[entry], b.now, trace);
    }
    FailuresResolveNothing(ResumeFront(p, r, b), trace);
    NothingToResolve(ResumeFront(p, r, b), trace);
  }

  lemma NothingToResolve(q: Pass, trace: seq<Observation>)
    ensures q.pc.Stopped? ==> Resolving(q, trace)
  {
  }

  /** The pass goes on from its cluster or from a credential. */
  lemma FrontNext(p: Pass, q: Pass, r: Response)
    requires CallInv(p) && (p.pc.ReadCluster? || p.pc.ReadCredential?) && p.key == p.obj.key
    requires q.trace == p.trace + [Observation(NextCall(p), r)]
    requires q.key == p.key && q.obj.(status := p.obj.status) == p.obj && FrontPlaces(q.pc) && Resolving(q, q.trace)
    requires Informed(q.pc) ==> FoundAtSecond(q.trace) && q.cluster == q.trace[1].response.cluster
    ensures CallInv(q)
  {
    assert SameResource(p, q);
    FrontKnows(q);
    hide NextCall, Resolving, Begun, Spoken, Sourced, Knows, Resolves, Protects, Quiet;
    FrontQuiet(p, q, r);
    QuietlySpoken(p, q, r);
    StillSourced(p, q, r);
    assert Live(p);
    StillBegun(p, q, Observation(NextCall(p), r));
  }

  lemma FrontKnows(q: Pass)
    requires FrontPlaces(q.pc) && Resolving(q, q.trace)
    requires Informed(q.pc) ==> FoundAtSecond(q.trace) && q.cluster == q.trace[1].response.cluster
    ensures Knows(q) && Resolves(q) && Protects(q)
  {
    hide ComesFrom, FoundAtSecond;
  }

  lemma FrontQuiet(p: Pass, q: Pass, r: Response)
    requires Quiet(p) && Front(p.pc) && FrontPlaces(q.pc) && q.trace == p.trace + [Observation(NextCall(p), r)]
    ensures Quiet(q)
  {
    NextKinds(p);
    hide NextCall, UsesCredentials, UsesPassword;
    assert forall o | o in q.trace :: o in p.trace || o == Observation(NextCall(p), r);
  }

  /** As long as nothing has been used, any values will do. */
  lemma QuietlySpoken(p: Pass, q: Pass, r: Response)
    requires Begun(p) && Spoken(p) && Quiet(p) && Knows(p) && SameResource(p, q) && Front(p.pc)
    requires q.trace == p.trace + [Observation(NextCall(p), r)] && p.key == p.obj.key
    ensures Spoken(q)
  {
    NextKinds(p);
    hide NextCall, CallOk, Begun, Knows;
    SpokenNext(p, q, r);
  }

  lemma ClusterStep(p: Pass, r: Response, b: Beat)
    requires CallInv(p) && p.pc.ReadCluster? && p.key == p.obj.key
    ensures CallInv(After(p, r, b))
  {
    var q := After(p, r, b);
    assert NextCall(p).GetCluster?;
    assert |p.trace| == 1 && q.trace[1] == Observation(NextCall(p), r);
    ResumeCases(p, r, b);
    hide NextCall, Resume, ResumeFront, Spoken, Quiet, Resolves, Protects;
    ClusterResumes(p, r, b, q.trace);
    ResolvingAside(ResumeFront(p, r, b), q.trace);
    hide Resolving;
    FrontNext(p, q, r);
  }

  lemma ResolvingAside(q: Pass, trace: seq<Observation>)
    requires Resolving(q, trace)
    ensures Resolving(q.(trace := trace), trace)
  {
  }

  lemma CredentialStep(p: Pass, r: Response, b: Beat)
    requires CallInv(p) && p.pc.ReadCredential? && p.key == p.obj.key
    ensures CallInv(After(p, r, b))
  {
    var q := After(p, r, b);
    var o := Observation(NextCall(p), r);
    assert q.trace == p.trace + [o] && q.trace[1] == p.trace[1];
    CredentialTold(p, r);
    KnownSoFar(p, o);
    ResumeCases(p, r, b);
    hide NextCall, Resume, ResumeFront, Spoken, Quiet, Resolves, Protects, ComesFrom, KnownUpTo;
    CredentialResumes(p, r, b, q.trace);
    ResolvingAside(ResumeFront(p, r, b), q.trace);
    hide Resolving;
    FrontNext(p, q, r);
  }

  lemma KnownSoFar(p: Pass, o: Observation)
    requires p.pc.ReadCredential? && Resolves(p)
    ensures KnownUpTo(p, p.trace + [o], p.pc.field)
  {
    hide ComesFrom;
    if !p.pc.field.Host? {
      ComesFromLasts(p.host, p.cluster.host, p.trace, o, p.obj.key, p.obj.spec);
    }
    if p.pc.field.Password? {
      ComesFromLasts(p.user, p.cluster.user, p.trace, o, p.obj.key, p.obj.spec);
    }
  }

  /** The entry just read is where the value comes from. */
  lemma CredentialTold(p: Pass, r: Response)
    requires p.pc.ReadCredential? && Knows(p)
    ensures var source := SourceOf(p.cluster, p.pc.field);
            var entry := source.value.from.value.entry;
            r.FoundSecret? && entry in r.data ==>
              ComesFrom(r.data[entry], source, p.trace + [Observation(NextCall(p), r)], p.obj.key, p.obj.spec)
  {
    CredentialNamed(p);
    hide NextCall, NamedBy;
    var trace := p.trace + [Observation(NextCall(p), r)];
    assert trace[|p.trace|] == Observation(NextCall(p), r);
  }

  // ---------------------------------------------------------------- once the credentials are known

  /** The ways on once the credentials are known. */
  predicate LaterPlaces(p: Pass, q: Pass) {
    && !Front(q.pc) && (Informed(q.pc) ==> Informed(p.pc))
    && (BeforePassword(q.pc) ==> BeforePassword(p.pc) || p.pc.AddFinalizer?)
    && (q.pc.ReadSecret? ==> p.pc.PingConnection?)
    && (q.secretPassword != p.secretPassword ==> p.pc.ReadSecret? || p.pc.DrawPassword?)
  }

  lemma StillKnown(p: Pass, q: Pass, o: Observation)
    requires SameResource(p, q) && SameCredentials(p, q) && q.trace == p.trace + [o]
    requires Knows(p) && Resolves(p) && LaterPlaces(p, q) && !p.pc.ReadResource? && !p.pc.ReadCluster?
    requires !p.pc.ReadCredential?
    ensures Knows(q) && Resolves(q)
  {
    hide ComesFrom;
    if Informed(q.pc) {
      assert q.trace[1] == p.trace[1];
      ComesFromLasts(p.host, p.cluster.host, p.trace, o, p.obj.key, p.obj.spec);
      ComesFromLasts(p.user, p.cluster.user, p.trace, o, p.obj.key, p.obj.spec);
      ComesFromLasts(p.password, p.cluster.password, p.trace, o, p.obj.key, p.obj.spec);
    }
  }

  lemma StillQuiet(p: Pass, q: Pass, r: Response)
    requires Quiet(p) && LaterPlaces(p, q) && q.trace == p.trace + [Observation(NextCall(p), r)]
    ensures Quiet(q)
  {
    NextKinds(p);
    hide NextCall, UsesCredentials, UsesPassword;
    var o := Observation(NextCall(p), r);
    assert o in q.trace;
    assert forall o1 | o1 in q.trace :: o1 in p.trace || o1 == o;
  }

  lemma StillUses(p: Pass, q: Pass, r: Response)
    requires Spoken(p) && Quiet(p) && LaterPlaces(p, q) && SameCredentials(p, q)
    ensures UsesOwnValues(NextCall(p), q) && forall o | o in p.trace :: UsesOwnValues(o.call, q)
  {
    NextKinds(p);
    NextUses(p);
    hide NextCall, ReadsReferenced, UsesOwnNames, CreatesOwnSecret, AsksFor;
    forall o | o in p.trace
      ensures UsesOwnValues(o.call, q)
    {
      var i :| 0 <= i < |p.trace| && p.trace[i] == o;
      assert CallOk(p, i);
    }
  }

  /** A step after the credentials are known. */
  predicate Later(p: Pass, q: Pass, r: Response) {
    SameResource(p, q) && SameCredentials(p, q) && LaterPlaces(p, q)
    && q.trace == p.trace + [Observation(NextCall(p), r)]
  }

  predicate LaterPc(pc: Pc) {
    pc.AddFinalizer? || Middle(pc) || InSql(pc) || InRepair(pc) || pc.WriteStatus? || pc.WriteFailure? || Dropping(pc)
    || pc.Refetch? || pc.RemoveFinalizer?
  }

  lemma LaterNext(p: Pass, q: Pass, r: Response)
    requires CallInv(p) && LaterPc(p.pc) && p.key == p.obj.key && Later(p, q, r) && Protects(q)
    ensures CallInv(q)
  {
    hide NextCall, Spoken, Quiet, Knows, Resolves, Protects, LaterPlaces, UsesOwnValues, Begun;
    assert Live(p);
    StillKnown(p, q, Observation(NextCall(p), r));
    StillQuiet(p, q, r);
    StillUses(p, q, r);
    SpokenNext(p, q, r);
    NoReturn(p, q);
    StillSourced(p, q, r);
    StillBegun(p, q, Observation(NextCall(p), r));
  }

  lemma NoReturn(p: Pass, q: Pass)
    requires LaterPlaces(p, q)
    ensures !q.pc.ReadResource?
  {
  }

  lemma StillBegun(p: Pass, q: Pass, o: Observation)
    requires Begun(p) && Live(p) && SameResource(p, q) && q.trace == p.trace + [o] && !q.pc.ReadResource?
    ensures Begun(q)
  {
    assert q.trace[0] == p.trace[0];
  }

  lemma PlacesAside(p: Pass, q: Pass, trace: seq<Observation>)
    requires LaterPlaces(p, q)
    ensures LaterPlaces(p, q.(trace := trace))
  {
  }

  lemma FinalizerLater(p: Pass, r: Response, b: Beat)
    requires p.pc.AddFinalizer? && SameResource(p, After(p, r, b))
    ensures Later(p, After(p, r, b), r) && Protects(After(p, r, b))
  {
    hide NextCall;
  }

  lemma OpenResumes(p: Pass, r: Response, b: Beat)
    requires p.pc.OpenConnection? || p.pc.PingConnection?
    ensures LaterPlaces(p, ResumeSecret(p, r, b)) && !ResumeSecret(p, r, b).pc.MakeRole?
  {
    hide Upsert, DatabasePhase;
  }

  /** Where the password comes from when a pass comes to its first statement. */
  predicate BringsPassword(p: Pass, q: Pass, r: Response) {
    q.pc.MakeRole? ==>
      || (p.pc.ReadSecret? && r.FoundSecret? && q.secretPassword == PasswordIn(r.data))
      || (p.pc.WriteSecret? && r == Done && q.secretPassword == p.secretPassword)
  }

  lemma ReadSecretResumes(p: Pass, r: Response, b: Beat)
    requires p.pc.ReadSecret?
    ensures LaterPlaces(p, ResumeSecret(p, r, b)) && BringsPassword(p, ResumeSecret(p, r, b), r)
  {
    hide SetCondition, UpdatePhase, PasswordIn;
  }

  lemma WriteSecretResumes(p: Pass, r: Response, b: Beat)
    requires p.pc.DrawPassword? || p.pc.OwnSecret? || p.pc.WriteSecret?
    ensures LaterPlaces(p, ResumeSecret(p, r, b)) && BringsPassword(p, ResumeSecret(p, r, b), r)
  {
    hide Upsert, DatabasePhase, PasswordFrom;
  }

  lemma MiddleLater(p: Pass, r: Response, b: Beat)
    requires Middle(p.pc)
    ensures var q := After(p, r, b);
            Later(p, q, r) && BringsPassword(p, q, r) && (InSql(q.pc) ==> q.pc.MakeRole?) && !InRepair(q.pc)
  {
    ResumeCases(p, r, b);
    hide NextCall, Resume, ResumeSecret, StatusStep, LaterPlaces, PasswordIn, IsTrue;
    MiddleFacts(p, r, b);
    if p.pc.OpenConnection? || p.pc.PingConnection? {
      OpenResumes(p, r, b);
    } else if p.pc.ReadSecret? {
      ReadSecretResumes(p, r, b);
    } else {
      WriteSecretResumes(p, r, b);
    }
    PlacesAside(p, ResumeSecret(p, r, b), p.trace + [Observation(NextCall(p), r)]);
  }

  lemma SecretCalls(p: Pass)
    ensures p.pc.ReadSecret? ==> NextCall(p) == GetSecret(Key(p.obj.key.namespace, p.obj.key.name + "-connection"))
    ensures p.pc.WriteSecret? ==> NextCall(p).CreateSecret?
  {
  }

  lemma MiddleProtects(p: Pass, q: Pass, r: Response)
    requires Middle(p.pc) && Later(p, q, r) && BringsPassword(p, q, r)
    requires !InRepair(q.pc) && (InSql(q.pc) ==> q.pc.MakeRole?)
    ensures Protects(q)
  {
    NextCreates(p);
    NextUses(p);
    SecretCalls(p);
    hide NextCall, LaterPlaces, SameCredentials;
    var o := Observation(NextCall(p), r);
    assert q.trace[|p.trace|] == o;
    assert q.pc.MakeRole? ==> Secures(o, q.secretPassword, q.obj.key);
  }

  lemma StillProtected(p: Pass, q: Pass, o: Observation)
    requires InSql(p.pc) || InRepair(p.pc)
    requires Protects(p) && q.trace == p.trace + [o] && q.secretPassword == p.secretPassword && q.obj.key == p.obj.key
    ensures Protects(q)
  {
    hide Secured;
    SecuredLasts(p.trace, o, p.secretPassword, p.obj.key);
  }

  lemma SqlLater(p: Pass, r: Response, b: Beat)
    requires InSql(p.pc)
    ensures Later(p, After(p, r, b), r) && After(p, r, b).secretPassword == p.secretPassword
  {
    ResumeCases(p, r, b);
    hide NextCall, Resume, ResumeSql, StatusStep, IsTrue;
    SqlFacts(p, r, b);
  }

  lemma RepairLater(p: Pass, r: Response, b: Beat)
    requires InRepair(p.pc)
    ensures Later(p, After(p, r, b), r) && After(p, r, b).secretPassword == p.secretPassword
  {
    ResumeCases(p, r, b);
    hide NextCall, Resume, ResumeRepair, StatusStep, IsTrue, Described, AllReady;
    RepairFacts(p, r, b);
  }

  lemma EndLater(p: Pass, r: Response, b: Beat)
    requires p.pc.WriteStatus? || p.pc.WriteFailure? || Dropping(p.pc) || p.pc.Refetch? || p.pc.RemoveFinalizer?
    ensures Later(p, After(p, r, b), r) && Protects(After(p, r, b))
  {
    ResumeCases(p, r, b);
    hide NextCall, Resume, ResumeEnd, Secured;
    EndResumes(p, r, b);
    EndPlaces(p, ResumeEnd(p, r, b));
    PlacesAside(p, ResumeEnd(p, r, b), p.trace + [Observation(NextCall(p), r)]);
    hide LaterPlaces;
  }

  lemma EndPlaces(p: Pass, q: Pass)
    requires q.secretPassword == p.secretPassword
    requires if p.pc.OpenForDrop? || p.pc.BeginDrop? || p.pc.DropDatabaseStep? || p.pc.DropRoleStep?
             then Dropping(q.pc) || q.pc.Refetch? else q.pc.Stopped? || q.pc.Refetch? || q.pc.RemoveFinalizer?
    ensures LaterPlaces(p, q) && !InSql(q.pc) && !InRepair(q.pc)
  {
  }

  lemma EndResumes(p: Pass, r: Response, b: Beat)
    requires p.pc.WriteStatus? || p.pc.WriteFailure? || Dropping(p.pc) || p.pc.Refetch? || p.pc.RemoveFinalizer?
    ensures var q := ResumeEnd(p, r, b);
            && q == p.(pc := q.pc, latest := q.latest)
            && (if p.pc.OpenForDrop? || p.pc.BeginDrop? || p.pc.DropDatabaseStep? || p.pc.DropRoleStep?
                then Dropping(q.pc) || q.pc.Refetch? else q.pc.Stopped? || q.pc.Refetch? || q.pc.RemoveFinalizer?)
  {
  }

  lemma LaterStep(p: Pass, r: Response, b: Beat)
    requires CallInv(p) && LaterPc(p.pc) && p.key == p.obj.key
    requires p.pc.AddFinalizer? ==> SameResource(p, After(p, r, b))
    ensures CallInv(After(p, r, b))
  {
    hide After, NextCall, Later, Protects, BringsPassword, SameResource, Begun, Spoken, Quiet, Knows, Resolves;
    var q := After(p, r, b);
    if p.pc.AddFinalizer? {
      FinalizerLater(p, r, b);
    } else if Middle(p.pc) {
      MiddleLater(p, r, b);
      MiddleProtects(p, q, r);
    } else if InSql(p.pc) || InRepair(p.pc) {
      if InSql(p.pc) {
        SqlLater(p, r, b);
      } else {
        RepairLater(p, r, b);
      }
      LaterTrace(p, q, r);
      StillProtected(p, q, Observation(NextCall(p), r));
    } else {
      EndLater(p, r, b);
    }
    LaterNext(p, q, r);
  }

  lemma LaterTrace(p: Pass, q: Pass, r: Response)
    requires Later(p, q, r)
    ensures q.trace == p.trace + [Observation(NextCall(p), r)] && q.obj.key == p.obj.key
  {
  }

  // ---------------------------------------------------------------- whole runs

  lemma StepSpeaks(w: World, k: Key, p: Pass, b: Beat)
    requires StoreOk(w) && PassOk(w, k, p) && !p.pc.Stopped? && CallInv(p)
    ensures CallInv(Step(w, p, b).1)
  {
    var r := Api(w, k, NextCall(p), b).1;
    var q := After(p, r, b);
    assert Step(w, p, b).1 == q && p.key == p.obj.key == k;
    StepKeeps(w, k, p, b);
    assert q.key == k && q.obj.key == k;
    if Live(p) {
      ResumeKeepsSpec(w, k, p, b);
    }
    hide Step, Api, NextCall, After, CallInv, StoreOk, Control, Finalized, Synced;
    if p.pc.ReadResource? {
      ReadStep(p, r, b);
    } else if p.pc.ReadCluster? {
      ClusterStep(p, r, b);
    } else if p.pc.ReadCredential? {
      CredentialStep(p, r, b);
    } else {
      LaterStep(p, r, b);
    }
  }

  lemma StartsSilent(k: Key)
    ensures CallInv(InitialPass(k))
  {
  }

  lemma NextSpeaks(s: Sys, e: Event)
    requires Inv(s) && forall k | k in s.passes :: CallInv(s.passes[k])
    ensures forall k | k in Next(s, e).passes :: CallInv(Next(s, e).passes[k])
  {
    hide CallInv, Step, MoveWorld, StoreOk, PassOk;
    match e {
      case Turn(k, b) =>
        if Running(s, k) {
          StepSpeaks(s.w, k, s.passes[k], b);
        }
      case Start(k) => StartsSilent(k);
      case _ =>
    }
  }

  lemma {:induction false} RunSpeaks(s: Sys, events: seq<Event>)
    requires Inv(s) && forall k | k in s.passes :: CallInv(s.passes[k])
    ensures forall k | k in Run(s, events).passes :: CallInv(Run(s, events).passes[k])
    decreases |events|
  {
    hide CallInv, Inv, Next;
    if events != [] {
      NextKeeps(s, events[0]);
      NextSpeaks(s, events[0]);
      RunSpeaks(Next(s, events[0]), events[1..]);
    }
  }

  // ---------------------------------------------------------------- what every run says

  /** A pass of a run, and the resource it read with its first call. */
  lemma PassOfRun(s: Sys, events: seq<Event>, k: Key)
    requires Initial(s) && k in Run(s, events).passes
    ensures var p := Run(s, events).passes[k];
            && CallInv(p)
            && (|p.trace| > 1 ==>
                  && p.trace[0].call == GetResource(k) && p.trace[0].response.Found?
                  && p.trace[0].response.resource.key == p.obj.key == k
                  && p.trace[0].response.resource.spec == p.obj.spec)
  {
    InitialInv(s);
    RunKeeps(s, events);
    RunSpeaks(s, events);
    KeyOfPass(s, events, k);
    hide Run, Spoken, Quiet, Knows, Resolves, Protects, Sourced;
    assert CallInv(Run(s, events).passes[k]);
  }

  lemma KeyOfPass(s: Sys, events: seq<Event>, k: Key)
    requires Inv(Run(s, events)) && k in Run(s, events).passes
    ensures Run(s, events).passes[k].key == k && Run(s, events).passes[k].obj.key == k
  {
    hide Run, StoreOk, Control, Finalized, Synced;
  }

  /**
   * Over every run: a pass that read resource r asks for the cluster that r names, in the namespace of the reference,
   * or in that of r if the reference has none; and it asks for secrets by name only: before its ping for those the
   * cluster's credentials name, in their own namespace or else in the cluster's, afterwards for the one of r.
   */
  lemma ReadsWhatIsReferenced(s: Sys, events: seq<Event>, k: Key, i: nat)
    requires Initial(s) && k in Run(s, events).passes && 0 < i < |Run(s, events).passes[k].trace|
    ensures var trace := Run(s, events).passes[k].trace;
            && trace[0].call == GetResource(k) && trace[0].response.Found?
            && var r := trace[0].response.resource;
               && (trace[i].call.GetCluster? ==>
                     && trace[i].call.key.name == r.spec.cluster.name
                     && (r.spec.cluster.namespace != "" ==> trace[i].call.key.namespace == r.spec.cluster.namespace)
                     && (r.spec.cluster.namespace == "" ==> trace[i].call.key.namespace == k.namespace))
               && (trace[i].call.GetResource? ==> trace[i].call.key == k)
               && AsksFor(trace, i, k, r.spec)
  {
    PassOfRun(s, events, k);
    hide Run, UsesOwnNames, CreatesOwnSecret, UsesOwnValues, AsksFor, Begun, Quiet, Knows, Resolves, Protects, Sourced;
    assert CallOk(Run(s, events).passes[k], i);
  }

  /**
   * Over every run: every statement of a pass, deletion included, is on the database and for the role of the resource
   * it read: the explicit name where the specification has one, else namespace, underscore and name, each by itself.
   */
  lemma WorksUnderOwnNames(s: Sys, events: seq<Event>, k: Key, i: nat)
    requires Initial(s) && k in Run(s, events).passes && 0 < i < |Run(s, events).passes[k].trace|
    ensures var trace := Run(s, events).passes[k].trace;
            && trace[0].response.Found?
            && var spec := trace[0].response.resource.spec;
               && (spec.databaseName != "" ==> OnDatabaseNamed(trace[i].call, spec.databaseName))
               && (spec.databaseName == "" ==> OnDatabaseNamed(trace[i].call, k.namespace + "_" + k.name))
               && (spec.userName != "" ==> ForRoleNamed(trace[i].call, spec.userName))
               && (spec.userName == "" ==> ForRoleNamed(trace[i].call, k.namespace + "_" + k.name))
  {
    PassOfRun(s, events, k);
    hide Run, OnDatabaseNamed, ForRoleNamed, CreatesOwnSecret, UsesOwnValues, AsksFor, Begun, Quiet, Knows, Resolves;
    hide Protects, Sourced;
    assert CallOk(Run(s, events).passes[k], i);
  }

  /**
   * Over every run: a secret that a pass creates is its resource's own and has exactly six entries. They name the role
   * and the database of the resource, and agree with whatever role and database the pass creates, password included,
   * and with whatever server it connects to; and the URL is put together from the other five.
   */
  lemma SecretSaysWhatIsCreated(s: Sys, events: seq<Event>, k: Key, i: nat, j: nat)
    requires Initial(s) && k in Run(s, events).passes
    requires var trace := Run(s, events).passes[k].trace;
             0 < i < |trace| && 0 < j < |trace| && trace[i].call.CreateSecret?
    ensures var trace := Run(s, events).passes[k].trace;
            && trace[0].response.Found?
            && CreatesOwnSecret(trace[i].call, k, trace[0].response.resource.spec)
            && var (data, c) := (trace[i].call.data, trace[j].call);
               && (c.CreateUser? || c.AlterUser? ==> data["user"] == c.user && data["password"] == c.password)
               && (c.CreateDatabase? ==> data["database"] == c.database && data["user"] == c.user)
               && (c.OpenTarget? ==> data["database"] == c.database)
               && (c.OpenServer? || c.OpenTarget? ==> data["host"] == c.host && data["port"] == PrintInt(c.port))
  {
    PassOfRun(s, events, k);
    hide Run, AsksFor, Begun, Quiet, Knows, Resolves, Protects, Sourced, PrintInt;
    assert CallOk(Run(s, events).passes[k], i) && CallOk(Run(s, events).passes[k], j);
  }

  /**
   * Over every run: a pass connects with the host, user and password that the cluster it found gives, as literals or as
   * entries of the secrets it was shown, and with its port or 5432; and the password it sets for a role is the one in
   * the resource's secret, found or created before.
   */
  lemma ConnectsAsTold(s: Sys, events: seq<Event>, k: Key, i: nat)
    requires Initial(s) && k in Run(s, events).passes && 0 < i < |Run(s, events).passes[k].trace|
    ensures var trace := Run(s, events).passes[k].trace;
            && trace[0].response.Found?
            && SourcedAt(trace, i, k, trace[0].response.resource.spec)
  {
    PassOfRun(s, events, k);
    hide Run, SourcedAt, Begun, Spoken, Quiet, Knows, Resolves, Protects;
    assert SourcedAt(Run(s, events).passes[k].trace, i, k, Run(s, events).passes[k].obj.spec);
  }

  /**
   * Over every run: the connection published with Ready names the server the pass connected to, and the database and
   * the role of the resource by the two rules; and its URL is put together from these, without the password.
   */
  lemma ReadySaysWhereToConnect(s: Sys, events: seq<Event>, e: Event, k: Key, i: nat)
    requires Initial(s)
    requires var t := Run(s, events);
             k in t.w.resources && k in Next(t, e).w.resources
             && t.w.resources[k].uid == Next(t, e).w.resources[k].uid
             && !IsReady(t.w.resources[k]) && IsReady(Next(t, e).w.resources[k])
    requires k in Run(s, events).passes && i < |Run(s, events).passes[k].trace|
    ensures var trace := Run(s, events).passes[k].trace;
            var connection := Next(Run(s, events), e).w.resources[k].status.connection;
            && trace[0].response.Found? && connection.Some?
            && var (c, spec) := (connection.value, trace[0].response.resource.spec);
               && (trace[i].call.OpenServer? ==> c.host == trace[i].call.host && c.port == trace[i].call.port)
               && (spec.databaseName != "" ==> c.database == spec.databaseName)
               && (spec.databaseName == "" ==> c.database == k.namespace + "_" + k.name)
               && (spec.userName != "" ==> c.user == spec.userName)
               && (spec.userName == "" ==> c.user == k.namespace + "_" + k.name)
               && c.url == "postgresql://" + c.user + "@" + c.host + ":" + PrintInt(c.port) + "/" + c.database
                           + "?sslmode=disable"
  {
    var p := Run(s, events).passes[k];
    StatusSafety.ReadyIsEarned(s, events, e, k);
    assert |p.trace| > 1 by { EarnedLate(p); }
    PassOfRun(s, events, k);
    ChosenNames(p.obj);
    UrlWritten(RoleName(p), None, p.host, PrintInt(p.port), DbName(p));
    hide Run, Next, StatusSafety.DidEverything, Begun, Quiet, Knows, Resolves, Protects, Sourced, Url, UserNameOf;
    hide DatabaseNameOf, PrintInt, IsReady, CreatesOwnSecret, UsesOwnNames, AsksFor;
    assert CallOk(p, i);
  }

  /** A pass that has done everything has made more than one call. */
  lemma EarnedLate(p: Pass)
    requires StatusSafety.DidEverything(p)
    ensures |p.trace| > 1
  {
    hide StatusSafety.HasSecret, StatusSafety.HasRole, StatusSafety.HasDatabase, StatusSafety.Committed;
    hide StatusSafety.HasCredentials;
    var o1, o2 := Observation(PingServer, Done), Observation(CloseRows, Done);
    assert o1 in p.trace && o2 in p.trace;
    var i :| 0 <= i < |p.trace| && p.trace[i] == o1;
    var j :| 0 <= j < |p.trace| && p.trace[j] == o2;
    assert i != j;
  }
}
