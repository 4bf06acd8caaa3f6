/**
 * The cluster controller: a Reconcile in place on the object in memory, what it writes as a function of what it was
 * told, and whole runs in which reads and writes are interleaved with edits of the same clusters.
 */
module ClusterController {
  import opened Basics
  import opened Conditions
  import opened Text
  import ConnectionUrl
  import Model

  type Key = Model.Key
  type Source = Model.Source

  datatype Spec = Spec(host: Option<Source>, port: int, user: Option<Source>, password: Option<Source>)

  datatype Admin = Admin(host: string, port: int, user: string, url: string)

  datatype Status = Status(observedGeneration: nat, conditions: seq<Condition>, phase: Phase, admin: Option<Admin>)

  const EMPTY_STATUS: Status := Status(0, [], Unset, None)

  datatype Cluster = Cluster(key: Key, uid: nat, version: nat, generation: nat, deleting: bool, spec: Spec,
                             status: Status)

  /** What reading a referenced secret brings. */
  datatype Reply = Found(data: map<string, string>) | Missing | Failing

  /** Everything a Reconcile is told from outside: one reply per field, the connection test, the clock. */
  datatype Told = Told(host: Reply, user: Reply, password: Reply, connected: bool, now: int)

  datatype Resolution = Value(text: string) | Requeue | Failure

  /** How a Reconcile ends: with an error, asking to be run again, or done. */
  datatype Result = Broken | Again | Done

  // ---------------------------------------------------------------- what a Reconcile writes

  function Resolve(source: Option<Source>, reply: Reply): Resolution {
    if source.None? then Failure
    else if source.value.value != "" then Value(source.value.value)
    else if source.value.from.None? then Failure
    else match reply
      case Missing => Requeue
      case Failing => Failure
      case Found(data) =>
        var entry := source.value.from.value.entry;
        if entry in data then Value(data[entry]) else Failure
  }

  /** A secret has to be read: there is no literal value, and a secret is named instead. */
  predicate NeedsSecret(source: Option<Source>) { source.Some? && source.value.value == "" && source.value.from.Some? }

  /**
   * What resolving brings: a text exactly if it is the non-empty literal, or no literal is given and the named secret
   * has it under the named entry; a retry exactly if the secret that is needed is missing; otherwise a failure.
   */
  lemma ResolveIff(source: Option<Source>, reply: Reply, text: string)
    ensures Resolve(source, reply) == Value(text) <==>
            || (source.Some? && source.value.value != "" && source.value.value == text)
            || (NeedsSecret(source) && reply.Found? && (source.value.from.value.entry, text) in reply.data.Items)
    ensures Resolve(source, reply) == Requeue <==> NeedsSecret(source) && reply.Missing?
    ensures Resolve(source, reply) == Failure <==>
            || source.None?
            || (source.value.value == "" && source.value.from.None?)
            || (NeedsSecret(source) && (reply.Failing? || (reply.Found?
               && source.value.from.value.entry !in reply.data)))
  {
  }

  function With(c: Cluster, kind: string, ok: bool, message: string, now: int): Cluster {
    c.(status := c.status.(conditions := Upsert(c.status.conditions, Fresh(kind, ok, message, now, c.generation))))
  }

  function Phased(c: Cluster): Cluster {
    c.(status := c.status.(phase := ClusterPhase(c.status.conditions, c.deleting)))
  }

  function UrlOf(host: string, port: int, user: string): string {
    "postgresql://" + user + "@" + host + ":" + PrintInt(port) + "/postgres"
  }

  function PortOf(c: Cluster): int { if c.spec.port == 0 then 5432 else c.spec.port }

  /** updateStatus up to its write. */
  function Finished(c: Cluster, host: string, user: string, now: int): Cluster {
    var ready := IsTrue(c.status.conditions, "ConfigurationValid") && IsTrue(c.status.conditions, "ConnectionReady");
    var c1 := c.(status := c.status.(observedGeneration := c.generation));
    var c2 := Phased(With(c1, "Ready", ready, if ready then "ready" else "not ready", now));
    if ready then c2.(status := c2.status.(admin := Some(Admin(host, PortOf(c), user, UrlOf(host, PortOf(c), user)))))
    else c2
  }

  function Invalid(c: Cluster, message: string, now: int): Cluster {
    Phased(With(c, "ConfigurationValid", false, message, now))
  }

  /** A valid configuration, and what the connection test said. */
  function Checked(c: Cluster, connected: bool, now: int): Cluster {
    With(With(c, "ConfigurationValid", true, "valid", now), "ConnectionReady", connected, "connection checked", now)
  }

  /** The object a Reconcile of c writes, if it writes at all. */
  function Write(c: Cluster, t: Told): Option<Cluster> {
    var (host, user, password) :=
      (Resolve(c.spec.host, t.host), Resolve(c.spec.user, t.user), Resolve(c.spec.password, t.password));
    if !host.Value? || !user.Value? || !password.Value? then None
    else if host.text == "" then Some(Invalid(c, "host is required", t.now))
    else if user.text == "" then Some(Invalid(c, "user is required", t.now))
    else if password.text == "" then Some(Invalid(c, "password is required", t.now))
    else
      Some(Finished(Checked(c, t.connected, t.now), host.text, user.text, t.now))
  }

  /** All three credentials are there and not empty, and the connection test succeeded. */
  predicate Serves(c: Cluster, t: Told) {
    var (host, user, password) :=
      (Resolve(c.spec.host, t.host), Resolve(c.spec.user, t.user), Resolve(c.spec.password, t.password));
    host.Value? && host.text != "" && user.Value? && user.text != "" && password.Value? && password.text != ""
    && t.connected
  }

  predicate IsReady(c: Cluster) { IsTrue(c.status.conditions, "Ready") }

  predicate CutShort(c: Cluster, t: Told) {
    var (host, user, password) :=
      (Resolve(c.spec.host, t.host), Resolve(c.spec.user, t.user), Resolve(c.spec.password, t.password));
    host.Value? && user.Value? && password.Value? && (host.text == "" || user.text == "" || password.text == "")
  }

  /** The admin connection names the resolved host and user, the port or 5432, and a URL made of these. */
  predicate Describes(a: Admin, c: Cluster, t: Told) {
    && Resolve(c.spec.host, t.host) == Value(a.host) && Resolve(c.spec.user, t.user) == Value(a.user)
    && (c.spec.port != 0 ==> a.port == c.spec.port) && (c.spec.port == 0 ==> a.port == 5432)
    && a.url == "postgresql://" + a.user + "@" + a.host + ":" + PrintInt(a.port) + "/postgres"
  }

  /** Splitting the admin URL gives user, host and port, the maintenance database, no password and no query. */
  lemma AdminUrlSplits(host: string, port: int, user: string)
    requires ConnectionUrl.AllUnreserved(user) && ConnectionUrl.RegName(host)
    ensures ConnectionUrl.Split(UrlOf(host, port, user)) ==
            Some(ConnectionUrl.Parts("postgresql", user, None, host, Some(PrintInt(port)), "/postgres", None))
  {
    hide PrintInt, UrlOf, ConnectionUrl.Authority, ConnectionUrl.Split, ConnectionUrl.Cut, ConnectionUrl.AllUnreserved;
    hide ConnectionUrl.RegName;
    AdminUrlForm(host, PrintInt(port), user);
    assert UrlOf(host, port, user) == "postgresql://" + user + "@" + host + ":" + PrintInt(port) + "/postgres" by {
      UrlIs(host, port, user);
    }
    ConnectionUrl.AnyUrlSplits(user, None, host, port, "/postgres");
    ConnectionUrl.NoQuery("/postgres");
  }

  lemma UrlIs(host: string, port: int, user: string)
    ensures UrlOf(host, port, user) == "postgresql://" + user + "@" + host + ":" + PrintInt(port) + "/postgres"
  {
  }

  lemma AdminUrlForm(host: string, port: string, user: string)
    ensures "postgresql://" + user + "@" + host + ":" + port + "/postgres" ==
            ConnectionUrl.SCHEME + (":" + ("//" + (ConnectionUrl.Authority(user, None, host, port) + "/postgres")))
  {
    ConnectionUrl.FlatAuthority(user, "@", host, ":", port);
    ConnectionUrl.FlatUrl("postgresql", ":", "//", ConnectionUrl.Authority(user, None, host, port), "/postgres");
    assert "postgresql" + ":" + "//" == "postgresql://";
    AdminUrlFlat("postgresql://", user, "@", host, ":", port, "/postgres");
  }

  lemma AdminUrlFlat(start: string, user: string, at: string, host: string, colon: string, port: string, path: string)
    ensures start + (user + at + host + colon + port) + path == start + user + at + host + colon + port + path
  {
    assert start + ((user + at + host + colon) + port) == start + (user + at + host + colon) + port;
    assert start + ((user + at + host) + colon) == start + (user + at + host) + colon;
    assert start + ((user + at) + host) == start + (user + at) + host;
    assert start + (user + at) == start + user + at;
  }

  /**
   * What a write changes: status only; a phase that follows from the conditions; the generation it read, or the one
   * observed before. Ready is True after a write exactly when the cluster serves, or when an empty credential cut the
   * pass short and an older True was left in place.
   */
  lemma WriteFacts(c: Cluster, t: Told)
    requires Write(c, t).Some?
    ensures var after := Write(c, t).value;
            && after.(status := c.status) == c
            && after.status.phase == ClusterPhase(after.status.conditions, c.deleting)
            && after.status.observedGeneration == (if CutShort(c, t) then c.status.observedGeneration else c.generation)
            && (UniqueKinds(c.status.conditions) ==> UniqueKinds(after.status.conditions))
            && (IsReady(after) <==> Serves(c, t) || (CutShort(c, t) && IsReady(c)))
            && (Serves(c, t) ==> after.status.admin.Some? && Describes(after.status.admin.value, c, t))
            && (!Serves(c, t) ==> after.status.admin == c.status.admin)
            && StatusIs(after.status.conditions, "ConfigurationValid", if CutShort(c, t) then False else True)
            && (!CutShort(c, t) ==>
                  StatusIs(after.status.conditions, "ConnectionReady", if t.connected then True else False))
  {
    if CutShort(c, t) {
      forall message: string | true
        ensures InvalidOk(c, Invalid(c, message, t.now))
      {
        InvalidFacts(c, message, t.now);
      }
    } else {
      CheckedFacts(c, t.connected, t.now);
      FinishedFacts(Checked(c, t.connected, t.now),
                    Resolve(c.spec.host, t.host).text, Resolve(c.spec.user, t.user).text, t.now);
    }
  }

  predicate InvalidOk(c: Cluster, after: Cluster) {
    && after.(status := c.status) == c
    && after.status.phase == ClusterPhase(after.status.conditions, c.deleting)
    && after.status.observedGeneration == c.status.observedGeneration && after.status.admin == c.status.admin
    && (UniqueKinds(c.status.conditions) ==> UniqueKinds(after.status.conditions))
    && (IsReady(after) <==> IsReady(c)) && StatusIs(after.status.conditions, "ConfigurationValid", False)
  }

  lemma InvalidFacts(c: Cluster, message: string, now: int)
    ensures InvalidOk(c, Invalid(c, message, now))
  {
    WithFacts(c, "ConfigurationValid", false, message, now, "Ready");
    SetRecords(c.status.conditions, "ConfigurationValid", false, message, now, c.generation, "");
  }

  lemma WithFacts(c: Cluster, kind: string, ok: bool, message: string, now: int, other: string)
    ensures var after := With(c, kind, ok, message, now);
            && (UniqueKinds(c.status.conditions) ==> UniqueKinds(after.status.conditions))
            && IsTrue(after.status.conditions, kind) == ok
            && (other != kind ==> IsTrue(after.status.conditions, other) == IsTrue(c.status.conditions, other))
  {
    var entry := Fresh(kind, ok, message, now, c.generation);
    UpsertLookup(c.status.conditions, entry, kind);
    UpsertLookup(c.status.conditions, entry, other);
    if UniqueKinds(c.status.conditions) {
      UpsertKeepsShape(c.status.conditions, entry);
    }
  }

  lemma CheckedFacts(c: Cluster, connected: bool, now: int)
    ensures var checked := Checked(c, connected, now);
            && (UniqueKinds(c.status.conditions) ==> UniqueKinds(checked.status.conditions))
            && IsTrue(checked.status.conditions, "ConfigurationValid")
            && IsTrue(checked.status.conditions, "ConnectionReady") == connected
            && checked.(status := c.status) == c && checked.status.admin == c.status.admin
            && StatusIs(checked.status.conditions, "ConfigurationValid", True)
            && StatusIs(checked.status.conditions, "ConnectionReady", if connected then True else False)
  {
    hide Upsert, IsTrue, UniqueKinds;
    var c1 := With(c, "ConfigurationValid", true, "valid", now);
    WithFacts(c, "ConfigurationValid", true, "valid", now, "");
    WithFacts(c1, "ConnectionReady", connected, "connection checked", now, "ConfigurationValid");
    SetRecords(c.status.conditions, "ConfigurationValid", true, "valid", now, c.generation, "");
    SetRecords(c1.status.conditions, "ConnectionReady", connected, "connection checked", now, c.generation,
               "ConfigurationValid");
  }

  lemma FinishedFacts(c: Cluster, host: string, user: string, now: int)
    ensures var after := Finished(c, host, user, now);
            var ready := IsTrue(c.status.conditions, "ConfigurationValid")
                         && IsTrue(c.status.conditions, "ConnectionReady");
            && after.(status := c.status) == c
            && after.status.phase == ClusterPhase(after.status.conditions, c.deleting)
            && after.status.observedGeneration == c.generation
            && (UniqueKinds(c.status.conditions) ==> UniqueKinds(after.status.conditions))
            && (IsReady(after) <==> ready)
            && (ready ==> after.status.admin == Some(Admin(host, PortOf(c), user, UrlOf(host, PortOf(c), user))))
            && (!ready ==> after.status.admin == c.status.admin)
            && var (was, now) := (c.status.conditions, after.status.conditions);
               && Lookup(now, "ConfigurationValid") == Lookup(was, "ConfigurationValid")
               && Lookup(now, "ConnectionReady") == Lookup(was, "ConnectionReady")
  {
    hide Upsert, UniqueKinds, ClusterPhase;
    var ready := IsTrue(c.status.conditions, "ConfigurationValid") && IsTrue(c.status.conditions, "ConnectionReady");
    var c1 := c.(status := c.status.(observedGeneration := c.generation));
    WithFacts(c1, "Ready", ready, if ready then "ready" else "not ready", now, "");
    var message := if ready then "ready" else "not ready";
    SetRecords(c.status.conditions, "Ready", ready, message, now, c.generation, "ConfigurationValid");
    SetRecords(c.status.conditions, "Ready", ready, message, now, c.generation, "ConnectionReady");
  }

  // ---------------------------------------------------------------- the methods, in place

  class PostgresCluster {
    const book: ConditionBook
    var key: Key
    var uid: nat
    var version: nat
    var deleting: bool
    var spec: Spec
    var observedGeneration: nat
    var phase: Phase
    var admin: Option<Admin>

    constructor (c: Cluster)
      ensures View() == c && fresh(book)
    {
      book := new ConditionBook(c.generation, c.status.conditions);
      key, uid, version, deleting, spec := c.key, c.uid, c.version, c.deleting, c.spec;
      observedGeneration, phase, admin := c.status.observedGeneration, c.status.phase, c.status.admin;
    }

    function View(): Cluster
      reads this, book
    {
      Cluster(key, uid, version, book.generation, deleting, spec,
              Status(observedGeneration, book.conditions, phase, admin))
    }

    method SetCondition(kind: string, ok: bool, message: string, now: int)
      modifies book
      ensures View() == With(old(View()), kind, ok, message, now)
    {
      book.SetCondition(kind, ok, message, now);
    }

    method UpdatePhase()
      modifies this`phase
      ensures View() == Phased(old(View()))
      ensures PhaseMeans(phase, book.conditions, deleting, "ConfigurationValid")
    {
      ClusterPhaseMeans(book.conditions, deleting);
      if deleting {
        phase := Deleting;
        return;
      }
      var ready := book.GetCondition("Ready");
      if ready.None? {
        phase := Pending;
        return;
      }
      match ready.value.status {
        case True => phase := Ready;
        case False =>
          var config := book.GetCondition("ConfigurationValid");
          var connection := book.GetCondition("ConnectionReady");
          if config.Some? && config.value.status == False {
            phase := Failed;
          } else if connection.Some? && connection.value.status == False {
            phase := Creating;
          } else {
            phase := Creating;
          }
        case Unknown => phase := Pending;
      }
    }

    method UpdateStatus(host: string, port: int, user: string, now: int)
      requires port == PortOf(View())
      modifies this, book
      ensures View() == Finished(old(View()), host, user, now)
      ensures observedGeneration == book.generation
      ensures PhaseMeans(phase, book.conditions, deleting, "ConfigurationValid")
      ensures var ready := IsTrue(old(book.conditions), "ConfigurationValid")
                           && IsTrue(old(book.conditions), "ConnectionReady");
              && IsTrue(book.conditions, "Ready") == ready && (!ready ==> admin == old(admin))
              && (ready ==> admin == Some(Admin(host, port, user, "postgresql://" + user + "@" + host + ":"
                                                                  + PrintInt(port) + "/postgres")))
    {
      hide Upsert, IsTrue, ClusterPhase, UrlOf;
      UrlIs(host, port, user);
      FinishedFacts(View(), host, user, now);
      observedGeneration := book.generation;
      var config := book.GetConditionStatus("ConfigurationValid");
      var connection := book.GetConditionStatus("ConnectionReady");
      var ready := config && connection;
      SetCondition("Ready", ready, if ready then "ready" else "not ready", now);
      UpdatePhase();
      if ready {
        admin := Some(Admin(host, port, user, UrlOf(host, port, user)));
      }
    }

    /** Also says which secret it asks for, if any: by default one in the cluster's own namespace. */
    method ResolveStringOrSecret(source: Option<Source>, reply: Reply) returns (r: Resolution, asks: seq<Key>)
      ensures r == Resolve(source, reply)
      ensures if NeedsSecret(source) then |asks| == 1 && AskedFor(asks[0], source, key.namespace) else asks == []
    {
      if source.None? {
        return Failure, [];
      }
      if source.value.value != "" {
        return Value(source.value.value), [];
      }
      if source.value.from.None? {
        return Failure, [];
      }
      var from := source.value.from.value;
      var namespace := key.namespace;
      if from.namespace != "" {
        namespace := from.namespace;
      }
      asks := [Model.Key.Key(namespace, from.name)];
      if reply.Missing? {
        return Requeue, asks;
      }
      if reply.Failing? {
        return Failure, asks;
      }
      return if from.entry in reply.data then Value(reply.data[from.entry]) else Failure, asks;
    }

    /**
     * Reconcile after the object has been read: it leaves in memory what it writes, and says whether it writes, which
     * secrets it asks for and which connection it tests.
     */
    method Reconcile(t: Told) returns (writes: bool, result: Result, asks: seq<Key>, test: Option<Test>)
      modifies this, book
      ensures writes == Write(old(View()), t).Some?
      ensures View() == if writes then Write(old(View()), t).value else old(View())
      ensures result == Done <==> Serves(old(View()), t)
      ensures result == Again <==> ComesAgain(old(View()), t)
      ensures forall i | 0 <= i < |asks| :: AskedByCluster(asks[i], old(View()))
      ensures NeedsSecret(old(spec).host) ==> asks != [] && AskedFor(asks[0], old(spec).host, old(key).namespace)
      ensures test.Some? ==> Resolve(old(spec).host, t.host) == Value(test.value.host)
                             && Resolve(old(spec).user, t.user) == Value(test.value.user)
                             && Resolve(old(spec).password, t.password) == Value(test.value.password)
                             && (old(spec).port != 0 ==> test.value.port == old(spec).port)
                             && (old(spec).port == 0 ==> test.value.port == 5432)
      ensures test.Some? <==> writes && !CutShort(old(View()), t)
    {
      hide Write, Resolve, AskedFor, NeedsSecret;
      WriteNeedsAll(View(), t);
      asks, test := [], None;
      var host, askedHost := ResolveStringOrSecret(spec.host, t.host);
      asks := askedHost;
      if !host.Value? {
        return false, if host.Requeue? then Again else Broken, asks, None;
      }
      var user, askedUser := ResolveStringOrSecret(spec.user, t.user);
      asks := asks + askedUser;
      if !user.Value? {
        return false, if user.Requeue? then Again else Broken, asks, None;
      }
      var password, askedPassword := ResolveStringOrSecret(spec.password, t.password);
      asks := asks + askedPassword;
      if !password.Value? {
        return false, if password.Requeue? then Again else Broken, asks, None;
      }
      writes := true;
      result, test := Validate(host.text, user.text, password.text, t);
    }

    /** The rest of a Reconcile whose credentials have been resolved. */
    method Validate(host: string, user: string, password: string, t: Told) returns (result: Result, test: Option<Test>)
      requires Resolve(spec.host, t.host) == Value(host) && Resolve(spec.user, t.user) == Value(user)
      requires Resolve(spec.password, t.password) == Value(password)
      modifies this, book
      ensures Some(View()) == Write(old(View()), t)
      ensures result == if CutShort(old(View()), t) then Broken else if t.connected then Done else Again
      ensures if CutShort(old(View()), t) then test == None
              else test.Some? && test.value.host == host && test.value.user == user && test.value.password == password
                   && (old(spec).port != 0 ==> test.value.port == old(spec).port)
                   && (old(spec).port == 0 ==> test.value.port == 5432)
    {
      hide Upsert, ClusterPhase, Finished, Resolve;
      var port := if spec.port == 0 then 5432 else spec.port;
      if host == "" || user == "" || password == "" {
        var message := if host == "" then "host is required"
                       else if user == "" then "user is required" else "password is required";
        SetCondition("ConfigurationValid", false, message, t.now);
        UpdatePhase();
        return Broken, None;
      }
      test := Some(Test(host, port, user, password));
      SetCondition("ConfigurationValid", true, "valid", t.now);
      SetCondition("ConnectionReady", t.connected, "connection checked", t.now);
      UpdateStatus(host, port, user, t.now);
      result := if t.connected then Done else Again;
    }
  }

  lemma WriteNeedsAll(c: Cluster, t: Told)
    ensures Write(c, t).Some? <==>
            Resolve(c.spec.host, t.host).Value? && Resolve(c.spec.user, t.user).Value?
            && Resolve(c.spec.password, t.password).Value?
  {
    hide Resolve, Finished, Invalid;
  }

  /** A connection that is tested. */
  datatype Test = Test(host: string, port: int, user: string, password: string)

  /** The secret that a source names, in its own namespace or else in the given one. */
  predicate AskedFor(q: Key, source: Option<Source>, namespace: string) {
    && NeedsSecret(source) && q.name == source.value.from.value.name
    && (source.value.from.value.namespace != "" ==> q.namespace == source.value.from.value.namespace)
    && (source.value.from.value.namespace == "" ==> q.namespace == namespace)
  }

  predicate AskedByCluster(q: Key, c: Cluster) {
    AskedFor(q, c.spec.host, c.key.namespace) || AskedFor(q, c.spec.user, c.key.namespace)
    || AskedFor(q, c.spec.password, c.key.namespace)
  }

  /** A needed secret is missing, with everything before it resolved; or all is resolved and the test failed. */
  predicate ComesAgain(c: Cluster, t: Told) {
    var (host, user, password) :=
      (Resolve(c.spec.host, t.host), Resolve(c.spec.user, t.user), Resolve(c.spec.password, t.password));
    || host.Requeue?
    || (host.Value? && user.Requeue?)
    || (host.Value? && user.Value? && password.Requeue?)
    || (host.Value? && user.Value? && password.Value? && !CutShort(c, t) && !t.connected)
  }
}
