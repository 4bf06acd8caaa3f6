/** A PostgresDatabase as a pass holds it in memory: an object whose status is changed in place. */
module DatabaseObject {
  import opened Basics
  import opened Conditions
  import opened Names
  import opened ConnectionUrl
  import opened Text
  import opened Model
  import opened Machine

  /** The object with another list of conditions. */
  function WithConditions(r: Resource, cs: seq<Condition>): Resource { r.(status := r.status.(conditions := cs)) }

  class PostgresDatabase {
    const book: ConditionBook
    var key: Key
    var uid: nat
    var version: nat
    var deleting: bool
    var finalizers: seq<string>
    var spec: Spec
    var observedGeneration: nat
    var phase: Phase
    var connection: Option<Connection>

    constructor (key: Key)
      ensures View() == NO_RESOURCE.(key := key) && fresh(book)
    {
      book := new ConditionBook(0, []);
      this.key, uid, version, deleting, finalizers := key, 0, 0, false, [];
      spec, observedGeneration, phase, connection := NO_RESOURCE.spec, 0, Unset, None;
    }

    function View(): Resource
      reads this, book
    {
      Resource(key, uid, version, book.generation, deleting, finalizers, spec,
               Status(observedGeneration, book.conditions, phase, connection))
    }

    /** The client decodes a stored object into this one. */
    method Load(r: Resource)
      modifies this, book
      ensures View() == r
    {
      key, uid, version, deleting, finalizers, spec := r.key, r.uid, r.version, r.deleting, r.finalizers, r.spec;
      observedGeneration, phase, connection := r.status.observedGeneration, r.status.phase, r.status.connection;
      book.generation, book.conditions := r.generation, r.status.conditions;
    }

    method SetCondition(kind: string, ok: bool, message: string, now: int)
      modifies book
      ensures View() == WithConditions(old(View()), Upsert(old(View()).status.conditions,
                                                           Fresh(kind, ok, message, now, old(View()).generation)))
    {
      book.SetCondition(kind, ok, message, now);
    }

    method UpdatePhase()
      modifies this`phase
      ensures View() == old(View()).(status := old(View()).status.(
                          phase := DatabasePhase(old(View()).status.conditions, old(View()).deleting)))
      ensures PhaseMeans(phase, book.conditions, deleting, "DatabaseReady")
    {
      DatabasePhaseMeans(book.conditions, deleting);
      if deleting {
        phase := Deleting;
        return;
      }
      var ready := book.GetCondition("Ready");
      if ready.None? {
        phase := Pending;
        return;
      }
      match ready.value.status {
        case True => phase := Ready;
        case False =>
          var database := book.GetCondition("DatabaseReady");
          phase := if database.Some? && database.value.status == False then Failed else Creating;
        case Unknown => phase := Pending;
      }
    }

    /** The in-memory part of updateStatus: generation, overall Ready, phase, connection. */
    method FinishStatus(ghost p: Pass, host: string, port: string, now: int)
      requires p.obj == View() && p.host == host && PrintInt(p.port) == port
      modifies this, book
      ensures View() == Finish(p, now).obj
    {
      hide Upsert, IsTrue, DatabasePhase, Url, ScanInt, PrintInt, UserNameOf, DatabaseNameOf;
      observedGeneration := book.generation;
      ghost var p1 := p.(obj := p.obj.(status := p.obj.status.(observedGeneration := p.obj.generation)));
      assert View() == p1.obj;
      var ready := AllTrue();
      assert ready == AllReady(p);
      SetCondition("Ready", ready, if ready then "ready" else "not ready", now);
      UpdatePhase();
      ghost var p2 :=
        Machine.UpdatePhase(Machine.SetCondition(p1, "Ready", ready, if ready then "ready" else "not ready", now));
      assert View() == p2.obj;
      if ready {
        SetConnection(host, port);
        assert connection == Some(ConnectionOf(p2));
      }
    }

    method AllTrue() returns (ready: bool)
      ensures forall p: Pass | p.obj == View() :: ready == AllReady(p)
    {
      var cluster := book.GetConditionStatus("ClusterReady");
      var secret := book.GetConditionStatus("SecretReady");
      var connected := book.GetConditionStatus("ConnectionReady");
      var database := book.GetConditionStatus("DatabaseReady");
      ready := cluster && secret && connected && database;
    }

    method SetConnection(host: string, port: string)
      modifies this`connection
      ensures forall p: Pass | p.obj == old(View()) && p.host == host && PrintInt(p.port) == port ::
                connection == Some(ConnectionOf(p))
    {
      var portInt := 5432;
      if port != "" {
        var scanned := ScanInt(port);
        portInt := if scanned.Some? then scanned.value else 5432;
      }
      var (d, u) := (DatabaseNameOf(View()), UserNameOf(View()));
      connection := Some(Connection(host, portInt, d, u, Url(u, None, host, port, d)));
    }
  }
}
