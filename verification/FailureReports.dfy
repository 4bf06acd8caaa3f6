/** A pass that gives up with a status write names the step that failed. */
module FailureReports {
  import opened Conditions
  import opened ConnectionUrl
  import opened Model
  import opened Machine
  import opened MachineFacts
  import opened Frames
  import opened System
  import opened Invariants
  import opened StatusSafety

  predicate IsFalse(r: Resource, kind: string) {
    Lookup(r.status.conditions, kind).Some? && Lookup(r.status.conditions, kind).value.status == False
  }

  /** The condition that an answer is held against: the subsystem that was asked, or what its answer was to bring. */
  function Blamed(o: Observation, deleting: bool): string {
    match o.call
    case GetCluster(_) =>
      if o.response.FoundCluster? && (deleting
          || ClusterIsReady(o.response.cluster)) then "SecretReady" else "ClusterReady"
    case GetSecret(_) => "SecretReady"
    case ReadRandom => "SecretReady"
    case SetOwnerReference => "SecretReady"
    case CreateSecret(_, _) => "SecretReady"
    case OpenServer(_, _, _, _) => "ConnectionReady"
    case PingServer => "ConnectionReady"
    case _ => "DatabaseReady"
  }

  /** A failure about to be written is the one last seen. */
  predicate Reports(p: Pass) {
    p.pc.WriteFailure? ==> p.trace != [] && IsFalse(p.obj, Blamed(p.trace[|p.trace| - 1], p.obj.deleting))
  }

  lemma SetFails(p: Pass, kind: string, message: string, now: int, other: string)
    ensures IsFalse(SetCondition(p, kind, false, message, now).obj, kind)
    ensures other != kind && IsFalse(p.obj, other) ==> IsFalse(SetCondition(p, kind, false, message, now).obj, other)
  {
    var c := Fresh(kind, false, message, now, p.obj.generation);
    UpsertLookup(p.obj.status.conditions, c, kind);
    UpsertLookup(p.obj.status.conditions, c, other);
  }

  lemma FailFails(p: Pass, kind: string, message: string, now: int, ending: Ending, other: string)
    ensures IsFalse(FailWith(p, kind, message, now, ending).obj, kind)
    ensures other != kind && IsFalse(p.obj, other) ==> IsFalse(FailWith(p, kind, message, now, ending).obj, other)
  {
    hide SetCondition, DatabasePhase;
    SetFails(p, kind, message, now, other);
  }

  lemma {:induction false} ResolveFails(p: Pass, f: Field, now: int)
    ensures Resolve(p, f, now).pc.WriteFailure? ==> IsFalse(Resolve(p, f, now).obj, "SecretReady")
    decreases FieldRank(f), 1
  {
    hide IsFalse;
    match SourceOf(p.cluster, f)
    case None =>
    case Some(source) =>
      if source.value != "" {
        AcceptFails(p, f, source.value, now);
      }
  }

  lemma {:induction false} AcceptFails(p: Pass, f: Field, value: string, now: int)
    ensures Accept(p, f, value, now).pc.WriteFailure? ==> IsFalse(Accept(p, f, value, now).obj, "SecretReady")
    decreases FieldRank(f), 0
  {
    hide IsFalse, FailWith;
    var q := SetField(p, f, value);
    match f
    case Host => ResolveFails(q, User, now);
    case User => ResolveFails(q, Password, now);
    case Password =>
      FailFails(q, "SecretReady", "host is not configured", now, Errored, "");
      FailFails(q, "SecretReady", "user is not configured", now, Errored, "");
      FailFails(q, "SecretReady", "password is not configured", now, Errored, "");
  }

  // ---------------------------------------------------------------- one lemma per family

  lemma ClusterFails(p: Pass, r: Response, b: Beat)
    requires p.pc.ReadCluster?
    ensures var q := ResumeFront(p, r, b);
            q.pc.WriteFailure? ==> IsFalse(q.obj, Blamed(Observation(NextCall(p), r), p.obj.deleting))
  {
    NextIsCluster(p);
    hide FailWith, Resolve, IsFalse, ClusterIsReady, DatabasePhase;
    if r.FoundCluster? {
      var q := p.(cluster := r.cluster);
      ResolveFails(q, Host, b.now);
      ResolveFails(SetCondition(q, "ClusterReady", ClusterIsReady(r.cluster), "cluster readiness", b.now), Host, b.now);
      SetFails(q, "ClusterReady", "cluster readiness", b.now, "");
      PhaseAside(SetCondition(q, "ClusterReady", ClusterIsReady(r.cluster), "cluster readiness", b.now),
                 "ClusterReady");
    } else {
      FailFails(p, "ClusterReady", "cluster not read", b.now, if r.NotFound? then Requeued else Errored, "");
    }
  }

  lemma PhaseAside(p: Pass, kind: string)
    ensures IsFalse(UpdatePhase(p).obj, kind) == IsFalse(p.obj, kind)
  {
  }

  lemma CredentialFails(p: Pass, r: Response, b: Beat)
    requires p.pc.ReadCredential?
    ensures var q := ResumeFront(p, r, b);
            q.pc.WriteFailure? ==>
              IsFalse(q.obj, "SecretReady") && Blamed(Observation(NextCall(p), r), p.obj.deleting) == "SecretReady"
  {
    hide FailWith, Accept, Resolve, IsFalse;
    var source := SourceOf(p.cluster, p.pc.field);
    if source.Some? && source.value.from.Some? && r.FoundSecret? && source.value.from.value.entry in r.data {
      AcceptFails(p, p.pc.field, r.data[source.value.from.value.entry], b.now);
    }
    FailFails(p, "SecretReady", "secret not found", b.now, Requeued, "");
  }

  lemma OpenFails(p: Pass, r: Response, b: Beat)
    requires p.pc.OpenConnection? || p.pc.PingConnection?
    ensures var q := ResumeSecret(p, r, b);
            q.pc.WriteFailure? ==> IsFalse(q.obj, Blamed(Observation(NextCall(p), r), p.obj.deleting))
  {
    hide FailWith, IsFalse, SetCondition;
    FailFails(p, "ConnectionReady", "open failed", b.now, Errored, "");
    FailFails(p, "ConnectionReady", "ping failed", b.now, Errored, "");
  }

  lemma SecretFails(p: Pass, r: Response, b: Beat)
    requires Middle(p.pc) && !p.pc.OpenConnection? && !p.pc.PingConnection?
    ensures var q := ResumeSecret(p, r, b);
            q.pc.WriteFailure? ==> IsFalse(q.obj, Blamed(Observation(NextCall(p), r), p.obj.deleting))
  {
    hide FailWith, IsFalse, SetCondition, SecretData;
    FailFails(p, "SecretReady", "connection secret not read", b.now, Errored, "");
    FailFails(p, "SecretReady", "no random password", b.now, Errored, "");
    FailFails(p, "SecretReady", "controller reference not set", b.now, Errored, "");
    FailFails(p, "SecretReady", "connection secret not created", b.now, Errored, "");
  }

  lemma SqlFails(p: Pass, r: Response, b: Beat)
    requires InSql(p.pc)
    ensures ResumeSql(p, r, b).pc.WriteFailure? ==> IsFalse(ResumeSql(p, r, b).obj, "DatabaseReady")
  {
    hide FailWith, IsFalse;
    FailFails(p, "DatabaseReady", "statement failed", b.now, Errored, "");
    FailFails(p.(userExists := false), "DatabaseReady", "statement failed", b.now, Errored, "");
  }

  lemma RepairFails(p: Pass, r: Response, b: Beat)
    requires InRepair(p.pc)
    ensures ResumeRepair(p, r, b).pc.WriteFailure? ==> IsFalse(ResumeRepair(p, r, b).obj, "DatabaseReady")
  {
    hide IsFalse, SetCondition, DatabasePhase, Finish, FailWith;
    SetFails(p, "DatabaseReady", "ownership repair failed", b.now, "");
    FailFails(SetCondition(p, "DatabaseReady", false, "ownership repair failed", b.now),
              "Ready", "ownership repair failed; will retry", b.now, Errored, "DatabaseReady");
    FinishGoesOn(SetCondition(p, "DatabaseReady", true, "created", b.now), b.now);
    var q := p.(todo := if p.todo != [] then p.todo[1..] else []);
    FinishGoesOn(SetCondition(q, "DatabaseReady", true, "created", b.now), b.now);
  }

  lemma FinishGoesOn(p: Pass, now: int)
    ensures Finish(p, now).pc.WriteStatus?
  {
  }

  lemma DatabaseIsBlamed(p: Pass, r: Response)
    requires InSql(p.pc) || InRepair(p.pc)
    ensures Blamed(Observation(NextCall(p), r), p.obj.deleting) == "DatabaseReady"
  {
  }

  lemma OthersWriteNone(p: Pass, r: Response, b: Beat)
    requires p.pc.ReadResource? || p.pc.AddFinalizer?
    ensures !ResumeFront(p, r, b).pc.WriteFailure?
  {
    hide Resolve, Accept;
  }

  lemma EndWritesNone(p: Pass, r: Response, b: Beat)
    requires p.pc.WriteStatus? || p.pc.WriteFailure? || Dropping(p.pc) || p.pc.Refetch? || p.pc.RemoveFinalizer?
             || p.pc.Stopped?
    ensures !ResumeEnd(p, r, b).pc.WriteFailure?
  {
  }

  lemma StaysUnmarked(p: Pass, r: Response, b: Beat)
    requires !p.pc.ReadResource? && !p.pc.AddFinalizer?
    ensures Resume(p, r, b).obj.deleting == p.obj.deleting
  {
    ResumeCases(p, r, b);
    hide Resume, ResumeFront, ResumeSecret, ResumeSql, ResumeRepair, StatusStep;
    if p.pc.ReadCluster? {
      ReadClusterFacts(p, r, b);
    } else if p.pc.ReadCredential? {
      ReadCredentialFacts(p, r, b);
    } else if Middle(p.pc) {
      MiddleFacts(p, r, b);
    } else if InSql(p.pc) {
      SqlFacts(p, r, b);
    } else if InRepair(p.pc) {
      RepairFacts(p, r, b);
    }
  }

  lemma ResumeReports(p: Pass, r: Response, b: Beat)
    ensures var q := Resume(p, r, b);
            q.pc.WriteFailure? ==> IsFalse(q.obj, Blamed(Observation(NextCall(p), r), q.obj.deleting))
  {
    ResumeCases(p, r, b);
    hide Resume, ResumeFront, ResumeSecret, ResumeSql, ResumeRepair, ResumeEnd, NextCall, IsFalse, Blamed;
    if p.pc.ReadResource? || p.pc.AddFinalizer? {
      OthersWriteNone(p, r, b);
    } else {
      StaysUnmarked(p, r, b);
      if p.pc.ReadCluster? {
        ClusterFails(p, r, b);
      } else if p.pc.ReadCredential? {
        CredentialFails(p, r, b);
      } else if p.pc.OpenConnection? || p.pc.PingConnection? {
        OpenFails(p, r, b);
      } else if Middle(p.pc) {
        SecretFails(p, r, b);
      } else if InSql(p.pc) {
        SqlFails(p, r, b);
        DatabaseIsBlamed(p, r);
      } else if InRepair(p.pc) {
        RepairFails(p, r, b);
        DatabaseIsBlamed(p, r);
      } else {
        EndWritesNone(p, r, b);
      }
    }
  }

  // ---------------------------------------------------------------- whole runs

  lemma StepReports(w: World, p: Pass, b: Beat)
    ensures Reports(Step(w, p, b).1)
  {
    var r := Api(w, p.key, NextCall(p), b).1;
    hide Api, NextCall, Resume, IsFalse, Blamed;
    ResumeReports(p, r, b);
    var o := Observation(NextCall(p), r);
    assert (p.trace + [o])[|p.trace + [o]| - 1] == o;
    TraceAside(Resume(p, r, b), p.trace + [o]);
  }

  lemma TraceAside(p: Pass, trace: seq<Observation>)
    ensures forall kind: string :: IsFalse(p.(trace := trace).obj, kind) == IsFalse(p.obj, kind)
  {
  }

  lemma {:induction false} RunReports(s: Sys, events: seq<Event>)
    requires forall k | k in s.passes :: Reports(s.passes[k])
    ensures forall k | k in Run(s, events).passes :: Reports(Run(s, events).passes[k])
    decreases |events|
  {
    hide Reports, Step, MoveWorld;
    if events != [] {
      var e := events[0];
      if e.Turn? && Running(s, e.key) {
        StepReports(s.w, s.passes[e.key], e.beat);
      } else if e.Start? {
        NothingToReport(e.key);
      }
      RunReports(Next(s, e), events[1..]);
    }
  }

  lemma NothingToReport(k: Key)
    ensures Reports(InitialPass(k))
  {
  }

  /**
   * Over every run: a status written by a pass that gives up has False the very condition that its last observation is
   * held against: the cluster, the secret, the connection or the database.
   */
  lemma FailuresAreReported(s: Sys, events: seq<Event>, e: Event, k: Key)
    requires Initial(s)
    requires var t := Run(s, events);
             k in t.w.resources && k in Next(t, e).w.resources
             && t.w.resources[k].uid == Next(t, e).w.resources[k].uid
    ensures var t := Run(s, events);
            var (before, after) := (t.w.resources[k], Next(t, e).w.resources[k]);
            after.status != before.status ==>
              && k in t.passes
              && var p := t.passes[k];
                 p.pc.WriteFailure? ==>
                   p.trace != [] && IsFalse(after, Blamed(p.trace[|p.trace| - 1], p.obj.deleting))
  {
    var t := Run(s, events);
    InitialInv(s);
    RunKeeps(s, events);
    RunReports(s, events);
    NextStatus(t, e, k);
    hide Next, Run, PassOk, StoreOk, Blamed;
  }
}
