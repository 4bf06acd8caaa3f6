/** How a pass ends, written out: when it asks to be run again, when it has nothing to do, when it has released. */
module EndingSafety {
  import opened Basics
  import opened Conditions
  import opened Model
  import opened Machine
  import opened MachineFacts
  import opened Frames
  import opened System
  import opened Invariants

  /** The cluster or a secret is not there, or the cluster is not Ready. */
  predicate NotThereYet(o: Observation) {
    || (o.call.GetCluster? &&
        (o.response.NotFound? || (o.response.FoundCluster? && !ClusterIsReady(o.response.cluster))))
    || (o.call.GetSecret? && o.response.NotFound?)
  }

  function Last(trace: seq<Observation>): Observation
    requires trace != []
  {
    trace[|trace| - 1]
  }

  /** A conflict on the removal of the finalizer; or a status write after something was not there yet. */
  predicate AsksAgain(p: Pass) {
    && p.trace != []
    && (if p.obj.deleting then Last(p.trace).call.Update? && Last(p.trace).response.Conflict?
        else |p.trace| >= 2 && Last(p.trace).call.UpdateStatus? && NotThereYet(p.trace[|p.trace| - 2]))
  }

  /** The finalizer was removed by an update that went through. */
  predicate HasReleased(p: Pass) {
    p.trace != [] && p.obj.deleting && Last(p.trace).call.Update? && Last(p.trace).response.Updated?
  }

  /** The resource is not there; or it is on its way out without this finalizer. */
  predicate HadNothingToDo(p: Pass) {
    && p.trace != [] && Last(p.trace).call.GetResource?
    && (|| Last(p.trace).response.NotFound?
        || (&& Last(p.trace).response.Found?
            && "postgresdatabase.finalizers.homelab.mortenolsen.pro" !in Last(p.trace).response.resource.finalizers
            && (|p.trace| > 1 || Last(p.trace).response.resource.deleting)))
  }

  /** The ownership repair was over after n calls: by its last commit, or by a listing that ended with no row. */
  predicate RepairOver(trace: seq<Observation>, n: nat)
    requires n <= |trace|
  {
    && n > 0
    && (|| trace[n - 1] == Observation(Commit, Done)
        || (n > 1 && trace[n - 1] == Observation(CloseRows, Done) && trace[n - 2].response.EndOfRows?))
  }

  /** A status write directly after the repair was over went through. */
  predicate HasPublished(p: Pass) {
    && p.trace != [] && !p.obj.deleting && Last(p.trace).call.UpdateStatus? && Last(p.trace).response.Updated?
    && RepairOver(p.trace, |p.trace| - 1)
  }

  predicate EndingOk(p: Pass) {
    && (p.trace == [] <==> p.pc.ReadResource?)
    && match p.pc
       case WriteFailure(ending) =>
         && p.trace != [] && (ending == Requeued || ending == Errored) && !RepairOver(p.trace, |p.trace|)
         && (!p.obj.deleting ==> (ending == Requeued <==> NotThereYet(Last(p.trace))))
       case WriteStatus => p.trace != [] && !NotThereYet(Last(p.trace)) && RepairOver(p.trace, |p.trace|)
       case CloseListing(complete) => p.trace != [] && (complete <==> Last(p.trace).response.EndOfRows?)
       case Stopped(ending) =>
         && (ending == Requeued <==> AsksAgain(p)) && (ending == Released <==> HasReleased(p))
         && (ending == Ignored <==> HadNothingToDo(p)) && (ending == Published <==> HasPublished(p))
       case _ => true
  }

  // ---------------------------------------------------------------- one call

  lemma {:induction false} ResolveErrs(p: Pass, f: Field, now: int)
    ensures var q := Resolve(p, f, now); q.pc.WriteFailure? ==> q.pc == WriteFailure(Errored)
    decreases FieldRank(f), 1
  {
    match SourceOf(p.cluster, f)
    case None =>
    case Some(source) =>
      if source.value != "" {
        AcceptErrs(p, f, source.value, now);
      }
  }

  lemma {:induction false} AcceptErrs(p: Pass, f: Field, value: string, now: int)
    ensures var q := Accept(p, f, value, now); q.pc.WriteFailure? ==> q.pc == WriteFailure(Errored)
    decreases FieldRank(f), 0
  {
    hide SetCondition, UpdatePhase;
    var q := SetField(p, f, value);
    match f
    case Host => ResolveErrs(q, User, now);
    case User => ResolveErrs(q, Password, now);
    case Password =>
  }

  /** What an answer about the cluster or a credential can end in. */
  predicate FrontEnds(p: Pass, q: Pass, o: Observation) {
    && q.obj.deleting == p.obj.deleting && !q.pc.WriteStatus? && !q.pc.ReadResource? && !q.pc.CloseListing?
    && (q.pc.WriteFailure? ==>
          && (q.pc.ending == Requeued || q.pc.ending == Errored)
          && (!p.obj.deleting ==> (q.pc.ending == Requeued <==> NotThereYet(o))))
    && (q.pc.Stopped? ==> q.pc == Stopped(Errored))
  }

  lemma ClusterEnds(p: Pass, r: Response, b: Beat)
    requires p.pc.ReadCluster?
    ensures FrontEnds(p, ResumeFront(p, r, b), Observation(NextCall(p), r))
  {
    assert NextCall(p).GetCluster?;
    hide NextCall, FailWith, Resolve, StatusStep, IsTrue, DatabasePhase, ClusterIsReady;
    ReadClusterFacts(p, r, b);
    if r.FoundCluster? {
      var q := p.(cluster := r.cluster);
      ResolveErrs(q, Host, b.now);
      ResolveErrs(SetCondition(q, "ClusterReady", ClusterIsReady(r.cluster), "cluster readiness", b.now), Host, b.now);
    } else if !p.obj.deleting {
      FailWithFacts(p, "ClusterReady", "cluster not read", b.now, if r.NotFound? then Requeued else Errored);
    }
  }

  lemma CredentialCall(p: Pass, r: Response)
    requires p.pc.ReadCredential?
    ensures var source := SourceOf(p.cluster, p.pc.field);
            NotThereYet(Observation(NextCall(p), r)) <==> source.Some? && source.value.from.Some? && r.NotFound?
  {
    hide CredentialKey;
  }

  lemma CredentialEnds(p: Pass, r: Response, b: Beat)
    requires p.pc.ReadCredential?
    ensures FrontEnds(p, ResumeFront(p, r, b), Observation(NextCall(p), r))
  {
    CredentialCall(p, r);
    hide NextCall, FailWith, Accept, StatusStep, IsTrue, NotThereYet, SourceOf;
    ReadCredentialFacts(p, r, b);
    var source := SourceOf(p.cluster, p.pc.field);
    if source.Some? && source.value.from.Some? {
      if r.NotFound? {
        FailWithFacts(p, "SecretReady", "secret not found", b.now, Requeued);
      } else if r.FoundSecret? && source.value.from.value.entry in r.data {
        AcceptErrs(p, p.pc.field, r.data[source.value.from.value.entry], b.now);
      }
    }
  }

  /** Later calls are never about something that may still come. */
  lemma LaterCalls(p: Pass, r: Response)
    requires Middle(p.pc) || InSql(p.pc) || InRepair(p.pc)
    ensures NotThereYet(Observation(NextCall(p), r)) ==> p.pc.ReadSecret? && r.NotFound?
    ensures !NextCall(p).UpdateStatus? && (NextCall(p).Commit? <==> p.pc.CommitRepair?)
    ensures NextCall(p).CloseRows? <==> p.pc.CloseListing?
  {
  }

  lemma MiddleEnds(p: Pass, r: Response, b: Beat)
    requires Middle(p.pc)
    ensures var q := ResumeSecret(p, r, b);
            && (q.pc.WriteFailure? ==> q.pc == WriteFailure(Errored) && !(p.pc.ReadSecret? && r.NotFound?))
            && !q.pc.WriteStatus? && !q.pc.Stopped? && !q.pc.ReadResource? && !q.pc.CloseListing?
  {
    hide SetCondition, UpdatePhase;
  }

  /** The repair is over exactly where it leads to the final status. */
  lemma RepairEnds(p: Pass, r: Response, b: Beat)
    requires InRepair(p.pc)
    ensures var q := ResumeRepair(p, r, b);
            && (q.pc.WriteStatus? ==> r == Done && (p.pc.CommitRepair? || p.pc == CloseListing(true)))
            && (q.pc.WriteFailure? ==> !((p.pc.CommitRepair? || p.pc == CloseListing(true)) && r.Done?))
            && (q.pc.CloseListing? ==> q.pc.complete == r.EndOfRows?)
            && (InRepair(q.pc) || q.pc.WriteStatus? || q.pc == WriteFailure(Errored))
  {
    hide ResumeRepair, StatusStep, SameObject, Described, IsTrue;
    RepairFacts(p, r, b);
    RepairGoesOn(p, r, b);
  }

  lemma RepairGoesOn(p: Pass, r: Response, b: Beat)
    requires InRepair(p.pc)
    ensures var q := ResumeRepair(p, r, b);
            && (q.pc.WriteStatus? ==> r == Done && (p.pc.CommitRepair? || p.pc == CloseListing(true)))
            && (q.pc.WriteFailure? ==> !((p.pc.CommitRepair? || p.pc == CloseListing(true)) && r.Done?))
            && (q.pc.CloseListing? ==> q.pc.complete == r.EndOfRows?)
  {
    hide SetCondition, UpdatePhase, AllReady, ConnectionOf;
  }

  lemma EndCalls(p: Pass)
    ensures p.pc.WriteStatus? || p.pc.WriteFailure? ==> NextCall(p).UpdateStatus?
    ensures p.pc.RemoveFinalizer? || p.pc.AddFinalizer? ==> NextCall(p).Update?
    ensures p.pc.Refetch? || p.pc.ReadResource? ==> NextCall(p).GetResource?
  {
  }

  lemma LastIs(p: Pass, q: Pass, o: Observation)
    requires q.trace == p.trace + [o]
    ensures q.trace != [] && Last(q.trace) == o
    ensures p.trace != [] ==> |q.trace| >= 2 && q.trace[|q.trace| - 2] == Last(p.trace)
    ensures p.trace == [] ==> |q.trace| == 1
    ensures RepairOver(q.trace, |p.trace|) <==> RepairOver(p.trace, |p.trace|)
    ensures RepairOver(q.trace, |q.trace|) <==>
            o == Observation(Commit, Done) ||
            (o == Observation(CloseRows, Done) && p.trace != [] && Last(p.trace).response.EndOfRows?)
  {
  }

  lemma ReadEnds(p: Pass, r: Response, b: Beat)
    requires EndingOk(p) && p.pc.ReadResource?
    ensures EndingOk(After(p, r, b))
  {
    var q := After(p, r, b);
    EndCalls(p);
    LastIs(p, q, Observation(NextCall(p), r));
    hide NextCall;
  }

  lemma FrontEndsOk(p: Pass, r: Response, b: Beat)
    requires EndingOk(p) && (p.pc.ReadCluster? || p.pc.ReadCredential?)
    ensures EndingOk(After(p, r, b))
  {
    var o := Observation(NextCall(p), r);
    LastIs(p, After(p, r, b), o);
    NoEndCall(p);
    ResumeCases(p, r, b);
    hide Resume, ResumeFront, NextCall, NotThereYet;
    if p.pc.ReadCluster? {
      ClusterEnds(p, r, b);
    } else {
      CredentialEnds(p, r, b);
    }
  }

  lemma NoEndCall(p: Pass)
    requires p.pc.ReadCluster? || p.pc.ReadCredential?
    ensures !NextCall(p).Update? && !NextCall(p).UpdateStatus? && !NextCall(p).GetResource?
    ensures !NextCall(p).Commit? && !NextCall(p).CloseRows?
  {
  }

  lemma FinalizerEnds(p: Pass, r: Response, b: Beat)
    requires EndingOk(p) && p.pc.AddFinalizer? && !p.obj.deleting
    ensures EndingOk(After(p, r, b))
  {
    EndCalls(p);
    LastIs(p, After(p, r, b), Observation(NextCall(p), r));
    hide NextCall, NotThereYet;
  }

  lemma StatementEnds(p: Pass, r: Response, b: Beat)
    requires EndingOk(p) && (Middle(p.pc) || InSql(p.pc))
    ensures EndingOk(After(p, r, b))
  {
    LastIs(p, After(p, r, b), Observation(NextCall(p), r));
    LaterCalls(p, r);
    ResumeCases(p, r, b);
    hide Resume, ResumeSecret, ResumeSql, NextCall, NotThereYet, RepairOver, StatusStep, SameObject;
    if Middle(p.pc) {
      MiddleEnds(p, r, b);
    } else {
      SqlFacts(p, r, b);
    }
  }

  lemma RepairEndsOk(p: Pass, r: Response, b: Beat)
    requires EndingOk(p) && InRepair(p.pc)
    ensures EndingOk(After(p, r, b))
  {
    LastIs(p, After(p, r, b), Observation(NextCall(p), r));
    LaterCalls(p, r);
    ResumeCases(p, r, b);
    hide Resume, ResumeRepair, NextCall, NotThereYet, RepairOver;
    hide AsksAgain, HasReleased, HadNothingToDo, HasPublished;
    RepairEnds(p, r, b);
  }

  lemma WriteGoes(p: Pass, r: Response, b: Beat)
    requires p.pc.WriteStatus? || p.pc.WriteFailure?
    ensures var q := After(p, r, b);
            && q.obj == p.obj && q.trace == p.trace + [Observation(NextCall(p), r)] && NextCall(p).UpdateStatus?
            && (p.pc.WriteStatus? ==> q.pc == Stopped(if r.Updated? then Published else Errored))
            && (p.pc.WriteFailure? ==> q.pc == if p.obj.deleting then Refetch else Stopped(p.pc.ending))
  {
  }

  /** A pass that ends with its write of a status. */
  lemma WriteEnds(p: Pass, r: Response, b: Beat)
    requires EndingOk(p) && (p.pc.WriteFailure? || (p.pc.WriteStatus? && !p.obj.deleting))
    ensures EndingOk(After(p, r, b))
  {
    var q := After(p, r, b);
    WriteGoes(p, r, b);
    LastIs(p, q, Observation(NextCall(p), r));
    hide NextCall, After, NotThereYet, RepairOver, AsksAgain, HasReleased, HadNothingToDo, HasPublished;
    if q.pc.Stopped? {
      EndsWritten(p, q);
      EndsAsTold(p, q);
    }
  }

  lemma EndsWritten(p: Pass, q: Pass)
    requires q.obj == p.obj && q.trace != [] && Last(q.trace).call.UpdateStatus?
    ensures !HadNothingToDo(q) && !HasReleased(q)
  {
  }

  lemma EndsAsTold(p: Pass, q: Pass)
    requires EndingOk(p) && q.obj == p.obj && !p.obj.deleting && (p.pc.WriteStatus? || p.pc.WriteFailure?)
    requires |q.trace| == |p.trace| + 1 && q.trace[|p.trace| - 1] == Last(p.trace) && Last(q.trace).call.UpdateStatus?
    requires RepairOver(q.trace, |p.trace|) <==> RepairOver(p.trace, |p.trace|)
    ensures AsksAgain(q) <==> p.pc == WriteFailure(Requeued)
    ensures HasPublished(q) <==> p.pc.WriteStatus? && Last(q.trace).response.Updated?
  {
    hide NotThereYet, RepairOver, HasReleased, HadNothingToDo;
  }

  lemma LateEnds(p: Pass, r: Response, b: Beat)
    requires EndingOk(p) && Control(p) && (p.pc.Refetch? || p.pc.RemoveFinalizer?)
    ensures EndingOk(After(p, r, b))
  {
    EndCalls(p);
    LastIs(p, After(p, r, b), Observation(NextCall(p), r));
    hide NextCall, NotThereYet, Coherent, RepairOver;
  }

  lemma DropEnds(p: Pass, r: Response, b: Beat)
    requires EndingOk(p) && Dropping(p.pc)
    ensures EndingOk(After(p, r, b))
  {
    DropFacts(p, r, b);
    hide NextCall, ResumeEnd;
  }

  lemma StepEnds(w: World, k: Key, p: Pass, b: Beat)
    requires PassOk(w, k, p) && !p.pc.Stopped? && EndingOk(p)
    ensures EndingOk(Step(w, p, b).1)
  {
    var r := Api(w, k, NextCall(p), b).1;
    assert Step(w, p, b).1 == After(p, r, b);
    assert p.pc.AddFinalizer? || p.pc.WriteStatus? ==> !p.obj.deleting;
    hide Step, Api, NextCall, After, EndingOk, Finalized, Synced;
    if p.pc.ReadResource? {
      ReadEnds(p, r, b);
    } else if p.pc.ReadCluster? || p.pc.ReadCredential? {
      FrontEndsOk(p, r, b);
    } else if p.pc.AddFinalizer? {
      FinalizerEnds(p, r, b);
    } else if Middle(p.pc) || InSql(p.pc) {
      StatementEnds(p, r, b);
    } else if InRepair(p.pc) {
      RepairEndsOk(p, r, b);
    } else if Dropping(p.pc) {
      DropEnds(p, r, b);
    } else if p.pc.WriteStatus? || p.pc.WriteFailure? {
      WriteEnds(p, r, b);
    } else {
      LateEnds(p, r, b);
    }
  }

  // ---------------------------------------------------------------- whole runs

  lemma StartsOpen(k: Key)
    ensures EndingOk(InitialPass(k))
  {
  }

  lemma NextEnds(s: Sys, e: Event)
    requires Inv(s) && forall k | k in s.passes :: EndingOk(s.passes[k])
    ensures forall k | k in Next(s, e).passes :: EndingOk(Next(s, e).passes[k])
  {
    hide EndingOk, Step, MoveWorld, StoreOk, PassOk;
    match e {
      case Turn(k, b) =>
        if Running(s, k) {
          assert PassOk(s.w, k, s.passes[k]);
          StepEnds(s.w, k, s.passes[k], b);
        }
      case Start(k) => StartsOpen(k);
      case _ =>
    }
  }

  lemma {:induction false} RunEnds(s: Sys, events: seq<Event>)
    requires Inv(s) && forall k | k in s.passes :: EndingOk(s.passes[k])
    ensures forall k | k in Run(s, events).passes :: EndingOk(Run(s, events).passes[k])
    decreases |events|
  {
    hide EndingOk, Inv, Next;
    if events != [] {
      NextKeeps(s, events[0]);
      NextEnds(s, events[0]);
      RunEnds(Next(s, events[0]), events[1..]);
    }
  }

  /**
   * Over every run, a pass that has ended asks to be run again exactly if the removal of its finalizer met a conflict,
   * or if it wrote a status because the cluster or a credential's secret was not there, or the cluster not Ready; it
   * has released exactly if the update that removes the finalizer went through; it had nothing to do exactly if the
   * resource was not there, or was found without the finalizer on its way out; and it has published exactly if a
   * status write directly after the end of its ownership repair went through. In every other case it reports an error.
   */
  lemma EndingsIff(s: Sys, events: seq<Event>, k: Key)
    requires Initial(s) && k in Run(s, events).passes && Run(s, events).passes[k].pc.Stopped?
    ensures var p := Run(s, events).passes[k];
            && (p.pc.ending == Requeued <==> AsksAgain(p))
            && (p.pc.ending == Released <==> HasReleased(p))
            && (p.pc.ending == Ignored <==> HadNothingToDo(p))
            && (p.pc.ending == Published <==> HasPublished(p))
  {
    InitialInv(s);
    RunKeeps(s, events);
    RunEnds(s, events);
    hide Run, AsksAgain, HasReleased, HadNothingToDo, HasPublished, EndingOk, Inv;
    StoppedWith(Run(s, events).passes[k]);
  }

  lemma StoppedWith(p: Pass)
    requires EndingOk(p) && p.pc.Stopped?
    ensures (p.pc.ending == Requeued <==> AsksAgain(p)) && (p.pc.ending == Released <==> HasReleased(p))
    ensures (p.pc.ending == Ignored <==> HadNothingToDo(p)) && (p.pc.ending == Published <==> HasPublished(p))
  {
    hide AsksAgain, HasReleased, HadNothingToDo, HasPublished;
  }
}
