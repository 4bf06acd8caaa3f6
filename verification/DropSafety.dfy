/** When the Delete policy does what it says: exactly on a server that accepts DROP DATABASE inside a transaction. */
module DropSafety {
  import opened Basics
  import opened Conditions
  import opened Model
  import opened Machine
  import opened MachineFacts
  import opened Frames
  import opened Invariants
  import opened SessionSafety
  import opened DeletionSafety
  import opened RepairSafety
  import opened FaultFree

  /** What a pass that drops can leave of the server. */
  function Dropped(s: Server, r: Resource): Server {
    if s.dropInTransaction
    then s.(roles := s.roles - {UserNameOf(r)}, databases := s.databases - {DatabaseNameOf(r)})
    else s
  }

  predicate SameSpec(p: Pass, r: Resource) { p.obj.key == r.key && p.obj.spec == r.spec }

  predicate SameInputs(w0: World, w: World) { w.clusters == w0.clusters && w.secrets == w0.secrets }

  /** Where a deletion pass without faults stands, and what it has done to the server. */
  predicate DropPath(w0: World, r: Resource, w: World, p: Pass) {
    match p.pc
    case ReadResource => SameInputs(w0, w) && w.server == w0.server && p.key in w.resources && w.resources[p.key] == r
    case ReadCluster => SameInputs(w0, w) && w.server == w0.server && p.obj == r
    case ReadCredential(f) =>
      && SameInputs(w0, w) && w.server == w0.server && SameSpec(p, r)
      && Before(p, f) && FromSecret(p.cluster, f)
      && ClusterKeyOf(r) in w0.clusters && p.cluster == w0.clusters[ClusterKeyOf(r)]
    case OpenForDrop => w.server == w0.server && SameSpec(p, r)
    case BeginDrop => w.server == w0.server && SameSpec(p, r)
    case DropDatabaseStep => w.server == w0.server && SameSpec(p, r)
    case DropRoleStep => w.server == w0.server && SameSpec(p, r) && w0.server.dropInTransaction
    case CommitDrop => w.server == w0.server && SameSpec(p, r) && w0.server.dropInTransaction
    case RollbackDrop => w.server == w0.server && !w0.server.dropInTransaction
    case Refetch => w.server == Dropped(w0.server, r)
    case RemoveFinalizer => w.server == Dropped(w0.server, r)
    case Stopped(_) => w.server == Dropped(w0.server, r)
    case _ => false
  }

  // ---------------------------------------------------------------- one call

  lemma ReadOnPath(w0: World, r: Resource, w: World, p: Pass, b: Beat)
    requires DropPath(w0, r, w, p) && p.pc.ReadResource? && b.luck == Works && r.deleting && HasFinalizer(r)
    ensures var (w', answer) := Api(w, p.key, NextCall(p), b);
            DropPath(w0, r, w', ResumeFront(p, answer, b)) && answer == Found(r)
  {
    hide Dropped;
  }

  lemma ClusterOnPath(w0: World, r: Resource, w: World, p: Pass, b: Beat)
    requires DropPath(w0, r, w, p) && p.pc.ReadCluster? && b.luck == Works
    requires r.deleting && r.spec.policy == "Delete" && CredentialsGiven(w0, r)
    ensures var (w', answer) := Api(w, p.key, NextCall(p), b); DropPath(w0, r, w', ResumeFront(p, answer, b))
  {
    hide Api, NextCall, Dropped, StatusStep, IsTrue, ResumeFront, HasSources, ClusterKeyOf;
    HasAllSources(w0, r);
    var c := w0.clusters[ClusterKeyOf(r)];
    ClusterIsFound(w, p, b);
    ReadClusterFacts(p, FoundCluster(c), b);
    ResolvesFrom(p, c, b);
  }

  lemma ClusterIsFound(w: World, p: Pass, b: Beat)
    requires p.pc.ReadCluster? && ClusterKeyOf(p.obj) in w.clusters && b.luck == Works
    ensures Api(w, p.key, NextCall(p), b) == (w, FoundCluster(w.clusters[ClusterKeyOf(p.obj)]))
  {
  }

  /** A deletion pass resolves whatever cluster it finds, Ready or not. */
  lemma ResolvesFrom(p: Pass, c: Cluster, b: Beat)
    requires p.pc.ReadCluster? && p.obj.deleting && HasSources(c)
    ensures Resolving(p.(cluster := c), ResumeFront(p, FoundCluster(c), b), FieldRank(Host))
  {
    hide Resolve, Resolving, HasSources;
    ResolvesOn(p.(cluster := c), Host, b.now);
  }

  lemma CredentialOnPath(w0: World, r: Resource, w: World, p: Pass, b: Beat)
    requires DropPath(w0, r, w, p) && p.pc.ReadCredential? && b.luck == Works
    requires p.obj.deleting && r.spec.policy == "Delete" && CredentialsGiven(w0, r)
    ensures var (w', answer) := Api(w, p.key, NextCall(p), b); DropPath(w0, r, w', ResumeFront(p, answer, b))
  {
    hide Api, NextCall, Dropped, StatusStep, IsTrue, ResumeFront, HasSources, ClusterKeyOf;
    var answer := Api(w, p.key, NextCall(p), b).1;
    HasAllSources(w0, r);
    GivenStill(w0, r, w, p.cluster, p.pc.field);
    CredentialAnswer(w, r, p.key, p, b);
    ReadCredentialFacts(p, answer, b);
    CredentialGoesOn(p, answer, b);
  }

  lemma GivenStill(w0: World, r: Resource, w: World, c: Cluster, f: Field)
    requires CredentialsGiven(w0, r) && c == w0.clusters[ClusterKeyOf(r)] && SameInputs(w0, w)
    ensures Given(w, r, c, f)
  {
    hide ClusterKeyOf;
  }

  /** The calls of the drop, each with the answer of a server that answers. */
  lemma DropAnswer(w: World, p: Pass, b: Beat)
    requires Dropping(p.pc) && DisciplineOk(SessionOf(w, p.key), p) && b.luck == Works
    ensures var (w', answer) := Api(w, p.key, NextCall(p), b);
            && (answer == Done || (p.pc.DropDatabaseStep? && answer == Error))
            && (p.pc.DropDatabaseStep? ==> (answer == Done <==> w.server.dropInTransaction))
  {
    hide UserNameOf, DatabaseNameOf, ApplyAll;
  }

  lemma DropGoesOn(p: Pass, answer: Response, b: Beat)
    requires Dropping(p.pc) && (answer == Done || (p.pc.DropDatabaseStep? && answer == Error))
    ensures ResumeEnd(p, answer, b) ==
            p.(pc := match p.pc
                     case OpenForDrop => BeginDrop
                     case BeginDrop => DropDatabaseStep
                     case DropDatabaseStep => if answer == Done then DropRoleStep else RollbackDrop
                     case DropRoleStep => CommitDrop
                     case _ => Refetch)
  {
  }

  lemma DropOnPath(w0: World, r: Resource, w: World, p: Pass, b: Beat)
    requires DropPath(w0, r, w, p) && Dropping(p.pc) && DisciplineOk(SessionOf(w, p.key), p) && b.luck == Works
    ensures var (w', answer) := Api(w, p.key, NextCall(p), b); DropPath(w0, r, w', ResumeEnd(p, answer, b))
  {
    var answer := Api(w, p.key, NextCall(p), b).1;
    hide Api, NextCall, ResumeEnd, SessionOk, TodoOk, UserNameOf, DatabaseNameOf;
    DropAnswer(w, p, b);
    DropGoesOn(p, answer, b);
    if p.pc.CommitDrop? {
      CommitDropsBoth(w, r, p, b);
    } else {
      CallKinds(p);
      ApiKeepsServer(w, p.key, NextCall(p), b);
    }
  }

  lemma CommitDropsBoth(w: World, r: Resource, p: Pass, b: Beat)
    requires p.pc.CommitDrop? && SessionOk(SessionOf(w, p.key), p) && SameSpec(p, r) && w.server.dropInTransaction
    requires b.luck == Works
    ensures Api(w, p.key, NextCall(p), b).0.server == Dropped(w.server, r)
  {
    hide Api, ApplyAll;
    CommitEffect(w, p.key, b, DropChanges(p));
    DropsBoth(w.server, p);
  }

  /** The end of the pass works on the resource only. */
  lemma EndOnPath(w0: World, r: Resource, w: World, p: Pass, b: Beat)
    requires DropPath(w0, r, w, p) && (p.pc.Refetch? || p.pc.RemoveFinalizer?)
    ensures var (w', answer) := Api(w, p.key, NextCall(p), b); DropPath(w0, r, w', ResumeEnd(p, answer, b))
  {
    CallKinds(p);
    hide Api, NextCall, Dropped;
    ApiKeepsServer(w, p.key, NextCall(p), b);
  }

  lemma CallOnPath(w0: World, r: Resource, w: World, p: Pass, b: Beat)
    requires DropPath(w0, r, w, p) && !p.pc.Stopped? && DisciplineOk(SessionOf(w, p.key), p) && b.luck == Works
    requires r.deleting && HasFinalizer(r) && r.spec.policy == "Delete" && CredentialsGiven(w0, r)
    requires p.pc.ReadCredential? ==> p.obj.deleting
    ensures var (w', answer) := Api(w, p.key, NextCall(p), b); DropPath(w0, r, w', Resume(p, answer, b))
  {
    ResumeCases(p, Api(w, p.key, NextCall(p), b).1, b);
    assert p.pc.ReadResource? || p.pc.ReadCluster? || p.pc.ReadCredential? || Dropping(p.pc) || p.pc.Refetch?
           || p.pc.RemoveFinalizer?;
    hide Api, NextCall, Resume, ResumeFront, ResumeEnd, DropPath, DisciplineOk, CredentialsGiven;
    if p.pc.ReadResource? {
      ReadOnPath(w0, r, w, p, b);
    } else if p.pc.ReadCluster? {
      ClusterOnPath(w0, r, w, p, b);
    } else if p.pc.ReadCredential? {
      CredentialOnPath(w0, r, w, p, b);
    } else if Dropping(p.pc) {
      DropOnPath(w0, r, w, p, b);
    } else {
      EndOnPath(w0, r, w, p, b);
    }
  }

  /** Reads and updates of a resource that is there work. */
  lemma NoApiFailure(w: World, k: Key, p: Pass, b: Beat, finalizers: seq<string>)
    requires BeingDeleted(w, k, p, finalizers) && !p.pc.Stopped? && b.luck == Works
    ensures !ApiFailure(Observation(NextCall(p), Api(w, k, NextCall(p), b).1))
  {
    if p.pc.ReadResource? || p.pc.Refetch? {
      hide StatusOk, Finalized, Synced, SessionCall, StatementCall;
    } else if p.pc.RemoveFinalizer? {
      hide StatusOk, Finalized, Synced, Api;
      ApiWrites(w, k, NextCall(p), b);
    } else {
      hide Api, StatusOk, Finalized, Synced;
      AsksOthers(p);
    }
  }

  lemma AsksOthers(p: Pass)
    requires DeletionPc(p.pc) && !p.pc.Refetch? && !p.pc.RemoveFinalizer?
    ensures !NextCall(p).GetResource? && !NextCall(p).Update?
  {
  }

  // ---------------------------------------------------------------- whole passes

  /** A deletion pass without faults, on its way. */
  ghost predicate Clearing(w0: World, r: Resource, w: World, k: Key, p: Pass, finalizers: seq<string>) {
    BeingDeleted(w, k, p, finalizers) && DropPath(w0, r, w, p) && DisciplineOk(SessionOf(w, k), p)
  }

  /** One more call: the pass has ended as it should, or is one call closer to it. */
  lemma ClearingStep(w0: World, r: Resource, w: World, k: Key, p: Pass, b: Beat, finalizers: seq<string>)
    requires Clearing(w0, r, w, k, p, finalizers) && b.luck == Works
    requires r.deleting && HasFinalizer(r) && r.spec.policy == "Delete" && CredentialsGiven(w0, r)
    ensures var (w', q) := Step(w, p, b);
            || (q.pc == Stopped(Released) && ReleasedWith(w', k, finalizers) && w'.server == Dropped(w0.server, r))
            || (Clearing(w0, r, w', k, q, finalizers) && Rank(q.pc) < Rank(p.pc))
  {
    StillDeleting(w, k, p, finalizers);
    var (w', answer) := Api(w, k, NextCall(p), b);
    var q := Resume(p, answer, b);
    var trace := p.trace + [Observation(NextCall(p), answer)];
    assert Step(w, p, b) == (w', q.(trace := trace));
    hide BeingDeleted, DropPath, DisciplineOk, CredentialsGiven, ReleasedWith, Step, Api, NextCall, Resume, Dropped;
    hide Rank;
    DeletionStep(w, k, p, b, finalizers);
    NoApiFailure(w, k, p, b, finalizers);
    CallOnPath(w0, r, w, p, b);
    PathAside(w0, r, w', q, trace);
    if q.pc.Stopped? {
      NotStopped(w', k, q, finalizers);
      AtTheEnd(w0, r, w', q);
    } else {
      StepDiscipline(w, k, p, b);
      DeletingAside(w', k, q, trace, finalizers);
    }
  }

  lemma {:induction false} DropDrive(w0: World, r: Resource, w: World, k: Key, p: Pass, tape: seq<Beat>,
                                     finalizers: seq<string>)
    requires Clearing(w0, r, w, k, p, finalizers) && |tape| >= Rank(p.pc) && (forall b | b in tape :: b.luck == Works)
    requires r.deleting && HasFinalizer(r) && r.spec.policy == "Delete" && CredentialsGiven(w0, r)
    ensures var (w', p') := Drive(w, p, tape);
            p'.pc == Stopped(Released) && ReleasedWith(w', k, finalizers) && w'.server == Dropped(w0.server, r)
    decreases |tape|
  {
    StillDeleting(w, k, p, finalizers);
    hide Clearing, CredentialsGiven, ReleasedWith, Step, Dropped, Rank;
    assert tape[0] in tape;
    ClearingStep(w0, r, w, k, p, tape[0], finalizers);
    var (w1, p1) := Step(w, p, tape[0]);
    if p1.pc.Stopped? && p1.pc.ending == Released && ReleasedWith(w1, k, finalizers)
        && w1.server == Dropped(w0.server, r) {
      assert Drive(w1, p1, tape[1..]) == (w1, p1);
    } else {
      DropDrive(w0, r, w1, k, p1, tape[1..], finalizers);
    }
  }

  lemma StillDeleting(w: World, k: Key, p: Pass, finalizers: seq<string>)
    requires BeingDeleted(w, k, p, finalizers)
    ensures p.key == k && !p.pc.Stopped? && (p.pc.ReadCredential? ==> p.obj.deleting) && Rank(p.pc) > 0
  {
    hide StoreOk, Control, Finalized, Synced;
  }

  lemma NotStopped(w: World, k: Key, p: Pass, finalizers: seq<string>)
    ensures BeingDeleted(w, k, p, finalizers) ==> !p.pc.Stopped?
  {
    hide StoreOk, PassOk;
  }

  lemma AtTheEnd(w0: World, r: Resource, w: World, p: Pass)
    requires DropPath(w0, r, w, p) && p.pc.Stopped?
    ensures w.server == Dropped(w0.server, r)
  {
  }

  lemma PathAside(w0: World, r: Resource, w: World, p: Pass, trace: seq<Observation>)
    requires DropPath(w0, r, w, p)
    ensures DropPath(w0, r, w, p.(trace := trace))
  {
    hide Dropped;
  }

  lemma DeletingAside(w: World, k: Key, p: Pass, trace: seq<Observation>, finalizers: seq<string>)
    requires BeingDeleted(w, k, p, finalizers)
    ensures BeingDeleted(w, k, p.(trace := trace), finalizers)
  {
    TraceIsIrrelevant(w, k, p, trace);
    hide StoreOk, PassOk;
  }

  /**
   * A deletion pass with policy Delete whose credentials resolve and whose calls all work releases the resource within
   * twelve calls. It leaves neither its role nor its database behind if and only if the server accepts DROP DATABASE
   * inside a transaction, or neither of them was there; and it changes nothing else on the server.
   */
  lemma DropsIff(w: World, k: Key, tape: seq<Beat>)
    requires StoreOk(w) && k in w.resources && w.resources[k].deleting && HasFinalizer(w.resources[k])
    requires w.resources[k].spec.policy == "Delete" && CredentialsGiven(w, w.resources[k])
    requires |tape| >= 12 && forall b | b in tape :: b.luck == Works
    ensures var (w', p') := RunPass(w, k, tape);
            var (d, u) := (DatabaseNameOf(w.resources[k]), UserNameOf(w.resources[k]));
            && p'.pc == Stopped(Released) && ReleasedWith(w', k, w.resources[k].finalizers)
            && (u !in w'.server.roles && d !in w'.server.databases <==>
                  w.server.dropInTransaction || (u !in w.server.roles && d !in w.server.databases))
            && w'.server == if w.server.dropInTransaction
                            then w.server.(roles := w.server.roles - {u}, databases := w.server.databases - {d})
                            else w.server
  {
    var w0, p0, r := WithSession(w, k, IDLE), InitialPass(k), w.resources[k];
    assert RunPass(w, k, tape) == Drive(w0, p0, tape);
    assert BeingDeleted(w0, k, p0, r.finalizers) && DropPath(w0, r, w0, p0) && CredentialsGiven(w0, r) by {
      StartKeeps(w0, k);
      hide StatusOk, ClusterKeyOf, Control, Finalized, Synced;
    }
    StartsIdle(w, k);
    hide Drive, RunPass, BeingDeleted, DropPath, DisciplineOk, CredentialsGiven, ReleasedWith, DatabaseNameOf;
    hide UserNameOf;
    DropDrive(w0, r, w0, k, p0, tape, r.finalizers);
  }
}
