/**
 * Deletion: what is ever dropped, and by whom; and that a deletion pass whose own API calls are answered always
 * releases its resource, whatever became of the cleanup.
 */
module DeletionSafety {
  import opened Basics
  import opened Conditions
  import opened Model
  import opened Machine
  import opened MachineFacts
  import opened Frames
  import opened System
  import opened Invariants
  import opened SessionSafety

  /** Every role and database of the first server is still there on the second. */
  predicate Keeps(before: Server, after: Server) {
    before.roles.Keys <= after.roles.Keys && before.databases.Keys <= after.databases.Keys
    && after.dropInTransaction == before.dropInTransaction
  }

  lemma StatementsNeverDrop(w: World, k: Key, c: Call, b: Beat)
    requires c.CreateUser? || c.AlterUser? || c.CreateDatabase? || c.AlterDatabaseOwner? || c.GrantIn?
    ensures Keeps(w.server, Api(w, k, c, b).0.server)
  {
  }

  /** What the commit of the open transaction does to the server. */
  lemma CommitEffect(w: World, k: Key, b: Beat, changes: seq<Change>)
    requires OneTransaction(SessionOf(w, k), changes)
    ensures Api(w, k, Commit, b).0.server == if Takes(b) then ApplyAll(w.server, changes) else w.server
  {
    hide ApplyAll;
  }

  lemma RepairNeverDrops(s: Server, p: Pass)
    ensures Keeps(s, ApplyAll(s, [RepairChange(p)]))
  {
    var c := RepairChange(p);
    assert [c][1..] == [];
    assert ApplyAll(s, [c]) == ApplyAll(Apply(s, c), []);
  }

  lemma DropsBoth(s: Server, p: Pass)
    ensures ApplyAll(s, DropChanges(p)) ==
            s.(roles := s.roles - {RoleName(p)}, databases := s.databases - {DbName(p)})
  {
    var changes := DropChanges(p);
    assert changes[1..] == [RemoveRole(RoleName(p))];
    assert changes[1..][1..] == [];
    var s1 := Apply(s, changes[0]);
    assert ApplyAll(s, changes) == ApplyAll(s1, changes[1..]);
    assert ApplyAll(s1, changes[1..]) == ApplyAll(Apply(s1, changes[1]), []);
  }

  /** A call either keeps every role and database, or is the commit of a drop: both names, and nothing else. */
  lemma CallDrops(w: World, k: Key, p: Pass, b: Beat)
    requires SessionOk(SessionOf(w, k), p)
    ensures var w' := Api(w, k, NextCall(p), b).0;
            || Keeps(w.server, w'.server)
            || (p.pc.CommitDrop? &&
                w'.server == w.server.(roles := w.server.roles - {RoleName(p)},
                                       databases := w.server.databases - {DbName(p)}))
  {
    var c := NextCall(p);
    CallKinds(p);
    hide Api, NextCall, ApplyAll, UserNameOf, DatabaseNameOf;
    if p.pc.CommitDrop? {
      CommitEffect(w, k, b, DropChanges(p));
      DropsBoth(w.server, p);
    } else if p.pc.CommitRepair? {
      CommitEffect(w, k, b, [RepairChange(p)]);
      RepairNeverDrops(w.server, p);
    } else if c.CreateUser? || c.AlterUser? || c.CreateDatabase? || c.AlterDatabaseOwner? || c.GrantIn? {
      StatementsNeverDrop(w, k, c, b);
    } else {
      ApiKeepsServer(w, k, c, b);
    }
  }

  lemma MovesNeverDrop(w: World, deleted: set<Key>, m: Move)
    ensures Keeps(w.server, MoveWorld(w, deleted, m).server)
  {
  }

  /** The commit of a drop, by a pass that read the deletion mark and the policy Delete, of its own two names. */
  predicate DropsOwn(s: Sys, e: Event, s': Sys) {
    && e.Turn? && Running(s, e.key)
    && var p := s.passes[e.key];
       && p.pc.CommitDrop? && p.obj.key == e.key && p.obj.deleting && p.obj.spec.policy == "Delete"
       && s'.w.server.roles == s.w.server.roles - {RoleName(p)}
       && s'.w.server.databases == s.w.server.databases - {DbName(p)}
  }

  lemma NextDrops(s: Sys, e: Event)
    requires Inv(s) && SessionInv(s)
    ensures Keeps(s.w.server, Next(s, e).w.server) || DropsOwn(s, e, Next(s, e))
  {
    hide Api, Resume, NextCall, StoreOk, Finalized, Synced, MoveWorld, SessionOk;
    match e {
      case Turn(k, b) =>
        if Running(s, k) {
          CallDrops(s.w, k, s.passes[k], b);
        }
      case Outside(m) => MovesNeverDrop(s.w, if m.RequestDeletion? then s.deleted + {m.key} else s.deleted, m);
      case _ =>
    }
  }

  /**
   * Over every run, the next event either leaves every role and database in place, or is the commit of a deletion
   * pass that read policy Delete: then exactly its own role and its own database are gone, both or neither.
   */
  lemma OnlyPolicyDeletes(s: Sys, events: seq<Event>, e: Event)
    requires Initial(s)
    ensures var t := Run(s, events);
            Keeps(t.w.server, Next(t, e).w.server) || DropsOwn(t, e, Next(t, e))
  {
    InitialInv(s);
    RunKeeps(s, events);
    RunKeepsSession(s, events);
    NextDrops(Run(s, events), e);
  }

  // ---------------------------------------------------------------- what PostgreSQL makes of it

  /** On a server that refuses DROP DATABASE inside a transaction no pass gets past that statement. */
  ghost predicate NeverPastDrop(s: Sys) {
    forall k | k in s.passes :: !s.passes[k].pc.DropRoleStep? && !s.passes[k].pc.CommitDrop?
  }

  lemma StopsAtDrop(w: World, k: Key, p: Pass, b: Beat)
    requires !w.server.dropInTransaction && p.key == k && !p.pc.DropRoleStep? && !p.pc.CommitDrop?
    ensures var q := Step(w, p, b).1; !q.pc.DropRoleStep? && !q.pc.CommitDrop?
  {
    var r := Api(w, k, NextCall(p), b).1;
    if p.pc.DropDatabaseStep? {
      hide KubeCall, StatementCall, UserNameOf, DatabaseNameOf;
      assert r == Error;
    } else {
      hide Api, NextCall;
      OthersNeverDrop(p, r, b);
    }
  }

  lemma OthersNeverDrop(p: Pass, r: Response, b: Beat)
    requires !p.pc.DropDatabaseStep? && !p.pc.DropRoleStep? && !p.pc.CommitDrop?
    ensures var q := Resume(p, r, b); !q.pc.DropRoleStep? && !q.pc.CommitDrop?
  {
    hide ResumeFront, ResumeSecret, ResumeSql, ResumeRepair, StatusStep, SameObject;
    if p.pc.ReadCluster? {
      ReadClusterFacts(p, r, b);
    } else if p.pc.ReadCredential? {
      ReadCredentialFacts(p, r, b);
    } else if Front(p.pc) {
      FrontIsIdle(p, r, b);
    } else if Middle(p.pc) {
      MiddleFacts(p, r, b);
    } else if InSql(p.pc) {
      SqlFacts(p, r, b);
    } else if InRepair(p.pc) {
      RepairFacts(p, r, b);
    }
  }

  lemma {:induction false} RunNeverDrops(s: Sys, events: seq<Event>)
    requires Inv(s) && SessionInv(s) && NeverPastDrop(s) && !s.w.server.dropInTransaction
    ensures Keeps(s.w.server, Run(s, events).w.server)
    decreases |events|
  {
    if events != [] {
      var s' := Next(s, events[0]);
      NextKeeps(s, events[0]);
      NextKeepsSession(s, events[0]);
      NextDrops(s, events[0]);
      NextNeverPastDrop(s, events[0]);
      hide Next, Inv, SessionInv;
      RunNeverDrops(s', events[1..]);
    }
  }

  lemma NextNeverPastDrop(s: Sys, e: Event)
    requires Inv(s) && NeverPastDrop(s) && !s.w.server.dropInTransaction
    ensures NeverPastDrop(Next(s, e))
  {
    hide Step, MoveWorld, StoreOk, Control, Finalized, Synced;
    if e.Turn? && Running(s, e.key) {
      StopsAtDrop(s.w, e.key, s.passes[e.key], e.beat);
    }
  }

  /**
   * PostgreSQL refuses DROP DATABASE inside a transaction, and the controller issues it inside one: on such a server
   * no run ever removes a role or a database, whatever the reclaim policies say.
   */
  lemma PostgresNeverDrops(s: Sys, events: seq<Event>)
    requires Initial(s) && !s.w.server.dropInTransaction
    ensures Keeps(s.w.server, Run(s, events).w.server)
  {
    InitialInv(s);
    RunNeverDrops(s, events);
  }

  // ---------------------------------------------------------------- progress

  /** Calls left before a deletion pass has ended. */
  function Rank(pc: Pc): nat {
    match pc
    case ReadResource => 12
    case ReadCluster => 11
    case ReadCredential(f) => 8 + FieldRank(f)
    case OpenForDrop => 7
    case BeginDrop => 6
    case DropDatabaseStep => 5
    case DropRoleStep => 4
    case CommitDrop => 3
    case RollbackDrop => 3
    case WriteFailure(_) => 3
    case Refetch => 2
    case RemoveFinalizer => 1
    case _ => 0
  }

  lemma {:induction false} ResolveRank(p: Pass, f: Field, now: int)
    requires p.obj.deleting
    ensures var q := Resolve(p, f, now); q.pc.ReadCredential? ==> FieldRank(q.pc.field) <= FieldRank(f)
    decreases FieldRank(f), 1
  {
    match SourceOf(p.cluster, f)
    case None =>
    case Some(source) =>
      if source.value != "" {
        AcceptRank(p, f, source.value, now);
      }
  }

  lemma {:induction false} AcceptRank(p: Pass, f: Field, value: string, now: int)
    requires p.obj.deleting
    ensures var q := Accept(p, f, value, now); q.pc.ReadCredential? ==> FieldRank(q.pc.field) < FieldRank(f)
    decreases FieldRank(f), 0
  {
    var q := SetField(p, f, value);
    match f
    case Host => ResolveRank(q, User, now);
    case User => ResolveRank(q, Password, now);
    case Password => ResolvedFacts(q, now);
  }

  predicate DeletionPc(pc: Pc) {
    pc.ReadCluster? || pc.ReadCredential? || Dropping(pc) || pc.WriteFailure? || pc.Refetch? || pc.RemoveFinalizer?
  }

  lemma DeletionReads(p: Pass, r: Response, b: Beat)
    requires p.obj.deleting && (p.pc.ReadCluster? || p.pc.ReadCredential?)
    ensures var q := ResumeFront(p, r, b); SameObject(p, q) && DeletionPc(q.pc) && Rank(q.pc) < Rank(p.pc)
  {
    hide Upsert, DatabasePhase, StatusStep;
    if p.pc.ReadCluster? {
      ReadClusterFacts(p, r, b);
      if r.FoundCluster? {
        ResolveRank(p.(cluster := r.cluster), Host, b.now);
      }
    } else {
      ReadCredentialFacts(p, r, b);
      var source := SourceOf(p.cluster, p.pc.field);
      if source.Some? && source.value.from.Some? && r.FoundSecret? && source.value.from.value.entry in r.data {
        AcceptRank(p, p.pc.field, r.data[source.value.from.value.entry], b.now);
      }
    }
  }

  lemma DeletionEnds(p: Pass, r: Response, b: Beat)
    requires p.obj.deleting && (Dropping(p.pc) || p.pc.WriteFailure?)
    ensures var q := ResumeEnd(p, r, b);
            q == p.(pc := q.pc) && DeletionPc(q.pc) && Rank(q.pc) < Rank(p.pc) && !q.pc.RemoveFinalizer?
  {
  }

  /** The pass of a resource that is being deleted, before it has removed the finalizer. */
  predicate BeingDeleted(w: World, k: Key, p: Pass, finalizers: seq<string>) {
    && StoreOk(w) && PassOk(w, k, p)
    && k in w.resources && w.resources[k].deleting && w.resources[k].finalizers == finalizers && FINALIZER in finalizers
    && (p.pc.ReadResource? || (DeletionPc(p.pc) && p.obj.deleting))
    && (p.pc.RemoveFinalizer? ==> p.latest == w.resources[k])
  }

  /** The finalizer is gone, every other one is kept in order, and the object with it if none is left. */
  predicate ReleasedWith(w: World, k: Key, finalizers: seq<string>) {
    if Without(finalizers, FINALIZER) == [] then k !in w.resources
    else k in w.resources && w.resources[k].finalizers == Without(finalizers, FINALIZER)
  }

  /** A read or an update of the resource itself that went wrong. */
  predicate ApiFailure(o: Observation) {
    (o.call.GetResource? || o.call.Update?) && (o.response.Error? || o.response.NotFound?)
  }

  lemma DeletionStep(w: World, k: Key, p: Pass, b: Beat, finalizers: seq<string>)
    requires BeingDeleted(w, k, p, finalizers)
    ensures var (w', r) := Api(w, k, NextCall(p), b);
            var q := Resume(p, r, b);
            || ApiFailure(Observation(NextCall(p), r))
            || (q.pc == Stopped(Released) && ReleasedWith(w', k, finalizers))
            || (BeingDeleted(w', k, q, finalizers) && Rank(q.pc) < Rank(p.pc))
  {
    hide Api, NextCall, Resume, BeingDeleted, ReleasedWith;
    if WritesObject(p.pc) {
      DeletionWriteStep(w, k, p, b, finalizers);
    } else {
      DeletionReadStep(w, k, p, b, finalizers);
    }
  }

  lemma DeletionWriteStep(w: World, k: Key, p: Pass, b: Beat, finalizers: seq<string>)
    requires BeingDeleted(w, k, p, finalizers) && WritesObject(p.pc)
    ensures var (w', r) := Api(w, k, NextCall(p), b);
            var q := Resume(p, r, b);
            || ApiFailure(Observation(NextCall(p), r))
            || (q.pc == Stopped(Released) && ReleasedWith(w', k, finalizers))
            || (BeingDeleted(w', k, q, finalizers) && Rank(q.pc) < Rank(p.pc))
  {
    hide Api, NextCall, ResumeEnd, StatusOk, Finalized, Synced, Control, ReleasedWith;
    WriterKeeps(w, k, p, b);
    DeletionWrites(w, k, p, b, finalizers);
  }

  lemma DeletionReadStep(w: World, k: Key, p: Pass, b: Beat, finalizers: seq<string>)
    requires BeingDeleted(w, k, p, finalizers) && !WritesObject(p.pc)
    ensures var (w', r) := Api(w, k, NextCall(p), b);
            var q := Resume(p, r, b);
            || ApiFailure(Observation(NextCall(p), r))
            || (q.pc == Stopped(Released) && ReleasedWith(w', k, finalizers))
            || (BeingDeleted(w', k, q, finalizers) && Rank(q.pc) < Rank(p.pc))
  {
    CallKinds(p);
    hide Api, NextCall, Resume, StatusOk, Finalized, Synced, Control, ReleasedWith;
    var (w', r) := Api(w, k, NextCall(p), b);
    ApiKeepsResources(w, k, NextCall(p), b);
    ReaderKeeps(w, k, p, b);
    OthersKeep(w, w', k, Resume(p, r, b));
    DeletionMoves(w, k, p, b, finalizers);
  }

  lemma DeletionMoves(w: World, k: Key, p: Pass, b: Beat, finalizers: seq<string>)
    requires BeingDeleted(w, k, p, finalizers) && !WritesObject(p.pc)
    ensures var r := Api(w, k, NextCall(p), b).1;
            var q := Resume(p, r, b);
            || ApiFailure(Observation(NextCall(p), r))
            || (DeletionPc(q.pc) && q.obj.deleting && Rank(q.pc) < Rank(p.pc)
                && (q.pc.RemoveFinalizer? ==> q.latest == w.resources[k]))
  {
    var r := Api(w, k, NextCall(p), b).1;
    if p.pc.ReadResource? || p.pc.Refetch? {
      hide StatusOk, Finalized, Synced, SessionCall, StatementCall;
    } else {
      hide Api, NextCall, StatusOk, Control, Finalized, Synced, ResumeFront, ResumeEnd;
      if p.pc.ReadCluster? || p.pc.ReadCredential? {
        DeletionReads(p, r, b);
        ReadsNeverRemove(p, r, b);
      } else {
        DeletionEnds(p, r, b);
      }
    }
  }

  lemma ReadsNeverRemove(p: Pass, r: Response, b: Beat)
    requires p.pc.ReadCluster? || p.pc.ReadCredential?
    ensures !ResumeFront(p, r, b).pc.RemoveFinalizer?
  {
    hide ResumeFront, StatusStep, SameObject;
    if p.pc.ReadCluster? {
      ReadClusterFacts(p, r, b);
    } else {
      ReadCredentialFacts(p, r, b);
    }
  }

  lemma DeletionWrites(w: World, k: Key, p: Pass, b: Beat, finalizers: seq<string>)
    requires BeingDeleted(w, k, p, finalizers) && WritesObject(p.pc)
    ensures var (w', r) := Api(w, k, NextCall(p), b);
            var q := ResumeEnd(p, r, b);
            || ApiFailure(Observation(NextCall(p), r))
            || (q.pc == Stopped(Released) && ReleasedWith(w', k, finalizers))
            || (q.pc == Refetch && q.obj.deleting && Rank(q.pc) < Rank(p.pc) && k in w'.resources
                && w'.resources[k].deleting && w'.resources[k].finalizers == finalizers)
  {
    hide Api, ResumeEnd;
    if p.pc.RemoveFinalizer? {
      RemovalWrites(w, k, p, b, finalizers);
    } else {
      FailureWrites(w, k, p, b, finalizers);
    }
  }

  lemma RemovalWrites(w: World, k: Key, p: Pass, b: Beat, finalizers: seq<string>)
    requires BeingDeleted(w, k, p, finalizers) && p.pc.RemoveFinalizer?
    ensures var (w', r) := Api(w, k, NextCall(p), b);
            || ApiFailure(Observation(NextCall(p), r))
            || (ResumeEnd(p, r, b).pc == Stopped(Released) && ReleasedWith(w', k, finalizers))
  {
    hide Api, StatusOk, Control, Finalized, Synced, Without, StoreOk;
    var c := NextCall(p);
    ApiWrites(w, k, c, b);
    assert Current(w, c.resource);
  }

  lemma FailureWrites(w: World, k: Key, p: Pass, b: Beat, finalizers: seq<string>)
    requires BeingDeleted(w, k, p, finalizers) && p.pc.WriteFailure?
    ensures var (w', r) := Api(w, k, NextCall(p), b);
            var q := ResumeEnd(p, r, b);
            && q.pc == Refetch && q.obj.deleting && k in w'.resources
            && w'.resources[k].deleting && w'.resources[k].finalizers == finalizers
  {
    hide Api, StatusOk, Control, Finalized, Synced, StoreOk;
    ApiWrites(w, k, NextCall(p), b);
  }

  lemma {:induction false} DeletionDrive(w: World, k: Key, p: Pass, tape: seq<Beat>, finalizers: seq<string>)
    requires BeingDeleted(w, k, p, finalizers) && |tape| >= Rank(p.pc)
    ensures var (w', p') := Drive(w, p, tape);
            || (exists o | o in p'.trace :: ApiFailure(o))
            || (p'.pc == Stopped(Released) && ReleasedWith(w', k, finalizers))
    decreases |tape|
  {
    var (w1, r) := Api(w, k, NextCall(p), tape[0]);
    var q := Resume(p, r, tape[0]);
    var o := Observation(NextCall(p), r);
    var p1 := q.(trace := p.trace + [o]);
    assert (w1, p1) == Step(w, p, tape[0]);
    DeletionStep(w, k, p, tape[0], finalizers);
    if ApiFailure(o) {
      assert o in p1.trace;
      TraceGrows(w1, p1, tape[1..], o);
      assert Drive(w, p, tape) == Drive(w1, p1, tape[1..]);
    } else if q.pc.Stopped? {
      assert Drive(w1, p1, tape[1..]) == (w1, p1);
    } else {
      TraceIsIrrelevant(w1, k, q, p1.trace);
      DeletionDrive(w1, k, p1, tape[1..], finalizers);
    }
  }

  lemma {:induction false} TraceGrows(w: World, p: Pass, tape: seq<Beat>, o: Observation)
    requires o in p.trace
    ensures o in Drive(w, p, tape).1.trace
    decreases |tape|
  {
    hide Api, NextCall, Resume;
    if tape != [] && !p.pc.Stopped? {
      var (w1, p1) := Step(w, p, tape[0]);
      assert p1.trace == p.trace + [Observation(NextCall(p), Api(w, p.key, NextCall(p), tape[0]).1)];
      assert o in p1.trace;
      TraceGrows(w1, p1, tape[1..], o);
      assert Drive(w, p, tape) == Drive(w1, p1, tape[1..]);
    }
  }

  /**
   * A deletion pass that is given its twelve calls, and whose reads and updates of the resource are answered, removes
   * this finalizer and keeps every other, whatever the cluster, the credentials, the connection and the drop did. One
   * such pass releases the resource.
   */
  lemma DeletionReleases(w: World, k: Key, tape: seq<Beat>)
    requires StoreOk(w) && k in w.resources && w.resources[k].deleting && HasFinalizer(w.resources[k])
    requires |tape| >= 12
    ensures var (w', p') := RunPass(w, k, tape);
            || (exists o | o in p'.trace :: ApiFailure(o))
            || (p'.pc == Stopped(Released) && ReleasedWith(w', k, w.resources[k].finalizers))
  {
    StartKeeps(WithSession(w, k, IDLE), k);
    DeletionDrive(WithSession(w, k, IDLE), k, InitialPass(k), tape, w.resources[k].finalizers);
  }

  /** Where the others stand, from left to right. */
  function Others(finalizers: seq<string>, f: string): seq<nat> {
    if finalizers == [] then []
    else (if finalizers[0] == f then [] else [0]) + Shifted(Others(finalizers[1..], f))
  }

  function Shifted(at: seq<nat>): (r: seq<nat>)
    ensures |r| == |at| && forall i | 0 <= i < |at| :: r[i] == at[i] + 1
  {
    seq(|at|, i requires 0 <= i < |at| => at[i] + 1)
  }

  /** The places, in order and each once, of everything but f. */
  predicate PlacesOfOthers(finalizers: seq<string>, f: string, at: seq<nat>) {
    && (forall i, j | 0 <= i < j < |at| :: at[i] < at[j])
    && (forall i | 0 <= i < |at| :: at[i] < |finalizers| && finalizers[at[i]] != f)
    && (forall n: nat | n < |finalizers| && finalizers[n] != f :: n in at)
  }

  /** RemoveFinalizer takes out every occurrence of f and leaves the others as they were, in order and number. */
  lemma {:induction false} WithoutKeepsOthers(finalizers: seq<string>, f: string)
    ensures f !in Without(finalizers, f)
    ensures exists at: seq<nat> ::
              PlacesOfOthers(finalizers, f, at) && |Without(finalizers, f)| == |at|
              && forall i | 0 <= i < |at| :: Without(finalizers, f)[i] == finalizers[at[i]]
  {
    OthersArePlaces(finalizers, f);
    WithoutReadsOthers(finalizers, f);
  }

  lemma {:induction false} OthersArePlaces(finalizers: seq<string>, f: string)
    ensures PlacesOfOthers(finalizers, f, Others(finalizers, f))
  {
    if finalizers != [] {
      OthersArePlaces(finalizers[1..], f);
      hide Others;
      OnePlaceMore(finalizers, f, Others(finalizers[1..], f));
    }
  }

  lemma OnePlaceMore(finalizers: seq<string>, f: string, at: seq<nat>)
    requires finalizers != [] && PlacesOfOthers(finalizers[1..], f, at)
    ensures PlacesOfOthers(finalizers, f, (if finalizers[0] == f then [] else [0]) + Shifted(at))
  {
    var tail, places := finalizers[1..], (if finalizers[0] == f then [] else [0]) + Shifted(at);
    forall n: nat | n < |finalizers| && finalizers[n] != f
      ensures n in places
    {
      if n > 0 {
        assert tail[n - 1] == finalizers[n] && n - 1 in at;
        var i :| 0 <= i < |at| && at[i] == n - 1;
        assert Shifted(at)[i] == n;
      }
    }
  }

  lemma {:induction false} WithoutReadsOthers(finalizers: seq<string>, f: string)
    requires PlacesOfOthers(finalizers, f, Others(finalizers, f))
    ensures ReadsAt(Without(finalizers, f), finalizers, Others(finalizers, f)) && f !in Without(finalizers, f)
  {
    if finalizers != [] {
      var tail := finalizers[1..];
      OthersArePlaces(tail, f);
      WithoutReadsOthers(tail, f);
      hide PlacesOfOthers;
      OneReadMore(finalizers, f, Others(tail, f), Without(tail, f));
    }
  }

  predicate ReadsAt(read: seq<string>, finalizers: seq<string>, at: seq<nat>) {
    |read| == |at| && forall i | 0 <= i < |at| :: at[i] < |finalizers| && read[i] == finalizers[at[i]]
  }

  lemma OneReadMore(finalizers: seq<string>, f: string, at: seq<nat>, read: seq<string>)
    requires finalizers != [] && ReadsAt(read, finalizers[1..], at)
    ensures ReadsAt((if finalizers[0] == f then [] else [finalizers[0]]) + read, finalizers,
                    (if finalizers[0] == f then [] else [0]) + Shifted(at))
  {
  }
}
