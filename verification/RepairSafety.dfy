/**
 * Atomic prefix: what the ownership repair of one pass has changed by the time the pass stops, whichever way, or dies.
 */
module RepairSafety {
  import opened Basics
  import opened Conditions
  import opened Model
  import opened Machine
  import opened MachineFacts
  import opened Frames
  import opened System
  import opened Invariants
  import opened SessionSafety
  import opened DeletionSafety

  /** The owners of the objects in a database; a database that does not exist yet would start from the template. */
  function Objects(s: Server, d: string): map<string, string> {
    if d in s.databases then s.databases[d].objects else s.template
  }

  function Wrong(objects: map<string, string>, user: string): set<string> {
    set o | o in objects && objects[o] != user
  }

  /** The listed items now belong to the user; nothing else has changed. */
  function Reown(objects: map<string, string>, items: seq<string>, user: string): map<string, string> {
    map o | o in objects :: if o in items then user else objects[o]
  }

  /** Items listed as wrongly owned, each once. */
  predicate Picked(items: seq<string>, wrong: set<string>) {
    (forall i, j | 0 <= i < j < |items| :: items[i] != items[j]) && (forall o | o in items :: o in wrong)
  }

  /** Transactions whose commit was answered. */
  function Commits(trace: seq<Observation>): nat {
    if trace == [] then 0
    else Commits(trace[..|trace| - 1]) + if trace[|trace| - 1] == Observation(Commit, Done) then 1 else 0
  }

  lemma CommitsOf(trace: seq<Observation>, o: Observation)
    ensures Commits(trace + [o]) == Commits(trace) + if o == Observation(Commit, Done) then 1 else 0
  {
    assert (trace + [o])[..|trace|] == trace;
  }

  /** A prefix of the listing has been repaired: as many items as commits were answered, or one more if one failed. */
  predicate PrefixDone(base: map<string, string>, objects: map<string, string>, p: Pass, user: string, n: nat) {
    && n <= |p.listed| && objects == Reown(base, p.listed[..n], user)
    && (n == Commits(p.trace) || (n == Commits(p.trace) + 1 && Observation(Commit, Error) in p.trace))
  }

  ghost predicate PartlyDone(base: map<string, string>, objects: map<string, string>, p: Pass, user: string) {
    Picked(p.listed, Wrong(base, user)) && exists n: nat :: PrefixDone(base, objects, p, user, n)
  }

  predicate FullyDone(base: map<string, string>, objects: map<string, string>, p: Pass, user: string) {
    IsListing(p.listed, Wrong(base, user)) && PrefixDone(base, objects, p, user, |p.listed|)
  }

  /** How far the repair has come at each point of a pass, against the owners before the pass. */
  ghost predicate Progress(base: map<string, string>, objects: map<string, string>, s: Session, p: Pass, user: string) {
    match p.pc
    case FetchWrongOwner =>
      objects == base && Commits(p.trace) == 0 && s.cursor.Some?
      && IsListing(p.listed + s.cursor.value, Wrong(base, user))
    case CloseListing(complete) =>
      objects == base && Commits(p.trace) == 0 && Picked(p.listed, Wrong(base, user))
      && (complete ==> IsListing(p.listed, Wrong(base, user)))
    case BeginRepair => Underway(base, objects, p, user)
    case LimitLockWait => Underway(base, objects, p, user)
    case RepairOwner => Underway(base, objects, p, user)
    case CommitRepair => Underway(base, objects, p, user)
    case RollbackRepair => Underway(base, objects, p, user)
    case WriteStatus => FullyDone(base, objects, p, user)
    case WriteFailure(_) => PartlyDone(base, objects, p, user)
    case Stopped(ending) =>
      PartlyDone(base, objects, p, user) && (ending.Published? ==> FullyDone(base, objects, p, user))
    case _ => objects == base && Commits(p.trace) == 0 && p.listed == []
  }

  predicate Underway(base: map<string, string>, objects: map<string, string>, p: Pass, user: string) {
    && IsListing(p.listed, Wrong(base, user)) && |p.todo| <= |p.listed|
    && Commits(p.trace) == |p.listed| - |p.todo|
    && objects == Reown(base, p.listed[..|p.listed| - |p.todo|], user)
  }

  /** A pass that is working on the resource as it was read, not marked for deletion. */
  predicate WorksOn(p: Pass, r: Resource) {
    Live(p) ==> !p.obj.deleting && p.obj.spec == r.spec && p.obj.key == r.key
  }

  /** The state of a pass that began on resource r with the server at s. */
  ghost predicate RepairOk(s: Server, r: Resource, w: World, k: Key, p: Pass) {
    && WorksOn(p, r)
    && Progress(Objects(s, DatabaseNameOf(r)), Objects(w.server, DatabaseNameOf(r)), SessionOf(w, k), p, UserNameOf(r))
    && (InRepair(p.pc) && !p.pc.ListWrongOwners? ==> DatabaseNameOf(r) in w.server.databases)
    && forall d | d != DatabaseNameOf(r) :: Objects(w.server, d) == Objects(s, d)
  }

  // ---------------------------------------------------------------- calls

  lemma ApiKeepsObjects(w: World, k: Key, c: Call, b: Beat, d: string)
    requires !c.Commit?
    ensures Objects(Api(w, k, c, b).0.server, d) == Objects(w.server, d)
  {
    if !(c.CreateUser? || c.AlterUser? || c.CreateDatabase? || c.AlterDatabaseOwner? || c.GrantIn?) {
      ApiKeepsServer(w, k, c, b);
    }
  }

  lemma CommitsOne(w: World, k: Key, b: Beat, change: Change)
    requires OneTransaction(SessionOf(w, k), [change])
    ensures var (w', r) := Api(w, k, Commit, b);
            && (r == Done || r == Error) && (r == Done ==> Takes(b))
            && w'.server == if Takes(b) then Apply(w.server, change) else w.server
  {
    assert [change][1..] == [];
    assert ApplyAll(w.server, [change]) == ApplyAll(Apply(w.server, change), []);
  }

  /** The commit of a repair gives one object of one database to the user. */
  lemma CommitMovesOne(w: World, k: Key, p: Pass, b: Beat, d: string)
    requires SessionOk(SessionOf(w, k), p) && p.pc.CommitRepair?
    ensures var (w', r) := Api(w, k, Commit, b);
            && (r == Done || r == Error) && (r == Done ==> Takes(b))
            && Objects(w'.server, d) == if Takes(b) && d == DbName(p) && d in w.server.databases
                                        then Reown(Objects(w.server, d), p.todo[..1], RoleName(p))
                                        else Objects(w.server, d)
  {
    hide Api, UserNameOf, DatabaseNameOf;
    CommitsOne(w, k, b, RepairChange(p));
    AppliedMovesOne(w.server, DbName(p), p.todo[0], RoleName(p), d);
    assert p.todo[..1] == [p.todo[0]];
  }

  lemma AppliedMovesOne(s: Server, database: string, item: string, user: string, d: string)
    ensures Objects(Apply(s, SetOwner(database, item, user)), d) ==
            if d == database && d in s.databases then Reown(Objects(s, d), [item], user) else Objects(s, d)
  {
  }

  // ---------------------------------------------------------------- the pass keeps working on the same resource

  /** Apart from reading the resource and adding the finalizer, no response changes more than the status in memory. */
  lemma KeepsObject(p: Pass, r: Response, b: Beat)
    requires !p.pc.ReadResource? && !p.pc.AddFinalizer?
    ensures Resume(p, r, b).obj.(status := p.obj.status) == p.obj
  {
    ResumeCases(p, r, b);
    hide Resume, ResumeFront, ResumeSecret, ResumeSql, ResumeRepair, StatusStep;
    if p.pc.ReadCluster? {
      ReadClusterFacts(p, r, b);
    } else if p.pc.ReadCredential? {
      ReadCredentialFacts(p, r, b);
    } else if Middle(p.pc) {
      MiddleFacts(p, r, b);
    } else if InSql(p.pc) {
      SqlFacts(p, r, b);
    } else if InRepair(p.pc) {
      RepairFacts(p, r, b);
    }
  }

  lemma FinalizerKeepsObject(w: World, k: Key, p: Pass, b: Beat)
    requires StoreOk(w) && PassOk(w, k, p) && p.pc.AddFinalizer?
    ensures var r := Api(w, k, NextCall(p), b).1;
            var obj := ResumeFront(p, r, b).obj;
            obj.key == p.obj.key && obj.spec == p.obj.spec && obj.deleting == p.obj.deleting
  {
    hide Api, StatusOk, Control, Finalized;
    ApiWrites(w, k, NextCall(p), b);
  }

  lemma StillWorksOn(w: World, k: Key, p: Pass, b: Beat, r: Resource)
    requires StoreOk(w) && PassOk(w, k, p) && WorksOn(p, r) && !p.pc.Stopped?
    requires p.pc.ReadResource? ==> k in w.resources && w.resources[k] == r && !r.deleting
    ensures WorksOn(Step(w, p, b).1, r)
  {
    var c, answer := NextCall(p), Api(w, k, NextCall(p), b).1;
    ResumeCases(p, answer, b);
    hide Resume, Api, Control, Finalized, Synced, StatusOk;
    if p.pc.ReadResource? {
      ReadAnswer(w, k, b);
    } else if p.pc.AddFinalizer? {
      FinalizerKeepsObject(w, k, p, b);
    } else {
      KeepsObject(p, answer, b);
    }
  }

  // ---------------------------------------------------------------- before the listing

  predicate Early(pc: Pc) { Front(pc) || Middle(pc) || InSql(pc) || pc.ListWrongOwners? }

  lemma EarlyMoves(p: Pass, r: Response, b: Beat)
    requires Early(p.pc) && !p.pc.ListWrongOwners? && (p.pc.ReadResource? || !p.obj.deleting)
    ensures var q := Resume(p, r, b);
            && q.listed == p.listed
            && (Early(q.pc) || q.pc.WriteFailure? || q.pc == Stopped(Ignored) || q.pc == Stopped(Errored))
  {
    ResumeCases(p, r, b);
    hide Resume, ResumeFront, ResumeSecret, ResumeSql, SameObject, StatusStep;
    if p.pc.ReadCluster? {
      ReadClusterFacts(p, r, b);
    } else if p.pc.ReadCredential? {
      ReadCredentialFacts(p, r, b);
    } else if p.pc.ReadResource? || p.pc.AddFinalizer? {
      FrontMoves(p, r, b);
    } else if Middle(p.pc) {
      MiddleFacts(p, r, b);
    } else {
      SqlFacts(p, r, b);
    }
  }

  lemma FrontMoves(p: Pass, r: Response, b: Beat)
    requires p.pc.ReadResource? || p.pc.AddFinalizer?
    ensures var q := ResumeFront(p, r, b);
            q.listed == p.listed && (Early(q.pc) || q.pc == Stopped(Ignored) || q.pc == Stopped(Errored))
  {
    hide Resolve, Accept;
  }

  /** A pass that stops before its listing has changed nothing. */
  lemma NothingDone(base: map<string, string>, s: Session, p: Pass, user: string)
    requires p.listed == [] && Commits(p.trace) == 0
    requires Early(p.pc) || p.pc.WriteFailure? || (p.pc.Stopped? && p.pc != Stopped(Published))
    ensures Progress(base, base, s, p, user)
  {
    assert PrefixDone(base, base, p, user, 0);
  }

  lemma EarlyProgress(base: map<string, string>, s: Session, s': Session, p: Pass, r: Response, b: Beat, user: string)
    requires Early(p.pc) && !p.pc.ListWrongOwners? && (p.pc.ReadResource? || !p.obj.deleting)
    requires Progress(base, base, s, p, user)
    ensures Progress(base, base, s', After(p, r, b), user)
  {
    EarlyMoves(p, r, b);
    CommitsOf(p.trace, Observation(NextCall(p), r));
    assert NextCall(p) != Commit by { CallKinds(p); }
    hide Resume, NextCall, Progress;
    assert p.listed == [] && Commits(p.trace) == 0 by {
      EarlyIsUntouched(base, base, s, p, user);
    }
    NothingDone(base, s', After(p, r, b), user);
  }

  lemma EarlyIsUntouched(base: map<string, string>, objects: map<string, string>, s: Session, p: Pass, user: string)
    requires Progress(base, objects, s, p, user) && Early(p.pc)
    ensures objects == base && p.listed == [] && Commits(p.trace) == 0
  {
  }

  // ---------------------------------------------------------------- the listing

  lemma ListAnswer(w: World, k: Key, d: string, user: string, b: Beat)
    ensures var (w', r) := Api(w, k, QueryWrongOwners(d, user), b);
            r == Done ==> d in w.server.databases && SessionOf(w', k).cursor.Some?
                          && IsListing(SessionOf(w', k).cursor.value, Wrong(Objects(w.server, d), user))
  {
    if d in w.server.databases {
      assert WrongObjects(w.server.databases[d], user) == Wrong(Objects(w.server, d), user);
    }
  }

  lemma FetchAnswer(w: World, k: Key, b: Beat)
    ensures var (w', r) := Api(w, k, FetchRow, b);
            && (r.Row? ==> SessionOf(w, k).cursor.Some? && SessionOf(w', k).cursor.Some?
                           && SessionOf(w, k).cursor.value == [r.item] + SessionOf(w', k).cursor.value)
            && (r.EndOfRows? ==> SessionOf(w, k).cursor == Some([]))
  {
  }

  /** Where the repair goes next, and what it remembers of its listing. */
  predicate RepairMoves(p: Pass, r: Response, q: Pass) {
    match p.pc
    case ListWrongOwners =>
      if r == Done then q == p.(listed := [], todo := [], pc := FetchWrongOwner) else Failed(p, q)
    case FetchWrongOwner =>
      if r.Row? then q == p.(listed := p.listed + [r.item]) else q == p.(pc := CloseListing(r.EndOfRows?))
    case CloseListing(complete) =>
      if complete && r == Done then
        if p.listed == [] then q.pc.WriteStatus? && q.listed == p.listed
        else q == p.(todo := p.listed, pc := BeginRepair)
      else Failed(p, q)
    case CommitRepair =>
      if r != Done then Failed(p, q)
      else q.listed == p.listed && q.todo == (if p.todo != [] then p.todo[1..] else [])
           && (q.pc == BeginRepair || (q.pc == WriteStatus && q.todo == []))
    case _ => Failed(p, q) || (q.listed == p.listed && q.todo == p.todo && Repairing(q.pc))
  }

  predicate Failed(p: Pass, q: Pass) { q.pc == WriteFailure(Errored) && q.listed == p.listed && q.todo == p.todo }

  lemma ListingMovesOn(p: Pass, r: Response, b: Beat)
    requires p.pc.ListWrongOwners? || p.pc.FetchWrongOwner? || p.pc.CloseListing?
    ensures RepairMoves(p, r, ResumeRepair(p, r, b))
  {
    hide RepairFailed, Repaired, StatusStep, SameObject;
    RepairFailedFacts(p, b);
    RepairedFacts(p, b);
  }

  lemma CommitMovesOn(p: Pass, r: Response, b: Beat)
    requires p.pc.CommitRepair?
    ensures RepairMoves(p, r, ResumeRepair(p, r, b))
  {
    hide RepairFailed, Repaired, StatusStep, SameObject, IsTrue, ConnectionOf;
    if r == Done {
      RepairedFacts(p.(todo := if p.todo != [] then p.todo[1..] else []), b);
    } else {
      RepairFailedFacts(p, b);
    }
  }

  lemma StatementMovesOn(p: Pass, r: Response, b: Beat)
    requires p.pc.BeginRepair? || p.pc.LimitLockWait? || p.pc.RepairOwner? || p.pc.RollbackRepair?
    ensures RepairMoves(p, r, ResumeRepair(p, r, b))
  {
    hide RepairFailed, Repaired, StatusStep, SameObject;
    RepairFailedFacts(p, b);
  }

  lemma ListProgress(base: map<string, string>, w: World, k: Key, p: Pass, b: Beat)
    requires p.pc.ListWrongOwners? && base == Objects(w.server, DbName(p))
    requires Progress(base, base, SessionOf(w, k), p, RoleName(p))
    ensures var (w', r) := Api(w, k, NextCall(p), b);
            var q := After(p, r, b);
            && Progress(base, base, SessionOf(w', k), q, RoleName(p))
            && (InRepair(q.pc) ==> DbName(p) in w.server.databases)
  {
    var (w', r) := Api(w, k, NextCall(p), b);
    hide After, Api, ResumeRepair, RepairMoves, Progress, DbName, RoleName;
    ListAnswer(w, k, DbName(p), RoleName(p), b);
    AfterRepair(p, r, b);
    ListingMovesOn(p, r, b);
    MovesIgnoreTrace(p, r, ResumeRepair(p, r, b), After(p, r, b).trace);
    ListReached(base, SessionOf(w, k), SessionOf(w', k), p, r, After(p, r, b), RoleName(p));
  }

  lemma ListReached(base: map<string, string>, s: Session, s': Session, p: Pass, r: Response, q: Pass, user: string)
    requires p.pc.ListWrongOwners? && Progress(base, base, s, p, user)
    requires RepairMoves(p.(trace := q.trace), r, q) && Commits(q.trace) == Commits(p.trace)
    requires r == Done ==> s'.cursor.Some? && IsListing(s'.cursor.value, Wrong(base, user))
    ensures Progress(base, base, s', q, user)
    ensures InRepair(q.pc) ==> r == Done
  {
    hide Reown, IsListing, Commits;
    if r == Done {
      assert [] + s'.cursor.value == s'.cursor.value;
    } else {
      NothingDone(base, s', q, user);
    }
  }

  lemma AfterRepair(p: Pass, r: Response, b: Beat)
    requires InRepair(p.pc)
    ensures var q := After(p, r, b);
            && q == ResumeRepair(p, r, b).(trace := p.trace + [Observation(NextCall(p), r)])
            && Commits(q.trace) == Commits(p.trace) + (if p.pc.CommitRepair? && r == Done then 1 else 0)
            && Observation(NextCall(p), r) in q.trace
  {
    ResumeCases(p, r, b);
    CallKinds(p);
    hide ResumeRepair, Resume, NextCall, Commits;
    CommitsOf(p.trace, Observation(NextCall(p), r));
  }

  lemma PrefixPicked(items: seq<string>, rest: seq<string>, wrong: set<string>)
    requires IsListing(items + rest, wrong)
    ensures Picked(items, wrong)
  {
    forall i | 0 <= i < |items|
      ensures items[i] in wrong && forall j | i < j < |items| :: items[i] != items[j]
    {
      assert (items + rest)[i] == items[i];
      assert forall j | i < j < |items| :: (items + rest)[j] == items[j];
    }
  }

  lemma FetchProgress(base: map<string, string>, w: World, k: Key, p: Pass, b: Beat, user: string)
    requires p.pc.FetchWrongOwner? && Progress(base, base, SessionOf(w, k), p, user)
    ensures var (w', r) := Api(w, k, NextCall(p), b); Progress(base, base, SessionOf(w', k), After(p, r, b), user)
  {
    var (w', r) := Api(w, k, FetchRow, b);
    hide After, Api, ResumeRepair, RepairMoves, Progress;
    FetchAnswer(w, k, b);
    AfterRepair(p, r, b);
    ListingMovesOn(p, r, b);
    MovesIgnoreTrace(p, r, ResumeRepair(p, r, b), After(p, r, b).trace);
    FetchReached(base, SessionOf(w, k), SessionOf(w', k), p, r, After(p, r, b), user);
  }

  lemma FetchReached(base: map<string, string>, s: Session, s': Session, p: Pass, r: Response, q: Pass, user: string)
    requires p.pc.FetchWrongOwner? && Progress(base, base, s, p, user)
    requires RepairMoves(p.(trace := q.trace), r, q) && Commits(q.trace) == Commits(p.trace)
    requires r.Row? ==> s.cursor.Some? && s'.cursor.Some? && s.cursor.value == [r.item] + s'.cursor.value
    requires r.EndOfRows? ==> s.cursor == Some([])
    ensures Progress(base, base, s', q, user)
  {
    hide Reown, IsListing, Commits;
    if r.Row? {
      assert p.listed + s.cursor.value == (p.listed + [r.item]) + s'.cursor.value;
    } else {
      PrefixPicked(p.listed, s.cursor.value, Wrong(base, user));
      assert r.EndOfRows? ==> p.listed + s.cursor.value == p.listed;
    }
  }

  lemma NoneReowned(base: map<string, string>, user: string)
    ensures Reown(base, [], user) == base
  {
  }

  lemma CloseProgress(base: map<string, string>, s: Session, s': Session, p: Pass, r: Response, b: Beat, user: string)
    requires p.pc.CloseListing? && Progress(base, base, s, p, user)
    ensures Progress(base, base, s', After(p, r, b), user)
  {
    hide After, ResumeRepair, RepairMoves, Progress;
    AfterRepair(p, r, b);
    ListingMovesOn(p, r, b);
    MovesIgnoreTrace(p, r, ResumeRepair(p, r, b), After(p, r, b).trace);
    CloseReached(base, s, s', p, r, After(p, r, b), user);
  }

  lemma MovesIgnoreTrace(p: Pass, r: Response, q: Pass, trace: seq<Observation>)
    requires InRepair(p.pc) && RepairMoves(p, r, q)
    ensures RepairMoves(p.(trace := trace), r, q.(trace := trace))
  {
  }

  lemma CloseReached(base: map<string, string>, s: Session, s': Session, p: Pass, r: Response, q: Pass, user: string)
    requires p.pc.CloseListing? && Progress(base, base, s, p, user)
    requires RepairMoves(p.(trace := q.trace), r, q) && Commits(q.trace) == Commits(p.trace)
    ensures Progress(base, base, s', q, user)
  {
    hide Reown, IsListing, Picked, Commits;
    NoneReowned(base, user);
    assert q.listed[..0] == [];
    if q.pc.WriteStatus? {
      assert IsListing(q.listed, Wrong(base, user));
      assert q.listed[..|q.listed|] == [];
    } else if q.pc.WriteFailure? {
      assert PrefixDone(base, base, q, user, 0);
    }
  }

  lemma ListingIsPicked(items: seq<string>, wrong: set<string>)
    requires IsListing(items, wrong)
    ensures Picked(items, wrong)
  {
  }

  lemma StatementProgress(base: map<string, string>, objects: map<string, string>, s: Session, s': Session,
                          p: Pass, r: Response, b: Beat, user: string)
    requires p.pc.BeginRepair? || p.pc.LimitLockWait? || p.pc.RepairOwner? || p.pc.RollbackRepair?
    requires Progress(base, objects, s, p, user)
    ensures Progress(base, objects, s', After(p, r, b), user)
  {
    hide After, ResumeRepair, RepairMoves, Progress;
    AfterRepair(p, r, b);
    StatementMovesOn(p, r, b);
    MovesIgnoreTrace(p, r, ResumeRepair(p, r, b), After(p, r, b).trace);
    StatementReached(base, objects, s, s', p, r, After(p, r, b), user);
  }

  lemma StatementReached(base: map<string, string>, objects: map<string, string>, s: Session, s': Session,
                         p: Pass, r: Response, q: Pass, user: string)
    requires p.pc.BeginRepair? || p.pc.LimitLockWait? || p.pc.RepairOwner? || p.pc.RollbackRepair?
    requires Progress(base, objects, s, p, user)
    requires RepairMoves(p.(trace := q.trace), r, q) && Commits(q.trace) == Commits(p.trace)
    ensures Progress(base, objects, s', q, user)
  {
    hide Reown, IsListing, Picked, Commits;
    ListingIsPicked(p.listed, Wrong(base, user));
    if q.pc.WriteFailure? {
      assert PrefixDone(base, objects, q, user, |p.listed| - |p.todo|);
    }
  }

  /** One more item of the listing. */
  lemma OneMore(base: map<string, string>, items: seq<string>, n: nat, user: string)
    requires n < |items|
    ensures Reown(Reown(base, items[..n], user), [items[n]], user) == Reown(base, items[..n + 1], user)
  {
    assert items[..n + 1] == items[..n] + [items[n]];
  }

  lemma CommitProgress(base: map<string, string>, w: World, k: Key, p: Pass, b: Beat)
    requires p.pc.CommitRepair? && DisciplineOk(SessionOf(w, k), p) && DbName(p) in w.server.databases
    requires Progress(base, Objects(w.server, DbName(p)), SessionOf(w, k), p, RoleName(p))
    ensures var (w', r) := Api(w, k, NextCall(p), b);
            Progress(base, Objects(w'.server, DbName(p)), SessionOf(w', k), After(p, r, b), RoleName(p))
  {
    hide After, Api, ResumeRepair, RepairMoves, Progress, Reown, SessionOk, DbName, RoleName, Commits;
    var (w', r) := Api(w, k, Commit, b);
    var q := After(p, r, b);
    CommitMovesOne(w, k, p, b, DbName(p));
    AfterRepair(p, r, b);
    CommitMovesOn(p, r, b);
    MovesIgnoreTrace(p, r, ResumeRepair(p, r, b), q.trace);
    if r == Done {
      CommitReached(base, Objects(w.server, DbName(p)), SessionOf(w, k), SessionOf(w', k), p, r, q, RoleName(p));
    } else {
      CommitMissed(base, Objects(w.server, DbName(p)), SessionOf(w, k), SessionOf(w', k), p, q, RoleName(p), Takes(b));
    }
  }

  /** The item at hand is the next of the listing. */
  lemma NextItem(base: map<string, string>, objects: map<string, string>, s: Session, p: Pass, user: string)
    requires p.pc.CommitRepair? && Progress(base, objects, s, p, user) && TodoOk(p)
    ensures var n := |p.listed| - |p.todo|;
            && n < |p.listed| && Commits(p.trace) == n && IsListing(p.listed, Wrong(base, user))
            && objects == Reown(base, p.listed[..n], user)
            && Reown(objects, p.todo[..1], user) == Reown(base, p.listed[..n + 1], user)
  {
    hide Reown, IsListing, Commits, Progress;
    CommitIsUnderway(base, objects, s, p, user);
    var n := |p.listed| - |p.todo|;
    assert p.todo[..1] == [p.listed[n]];
    OneMore(base, p.listed, n, user);
  }

  lemma CommitIsUnderway(base: map<string, string>, objects: map<string, string>, s: Session, p: Pass, user: string)
    requires p.pc.CommitRepair? && Progress(base, objects, s, p, user)
    ensures Underway(base, objects, p, user)
  {
  }

  lemma CommitReached(base: map<string, string>, objects: map<string, string>, s: Session, s': Session,
                      p: Pass, r: Response, q: Pass, user: string)
    requires p.pc.CommitRepair? && Progress(base, objects, s, p, user) && TodoOk(p)
    requires r == Done && RepairMoves(p.(trace := q.trace), r, q) && Commits(q.trace) == Commits(p.trace) + 1
    ensures Progress(base, Reown(objects, p.todo[..1], user), s', q, user)
  {
    hide Reown, IsListing, Commits, Progress, TodoOk, FullyDone, Underway, RepairMoves;
    NextItem(base, objects, s, p, user);
    CommitLeads(base, Reown(objects, p.todo[..1], user), p, r, q, user);
    if q.pc.WriteStatus? {
      PublishedNext(base, Reown(objects, p.todo[..1], user), s', q, user);
    } else {
      MoreToDo(base, Reown(objects, p.todo[..1], user), s', q, user);
    }
  }

  /** One item less to do: the whole listing is done, or the next item is at hand. */
  lemma CommitLeads(base: map<string, string>, objects: map<string, string>, p: Pass, r: Response, q: Pass,
                    user: string)
    requires p.pc.CommitRepair? && 0 < |p.todo| <= |p.listed| && IsListing(p.listed, Wrong(base, user))
    requires r == Done && RepairMoves(p.(trace := q.trace), r, q) && Commits(q.trace) == |p.listed| - |p.todo| + 1
    requires objects == Reown(base, p.listed[..|p.listed| - |p.todo| + 1], user)
    ensures (q.pc.WriteStatus? && FullyDone(base, objects, q, user))
            || (q.pc.BeginRepair? && Underway(base, objects, q, user))
  {
    hide Reown, IsListing, Commits, Wrong;
  }

  lemma PublishedNext(base: map<string, string>, objects: map<string, string>, s: Session, q: Pass, user: string)
    requires q.pc.WriteStatus? && FullyDone(base, objects, q, user)
    ensures Progress(base, objects, s, q, user)
  {
  }

  lemma MoreToDo(base: map<string, string>, objects: map<string, string>, s: Session, q: Pass, user: string)
    requires q.pc.BeginRepair? && Underway(base, objects, q, user)
    ensures Progress(base, objects, s, q, user)
  {
  }

  /** A commit that reports a failure may have taken effect or not. */
  lemma CommitMissed(base: map<string, string>, objects: map<string, string>, s: Session, s': Session,
                     p: Pass, q: Pass, user: string, moved: bool)
    requires p.pc.CommitRepair? && Progress(base, objects, s, p, user) && TodoOk(p)
    requires RepairMoves(p.(trace := q.trace), Error, q)
    requires Commits(q.trace) == Commits(p.trace) && Observation(Commit, Error) in q.trace
    ensures Progress(base, if moved then Reown(objects, p.todo[..1], user) else objects, s', q, user)
  {
    NextItem(base, objects, s, p, user);
    ListingIsPicked(p.listed, Wrong(base, user));
    hide Reown, IsListing, Commits, Picked;
    var n := |p.listed| - |p.todo|;
    assert PrefixDone(base, if moved then Reown(objects, p.todo[..1], user) else objects, q, user,
                      if moved then n + 1 else n);
  }

  // ---------------------------------------------------------------- one call of a pass

  lemma WriteProgress(base: map<string, string>, objects: map<string, string>, s: Session, s': Session,
                      p: Pass, r: Response, b: Beat, user: string)
    requires p.pc.WriteStatus? || p.pc.WriteFailure?
    requires Control(p) && !p.obj.deleting && Progress(base, objects, s, p, user)
    ensures Progress(base, objects, s', After(p, r, b), user)
  {
    hide Resume, NextCall, After, Commits, Progress, Reown, IsListing, Picked, Control;
    WriteStops(p, r, b);
    CommitsOf(p.trace, Observation(NextCall(p), r));
    WriteReached(base, objects, s, s', p, After(p, r, b), user);
  }

  lemma WriteStops(p: Pass, r: Response, b: Beat)
    requires (p.pc.WriteStatus? || p.pc.WriteFailure?) && Control(p) && !p.obj.deleting
    ensures var q := After(p, r, b);
            && q.listed == p.listed && q.pc.Stopped? && (q.pc.ending.Published? ==> p.pc.WriteStatus?)
            && q.trace == p.trace + [Observation(NextCall(p), r)] && NextCall(p).UpdateStatus?
  {
    hide Coherent;
  }

  lemma WriteReached(base: map<string, string>, objects: map<string, string>, s: Session, s': Session,
                     p: Pass, q: Pass, user: string)
    requires p.pc.WriteStatus? || p.pc.WriteFailure?
    requires Progress(base, objects, s, p, user)
    requires q.listed == p.listed && q.pc.Stopped? && Commits(q.trace) == Commits(p.trace)
    requires q.pc.ending.Published? ==> p.pc.WriteStatus?
    requires Observation(Commit, Error) in p.trace ==> Observation(Commit, Error) in q.trace
    ensures Progress(base, objects, s', q, user)
  {
    hide Reown, IsListing, Picked, Commits;
    ghost var n: nat;
    if p.pc.WriteStatus? {
      ListingIsPicked(p.listed, Wrong(base, user));
      n := |p.listed|;
    } else {
      n :| PrefixDone(base, objects, p, user, n);
    }
    assert PrefixDone(base, objects, q, user, n);
  }

  /** The repair part of a step: owners and listing stay in step with each other. */
  lemma StepProgress(base: map<string, string>, w: World, k: Key, p: Pass, b: Beat)
    requires PassOk(w, k, p) && DisciplineOk(SessionOf(w, k), p) && !p.pc.ReadResource? && !p.obj.deleting
             && !p.pc.Stopped?
    requires Progress(base, Objects(w.server, DbName(p)), SessionOf(w, k), p, RoleName(p))
    requires InRepair(p.pc) && !p.pc.ListWrongOwners? ==> DbName(p) in w.server.databases
    ensures var (w', r) := Api(w, k, NextCall(p), b);
            var q := After(p, r, b);
            && Progress(base, Objects(w'.server, DbName(p)), SessionOf(w', k), q, RoleName(p))
            && (InRepair(q.pc) && p.pc.ListWrongOwners? ==> DbName(p) in w.server.databases)
  {
    var (w', r) := Api(w, k, NextCall(p), b);
    var (d, u) := (DbName(p), RoleName(p));
    Kinds(p);
    hide After, Api, NextCall, Finalized, Synced, DisciplineOk, Commits, Picked, Reown, DbName, RoleName;
    if p.pc.CommitRepair? {
      CommitProgress(base, w, k, p, b);
    } else {
      ApiKeepsObjects(w, k, NextCall(p), b, d);
      hide Progress, Control;
      if p.pc.ListWrongOwners? {
        EarlyIsUntouched(base, Objects(w.server, d), SessionOf(w, k), p, u);
        ListProgress(base, w, k, p, b);
      } else if p.pc.FetchWrongOwner? {
        WhileListing(base, Objects(w.server, d), SessionOf(w, k), p, u);
        FetchProgress(base, w, k, p, b, u);
      } else if p.pc.CloseListing? {
        WhileListing(base, Objects(w.server, d), SessionOf(w, k), p, u);
        CloseProgress(base, SessionOf(w, k), SessionOf(w', k), p, r, b, u);
      } else if Early(p.pc) {
        EarlyIsUntouched(base, Objects(w.server, d), SessionOf(w, k), p, u);
        EarlyProgress(base, SessionOf(w, k), SessionOf(w', k), p, r, b, u);
      } else if InRepair(p.pc) {
        StatementProgress(base, Objects(w.server, d), SessionOf(w, k), SessionOf(w', k), p, r, b, u);
      } else {
        WriteProgress(base, Objects(w.server, d), SessionOf(w, k), SessionOf(w', k), p, r, b, u);
      }
    }
  }

  lemma WhileListing(base: map<string, string>, objects: map<string, string>, s: Session, p: Pass, user: string)
    requires (p.pc.FetchWrongOwner? || p.pc.CloseListing?) && Progress(base, objects, s, p, user)
    ensures objects == base
  {
  }

  lemma Kinds(p: Pass)
    requires Control(p) && !p.obj.deleting
    ensures NextCall(p).Commit? <==> p.pc.CommitRepair?
    ensures Early(p.pc) || InRepair(p.pc) || p.pc.WriteStatus? || p.pc.WriteFailure? || p.pc.Stopped?
  {
    CallKinds(p);
  }

  lemma NamesOf(p: Pass, r: Resource)
    requires WorksOn(p, r) && Live(p)
    ensures DbName(p) == DatabaseNameOf(r) && RoleName(p) == UserNameOf(r)
  {
  }

  lemma InSameDatabase(w: World, k: Key, p: Pass, b: Beat, d: string)
    requires PassOk(w, k, p) && DisciplineOk(SessionOf(w, k), p)
    requires !p.pc.ReadResource? ==> !p.obj.deleting
    ensures d in w.server.databases ==> d in Api(w, k, NextCall(p), b).0.server.databases
  {
    hide Api, NextCall, Finalized, Synced, SessionOk;
    CallDrops(w, k, p, b);
  }

  lemma OtherDatabases(w: World, k: Key, p: Pass, b: Beat, d: string)
    requires PassOk(w, k, p) && DisciplineOk(SessionOf(w, k), p) && !p.pc.Stopped?
    requires !p.pc.ReadResource? ==> !p.obj.deleting && d != DbName(p)
    ensures Objects(Api(w, k, NextCall(p), b).0.server, d) == Objects(w.server, d)
  {
    CallKinds(p);
    hide Api, Finalized, Synced, SessionOk, DbName, RoleName;
    if p.pc.CommitRepair? {
      CommitMovesOne(w, k, p, b, d);
    } else {
      ApiKeepsObjects(w, k, NextCall(p), b, d);
    }
  }

  /** Everything one call of a pass keeps. */
  ghost predicate AllOk(s: Server, r: Resource, w: World, k: Key, p: Pass) {
    StoreOk(w) && PassOk(w, k, p) && DisciplineOk(SessionOf(w, k), p) && RepairOk(s, r, w, k, p)
  }

  lemma RepairStepOk(s: Server, r: Resource, w: World, k: Key, p: Pass, b: Beat)
    requires AllOk(s, r, w, k, p) && Live(p)
    ensures var (w', p') := Step(w, p, b); RepairOk(s, r, w', k, p')
  {
    hide Step, Control, Finalized, Synced, StatusOk, DisciplineOk, Progress, Objects, DatabaseNameOf, UserNameOf;
    StillWorksOn(w, k, p, b, r);
    NamesOf(p, r);
    StepProgressOk(s, w, k, p, b);
    hide StoreOk, PassOk;
    OthersUntouched(s, w, k, p, b);
  }

  lemma StepProgressOk(s: Server, w: World, k: Key, p: Pass, b: Beat)
    requires PassOk(w, k, p) && DisciplineOk(SessionOf(w, k), p) && Live(p) && !p.obj.deleting
    requires Progress(Objects(s, DbName(p)), Objects(w.server, DbName(p)), SessionOf(w, k), p, RoleName(p))
    requires InRepair(p.pc) && !p.pc.ListWrongOwners? ==> DbName(p) in w.server.databases
    ensures var (w', q) := Step(w, p, b);
            && Progress(Objects(s, DbName(p)), Objects(w'.server, DbName(p)), SessionOf(w', k), q, RoleName(p))
            && (InRepair(q.pc) && !q.pc.ListWrongOwners? ==> DbName(p) in w'.server.databases)
  {
    var r := Api(w, k, NextCall(p), b).1;
    assert Step(w, p, b) == (Api(w, k, NextCall(p), b).0, After(p, r, b));
    if InRepair(After(p, r, b).pc) && !After(p, r, b).pc.ListWrongOwners? {
      ComesFromRepair(p, r, b);
    }
    hide Step, Control, Finalized, Synced, StatusOk, DisciplineOk, Progress, Objects, DbName, RoleName, Api, After;
    StepProgress(Objects(s, DbName(p)), w, k, p, b);
    InSameDatabase(w, k, p, b, DbName(p));
  }

  lemma ComesFromRepair(p: Pass, r: Response, b: Beat)
    requires Live(p) && Control(p) && !p.obj.deleting
    requires InRepair(Resume(p, r, b).pc) && !Resume(p, r, b).pc.ListWrongOwners?
    ensures InRepair(p.pc)
  {
    hide Resume, Control, NextCall, SameObject, StatusStep;
    Kinds(p);
    if Early(p.pc) && !p.pc.ListWrongOwners? {
      EarlyMoves(p, r, b);
    } else if p.pc.WriteStatus? || p.pc.WriteFailure? {
      WritesGoOn(p, r, b);
    }
  }

  lemma WritesGoOn(p: Pass, r: Response, b: Beat)
    requires p.pc.WriteStatus? || p.pc.WriteFailure?
    ensures var q := Resume(p, r, b); q.pc.Stopped? || q.pc.Refetch?
  {
  }

  lemma OthersUntouched(s: Server, w: World, k: Key, p: Pass, b: Beat)
    requires PassOk(w, k, p) && DisciplineOk(SessionOf(w, k), p) && Live(p) && !p.obj.deleting
    requires forall d | d != DbName(p) :: Objects(w.server, d) == Objects(s, d)
    ensures var w' := Step(w, p, b).0;
            forall d | d != DbName(p) :: Objects(w'.server, d) == Objects(s, d)
  {
    StepWorld(w, p, b);
    hide Step, Control, Finalized, Synced, DisciplineOk, Objects, DbName, Api, NextCall;
    forall d | d != DbName(p)
      ensures Objects(Step(w, p, b).0.server, d) == Objects(s, d)
    {
      OtherDatabases(w, k, p, b, d);
    }
  }

  lemma StepWorld(w: World, p: Pass, b: Beat)
    ensures Step(w, p, b).0 == Api(w, p.key, NextCall(p), b).0
  {
  }

  /** The first call reads the resource. */
  lemma FirstStepOk(w: World, k: Key, b: Beat)
    requires StoreOk(w) && k in w.resources && !w.resources[k].deleting && SessionOf(w, k) == IDLE
    ensures var (w', p') := Step(w, InitialPass(k), b); RepairOk(w.server, w.resources[k], w', k, p')
  {
    var p, r, resource := InitialPass(k), Api(w, k, GetResource(k), b).1, w.resources[k];
    StartKeeps(w, k);
    ReadAnswer(w, k, b);
    assert Step(w, p, b) == (w, After(p, r, b));
    StillWorksOn(w, k, p, b, resource);
    var base := Objects(w.server, DatabaseNameOf(resource));
    var q := After(p, r, b);
    assert q.pc == ReadCluster || q.pc == Stopped(Ignored) || q.pc == Stopped(Errored);
    hide Api, Resume, Step, StoreOk, PassOk, Reown, Objects;
    CommitsOf([], Observation(GetResource(k), r));
    assert q.trace == [] + [Observation(GetResource(k), r)];
    assert q.listed == [];
    hide Progress, InitialPass, After;
    NothingDone(base, SessionOf(w, k), q, UserNameOf(resource));
  }

  lemma NeverRereads(w: World, p: Pass, b: Beat)
    ensures !Step(w, p, b).1.pc.ReadResource?
  {
    var r := Api(w, p.key, NextCall(p), b).1;
    ResumeCases(p, r, b);
    hide Resume, ResumeFront, ResumeSecret, ResumeSql, ResumeRepair, StatusStep, Api, NextCall;
    if p.pc.ReadCluster? {
      ReadClusterFacts(p, r, b);
    } else if p.pc.ReadCredential? {
      ReadCredentialFacts(p, r, b);
    } else if p.pc.ReadResource? || p.pc.AddFinalizer? {
      FrontGoesOn(p, r, b);
    } else if Middle(p.pc) {
      MiddleFacts(p, r, b);
    } else if InSql(p.pc) {
      SqlFacts(p, r, b);
    } else if InRepair(p.pc) {
      RepairFacts(p, r, b);
    }
  }

  lemma FrontGoesOn(p: Pass, r: Response, b: Beat)
    requires p.pc.ReadResource? || p.pc.AddFinalizer?
    ensures !ResumeFront(p, r, b).pc.ReadResource?
  {
    hide Resolve, Accept;
  }

  lemma {:induction false} DriveOk(s: Server, r: Resource, w: World, k: Key, p: Pass, tape: seq<Beat>)
    requires AllOk(s, r, w, k, p) && !p.pc.ReadResource?
    ensures var (w', p') := Drive(w, p, tape); AllOk(s, r, w', k, p')
    decreases |tape|
  {
    hide RepairOk, StoreOk, DisciplineOk, Control, Finalized, Synced, Step;
    if !p.pc.Stopped? && tape != [] {
      var (w1, p1) := Step(w, p, tape[0]);
      RepairStepOk(s, r, w, k, p, tape[0]);
      StepKeeps(w, k, p, tape[0]);
      StepDiscipline(w, k, p, tape[0]);
      NeverRereads(w, p, tape[0]);
      DriveOk(s, r, w1, k, p1, tape[1..]);
    }
  }

  /**
   * Atomic prefix: a pass that dies or stops anywhere has given the role exactly a prefix of the objects it listed:
   * as many as commits were answered, or one more when the last commit reported a failure. It has changed the owner of
   * no other object, in this or any other database. What it listed was wrongly owned, each object once; and if the pass
   * was published, that was every such object, and none is left.
   */
  lemma AtomicPrefix(w: World, k: Key, tape: seq<Beat>)
    requires StoreOk(w) && k in w.resources && !w.resources[k].deleting && tape != []
    ensures var (w', p') := RunPass(w, k, tape);
            var (d, u) := (DatabaseNameOf(w.resources[k]), UserNameOf(w.resources[k]));
            var (before, after) := (Objects(w.server, d), Objects(w'.server, d));
            && Picked(p'.listed, Wrong(before, u))
            && (exists n: nat :: PrefixDone(before, after, p', u, n))
            && (forall e | e != d :: Objects(w'.server, e) == Objects(w.server, e))
            && (p'.pc == Stopped(Published) ==> IsListing(p'.listed, Wrong(before, u)) && Wrong(after, u) == {})
  {
    var r := w.resources[k];
    var (d, u) := (DatabaseNameOf(r), UserNameOf(r));
    var w0, p0 := WithSession(w, k, IDLE), InitialPass(k);
    var (w1, p1) := Step(w0, p0, tape[0]);
    var (w', p') := Drive(w1, p1, tape[1..]);
    assert RunPass(w, k, tape) == (w', p');
    var (before, after) := (Objects(w.server, d), Objects(w'.server, d));
    assert AllOk(w.server, r, w', k, p') by {
      hide Drive, Step;
      StartKeeps(w0, k);
      FirstStepOk(w0, k, tape[0]);
      StepKeeps(w0, k, p0, tape[0]);
      StartsIdle(w, k);
      StepDiscipline(w0, k, p0, tape[0]);
      NeverRereads(w0, p0, tape[0]);
      DriveOk(w.server, r, w1, k, p1, tape[1..]);
    }
    hide Drive, Step, StoreOk, PassOk, DisciplineOk;
    AnyPointIsPrefix(before, after, SessionOf(w', k), p', u);
    if p'.pc == Stopped(Published) {
      ListedMeansNoneLeft(before, p'.listed, u);
      assert p'.listed[..|p'.listed|] == p'.listed;
    }
  }

  lemma AnyPointIsPrefix(base: map<string, string>, objects: map<string, string>, s: Session, p: Pass, user: string)
    requires Progress(base, objects, s, p, user)
    ensures Picked(p.listed, Wrong(base, user))
    ensures exists n: nat :: PrefixDone(base, objects, p, user, n)
    ensures p.pc == Stopped(Published) ==> FullyDone(base, objects, p, user)
  {
    hide Reown, Commits;
    NoneReowned(base, user);
    if p.pc.FetchWrongOwner? {
      PrefixPicked(p.listed, s.cursor.value, Wrong(base, user));
      assert PrefixDone(base, objects, p, user, 0);
    } else if Repairing(p.pc) {
      assert PrefixDone(base, objects, p, user, |p.listed| - |p.todo|);
    } else if p.pc.WriteStatus? {
      assert PrefixDone(base, objects, p, user, |p.listed|);
    } else if !p.pc.WriteFailure? && !p.pc.Stopped? {
      assert PrefixDone(base, objects, p, user, 0);
    }
  }

  lemma ListedMeansNoneLeft(base: map<string, string>, items: seq<string>, user: string)
    requires IsListing(items, Wrong(base, user))
    ensures Wrong(Reown(base, items, user), user) == {}
  {
  }
}
