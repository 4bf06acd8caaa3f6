/** A run that leaves Ready True beside ClusterReady False: the resource is Ready, then its cluster is deleted. */
module StaleReady {
  import opened Basics
  import opened Conditions
  import opened Model
  import opened Machine
  import opened MachineFacts
  import opened Frames
  import opened System
  import opened Invariants
  import opened RepairSafety
  import opened Convergence
  import opened FaultFree
  import opened ReadyAgreement

  // ---------------------------------------------------------------- one pass over a resource without its cluster

  /** The first three calls of a pass that reads an unmarked resource and then finds no cluster. */
  lemma FindsNoCluster(w: World, k: Key, b: Beat)
    requires Existing(w, k) && IsReady(w.resources[k]) && ClusterKeyOf(w.resources[k]) !in w.clusters && b.luck == Works
    ensures var (w3, p3) := Drive(w, InitialPass(k), [b, b, b]);
            k in w3.resources && Disagrees(w3.resources[k])
  {
    var r := w.resources[k];
    assert r.key == k by { assert StoredOk(w, k); }
    var (w1, p1) := Step(w, InitialPass(k), b);
    assert w1 == w && p1.pc == ReadCluster && p1.obj == r && p1.key == k by { hide StoreOk, IsTrue; }
    var (w2, p2) := Step(w, p1, b);
    NothingRead(w, p1, b);
    var (w3, p3) := Step(w2, p2, b);
    FailureWritten(w, p2, r, b);
    assert Drive(w, InitialPass(k), [b, b, b]) == (w3, p3) by {
      hide Step;
      ThreeSteps(w, InitialPass(k), b);
    }
  }

  lemma ThreeSteps(w: World, p: Pass, b: Beat)
    requires !p.pc.Stopped? && !Step(w, p, b).1.pc.Stopped?
    requires var (w1, p1) := Step(w, p, b); !Step(w1, p1, b).1.pc.Stopped?
    ensures var (w1, p1) := Step(w, p, b);
            var (w2, p2) := Step(w1, p1, b);
            Drive(w, p, [b, b, b]) == Step(w2, p2, b)
  {
    hide Step;
    var (w1, p1) := Step(w, p, b);
    var (w2, p2) := Step(w1, p1, b);
    var (w3, p3) := Step(w2, p2, b);
    assert [b, b, b][1..] == [b, b] && [b, b][1..] == [b] && [b][1..] == [];
    assert Drive(w3, p3, []) == (w3, p3);
    assert Drive(w2, p2, [b]) == Drive(w3, p3, [b][1..]);
    assert Drive(w1, p1, [b, b]) == Drive(w2, p2, [b, b][1..]);
    assert Drive(w, p, [b, b, b]) == Drive(w1, p1, [b, b, b][1..]);
  }

  lemma NothingRead(w: World, p: Pass, b: Beat)
    requires p.pc == ReadCluster && !p.obj.deleting && ClusterKeyOf(p.obj) !in w.clusters && b.luck == Works
    ensures var (w', q) := Step(w, p, b);
            && w' == w && q.pc == WriteFailure(Requeued) && q.key == p.key && q.obj.(status := p.obj.status) == p.obj
            && !Holds(q, "ClusterReady") && Holds(q, "Ready") == Holds(p, "Ready")
  {
    hide Api, NextCall, FailWith, IsTrue, StatusStep, Coherent;
    ClusterIsGone(w, p, b);
    FailWithFacts(p, "ClusterReady", "cluster not read", b.now, Requeued);
  }

  lemma ClusterIsGone(w: World, p: Pass, b: Beat)
    requires p.pc == ReadCluster && ClusterKeyOf(p.obj) !in w.clusters && b.luck == Works
    ensures Api(w, p.key, NextCall(p), b) == (w, NotFound)
  {
  }

  lemma FailureWritten(w: World, p: Pass, r: Resource, b: Beat)
    requires p.pc == WriteFailure(Requeued) && p.obj.(status := r.status) == r && r.key == p.key
    requires p.key in w.resources && w.resources[p.key] == r && !r.deleting && b.luck == Works
    requires !Holds(p, "ClusterReady") && Holds(p, "Ready")
    ensures var w' := Step(w, p, b).0; p.key in w'.resources && Disagrees(w'.resources[p.key])
  {
    hide IsTrue, Resume;
  }

  // ---------------------------------------------------------------- the run

  /** The cluster is deleted, and the resource is reconciled again. */
  function Aftermath(k: Key, cluster: Key, b: Beat): seq<Event> {
    [Outside(DropCluster(cluster)), Start(k)] + Turns(k, [b, b, b])
  }

  lemma {:induction false} RunConcat(s: Sys, first: seq<Event>, second: seq<Event>)
    ensures Run(s, first + second) == Run(Run(s, first), second)
    decreases |first|
  {
    hide Next;
    if first == [] {
      assert first + second == second;
    } else {
      assert (first + second)[1..] == first[1..] + second;
      RunConcat(Next(s, first[0]), first[1..], second);
    }
  }

  lemma RunTwo(s: Sys, a: Event, b: Event)
    ensures Run(s, [a, b]) == Next(Next(s, a), b)
  {
    hide Next;
    assert [a, b][1..] == [b] && [b][1..] == [];
    assert Run(Next(Next(s, a), b), []) == Next(Next(s, a), b);
    assert Run(Next(s, a), [b]) == Run(Next(Next(s, a), b), [b][1..]);
  }

  /** Any Ready resource whose cluster is deleted is left in this state by its next pass, although no call fails. */
  lemma LosesItsCluster(s: Sys, k: Key, b: Beat)
    requires Existing(s.w, k) && IsReady(s.w.resources[k]) && !Running(s, k) && b.luck == Works
    ensures var t := Run(s, Aftermath(k, ClusterKeyOf(s.w.resources[k]), b));
            k in t.w.resources && Disagrees(t.w.resources[k])
  {
    hide Next, Run, Turns, Drive, StoreOk, IsTrue, Running, ClusterKeyOf, Disagrees;
    var drop := Outside(DropCluster(ClusterKeyOf(s.w.resources[k])));
    var s1 := Next(Next(s, drop), Start(k));
    StartsWithoutCluster(s, k);
    RunTwo(s, drop, Start(k));
    RunConcat(s, [drop, Start(k)], Turns(k, [b, b, b]));
    DriveIsRun(s1, k, [b, b, b]);
    FindsNoCluster(s1.w, k, b);
  }

  lemma StartsWithoutCluster(s: Sys, k: Key)
    requires Existing(s.w, k) && !Running(s, k)
    ensures var r := s.w.resources[k];
            var s1 := Next(Next(s, Outside(DropCluster(ClusterKeyOf(r)))), Start(k));
            && Existing(s1.w, k) && s1.w.resources == s.w.resources && ClusterKeyOf(r) !in s1.w.clusters
            && k in s1.passes && s1.passes[k] == InitialPass(k)
  {
    hide StatusOk, ClusterKeyOf;
  }

  // ---------------------------------------------------------------- a concrete run

  const ORDERS: Key := Key("shop", "orders")
  const MAIN: Key := Key("shop", "main")

  const NEW_RESOURCE: Resource :=
    Resource(ORDERS, 0, 0, 1, false, [], Spec(Key("", "main"), "", "", "Retain"), EMPTY_STATUS)

  const READY_CLUSTER: Cluster :=
    Cluster(Some(Source("host", None)), 0, Some(Source("admin", None)), Some(Source("password", None)),
            [Condition("Ready", True, "Ready", "", 0, 1)])

  const FRESH_START: Sys :=
    Sys(World(map[ORDERS := NEW_RESOURCE], map[], map[MAIN := READY_CLUSTER], Server(map[], map[], map[], false),
        map[], 1),
        map[], {}, {}, {})

  const CALM: Beat := Beat(Works, 0, [], seq(32, i => 0), true)

  function Calm(n: nat): seq<Beat> { seq(n, i => CALM) }

  lemma StartsServed()
    ensures Initial(FRESH_START) && Existing(FRESH_START.w, ORDERS) && ClusterServes(FRESH_START.w, NEW_RESOURCE)
    ensures Wrong(Objects(FRESH_START.w.server, DatabaseNameOf(NEW_RESOURCE)), UserNameOf(NEW_RESOURCE)) == {}
    ensures ClusterKeyOf(NEW_RESOURCE) == MAIN
  {
    assert READY_CLUSTER.conditions[0].kind == "Ready" && READY_CLUSTER.conditions[0].status == True;
  }

  /** The first pass, without a fault, makes the new resource Ready. */
  lemma BecomesReady()
    ensures var s := Run(FRESH_START, [Start(ORDERS)] + Turns(ORDERS, Calm(28)));
            && Existing(s.w, ORDERS) && IsReady(s.w.resources[ORDERS]) && !Running(s, ORDERS)
            && ClusterKeyOf(s.w.resources[ORDERS]) == MAIN
  {
    StartsServed();
    var w, tape := FRESH_START.w, Calm(28);
    assert FRESH_START.w.resources[ORDERS] == NEW_RESOURCE;
    assert Smooth(CALM, {}, true);
    assert forall b | b in tape :: b == CALM;
    var s1 := Next(FRESH_START, Start(ORDERS));
    assert s1.w == WithSession(w, ORDERS, IDLE) && s1.passes[ORDERS] == InitialPass(ORDERS) && ORDERS in s1.passes;
    assert Run(FRESH_START, [Start(ORDERS)]) == s1 by { RunOne(FRESH_START, Start(ORDERS)); }
    hide ClusterServes, Existing, Smooth, Run, Next, Turns, Drive, Objects, Wrong, Calm;
    FaultFreePass(w, ORDERS, tape, true);
    RunConcat(FRESH_START, [Start(ORDERS)], Turns(ORDERS, tape));
    DriveIsRun(s1, ORDERS, tape);
    SameResource(w, ORDERS, tape);
    StillExisting(w, ORDERS, tape);
    PhaseSaysReady(RunPass(w, ORDERS, tape).0, ORDERS);
    SameCluster(RunPass(w, ORDERS, tape).0.resources[ORDERS], NEW_RESOURCE);
  }

  lemma RunOne(s: Sys, e: Event)
    ensures Run(s, [e]) == Next(s, e)
  {
    hide Next;
    assert [e][1..] == [];
    assert Run(Next(s, e), []) == Next(s, e);
  }

  lemma SameCluster(r: Resource, other: Resource)
    requires r.key == other.key && r.spec == other.spec
    ensures ClusterKeyOf(r) == ClusterKeyOf(other)
  {
  }

  lemma PhaseSaysReady(w: World, k: Key)
    requires Existing(w, k) && w.resources[k].status.phase == Phase.Ready
    ensures IsReady(w.resources[k])
  {
    assert StoredOk(w, k);
  }

  /** From an empty server: one pass without a fault, the cluster deleted, one more pass without a fault. */
  lemma StaleReadyHappens()
    ensures Initial(FRESH_START)
    ensures var t := Run(FRESH_START, [Start(ORDERS)] + Turns(ORDERS, Calm(28)) + Aftermath(ORDERS, MAIN, CALM));
            ORDERS in t.w.resources && Disagrees(t.w.resources[ORDERS])
  {
    StartsServed();
    hide Existing, Run, Turns, Aftermath, IsTrue;
    BecomesReady();
    var first := [Start(ORDERS)] + Turns(ORDERS, Calm(28));
    LosesItsCluster(Run(FRESH_START, first), ORDERS, CALM);
    RunConcat(FRESH_START, first, Aftermath(ORDERS, MAIN, CALM));
  }
}
