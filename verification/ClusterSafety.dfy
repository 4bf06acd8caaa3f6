/**
 * Whole runs of the cluster controller: passes over any number of clusters, reads and writes interleaved with each
 * other and with edits, cut off anywhere, writes refused, lost or late.
 */
module ClusterSafety {
  import opened Basics
  import opened Conditions
  import opened ClusterController
  import Model

  datatype Event =
    | Create(key: Key, spec: Spec)
    | Edit(key: Key, spec: Spec)
    | MarkDeleted(key: Key)
    | Remove(key: Key)
    | Begin(key: Key)
    | End(key: Key, told: Told, taken: bool)
    | Crash(key: Key)

  /** The stored clusters, and the object that each running pass has read. */
  datatype Sys = Sys(clusters: map<Key, Cluster>, passes: map<Key, Cluster>, clock: nat)

  function Put(s: Sys, c: Cluster): Sys {
    s.(clusters := s.clusters[c.key := c.(version := s.clock)], clock := s.clock + 1)
  }

  /** A status write goes through against the version it was read at, or not at all. */
  function Publish(s: Sys, k: Key, c: Cluster, taken: bool): Sys {
    if taken && k in s.clusters && s.clusters[k].version == c.version
    then Put(s, s.clusters[k].(status := c.status))
    else s
  }

  function Next(s: Sys, e: Event): Sys {
    match e
    case Create(k, spec) =>
      if k in s.clusters then s else Put(s, Cluster(k, s.clock, s.clock, 1, false, spec, EMPTY_STATUS))
    case Edit(k, spec) =>
      if k !in s.clusters then s
      else Put(s, s.clusters[k].(spec := spec, generation := s.clusters[k].generation + 1))
    case MarkDeleted(k) =>
      if k !in s.clusters then s
      else Put(s, s.clusters[k].(deleting := true, generation := s.clusters[k].generation + 1))
    case Remove(k) => s.(clusters := s.clusters - {k})
    case Begin(k) => if k in s.clusters && k !in s.passes then s.(passes := s.passes[k := s.clusters[k]]) else s
    case End(k, told, taken) =>
      if k !in s.passes then s
      else
        var written := Write(s.passes[k], told);
        (if written.None? then s else Publish(s, k, written.value, taken)).(passes := s.passes - {k})
    case Crash(k) => s.(passes := s.passes - {k})
  }

  function Run(s: Sys, events: seq<Event>): Sys
    decreases |events|
  {
    if events == [] then s else Run(Next(s, events[0]), events[1..])
  }

  predicate Coherent(c: Cluster) {
    || c.status == EMPTY_STATUS
    || c.status.phase == ClusterPhase(c.status.conditions, false)
    || (c.deleting && c.status.phase == Deleting)
  }

  predicate ClusterOk(s: Sys, k: Key)
    requires k in s.clusters
  {
    var c := s.clusters[k];
    && c.key == k && c.version < s.clock && c.uid < s.clock
    && c.status.observedGeneration <= c.generation && UniqueKinds(c.status.conditions) && Coherent(c)
  }

  /** As long as the version is the one that was read, the stored cluster is the one in memory. */
  predicate PassOk(s: Sys, k: Key)
    requires k in s.passes
  {
    var p := s.passes[k];
    p.key == k && p.version < s.clock && (k in s.clusters && s.clusters[k].version == p.version ==> s.clusters[k] == p)
  }

  ghost predicate Inv(s: Sys) {
    (forall k | k in s.clusters :: ClusterOk(s, k)) && (forall k | k in s.passes :: PassOk(s, k))
  }

  predicate Initial(s: Sys) { s.clusters == map[] && s.passes == map[] }

  lemma PutKeeps(s: Sys, c: Cluster)
    requires Inv(s) && c.uid <= s.clock && Coherent(c) && UniqueKinds(c.status.conditions)
    requires c.status.observedGeneration <= c.generation
    ensures Inv(Put(s, c))
  {
    hide Coherent, UniqueKinds;
    assert forall v: nat :: Coherent(c.(version := v)) == Coherent(c) by { VersionAside(c); }
  }

  lemma VersionAside(c: Cluster)
    ensures forall v: nat :: Coherent(c.(version := v)) == Coherent(c)
  {
  }

  /** The status write of a pass is coherent with the stored object it replaces. */
  lemma PublishKeeps(s: Sys, k: Key, told: Told, taken: bool)
    requires Inv(s) && k in s.passes && Write(s.passes[k], told).Some?
    ensures Inv(Publish(s, k, Write(s.passes[k], told).value, taken))
  {
    var p := s.passes[k];
    var written := Write(p, told).value;
    WriteFacts(p, told);
    if taken && k in s.clusters && s.clusters[k].version == written.version {
      assert PassOk(s, k) && ClusterOk(s, k);
      assert s.clusters[k].(status := written.status) == written;
      hide Write, UniqueKinds, ClusterPhase;
      PutKeeps(s, written);
    }
  }

  /** An edit that leaves the status alone keeps it coherent. */
  lemma CoherenceLasts(before: Cluster, after: Cluster)
    requires Coherent(before) && after.status == before.status && (before.deleting ==> after.deleting)
    ensures Coherent(after)
  {
  }

  lemma StartsCoherent(k: Key, clock: nat, spec: Spec)
    ensures var c := Cluster(k, clock, clock, 1, false, spec, EMPTY_STATUS);
            Coherent(c) && UniqueKinds(c.status.conditions)
  {
  }

  lemma NextKeeps(s: Sys, e: Event)
    requires Inv(s)
    ensures Inv(Next(s, e))
  {
    hide Coherent, UniqueKinds, Write, Publish;
    match e {
      case Create(k, spec) =>
        if k !in s.clusters {
          StartsCoherent(k, s.clock, spec);
          PutKeeps(s, Cluster(k, s.clock, s.clock, 1, false, spec, EMPTY_STATUS));
        }
      case Edit(k, spec) =>
        if k in s.clusters {
          assert ClusterOk(s, k);
          var c := s.clusters[k].(spec := spec, generation := s.clusters[k].generation + 1);
          CoherenceLasts(s.clusters[k], c);
          PutKeeps(s, c);
        }
      case MarkDeleted(k) =>
        if k in s.clusters {
          assert ClusterOk(s, k);
          var c := s.clusters[k].(deleting := true, generation := s.clusters[k].generation + 1);
          CoherenceLasts(s.clusters[k], c);
          PutKeeps(s, c);
        }
      case End(k, told, taken) =>
        if k in s.passes && Write(s.passes[k], told).Some? {
          hide ClusterOk;
          PublishKeeps(s, k, told, taken);
          LeavesPasses(s, k, Write(s.passes[k], told).value, taken);
        }
      case _ =>
    }
  }

  lemma LeavesPasses(s: Sys, k: Key, c: Cluster, taken: bool)
    ensures Publish(s, k, c, taken).passes == s.passes
  {
  }

  lemma {:induction false} RunKeeps(s: Sys, events: seq<Event>)
    requires Inv(s)
    ensures Inv(Run(s, events))
    decreases |events|
  {
    hide Inv, Next;
    if events != [] {
      NextKeeps(s, events[0]);
      RunKeeps(Next(s, events[0]), events[1..]);
    }
  }

  /** Every stored cluster status is untouched or coherent, has one condition of a kind, and never runs ahead. */
  lemma ClusterPhaseCoherence(s: Sys, events: seq<Event>, k: Key)
    requires Initial(s) && k in Run(s, events).clusters
    ensures var c := Run(s, events).clusters[k];
            && UniqueKinds(c.status.conditions) && c.status.observedGeneration <= c.generation
            && (c.status == EMPTY_STATUS
                || PhaseMeans(c.status.phase, c.status.conditions, false, "ConfigurationValid")
                || (c.deleting && c.status.phase == Deleting))
  {
    ClusterPhaseMeans(Run(s, events).clusters[k].status.conditions, false);
    RunKeeps(s, events);
    assert ClusterOk(Run(s, events), k);
  }

  /** The end of a pass that writes its own coherent status. */
  predicate Writes(s: Sys, e: Event, k: Key, after: Cluster) {
    && e.End? && e.key == k && k in s.passes && Write(s.passes[k], e.told).Some?
    && after.status == Write(s.passes[k], e.told).value.status
    && k in s.clusters && s.clusters[k] == s.passes[k]
  }

  lemma NextStatus(s: Sys, e: Event, k: Key)
    requires Inv(s) && k in s.clusters && k in Next(s, e).clusters
    ensures Next(s, e).clusters[k].uid == s.clusters[k].uid
    ensures Next(s, e).clusters[k].status == s.clusters[k].status || Writes(s, e, k, Next(s, e).clusters[k])
  {
    hide Write, Coherent, UniqueKinds;
    assert ClusterOk(s, k);
    if e.End? && e.key in s.passes && Write(s.passes[e.key], e.told).Some? {
      assert Write(s.passes[e.key], e.told).value.version == s.passes[e.key].version by {
        WriteFacts(s.passes[e.key], e.told);
      }
      assert PassOk(s, e.key);
    }
  }

  /**
   * Over every run, a cluster status changes only by the end of a pass over that cluster, against the very object the
   * pass read: the phase follows from the conditions and the deletion mark read, the observed generation does not
   * decrease, and Ready is True afterwards exactly if the pass resolved three non-empty credentials and connected, or
   * an empty credential cut it short and Ready was True before.
   */
  lemma EveryClusterWrite(s: Sys, events: seq<Event>, e: Event, k: Key)
    requires Initial(s)
    requires var t := Run(s, events);
             k in t.clusters && k in Next(t, e).clusters && Next(t, e).clusters[k].status != t.clusters[k].status
    ensures var t := Run(s, events);
            var (before, after) := (t.clusters[k], Next(t, e).clusters[k]);
            && e.End? && e.key == k && k in t.passes && before == t.passes[k]
            && PhaseMeans(after.status.phase, after.status.conditions, before.deleting, "ConfigurationValid")
            && before.status.observedGeneration <= after.status.observedGeneration <= after.generation
            && after.status.observedGeneration ==
               (if CutShort(before, e.told) then before.status.observedGeneration else before.generation)
            && (IsReady(after) <==> Serves(before, e.told) || (CutShort(before, e.told) && IsReady(before)))
  {
    var t := Run(s, events);
    RunKeeps(s, events);
    NextKeeps(t, e);
    NextStatus(t, e, k);
    WriteFacts(t.passes[k], e.told);
    ClusterPhaseMeans(Next(t, e).clusters[k].status.conditions, t.clusters[k].deleting);
    assert ClusterOk(t, k) && ClusterOk(Next(t, e), k);
  }

  // ---------------------------------------------------------------- what the database controller makes of it

  /** The cluster as the database controller reads it. */
  function Seen(c: Cluster): Model.Cluster {
    Model.Cluster(c.spec.host, c.spec.port, c.spec.user, c.spec.password, c.status.conditions)
  }

  /**
   * The two controllers agree on readiness: in every run, any Ready condition with status True that the database
   * controller finds is the one the cluster controller keeps, and an unmarked cluster has phase Ready exactly then.
   */
  lemma ReadinessAgrees(s: Sys, events: seq<Event>, k: Key)
    requires Initial(s) && k in Run(s, events).clusters
    ensures var c := Run(s, events).clusters[k];
            && (Model.ClusterIsReady(Seen(c)) <==> IsReady(c))
            && (!c.deleting ==> (c.status.phase == Ready <==> IsReady(c)))
  {
    RunKeeps(s, events);
    var c := Run(s, events).clusters[k];
    assert ClusterOk(Run(s, events), k);
    if Model.ClusterIsReady(Seen(c)) {
      var i :| 0 <= i < |c.status.conditions| && c.status.conditions[i].kind == "Ready"
               && c.status.conditions[i].status == True;
      FindIsUnique(c.status.conditions, i);
    }
  }
}
