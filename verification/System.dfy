/**
 * Whole runs: any number of resources, one pass per resource at a time, the passes interleaved call by call, each cut
 * off anywhere, and users and other controllers changing their own objects in between.
 */
module System {
  import opened Basics
  import opened Names
  import opened Model
  import opened Machine
  import opened MachineFacts

  /** What happens outside the controller. Roles, databases and connection secrets have no outside edits. */
  datatype Move =
    | CreateResource(key: Key, finalizers: seq<string>, spec: Spec)
    | EditSpec(key: Key, spec: Spec)
    | EditFinalizers(key: Key, finalizers: seq<string>)
    | RequestDeletion(key: Key)
    | SetCluster(key: Key, cluster: Cluster)
    | DropCluster(key: Key)
    | PutSecret(key: Key, data: map<string, string>)
    | RemoveSecret(key: Key)
    | CollectSecret(key: Key)
    | ChangeObject(database: string, item: string, owner: string)

  datatype Event = Start(key: Key) | Turn(key: Key, beat: Beat) | Crash(key: Key) | Outside(move: Move)

  /**
   * The state of a run. Three fields remember its history: for which incarnations something was created, which of them
   * a deletion pass has released, and which resources have ever been marked for deletion.
   */
  datatype Sys = Sys(w: World, passes: map<Key, Pass>, made: set<Incarnation>, released: set<Incarnation>,
                     deleted: set<Key>)

  /** A resource from its creation to its end. */
  datatype Incarnation = Incarnation(key: Key, uid: nat)

  predicate IsConnectionSecret(k: Key) {
    |k.name| >= 11 && k.name[|k.name| - 11..] == "-connection"
  }

  function MoveWorld(w: World, deleted: set<Key>, m: Move): World {
    match m
    case CreateResource(k, fs, spec) =>
      if k in w.resources then w else Store(w, Resource(k, w.clock, w.clock, 1, false, fs, spec, EMPTY_STATUS))
    case EditSpec(k, spec) =>
      if k !in w.resources then w
      else
        var r := w.resources[k];
        Store(w, r.(spec := spec, generation := r.generation + 1, version := w.clock))
    case EditFinalizers(k, fs) =>
      if k !in w.resources || (FINALIZER in fs <==> !HasFinalizer(w.resources[k])) then w
      else Store(w, w.resources[k].(finalizers := fs, version := w.clock))
    case RequestDeletion(k) =>
      if k !in w.resources then w
      else
        var r := w.resources[k];
        Store(w, r.(deleting := true, generation := r.generation + 1, version := w.clock))
    case SetCluster(k, c) => w.(clusters := w.clusters[k := c])
    case DropCluster(k) => w.(clusters := w.clusters - {k})
    case PutSecret(k, data) => if IsConnectionSecret(k) then w else w.(secrets := w.secrets[k := data])
    case RemoveSecret(k) => if IsConnectionSecret(k) then w else w.(secrets := w.secrets - {k})
    case CollectSecret(k) => if k in deleted then w.(secrets := w.secrets - {SecretKeyOf(k)}) else w
    case ChangeObject(d, o, u) =>
      if d !in w.server.databases then w
      else
        var database := w.server.databases[d];
        w.(server := w.server.(databases := w.server.databases[d := database.(objects := database.objects[o := u])]))
  }

  function MoveSystem(s: Sys, m: Move): Sys {
    var deleted := if m.RequestDeletion? then s.deleted + {m.key} else s.deleted;
    s.(w := MoveWorld(s.w, deleted, m), deleted := deleted)
  }

  /** Something exists after the call that did not exist before it. */
  predicate Creates(before: World, after: World) {
    || !(after.secrets.Keys <= before.secrets.Keys)
    || !(after.server.roles.Keys <= before.server.roles.Keys)
    || !(after.server.databases.Keys <= before.server.databases.Keys)
  }

  predicate Holding(w: World, k: Key, uid: nat) {
    k in w.resources && w.resources[k].uid == uid && HasFinalizer(w.resources[k])
  }

  function TurnSystem(s: Sys, k: Key, b: Beat): Sys
    requires k in s.passes
  {
    var p := s.passes[k];
    var (w', p') := Step(s.w, p, b);
    var uid := p.obj.uid;
    s.(w := w', passes := s.passes[k := p'],
       made := if Creates(s.w, w') then s.made + {Incarnation(k, uid)} else s.made,
       released := if p.obj.deleting && Holding(s.w, k, uid) && !Holding(w', k, uid)
                   then s.released + {Incarnation(k, uid)} else s.released)
  }

  predicate Running(s: Sys, k: Key) { k in s.passes && !s.passes[k].pc.Stopped? }

  function Next(s: Sys, e: Event): Sys {
    match e
    case Start(k) =>
      if Running(s, k) then s else s.(passes := s.passes[k := InitialPass(k)], w := WithSession(s.w, k, IDLE))
    case Turn(k, b) => if Running(s, k) then TurnSystem(s, k, b) else s
    case Crash(k) => s.(passes := s.passes - {k}, w := WithSession(s.w, k, IDLE))
    case Outside(m) => MoveSystem(s, m)
  }

  function Run(s: Sys, events: seq<Event>): Sys
    decreases |events|
  {
    if events == [] then s else Run(Next(s, events[0]), events[1..])
  }

  /** A world nobody has worked on yet, as far as passes go. */
  predicate Initial(s: Sys) {
    && s.passes == map[] && s.made == {} && s.released == {} && s.deleted == {} && s.w.sessions == map[]
    && forall k | k in s.w.resources :: FreshlyStored(s.w, k)
  }

  predicate FreshlyStored(w: World, k: Key)
    requires k in w.resources
  {
    var r := w.resources[k];
    r.key == k && r.version < w.clock && r.uid < w.clock && !r.deleting && r.status == EMPTY_STATUS
  }

  lemma {:induction false} RunAppend(s: Sys, events: seq<Event>, e: Event)
    ensures Run(s, events + [e]) == Next(Run(s, events), e)
    decreases |events|
  {
    if events == [] {
      assert [] + [e] == [e] && [e][1..] == [];
      assert Run(s, [e]) == Run(Next(s, e), []);
    } else {
      assert (events + [e])[1..] == events[1..] + [e];
      RunAppend(Next(s, events[0]), events[1..], e);
    }
  }

  function Turns(k: Key, tape: seq<Beat>): (events: seq<Event>)
    ensures |events| == |tape|
  {
    if tape == [] then [] else [Turn(k, tape[0])] + Turns(k, tape[1..])
  }

  /** A pass driven alone by a tape is a run of the system in which only that pass takes turns. */
  lemma {:induction false} DriveIsRun(s: Sys, k: Key, tape: seq<Beat>)
    requires k in s.passes && s.passes[k].key == k
    ensures var s' := Run(s, Turns(k, tape));
            k in s'.passes && (s'.w, s'.passes[k]) == Drive(s.w, s.passes[k], tape)
    decreases |tape|
  {
    if tape != [] {
      if Running(s, k) {
        StepKeepsKey(s.w, s.passes[k], tape[0]);
        DriveIsRun(TurnSystem(s, k, tape[0]), k, tape[1..]);
      } else {
        IdleTurns(s, k, tape);
      }
    }
  }

  lemma {:induction false} IdleTurns(s: Sys, k: Key, tape: seq<Beat>)
    requires !Running(s, k)
    ensures Run(s, Turns(k, tape)) == s
    decreases |tape|
  {
    if tape != [] {
      IdleTurns(s, k, tape[1..]);
    }
  }
}
