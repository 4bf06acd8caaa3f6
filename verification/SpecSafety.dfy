/** A rule that every specification the users write obeys is obeyed by every specification a pass works on. */
module SpecSafety {
  import opened Conditions
  import opened Model
  import opened Machine
  import opened MachineFacts
  import opened Frames
  import opened System
  import opened Invariants

  type Rule = (Key, Spec) -> bool

  /** The user only ever writes specifications that obey the rule. */
  predicate Respects(rule: Rule, e: Event) {
    && (e.Outside? && e.move.CreateResource? ==> rule(e.move.key, e.move.spec))
    && (e.Outside? && e.move.EditSpec? ==> rule(e.move.key, e.move.spec))
  }

  ghost predicate StoreObeys(rule: Rule, w: World) {
    forall k | k in w.resources :: rule(k, w.resources[k].spec)
  }

  predicate PassObeys(rule: Rule, k: Key, p: Pass) {
    && (Live(p) ==> rule(k, p.obj.spec))
    && (p.pc.RemoveFinalizer? ==> rule(k, p.latest.spec))
  }

  ghost predicate Obeyed(rule: Rule, s: Sys) {
    StoreObeys(rule, s.w) && forall k | k in s.passes :: PassObeys(rule, k, s.passes[k])
  }

  lemma ResumeKeepsSpec(w: World, k: Key, p: Pass, b: Beat)
    requires StoreOk(w) && PassOk(w, k, p) && Live(p)
    ensures var q := Step(w, p, b).1; q.obj.spec == p.obj.spec
  {
    var (w', r) := Api(w, k, NextCall(p), b);
    hide Api, StoreOk, Control, Finalized;
    if p.pc.AddFinalizer? {
      ApiWrites(w, k, NextCall(p), b);
    } else {
      hide NextCall, ResumeFront, ResumeSecret, ResumeSql, ResumeRepair;
      if p.pc.ReadCluster? {
        ReadClusterFacts(p, r, b);
      } else if p.pc.ReadCredential? {
        ReadCredentialFacts(p, r, b);
      } else if Middle(p.pc) {
        MiddleFacts(p, r, b);
      } else if InSql(p.pc) {
        SqlFacts(p, r, b);
      } else if InRepair(p.pc) {
        RepairFacts(p, r, b);
      }
    }
  }

  lemma TurnKeepsStore(rule: Rule, s: Sys, k: Key, b: Beat)
    requires Inv(s) && Obeyed(rule, s) && Running(s, k)
    ensures StoreObeys(rule, TurnSystem(s, k, b).w)
  {
    hide StatusOk, Api, Resume, Finalized, Synced, Creates, Coherent, IsTrue, Without;
    var p := s.passes[k];
    var (w', p') := Step(s.w, p, b);
    forall k2 | k2 in w'.resources
      ensures rule(k2, w'.resources[k2].spec)
    {
      if k2 != k {
        StepFrame(s.w, k, p, b, k2);
      } else if WritesObject(p.pc) {
        ApiWrites(s.w, k, NextCall(p), b);
      } else {
        CallKinds(p);
        ApiKeepsResources(s.w, k, NextCall(p), b);
      }
    }
  }

  lemma TurnKeepsPass(rule: Rule, s: Sys, k: Key, b: Beat)
    requires Inv(s) && Obeyed(rule, s) && Running(s, k)
    ensures PassObeys(rule, k, TurnSystem(s, k, b).passes[k])
  {
    var p := s.passes[k];
    var r := Api(s.w, k, NextCall(p), b).1;
    if p.pc.ReadResource? {
      hide Control, Finalized, Synced, StatusOk, SessionCall, StatementCall;
    } else {
      ResumeKeepsSpec(s.w, k, p, b);
      RemovesOnlyRefetched(s.w, k, p, b);
    }
  }

  lemma RemovesOnlyRefetched(w: World, k: Key, p: Pass, b: Beat)
    requires StoreOk(w) && PassOk(w, k, p)
    ensures var q := Resume(p, Api(w, k, NextCall(p), b).1, b);
            q.pc.RemoveFinalizer? ==> p.pc.Refetch? && k in w.resources && q.latest == w.resources[k]
  {
    var r := Api(w, k, NextCall(p), b).1;
    hide Api, NextCall, StatusOk, Control, Finalized, Synced;
    if p.pc.Refetch? {
      RefetchReads(w, k, p, b);
    } else {
      NeverRemoves(p, r, b);
    }
  }

  lemma RefetchReads(w: World, k: Key, p: Pass, b: Beat)
    requires PassOk(w, k, p) && p.pc.Refetch?
    ensures var r := Api(w, k, NextCall(p), b).1; r.Found? ==> k in w.resources && r.resource == w.resources[k]
  {
    hide Control, Finalized, Synced, SessionCall, StatementCall;
  }

  lemma NeverRemoves(p: Pass, r: Response, b: Beat)
    requires !p.pc.Refetch?
    ensures !Resume(p, r, b).pc.RemoveFinalizer?
  {
    hide ResumeFront, ResumeSecret, ResumeSql, ResumeRepair, StatusStep;
    if p.pc.ReadCluster? {
      ReadClusterFacts(p, r, b);
    } else if p.pc.ReadCredential? {
      ReadCredentialFacts(p, r, b);
    } else if Front(p.pc) {
      FrontEdges(p, r, b);
    } else if Middle(p.pc) {
      MiddleFacts(p, r, b);
    } else if InSql(p.pc) {
      SqlFacts(p, r, b);
    } else if InRepair(p.pc) {
      RepairFacts(p, r, b);
    }
  }

  lemma FrontEdges(p: Pass, r: Response, b: Beat)
    requires p.pc.ReadResource? || p.pc.AddFinalizer?
    ensures !ResumeFront(p, r, b).pc.RemoveFinalizer?
  {
  }

  lemma TurnObeys(rule: Rule, s: Sys, k: Key, b: Beat)
    requires Inv(s) && Obeyed(rule, s) && Running(s, k)
    ensures Obeyed(rule, TurnSystem(s, k, b))
  {
    hide Inv, Step, StoreObeys, PassObeys, Creates;
    TurnKeepsStore(rule, s, k, b);
    TurnKeepsPass(rule, s, k, b);
  }

  lemma MoveObeys(rule: Rule, w: World, deleted: set<Key>, m: Move)
    requires StoreOk(w) && StoreObeys(rule, w) && Respects(rule, Outside(m))
    ensures StoreObeys(rule, MoveWorld(w, deleted, m))
  {
    hide StatusOk;
  }

  lemma NextObeys(rule: Rule, s: Sys, e: Event)
    requires Inv(s) && Obeyed(rule, s) && Respects(rule, e)
    ensures Obeyed(rule, Next(s, e))
  {
    hide PassOk, StoreOk, TurnSystem, MoveWorld, Respects, StoreObeys;
    match e {
      case Turn(k, b) =>
        if Running(s, k) {
          TurnObeys(rule, s, k, b);
        }
      case Start(k) => StoreIgnoresSessions(rule, s.w, k);
      case Crash(k) => StoreIgnoresSessions(rule, s.w, k);
      case Outside(m) => MoveObeys(rule, s.w, if m.RequestDeletion? then s.deleted + {m.key} else s.deleted, m);
    }
  }

  lemma StoreIgnoresSessions(rule: Rule, w: World, k: Key)
    requires StoreObeys(rule, w)
    ensures StoreObeys(rule, WithSession(w, k, IDLE))
  {
  }
}
