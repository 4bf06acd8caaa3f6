/** Finalizer before effects: nothing is created for a resource whose finalizer is not yet stored. */
module FinalizerSafety {
  import opened Model
  import opened Machine
  import opened MachineFacts
  import opened Frames
  import opened System
  import opened Invariants

  /** Every incarnation something was made for still carries the finalizer, or a deletion pass has removed it. */
  ghost predicate MadeOk(s: Sys) {
    forall i | i in s.made :: i in s.released || Holding(s.w, i.key, i.uid)
  }

  lemma ApplyNeverCreates(s: Server, changes: seq<Change>)
    ensures ApplyAll(s, changes).roles.Keys <= s.roles.Keys
    ensures ApplyAll(s, changes).databases.Keys <= s.databases.Keys
    decreases |changes|
  {
    if changes != [] {
      ApplyNeverCreates(Apply(s, changes[0]), changes[1..]);
    }
  }

  lemma CommitNeverCreates(w: World, k: Key, b: Beat)
    ensures !Creates(w, Api(w, k, Commit, b).0)
  {
    var session := SessionOf(w, k);
    if session.transactions != [] {
      ApplyNeverCreates(w.server, session.transactions[|session.transactions| - 1].changes);
    }
  }

  lemma UpdatesNeverCreate(w: World, k: Key, c: Call, b: Beat)
    requires c.AlterUser? || c.AlterDatabaseOwner? || c.GrantIn?
    ensures !Creates(w, Api(w, k, c, b).0)
  {
  }

  /** Only three calls bring anything into existence. */
  lemma CreatesOnlyAt(w: World, k: Key, c: Call, b: Beat)
    requires Creates(w, Api(w, k, c, b).0)
    ensures c.CreateSecret? || c.CreateUser? || c.CreateDatabase?
  {
    hide Api;
    if !(c.CreateSecret? || c.CreateUser? || c.CreateDatabase?) {
      ApiKeepsSecrets(w, k, c, b);
      if c.Commit? {
        CommitNeverCreates(w, k, b);
      } else if c.AlterUser? || c.AlterDatabaseOwner? || c.GrantIn? {
        UpdatesNeverCreate(w, k, c, b);
      } else {
        ApiKeepsServer(w, k, c, b);
      }
    }
  }

  /** A write by the pass of k leaves the finalizer where it is, unless it is the removal by a deletion pass. */
  lemma WriteKeepsHolding(w: World, k: Key, p: Pass, b: Beat, uid: nat)
    requires StoreOk(w) && PassOk(w, k, p) && WritesObject(p.pc) && Holding(w, k, uid)
    ensures Holding(Api(w, k, NextCall(p), b).0, k, uid) || (p.obj.deleting && uid == p.obj.uid)
  {
    hide Api, StatusOk, Synced, Without;
    ApiWrites(w, k, NextCall(p), b);
  }

  lemma TurnKeepsMade(s: Sys, k: Key, b: Beat)
    requires Inv(s) && MadeOk(s) && Running(s, k)
    ensures MadeOk(TurnSystem(s, k, b))
  {
    hide StoreOk, Api, Resume, Control, Finalized, Synced, NextCall, Creates;
    var p := s.passes[k];
    var (w', p') := Step(s.w, p, b);
    var s' := TurnSystem(s, k, b);
    CallKinds(p);
    forall i | i in s'.made
      ensures i in s'.released || Holding(s'.w, i.key, i.uid)
    {
      if Creates(s.w, w') && i == Incarnation(k, p.obj.uid) {
        CreatesOnlyAt(s.w, k, NextCall(p), b);
        CreatorHolds(s.w, k, p);
        ApiKeepsResources(s.w, k, NextCall(p), b);
      } else if i !in s.released {
        if i.key != k {
          StepFrame(s.w, k, p, b, i.key);
        } else if WritesObject(p.pc) {
          WriteKeepsHolding(s.w, k, p, b, i.uid);
        } else {
          ApiKeepsResources(s.w, k, NextCall(p), b);
        }
      }
    }
  }

  lemma CreatorHolds(w: World, k: Key, p: Pass)
    requires PassOk(w, k, p) && (p.pc.WriteSecret? || p.pc.MakeRole? || p.pc.MakeDatabase?)
    ensures Holding(w, k, p.obj.uid)
  {
  }

  lemma MoveKeepsHolding(w: World, deleted: set<Key>, m: Move, k: Key, uid: nat)
    requires StoreOk(w) && Holding(w, k, uid)
    ensures Holding(MoveWorld(w, deleted, m), k, uid)
  {
    hide StatusOk;
  }

  lemma NextKeepsMade(s: Sys, e: Event)
    requires Inv(s) && MadeOk(s)
    ensures MadeOk(Next(s, e))
  {
    hide StoreOk, PassOk, TurnSystem, MoveWorld;
    match e {
      case Turn(k, b) =>
        if Running(s, k) {
          TurnKeepsMade(s, k, b);
        }
      case Outside(m) =>
        var deleted := if m.RequestDeletion? then s.deleted + {m.key} else s.deleted;
        forall i | i in s.made && i !in s.released
          ensures Holding(MoveWorld(s.w, deleted, m), i.key, i.uid)
        {
          MoveKeepsHolding(s.w, deleted, m, i.key, i.uid);
        }
      case _ =>
    }
  }

  lemma {:induction false} RunKeepsMade(s: Sys, events: seq<Event>)
    requires Inv(s) && MadeOk(s)
    ensures MadeOk(Run(s, events))
    decreases |events|
  {
    hide Inv, MadeOk, Next;
    if events != [] {
      NextKeeps(s, events[0]);
      NextKeepsMade(s, events[0]);
      RunKeepsMade(Next(s, events[0]), events[1..]);
    }
  }

  /**
   * In every state of every run, cut off anywhere: if a secret, a role or a database was created for an incarnation
   * of a resource, that incarnation is stored with the finalizer, or a deletion pass has removed the finalizer.
   */
  lemma FinalizerBeforeEffects(s: Sys, events: seq<Event>, i: Incarnation)
    requires Initial(s) && i in Run(s, events).made
    ensures var t := Run(s, events); i in t.released || Holding(t.w, i.key, i.uid)
  {
    InitialInv(s);
    RunKeepsMade(s, events);
  }
}
