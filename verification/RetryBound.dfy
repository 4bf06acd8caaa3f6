/**
 * Retry bound: however many passes repair a database, however they are interleaved, cut off or failing, every object
 * changes hands at most once. Owner changes and wrongly owned objects add up to the same number all along.
 */
module RetryBound {
  import opened Model
  import opened Names
  import opened Machine
  import opened MachineFacts
  import opened Frames
  import opened System
  import opened Invariants
  import opened SpecSafety
  import opened SessionSafety
  import opened DeletionSafety
  import opened RepairSafety

  /** Objects whose owner differs. */
  function Moved(before: map<string, string>, after: map<string, string>): set<string> {
    set o | o in before && !(o in after && after[o] == before[o])
  }

  function WrongCount(s: Sys, d: string, user: string): nat { |Wrong(Objects(s.w.server, d), user)| }

  /** All owner changes in database d over a run. */
  function OwnerChanges(s: Sys, events: seq<Event>, d: string): nat
    decreases |events|
  {
    if events == [] then 0
    else
      var s' := Next(s, events[0]);
      |Moved(Objects(s.w.server, d), Objects(s'.w.server, d))| + OwnerChanges(s', events[1..], d)
  }

  /** Whoever names database d in a specification gives it to this user. */
  function GivesTo(d: string, user: string): Rule {
    (k: Key, spec: Spec) =>
      ChosenName(spec.databaseName, k.namespace, k.name) == d ==> ChosenName(spec.userName, k.namespace, k.name) == user
  }

  predicate LeavesAlone(d: string, e: Event) { !(e.Outside? && e.move.ChangeObject? && e.move.database == d) }

  lemma OneMoveCounts(objects: map<string, string>, item: string, user: string)
    ensures var after := Reown(objects, [item], user);
            |Moved(objects, after)| + |Wrong(after, user)| == |Wrong(objects, user)|
  {
    var after := Reown(objects, [item], user);
    if item in Wrong(objects, user) {
      assert Wrong(after, user) == Wrong(objects, user) - {item};
      assert Moved(objects, after) == {item};
    } else {
      assert Wrong(after, user) == Wrong(objects, user);
      assert Moved(objects, after) == {};
    }
  }

  lemma NoMoveCounts(objects: map<string, string>)
    ensures Moved(objects, objects) == {}
  {
  }

  ghost predicate RepairInv(s: Sys, d: string, user: string) {
    && Inv(s) && SessionInv(s) && Obeyed(GivesTo(d, user), s) && NeverPastDrop(s)
    && !s.w.server.dropInTransaction
  }

  /** One call: no owner changes, or one wrongly owned object goes to the user. */
  lemma CallMoves(w: World, k: Key, p: Pass, b: Beat, d: string, user: string)
    requires PassOk(w, k, p) && DisciplineOk(SessionOf(w, k), p) && PassObeys(GivesTo(d, user), k, p)
    requires !p.pc.CommitDrop?
    ensures var after := Objects(Api(w, k, NextCall(p), b).0.server, d);
            var before := Objects(w.server, d);
            after == before || exists item :: after == Reown(before, [item], user)
  {
    CallKinds(p);
    if p.pc.CommitRepair? {
      CommitMoves(w, k, p, b, d, user);
    } else {
      hide Api, NextCall, Finalized, Synced, Control, SessionOk;
      ApiKeepsObjects(w, k, NextCall(p), b, d);
    }
  }

  lemma CommitMoves(w: World, k: Key, p: Pass, b: Beat, d: string, user: string)
    requires PassOk(w, k, p) && DisciplineOk(SessionOf(w, k), p) && PassObeys(GivesTo(d, user), k, p)
    requires p.pc.CommitRepair?
    ensures var after := Objects(Api(w, k, Commit, b).0.server, d);
            var before := Objects(w.server, d);
            after == before || exists item :: after == Reown(before, [item], user)
  {
    assert DbName(p) == d ==> RoleName(p) == user;
    assert p.todo[..1] == [p.todo[0]];
    hide Api, DbName, RoleName, Reown, Finalized, Synced, Control;
    CommitMovesOne(w, k, p, b, d);
  }

  lemma NextCounts(s: Sys, e: Event, d: string, user: string)
    requires RepairInv(s, d, user) && LeavesAlone(d, e)
    ensures var s' := Next(s, e);
            |Moved(Objects(s.w.server, d), Objects(s'.w.server, d))| + WrongCount(s', d, user) == WrongCount(s, d, user)
  {
    hide Api, NextCall, Resume, PassOk, DisciplineOk, PassObeys, MoveWorld, Creates, StoreOk, StoreObeys, Objects;
    hide Wrong;
    var before := Objects(s.w.server, d);
    NoMoveCounts(before);
    match e {
      case Turn(k, b) =>
        if Running(s, k) {
          CallMoves(s.w, k, s.passes[k], b, d, user);
          var after := Objects(Next(s, e).w.server, d);
          if after != before {
            var item :| after == Reown(before, [item], user);
            OneMoveCounts(before, item, user);
          }
        }
      case Outside(m) =>
        MoveLeavesAlone(s.w, if m.RequestDeletion? then s.deleted + {m.key} else s.deleted, m, d);
      case _ =>
    }
  }

  lemma MoveLeavesAlone(w: World, deleted: set<Key>, m: Move, d: string)
    requires LeavesAlone(d, Outside(m))
    ensures Objects(MoveWorld(w, deleted, m).server, d) == Objects(w.server, d)
  {
  }

  lemma NextKeepsRepair(s: Sys, e: Event, d: string, user: string)
    requires RepairInv(s, d, user) && Respects(GivesTo(d, user), e)
    ensures RepairInv(Next(s, e), d, user)
  {
    hide Inv, SessionInv, Obeyed, NeverPastDrop, Next, Respects;
    NextKeeps(s, e);
    NextKeepsSession(s, e);
    NextObeys(GivesTo(d, user), s, e);
    NextNeverPastDrop(s, e);
    StaysPut(s, e, d, user);
  }

  lemma StaysPut(s: Sys, e: Event, d: string, user: string)
    requires RepairInv(s, d, user)
    ensures Keeps(s.w.server, Next(s, e).w.server)
  {
    hide Inv, SessionInv, Obeyed, Next;
    NextDrops(s, e);
  }

  lemma {:induction false} RunCounts(s: Sys, events: seq<Event>, d: string, user: string)
    requires RepairInv(s, d, user)
    requires forall e | e in events :: LeavesAlone(d, e) && Respects(GivesTo(d, user), e)
    ensures OwnerChanges(s, events, d) + WrongCount(Run(s, events), d, user) == WrongCount(s, d, user)
    decreases |events|
  {
    hide RepairInv, Next, LeavesAlone, Respects, WrongCount;
    if events != [] {
      NextCounts(s, events[0], d, user);
      NextKeepsRepair(s, events[0], d, user);
      RunCounts(Next(s, events[0]), events[1..], d, user);
    }
  }

  /**
   * Over every interleaving of any number of passes: in a database that nobody else touches and that is only ever meant
   * for one user, owner changes plus objects still wrongly owned equal the objects wrongly owned at the start; one that
   * is yet to be created counts with the objects of the template. So the wrong owners never grow in number, and there
   * are never more owner changes than there were wrong owners at first.
   */
  lemma OwnersAreConserved(s: Sys, events: seq<Event>, d: string, user: string)
    requires Initial(s) && !s.w.server.dropInTransaction
    requires StoreObeys(GivesTo(d, user), s.w)
    requires forall e | e in events :: LeavesAlone(d, e) && Respects(GivesTo(d, user), e)
    ensures OwnerChanges(s, events, d) + WrongCount(Run(s, events), d, user) == WrongCount(s, d, user)
  {
    InitialInv(s);
    RunCounts(s, events, d, user);
  }
}
