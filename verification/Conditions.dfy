/**
 * Status conditions: the list-map that both controllers keep in `Status.Conditions`, and the phase each
 * derives from it. The two controllers carry identical copies of setCondition and getCondition; they are
 * modelled once here.
 */
module Conditions {
  import opened Basics

  datatype Tri = True | False | Unknown

  datatype Condition = Condition(kind: string, status: Tri, reason: string, message: string, time: int, generation: nat)

  datatype Phase = Unset | Pending | Creating | Ready | Failed | Deleting

  function ReasonFor(status: Tri): string { if status == True then "Ready" else "NotReady" }

  function Fresh(kind: string, ok: bool, message: string, now: int, generation: nat): Condition {
    var status := if ok then True else False;
    Condition(kind, status, ReasonFor(status), message, now, generation)
  }

  /** Index of the first condition of this kind, or the length of the list. */
  function Find(cs: seq<Condition>, kind: string): (i: nat)
    ensures i <= |cs|
    ensures forall j | 0 <= j < i :: cs[j].kind != kind
    ensures i < |cs| ==> cs[i].kind == kind
  {
    if cs == [] || cs[0].kind == kind then 0 else 1 + Find(cs[1..], kind)
  }

  function Lookup(cs: seq<Condition>, kind: string): Option<Condition> {
    var i := Find(cs, kind);
    if i < |cs| then Some(cs[i]) else None
  }

  predicate IsTrue(cs: seq<Condition>, kind: string) {
    var c := Lookup(cs, kind);
    c.Some? && c.value.status == True
  }

  /** The record a call leaves behind, given the record of that kind before the call. */
  function Merged(before: Option<Condition>, c: Condition): Condition {
    if before.Some? && before.value.status == c.status && before.value.generation == c.generation
    then before.value.(message := c.message, time := c.time)
    else c
  }

  /** The list after setCondition: replace or touch up the first entry of the kind, else append. */
  function Upsert(cs: seq<Condition>, c: Condition): seq<Condition> {
    var i := Find(cs, c.kind);
    if i < |cs| then cs[i := Merged(Some(cs[i]), c)] else cs + [c]
  }

  predicate UniqueKinds(cs: seq<Condition>) {
    forall i, j | 0 <= i < j < |cs| :: cs[i].kind != cs[j].kind
  }

  predicate ReasonsTrackStatus(cs: seq<Condition>) {
    forall c | c in cs :: c.reason == ReasonFor(c.status)
  }

  /** The plain map that a list of conditions with unique kinds stands for. */
  function AsMap(cs: seq<Condition>): map<string, Condition> {
    map i | 0 <= i < |cs| && Find(cs, cs[i].kind) == i :: cs[i].kind := cs[i]
  }

  /** Phase of a PostgresDatabase as a function of its conditions and its deletion mark. */
  function DatabasePhase(cs: seq<Condition>, deleting: bool): Phase {
    if deleting then Deleting
    else match Lookup(cs, "Ready")
      case None => Pending
      case Some(ready) =>
        match ready.status
        case True => Ready
        case False =>
          var database := Lookup(cs, "DatabaseReady");
          if database.Some? && database.value.status == False then Failed else Creating
        case Unknown => Pending
  }

  /** Phase of a PostgresCluster as a function of its conditions and its deletion mark. */
  function ClusterPhase(cs: seq<Condition>, deleting: bool): Phase {
    if deleting then Deleting
    else match Lookup(cs, "Ready")
      case None => Pending
      case Some(ready) =>
        match ready.status
        case True => Ready
        case False =>
          var config := Lookup(cs, "ConfigurationValid");
          if config.Some? && config.value.status == False then Failed else Creating
        case Unknown => Pending
  }

  // ---------------------------------------------------------------- what a phase means

  predicate StatusIs(cs: seq<Condition>, kind: string, status: Tri) {
    Lookup(cs, kind).Some? && Lookup(cs, kind).value.status == status
  }

  /**
   * Deleting exactly on a marked resource. Otherwise Ready exactly if Ready is True; Failed exactly if Ready and the
   * condition to blame are both there and False; Creating exactly if Ready is False and the other is not; and Pending
   * exactly in the remaining cases.
   */
  predicate PhaseMeans(phase: Phase, cs: seq<Condition>, marked: bool, blamed: string) {
    && (phase == Deleting <==> marked)
    && (phase == Ready <==> !marked && StatusIs(cs, "Ready", True))
    && (phase == Failed <==> !marked && StatusIs(cs, "Ready", False) && StatusIs(cs, blamed, False))
    && (phase == Creating <==> !marked && StatusIs(cs, "Ready", False) && !StatusIs(cs, blamed, False))
    && (phase == Pending <==> !marked && !StatusIs(cs, "Ready", True) && !StatusIs(cs, "Ready", False))
  }

  lemma DatabasePhaseMeans(cs: seq<Condition>, marked: bool)
    ensures PhaseMeans(DatabasePhase(cs, marked), cs, marked, "DatabaseReady")
  {
  }

  lemma ClusterPhaseMeans(cs: seq<Condition>, marked: bool)
    ensures PhaseMeans(ClusterPhase(cs, marked), cs, marked, "ConfigurationValid")
  {
  }

  // ---------------------------------------------------------------- the list refines a map

  lemma FindFirst(cs: seq<Condition>, kind: string, i: nat)
    requires i <= |cs| && (i < |cs| ==> cs[i].kind == kind)
    requires forall j | 0 <= j < i :: cs[j].kind != kind
    ensures Find(cs, kind) == i
  {
  }

  lemma FindIsUnique(cs: seq<Condition>, i: nat)
    requires UniqueKinds(cs) && i < |cs|
    ensures Find(cs, cs[i].kind) == i
  {
  }

  lemma LookupIsMapLookup(cs: seq<Condition>, kind: string)
    ensures Lookup(cs, kind) == if kind in AsMap(cs) then Some(AsMap(cs)[kind]) else None
  {
    var i := Find(cs, kind);
    if i < |cs| {
      assert cs[i].kind in AsMap(cs);
    }
  }

  /** One call: kinds stay unique, no entry moves or disappears, and only a new kind is appended. */
  lemma UpsertKeepsShape(cs: seq<Condition>, c: Condition)
    requires UniqueKinds(cs)
    ensures UniqueKinds(Upsert(cs, c))
    ensures |cs| <= |Upsert(cs, c)| <= |cs| + 1
    ensures forall i | 0 <= i < |cs| :: Upsert(cs, c)[i].kind == cs[i].kind
    ensures |Upsert(cs, c)| == |cs| + 1 <==> Lookup(cs, c.kind).None?
  {
  }

  /** What a call leaves under its own kind, and that every other kind is untouched. */
  lemma UpsertLookup(cs: seq<Condition>, c: Condition, kind: string)
    ensures Lookup(Upsert(cs, c), kind) ==
            if kind == c.kind then Some(Merged(Lookup(cs, c.kind), c)) else Lookup(cs, kind)
  {
    var i, at := Find(cs, kind), Find(cs, c.kind);
    FindFirst(Upsert(cs, c), kind, if kind == c.kind then at else if i < |cs| then i else |Upsert(cs, c)|);
  }

  /**
   * What a call leaves under its kind: True or False as it was told, with its message, clock reading and generation,
   * and the reason Ready or NotReady; only a record of the same status and generation keeps a reason of its own.
   */
  predicate Records(before: seq<Condition>, after: seq<Condition>, kind: string, ok: bool, message: string, now: int,
                    generation: nat) {
    && Lookup(after, kind).Some?
    && var (earlier, c) := (Lookup(before, kind), Lookup(after, kind).value);
       && c.kind == kind && (ok ==> c.status == True) && (!ok ==> c.status == False)
       && c.message == message && c.time == now && c.generation == generation
       && c.reason == if earlier.Some? && earlier.value.status == c.status && earlier.value.generation == generation
                      then earlier.value.reason
                      else if ok then "Ready" else "NotReady"
  }

  lemma SetRecords(cs: seq<Condition>, kind: string, ok: bool, message: string, now: int, generation: nat,
                   other: string)
    ensures var after := Upsert(cs, Fresh(kind, ok, message, now, generation));
            && Records(cs, after, kind, ok, message, now, generation)
            && (other != kind ==> Lookup(after, other) == Lookup(cs, other))
  {
    var c := Fresh(kind, ok, message, now, generation);
    UpsertLookup(cs, c, kind);
    UpsertLookup(cs, c, other);
    LookupKind(cs, kind);
  }

  lemma LookupKind(cs: seq<Condition>, kind: string)
    ensures Lookup(cs, kind).Some? ==> Lookup(cs, kind).value.kind == kind
  {
  }

  lemma UpsertIsMapUpdate(cs: seq<Condition>, c: Condition)
    requires UniqueKinds(cs)
    ensures AsMap(Upsert(cs, c)) == AsMap(cs)[c.kind := Merged(Lookup(cs, c.kind), c)]
  {
    var left, right := AsMap(Upsert(cs, c)), AsMap(cs)[c.kind := Merged(Lookup(cs, c.kind), c)];
    forall kind: string
      ensures (kind in left <==> kind in right) && (kind in left ==> left[kind] == right[kind])
    {
      UpsertLookup(cs, c, kind);
      LookupIsMapLookup(cs, kind);
      LookupIsMapLookup(Upsert(cs, c), kind);
    }
    assert left.Keys == right.Keys;
  }

  /** A call of setCondition, with the clock reading and the generation it stamps. */
  datatype Setting = Setting(kind: string, ok: bool, message: string, now: int, generation: nat)

  function AsCondition(call: Setting): Condition {
    Fresh(call.kind, call.ok, call.message, call.now, call.generation)
  }

  function UpsertAll(cs: seq<Condition>, calls: seq<Setting>): seq<Condition>
    decreases |calls|
  {
    if calls == [] then cs else UpsertAll(Upsert(cs, AsCondition(calls[0])), calls[1..])
  }

  /** The same calls as unconditional updates of a plain map. */
  function AssignAll(m: map<string, Condition>, calls: seq<Setting>): map<string, Condition>
    decreases |calls|
  {
    if calls == [] then m else AssignAll(m[calls[0].kind := AsCondition(calls[0])], calls[1..])
  }

  lemma MergedIsPlainUpdate(cs: seq<Condition>, call: Setting)
    requires ReasonsTrackStatus(cs)
    ensures Merged(Lookup(cs, call.kind), AsCondition(call)) == AsCondition(call)
    ensures ReasonsTrackStatus(Upsert(cs, AsCondition(call)))
  {
  }

  /** Any sequence of calls on a list with unique kinds keeps the kinds unique and only appends. */
  lemma {:induction false} CallsKeepShape(cs: seq<Condition>, calls: seq<Setting>)
    requires UniqueKinds(cs)
    ensures UniqueKinds(UpsertAll(cs, calls))
    ensures |cs| <= |UpsertAll(cs, calls)|
    ensures forall i | 0 <= i < |cs| :: UpsertAll(cs, calls)[i].kind == cs[i].kind
    decreases |calls|
  {
    if calls != [] {
      UpsertKeepsShape(cs, AsCondition(calls[0]));
      CallsKeepShape(Upsert(cs, AsCondition(calls[0])), calls[1..]);
    }
  }

  /**
   * List-map refinement: any sequence of calls is observed through getCondition exactly as the same sequence
   * of unconditional map updates, as long as the reasons in the list track their status.
   */
  lemma {:induction false} CallsAreMapUpdates(cs: seq<Condition>, calls: seq<Setting>, kind: string)
    requires UniqueKinds(cs) && ReasonsTrackStatus(cs)
    ensures AsMap(UpsertAll(cs, calls)) == AssignAll(AsMap(cs), calls)
    ensures ReasonsTrackStatus(UpsertAll(cs, calls))
    ensures var m := AssignAll(AsMap(cs), calls);
            Lookup(UpsertAll(cs, calls), kind) == if kind in m then Some(m[kind]) else None
    decreases |calls|
  {
    if calls == [] {
      LookupIsMapLookup(cs, kind);
    } else {
      var c := AsCondition(calls[0]);
      MergedIsPlainUpdate(cs, calls[0]);
      UpsertIsMapUpdate(cs, c);
      UpsertKeepsShape(cs, c);
      CallsAreMapUpdates(Upsert(cs, c), calls[1..], kind);
    }
  }

  /**
   * Without the requirement on reasons the refinement is false: a record written by somebody else with the
   * same status and generation keeps its own reason. This is exactly when the two differ.
   */
  lemma PlainUpdateIff(before: Condition, call: Setting)
    requires before.kind == call.kind
    ensures Merged(Some(before), AsCondition(call)) == AsCondition(call) <==>
            (before.status == AsCondition(call).status && before.generation == call.generation ==>
               before.reason == ReasonFor(before.status))
  {
  }

  // ---------------------------------------------------------------- the methods, in place

  /** The part of a resource that setCondition reads and writes. */
  class ConditionBook {
    var generation: nat
    var conditions: seq<Condition>

    constructor (generation: nat, conditions: seq<Condition>)
      ensures this.generation == generation && this.conditions == conditions
    {
      this.generation := generation;
      this.conditions := conditions;
    }

    method SetCondition(kind: string, ok: bool, message: string, now: int)
      modifies this`conditions
      ensures conditions == Upsert(old(conditions), Fresh(kind, ok, message, now, generation))
      ensures Records(old(conditions), conditions, kind, ok, message, now, generation)
    {
      SetRecords(conditions, kind, ok, message, now, generation, kind);
      var status := if ok then True else False;
      var reason := if ok then "Ready" else "NotReady";
      var condition := Condition(kind, status, reason, message, now, generation);
      for i := 0 to |conditions|
        invariant conditions == old(conditions)
        invariant forall j | 0 <= j < i :: conditions[j].kind != kind
      {
        var c := conditions[i];
        if c.kind == kind {
          if c.status != status || c.generation != generation {
            conditions := conditions[i := condition];
          } else {
            conditions := conditions[i := c.(message := message)];
            conditions := conditions[i := conditions[i].(time := now)];
          }
          return;
        }
      }
      conditions := conditions + [condition];
    }

    method GetCondition(kind: string) returns (c: Option<Condition>)
      ensures c == Lookup(conditions, kind)
      ensures c.None? <==> forall i | 0 <= i < |conditions| :: conditions[i].kind != kind
      ensures c.Some? ==>
                exists i | 0 <= i < |conditions| ::
                  && c.value == conditions[i] && c.value.kind == kind
                  && forall j | 0 <= j < i :: conditions[j].kind != kind
    {
      for i := 0 to |conditions|
        invariant forall j | 0 <= j < i :: conditions[j].kind != kind
      {
        if conditions[i].kind == kind {
          return Some(conditions[i]);
        }
      }
      return None;
    }

    method GetConditionStatus(kind: string) returns (ok: bool)
      ensures ok == IsTrue(conditions, kind)
      ensures ok <==>
              exists i | 0 <= i < |conditions| ::
                && conditions[i].kind == kind && conditions[i].status == True
                && forall j | 0 <= j < i :: conditions[j].kind != kind
    {
      var condition := GetCondition(kind);
      ok := condition.Some? && condition.value.status == True;
    }
  }
}
