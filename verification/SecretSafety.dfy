/** Secret before role: a role that exists has a stored connection secret with the same password. */
module SecretSafety {
  import opened Conditions
  import opened Names
  import opened ConnectionUrl
  import opened Model
  import opened Machine
  import opened MachineFacts
  import opened Frames
  import opened System
  import opened Invariants
  import opened SpecSafety

  /** Which resource a role name belongs to. Role names are distinct: no two resources share one. */
  type Registry = map<string, Key>

  predicate Registered(g: Registry, k: Key, spec: Spec) {
    var name := ChosenName(spec.userName, k.namespace, k.name);
    name in g && g[name] == k
  }

  /** The user only ever gives a resource role names of its own. */
  function OwnNames(g: Registry): Rule { (k, spec) => Registered(g, k, spec) }

  predicate StoredPassword(w: World, k: Key, password: string) {
    SecretKeyOf(k) in w.secrets && PasswordIn(w.secrets[SecretKeyOf(k)]) == password
  }

  /** Until its resource is marked for deletion, a registered role has the password of the stored secret. */
  ghost predicate RolesOk(g: Registry, s: Sys) {
    forall u | u in s.w.server.roles && u in g && g[u] !in s.deleted :: StoredPassword(s.w, g[u], s.w.server.roles[u])
  }

  predicate SetsPassword(pc: Pc) { pc.MakeRole? || pc.ChangePassword? }

  predicate PasswordOk(s: Sys, k: Key, p: Pass) {
    SetsPassword(p.pc) && k !in s.deleted ==> StoredPassword(s.w, k, p.secretPassword)
  }

  ghost predicate SecretInv(g: Registry, s: Sys) {
    RolesOk(g, s) && Obeyed(OwnNames(g), s) && forall k | k in s.passes :: PasswordOk(s, k, s.passes[k])
  }

  // ---------------------------------------------------------------- a pass takes a step

  /** Roles only change by setting the password of the pass, or by going away. */
  predicate RolesStep(before: map<string, string>, after: map<string, string>, p: Pass) {
    forall u | u in after ::
      (u in before && after[u] == before[u])
      || (SetsPassword(p.pc) && u == RoleName(p) && after[u] == p.secretPassword)
  }

  lemma {:induction false} ApplyKeepsRoles(s: Server, changes: seq<Change>)
    ensures forall u | u in ApplyAll(s, changes).roles :: u in s.roles && ApplyAll(s, changes).roles[u] == s.roles[u]
    decreases |changes|
  {
    if changes != [] {
      ApplyKeepsRoles(Apply(s, changes[0]), changes[1..]);
    }
  }

  lemma CommitKeepsRoles(w: World, k: Key, b: Beat)
    ensures var after := Api(w, k, Commit, b).0.server.roles;
            forall u | u in after :: u in w.server.roles && after[u] == w.server.roles[u]
  {
    var session := SessionOf(w, k);
    if session.transactions != [] {
      ApplyKeepsRoles(w.server, session.transactions[|session.transactions| - 1].changes);
    }
  }

  lemma StatementRoles(w: World, k: Key, c: Call, b: Beat)
    requires c.CreateUser? || c.AlterUser? || c.CreateDatabase? || c.AlterDatabaseOwner? || c.GrantIn?
    ensures var after := Api(w, k, c, b).0.server.roles;
            || after == w.server.roles
            || ((c.CreateUser? || c.AlterUser?) && after == w.server.roles[c.user := c.password])
  {
  }

  lemma StepRoles(w: World, k: Key, p: Pass, b: Beat)
    ensures RolesStep(w.server.roles, Api(w, k, NextCall(p), b).0.server.roles, p)
  {
    var c := NextCall(p);
    CallKinds(p);
    assert c.CreateUser? || c.AlterUser? ==> c.user == RoleName(p) && c.password == p.secretPassword;
    hide NextCall, Api;
    if c.Commit? {
      CommitKeepsRoles(w, k, b);
    } else if c.CreateUser? || c.AlterUser? || c.CreateDatabase? || c.AlterDatabaseOwner? || c.GrantIn? {
      StatementRoles(w, k, c, b);
    } else {
      ApiKeepsServer(w, k, c, b);
    }
  }

  /** Secrets are only ever added, never changed, by a pass. */
  lemma SecretsGrow(w: World, k: Key, c: Call, b: Beat)
    ensures var after := Api(w, k, c, b).0.secrets;
            forall q | q in w.secrets :: q in after && after[q] == w.secrets[q]
  {
    hide IsConnectionSecret;
    if !c.CreateSecret? {
      ApiKeepsSecrets(w, k, c, b);
    }
  }

  lemma RegisteredRole(g: Registry, k: Key, p: Pass)
    requires p.obj.key == k && Registered(g, k, p.obj.spec)
    ensures RoleName(p) in g && g[RoleName(p)] == k
  {
  }

  /** The password a pass goes on with is the stored one, whether it was read or written by the pass itself. */
  lemma PasswordIsStored(w: World, k: Key, p: Pass, b: Beat)
    requires p.key == k && p.obj.key == k && (p.pc.ReadSecret? || p.pc.WriteSecret?)
    ensures var (w', r) := Api(w, k, NextCall(p), b);
            var q := ResumeSecret(p, r, b);
            q.pc.MakeRole? ==> StoredPassword(w', k, q.secretPassword)
  {
    hide Upsert, DatabasePhase;
  }

  lemma EntersPasswordSteps(p: Pass, r: Response, b: Beat)
    ensures var q := Resume(p, r, b);
            SetsPassword(q.pc) ==>
              p.pc.ReadSecret? || p.pc.WriteSecret? || (p.pc.MakeRole? && q.secretPassword == p.secretPassword)
  {
    hide ResumeFront, ResumeSecret, ResumeSql, ResumeRepair;
    if Front(p.pc) {
      FrontNeverSets(p, r, b);
    } else if Middle(p.pc) {
      if !p.pc.ReadSecret? && !p.pc.WriteSecret? {
        MiddleNeverSets(p, r, b);
      }
    } else if InSql(p.pc) {
      SqlSets(p, r, b);
    } else if InRepair(p.pc) {
      RepairNeverSets(p, r, b);
    }
  }

  lemma SqlSets(p: Pass, r: Response, b: Beat)
    requires InSql(p.pc)
    ensures var q := ResumeSql(p, r, b); SetsPassword(q.pc) ==> p.pc.MakeRole? && q.secretPassword == p.secretPassword
  {
    hide SetCondition, UpdatePhase;
  }

  lemma FrontNeverSets(p: Pass, r: Response, b: Beat)
    requires Front(p.pc)
    ensures !SetsPassword(ResumeFront(p, r, b).pc)
  {
    hide Resolve, Accept, FailWith, SameObject, StatusStep;
    if p.pc.ReadCluster? {
      ReadClusterFacts(p, r, b);
    } else if p.pc.ReadCredential? {
      ReadCredentialFacts(p, r, b);
    }
  }

  lemma MiddleNeverSets(p: Pass, r: Response, b: Beat)
    requires Middle(p.pc) && !p.pc.ReadSecret? && !p.pc.WriteSecret?
    ensures !SetsPassword(ResumeSecret(p, r, b).pc)
  {
    hide Upsert, DatabasePhase;
  }

  lemma RepairNeverSets(p: Pass, r: Response, b: Beat)
    requires InRepair(p.pc)
    ensures !SetsPassword(ResumeRepair(p, r, b).pc)
  {
    hide ResumeRepair, SameObject, StatusStep;
    RepairFacts(p, r, b);
  }

  lemma StoredPasswordLasts(w: World, k: Key, p: Pass, b: Beat, k2: Key, password: string)
    requires StoredPassword(w, k2, password)
    ensures StoredPassword(Api(w, k, NextCall(p), b).0, k2, password)
  {
    hide Api, NextCall, PasswordIn;
    SecretsGrow(w, k, NextCall(p), b);
  }

  lemma TurnKeepsRoles(g: Registry, s: Sys, k: Key, b: Beat)
    requires Inv(s) && SecretInv(g, s) && Running(s, k)
    ensures RolesOk(g, TurnSystem(s, k, b))
  {
    hide StoreOk, Api, Resume, Control, Finalized, Synced, NextCall, StoredPassword, Creates;
    var p := s.passes[k];
    var (w', p') := Step(s.w, p, b);
    StepRoles(s.w, k, p, b);
    forall u | u in w'.server.roles && u in g && g[u] !in s.deleted
      ensures StoredPassword(w', g[u], w'.server.roles[u])
    {
      if SetsPassword(p.pc) && u == RoleName(p) && w'.server.roles[u] == p.secretPassword {
        RegisteredRole(g, k, p);
        StoredPasswordLasts(s.w, k, p, b, k, p.secretPassword);
      } else {
        StoredPasswordLasts(s.w, k, p, b, g[u], s.w.server.roles[u]);
      }
    }
  }

  lemma TurnKeepsPassword(g: Registry, s: Sys, k: Key, b: Beat)
    requires Inv(s) && SecretInv(g, s) && Running(s, k)
    ensures var s' := TurnSystem(s, k, b); PasswordOk(s', k, s'.passes[k])
  {
    var p := s.passes[k];
    var c := NextCall(p);
    var (w', r) := Api(s.w, k, c, b);
    var q := Resume(p, r, b);
    assert TurnSystem(s, k, b).passes[k] == q.(trace := p.trace + [Observation(c, r)]);
    PasswordNext(g, s, k, b);
  }

  lemma PasswordNext(g: Registry, s: Sys, k: Key, b: Beat)
    requires Inv(s) && SecretInv(g, s) && Running(s, k)
    ensures var p := s.passes[k];
            var (w', r) := Api(s.w, k, NextCall(p), b);
            var q := Resume(p, r, b);
            SetsPassword(q.pc) && k !in s.deleted ==> StoredPassword(w', k, q.secretPassword)
  {
    hide StoreOk, Api, NextCall, Control, Finalized, Synced, StoredPassword, RolesOk, Registered;
    hide ResumeFront, ResumeSecret, ResumeSql, ResumeRepair, ResumeEnd;
    var p := s.passes[k];
    var (w', r) := Api(s.w, k, NextCall(p), b);
    var q := Resume(p, r, b);
    EntersPasswordSteps(p, r, b);
    if SetsPassword(q.pc) && k !in s.deleted {
      if p.pc.MakeRole? {
        StoredPasswordLasts(s.w, k, p, b, k, p.secretPassword);
      } else {
        PasswordIsStored(s.w, k, p, b);
        EntersByMakeRole(p, r, b);
      }
    }
  }

  lemma EntersByMakeRole(p: Pass, r: Response, b: Beat)
    requires p.pc.ReadSecret? || p.pc.WriteSecret?
    ensures SetsPassword(ResumeSecret(p, r, b).pc) ==> ResumeSecret(p, r, b).pc.MakeRole?
  {
    hide ResumeSecret, StatusStep, SameObject;
    MiddleFacts(p, r, b);
  }

  lemma TurnKeepsSecret(g: Registry, s: Sys, k: Key, b: Beat)
    requires Inv(s) && SecretInv(g, s) && Running(s, k)
    ensures SecretInv(g, TurnSystem(s, k, b))
  {
    hide Inv, Step, RolesOk, StoredPassword, Registered, Creates;
    TurnKeepsRoles(g, s, k, b);
    TurnObeys(OwnNames(g), s, k, b);
    TurnKeepsPassword(g, s, k, b);
    var s' := TurnSystem(s, k, b);
    forall k2 | k2 in s'.passes && k2 != k
      ensures PasswordOk(s', k2, s'.passes[k2])
    {
      OtherKeepsPassword(g, s, k, b, k2);
    }
  }

  lemma OtherKeepsPassword(g: Registry, s: Sys, k: Key, b: Beat, k2: Key)
    requires Inv(s) && SecretInv(g, s) && Running(s, k) && k2 in s.passes && k2 != k
    ensures PasswordOk(TurnSystem(s, k, b), k2, s.passes[k2])
  {
    hide Api, Resume, NextCall, StoredPassword, Registered, Creates, RolesOk, StoreOk, Control, Finalized, Synced;
    var p2 := s.passes[k2];
    if SetsPassword(p2.pc) && k2 !in s.deleted {
      StoredPasswordLasts(s.w, k, s.passes[k], b, k2, p2.secretPassword);
    }
  }

  // ---------------------------------------------------------------- something happens outside

  lemma SecretKeysDiffer(k1: Key, k2: Key)
    requires k1 != k2
    ensures SecretKeyOf(k1) != SecretKeyOf(k2)
  {
    if SecretName(k1.name) == SecretName(k2.name) {
      SecretNamesSeparate(k1.name, k2.name);
    }
  }

  lemma ConnectionSecretsAreKept(w: World, deleted: set<Key>, m: Move, k: Key, password: string)
    requires StoredPassword(w, k, password) && k !in deleted
    ensures StoredPassword(MoveWorld(w, deleted, m), k, password)
  {
    hide Rewritten, PasswordIn;
    var q := SecretKeyOf(k);
    assert q.name[|q.name| - 11..] == "-connection";
    if m.CollectSecret? && m.key != k {
      SecretKeysDiffer(m.key, k);
    }
  }

  lemma MoveKeepsRoles(w: World, deleted: set<Key>, m: Move)
    ensures MoveWorld(w, deleted, m).server.roles == w.server.roles
  {
  }

  lemma MoveKeepsSecret(g: Registry, s: Sys, m: Move)
    requires Inv(s) && SecretInv(g, s) && Respects(OwnNames(g), Outside(m))
    ensures SecretInv(g, MoveSystem(s, m))
  {
    hide PassOk, StoreOk, MoveWorld, StoredPassword, Registered, Respects;
    var s' := MoveSystem(s, m);
    MoveObeys(OwnNames(g), s.w, s'.deleted, m);
    MoveKeepsRoles(s.w, s'.deleted, m);
    forall u | u in s'.w.server.roles && u in g && g[u] !in s'.deleted
      ensures StoredPassword(s'.w, g[u], s'.w.server.roles[u])
    {
      ConnectionSecretsAreKept(s.w, s'.deleted, m, g[u], s.w.server.roles[u]);
    }
    forall k | k in s'.passes
      ensures PasswordOk(s', k, s'.passes[k])
    {
      if SetsPassword(s.passes[k].pc) && k !in s'.deleted {
        ConnectionSecretsAreKept(s.w, s'.deleted, m, k, s.passes[k].secretPassword);
      }
    }
  }

  lemma NextKeepsSecret(g: Registry, s: Sys, e: Event)
    requires Inv(s) && SecretInv(g, s) && Respects(OwnNames(g), e)
    ensures SecretInv(g, Next(s, e))
  {
    hide Inv, TurnSystem, MoveSystem, Registered;
    match e {
      case Turn(k, b) =>
        if Running(s, k) {
          TurnKeepsSecret(g, s, k, b);
        }
      case Outside(m) => MoveKeepsSecret(g, s, m);
      case _ =>
    }
  }

  lemma {:induction false} RunKeepsSecret(g: Registry, s: Sys, events: seq<Event>)
    requires Inv(s) && SecretInv(g, s) && forall e | e in events :: Respects(OwnNames(g), e)
    ensures SecretInv(g, Run(s, events))
    decreases |events|
  {
    hide Inv, SecretInv, Next, Respects;
    if events != [] {
      NextKeeps(s, events[0]);
      NextKeepsSecret(g, s, events[0]);
      RunKeepsSecret(g, Next(s, events[0]), events[1..]);
    }
  }

  /**
   * Over every interleaving of passes cut off anywhere, with calls failing with or without effect and reads hiding
   * what exists, from a state in which no registered role exists: until its resource is marked for deletion, every
   * registered role that exists has a stored connection secret with the same password.
   */
  lemma SecretBeforeRole(g: Registry, s: Sys, events: seq<Event>, role: string)
    requires Initial(s) && StoreObeys(OwnNames(g), s.w) && (forall e | e in events :: Respects(OwnNames(g), e))
    requires forall u | u in s.w.server.roles :: u !in g
    requires role in g && role in Run(s, events).w.server.roles && g[role] !in Run(s, events).deleted
    ensures var w := Run(s, events).w;
            var q := Key(g[role].namespace, g[role].name + "-connection");
            && q in w.secrets
            && ("password" in w.secrets[q] ==> w.secrets[q]["password"] == w.server.roles[role])
            && ("password" !in w.secrets[q] ==> w.server.roles[role] == "")
  {
    InitialInv(s);
    RunKeepsSecret(g, s, events);
  }
}
