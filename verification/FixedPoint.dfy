/** Fixed point: once a resource has converged, no pass over it changes the server or the secrets, failing or not. */
module FixedPoint {
  import opened Basics
  import opened Model
  import opened Machine
  import opened MachineFacts
  import opened Frames
  import opened Invariants
  import opened SecretSafety
  import opened SessionSafety
  import opened DeletionSafety
  import opened RepairSafety
  import opened Convergence

  /** A pass on resource r that has left the server and the secrets as they were in w0. */
  ghost predicate Frozen(w0: World, r: Resource, w: World, k: Key, p: Pass) {
    && AllOk(w0.server, r, w, k, p) && w.server == w0.server && w.secrets == w0.secrets
    && (SetsPassword(p.pc) ==> HasPassword(w0.server, UserNameOf(r), p.secretPassword))
  }

  lemma StatementsChangeNothing(w: World, k: Key, p: Pass, b: Beat)
    requires InSql(p.pc) && Converged(w, k, DbName(p), RoleName(p)) && (p.pc.GrantDefault? ==> p.pc.kind <= 2)
    requires SetsPassword(p.pc) ==> HasPassword(w.server, RoleName(p), p.secretPassword)
    ensures Api(w, k, NextCall(p), b).0.server == w.server
  {
    var d, u := DbName(p), RoleName(p);
    hide KubeCall, SessionCall, DatabaseNameOf, UserNameOf, StoredPassword;
    var database := w.server.databases[d];
    assert w.server.roles[u := w.server.roles[u]] == w.server.roles;
    assert w.server.databases[d := database] == w.server.databases;
    if Granting(p.pc) {
      assert database.grants + {GrantOf(p.pc, u)} == database.grants;
    }
  }

  lemma SecretStays(w: World, k: Key, p: Pass, b: Beat)
    requires SecretKeyOf(p.obj.key) in w.secrets
    ensures Api(w, k, NextCall(p), b).0.secrets == w.secrets
  {
    CallKinds(p);
    if p.pc.WriteSecret? {
      hide SecretKeyOf, DbName, RoleName;
    } else {
      hide NextCall, Api;
      ApiKeepsSecrets(w, k, NextCall(p), b);
    }
  }

  /** A commit means that there was a wrongly owned object. */
  lemma RepairsSomething(s: Server, r: Resource, w: World, k: Key, p: Pass)
    requires AllOk(s, r, w, k, p)
    ensures p.pc.CommitRepair? ==> Wrong(Objects(s, DatabaseNameOf(r)), UserNameOf(r)) != {}
  {
    hide StoreOk, PassOk, Reown, Objects, DatabaseNameOf, UserNameOf, DbName, RoleName;
    if p.pc.CommitRepair? {
      assert p.listed[0] in p.listed;
    }
  }

  lemma ServerStays(w0: World, r: Resource, w: World, k: Key, p: Pass, b: Beat)
    requires Frozen(w0, r, w, k, p) && Live(p)
    requires Converged(w0, k, DatabaseNameOf(r), UserNameOf(r)) && (p.pc.GrantDefault? ==> p.pc.kind <= 2)
    ensures Api(w, k, NextCall(p), b).0.server == w.server
  {
    assert !p.obj.deleting && Control(p);
    NamesOf(p, r);
    CallKinds(p);
    Kinds(p);
    var (d, u) := (DatabaseNameOf(r), UserNameOf(r));
    assert WrongObjects(w0.server.databases[d], u) == Wrong(Objects(w0.server, d), u);
    RepairsSomething(w0.server, r, w, k, p);
    hide Api, NextCall, AllOk, DatabaseNameOf, UserNameOf, DbName, RoleName, StoredPassword, Control, WrongObjects;
    if InSql(p.pc) {
      StatementsChangeNothing(w, k, p, b);
    } else {
      ApiKeepsServer(w, k, NextCall(p), b);
    }
  }

  lemma DefaultsAreThree(p: Pass, r: Response, b: Beat)
    requires p.pc.GrantDefault? ==> p.pc.kind <= 2
    ensures var q := Resume(p, r, b); q.pc.GrantDefault? ==> q.pc.kind <= 2
  {
    ResumeCases(p, r, b);
    hide Resume, ResumeFront, ResumeSecret, ResumeRepair, SameObject, StatusStep;
    if Front(p.pc) {
      if p.pc.ReadCluster? {
        ReadClusterFacts(p, r, b);
      } else if p.pc.ReadCredential? {
        ReadCredentialFacts(p, r, b);
      } else {
        FrontEnters(p, r, b);
      }
    } else if Middle(p.pc) {
      MiddleFacts(p, r, b);
    } else if InRepair(p.pc) {
      RepairFacts(p, r, b);
    }
  }

  lemma PasswordStays(w0: World, r: Resource, w: World, k: Key, p: Pass, b: Beat)
    requires Frozen(w0, r, w, k, p) && Live(p)
    requires Converged(w0, k, DatabaseNameOf(r), UserNameOf(r))
    ensures var q := Step(w, p, b).1; SetsPassword(q.pc) ==> HasPassword(w0.server, UserNameOf(r), q.secretPassword)
  {
    var (w', r1) := Api(w, k, NextCall(p), b);
    hide Api, NextCall, Resume, StoreOk, Control, Finalized, Synced, DisciplineOk, RepairOk, DatabaseNameOf, UserNameOf;
    hide WrongObjects, PasswordIn;
    EntersPasswordSteps(p, r1, b);
    ResumeCases(p, r1, b);
    if p.pc.ReadSecret? || p.pc.WriteSecret? {
      SecretStays(w, k, p, b);
      PasswordIsStored(w, k, p, b);
      hide ResumeSecret;
      EntersByMakeRole(p, r1, b);
    }
  }

  lemma StepFrozen(w0: World, r: Resource, w: World, k: Key, p: Pass, b: Beat)
    requires Frozen(w0, r, w, k, p) && Live(p) && (p.pc.GrantDefault? ==> p.pc.kind <= 2)
    requires Converged(w0, k, DatabaseNameOf(r), UserNameOf(r))
    ensures var (w', p') := Step(w, p, b); Frozen(w0, r, w', k, p') && (p'.pc.GrantDefault? ==> p'.pc.kind <= 2)
  {
    var (w', p') := Step(w, p, b);
    assert AllOk(w0.server, r, w', k, p') by {
      hide RepairOk, StoreOk, PassOk, DisciplineOk, Step, Converged;
      StepKeeps(w, k, p, b);
      StepDiscipline(w, k, p, b);
      RepairStepOk(w0.server, r, w, k, p, b);
    }
    StepWorld(w, p, b);
    hide StoreOk, Control, Finalized, Synced, DisciplineOk, RepairOk, Api, NextCall, Resume, DatabaseNameOf, UserNameOf;
    hide PasswordIn, WrongObjects;
    PasswordStays(w0, r, w, k, p, b);
    ServerStays(w0, r, w, k, p, b);
    SecretStays(w, k, p, b);
    DefaultsAreThree(p, Api(w, k, NextCall(p), b).1, b);
  }

  lemma {:induction false} DriveFrozen(w0: World, r: Resource, w: World, k: Key, p: Pass, tape: seq<Beat>)
    requires Frozen(w0, r, w, k, p) && !p.pc.ReadResource? && (p.pc.GrantDefault? ==> p.pc.kind <= 2)
    requires Converged(w0, k, DatabaseNameOf(r), UserNameOf(r))
    ensures var w' := Drive(w, p, tape).0; w'.server == w0.server && w'.secrets == w0.secrets
    decreases |tape|
  {
    hide AllOk, Step, Converged;
    if !p.pc.Stopped? && tape != [] {
      var (w1, p1) := Step(w, p, tape[0]);
      StepFrozen(w0, r, w, k, p, tape[0]);
      NeverRereads(w, p, tape[0]);
      DriveFrozen(w0, r, w1, k, p1, tape[1..]);
    }
  }

  /**
   * From a converged state no pass changes a role, a password, a database, an owner, a grant or a secret: not the
   * third clean pass, and not one that fails or dies anywhere either.
   */
  lemma ConvergedIsFixed(w: World, k: Key, tape: seq<Beat>)
    requires Existing(w, k) && Converged(w, k, DatabaseNameOf(w.resources[k]), UserNameOf(w.resources[k]))
    ensures var w' := RunPass(w, k, tape).0; w'.server == w.server && w'.secrets == w.secrets
  {
    var w0, p0, r := WithSession(w, k, IDLE), InitialPass(k), w.resources[k];
    if tape != [] {
      var (w1, p1) := Step(w0, p0, tape[0]);
      assert RunPass(w, k, tape) == Drive(w1, p1, tape[1..]);
      assert Frozen(w0, r, w1, k, p1) && !p1.pc.GrantDefault? by {
        hide AllOk, Drive, StoreOk, Converged;
        FirstOnTheWay(w0, k, tape[0]);
        ReadAnswer(w0, k, tape[0]);
      }
      assert Converged(w0, k, DatabaseNameOf(r), UserNameOf(r)) by {
        hide Step, Drive, StoreOk, DatabaseNameOf, UserNameOf;
      }
      hide Drive, Step, Converged, Frozen;
      NeverRereads(w0, p0, tape[0]);
      DriveFrozen(w0, r, w1, k, p1, tape[1..]);
    }
  }

  /** Two clean passes, then any pass: nothing on the server and no secret is changed by the third. */
  lemma ThirdPassChangesNothing(w: World, k: Key, tape1: seq<Beat>, tape2: seq<Beat>, tape3: seq<Beat>)
    requires Existing(w, k) && CleanPass(w, k, tape1) && CleanPass(RunPass(w, k, tape1).0, k, tape2)
    ensures var w2 := RunPass(RunPass(w, k, tape1).0, k, tape2).0;
            var w3 := RunPass(w2, k, tape3).0;
            w3.server == w2.server && w3.secrets == w2.secrets
  {
    var w1 := RunPass(w, k, tape1).0;
    var w2 := RunPass(w1, k, tape2).0;
    hide RunPass, Converged, Existing, CleanPass;
    TwoPasses(w, k, tape1, tape2);
    StillExisting(w, k, tape1);
    StillExisting(w1, k, tape2);
    SameResource(w, k, tape1);
    SameResource(w1, k, tape2);
    ConvergedIsFixed(w2, k, tape3);
  }
}
