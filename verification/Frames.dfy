/** What each call can and cannot change in the two stores. */
module Frames {
  import opened Basics
  import opened Model
  import opened Machine
  import opened MachineFacts

  predicate KubeWrite(c: Call) { c.Update? || c.UpdateStatus? }

  lemma ApiKeepsResources(w: World, k: Key, c: Call, b: Beat)
    requires !KubeWrite(c)
    ensures Api(w, k, c, b).0.resources == w.resources && Api(w, k, c, b).0.clock == w.clock
  {
  }

  lemma SessionKeepsSecrets(w: World, k: Key, c: Call, b: Beat)
    requires SessionUse(c)
    ensures SessionCall(w, k, c, b).0.secrets == w.secrets
  {
    hide ApplyAll, IsListing;
  }

  lemma ApiKeepsSecrets(w: World, k: Key, c: Call, b: Beat)
    requires !c.CreateSecret?
    ensures Api(w, k, c, b).0.secrets == w.secrets
  {
    hide SessionCall;
    if SessionUse(c) {
      SessionKeepsSecrets(w, k, c, b);
    }
  }

  lemma ApiKeepsServer(w: World, k: Key, c: Call, b: Beat)
    requires !(c.CreateUser? || c.AlterUser? || c.CreateDatabase? || c.AlterDatabaseOwner? || c.GrantIn? || c.Commit?)
    ensures Api(w, k, c, b).0.server == w.server
  {
  }

  predicate SessionUse(c: Call) {
    c.QueryWrongOwners? || c.FetchRow? || c.CloseRows? || c.Begin? || c.SetLockTimeout? || c.AlterOwner?
    || c.DropDatabase? || c.DropUser? || c.Commit? || c.Rollback?
  }

  lemma ApiKeepsSessions(w: World, k: Key, c: Call, b: Beat)
    requires !SessionUse(c)
    ensures Api(w, k, c, b).0.sessions == w.sessions
  {
  }

  lemma ApiSessionFrame(w: World, k: Key, c: Call, b: Beat, k2: Key)
    requires k2 != k
    ensures SessionOf(Api(w, k, c, b).0, k2) == SessionOf(w, k2)
  {
  }

  /** A write of resource r: refused or ineffective, or against the stored version; no other key is touched. */
  lemma ApiWrites(w: World, k: Key, c: Call, b: Beat)
    requires KubeWrite(c)
    ensures var (w', r) := Api(w, k, c, b);
            && w'.secrets == w.secrets && w'.server == w.server && w'.sessions == w.sessions
            && w'.clusters == w.clusters
            && ((w' == w && !r.Updated?) ||
                (Takes(b) && Current(w, c.resource) && w' == Store(w, Written(w, c)) &&
                 r == (if b.luck == Works then Updated(Written(w, c)) else Error)))
            && (Current(w, c.resource) && Takes(b) ==>
                  w' == Store(w, Written(w, c)) && r == (if b.luck == Works then Updated(Written(w, c)) else Error))
            && (!Takes(b) ==> r == Error)
  {
  }

  /** The object a write leaves in the store. */
  function Written(w: World, c: Call): Resource
    requires KubeWrite(c)
  {
    if c.resource.key !in w.resources then c.resource
    else if c.Update? then Rewritten(w, w.resources[c.resource.key], c.resource)
    else w.resources[c.resource.key].(status := c.resource.status, version := w.clock)
  }

  lemma ApiFrame(w: World, k: Key, c: Call, b: Beat, k2: Key)
    requires KubeWrite(c) ==> c.resource.key != k2 && forall q | q in w.resources :: w.resources[q].key == q
    ensures var w' := Api(w, k, c, b).0;
            && (k2 in w'.resources <==> k2 in w.resources)
            && (k2 in w.resources ==> w'.resources[k2] == w.resources[k2])
            && w.clock <= w'.clock
  {
    if KubeWrite(c) {
      ApiWrites(w, k, c, b);
    } else {
      ApiKeepsResources(w, k, c, b);
    }
  }

  /** The step of a pass that is not about to write an object leaves every object alone. */
  predicate WritesObject(pc: Pc) { pc.AddFinalizer? || pc.RemoveFinalizer? || pc.WriteStatus? || pc.WriteFailure? }

  lemma CallKinds(p: Pass)
    ensures KubeWrite(NextCall(p)) <==> WritesObject(p.pc)
    ensures NextCall(p).CreateSecret? <==> p.pc.WriteSecret?
    ensures NextCall(p).CreateUser? <==> p.pc.MakeRole?
    ensures NextCall(p).AlterUser? <==> p.pc.ChangePassword?
    ensures NextCall(p).CreateDatabase? <==> p.pc.MakeDatabase?
    ensures NextCall(p).AlterDatabaseOwner? <==> p.pc.ChangeDatabaseOwner?
    ensures NextCall(p).Commit? <==> p.pc.CommitRepair? || p.pc.CommitDrop?
    ensures NextCall(p).GrantIn? <==>
            p.pc.GrantDatabase? || p.pc.GrantSchema? || p.pc.GrantCreate? || p.pc.GrantDefault?
  {
  }
}
