/**
 * The whole history of a repository's releases. Anybody may set and delete tags at any time; a publisher checks and
 * publishes in one step, and only if the preflight admits its stage. Lookups tell the truth about what is published.
 */
module ReleaseHistory {
  import opened Basics
  import opened Versions
  import opened ReleaseGate

  /** One publication: an image, a GitHub release, or a chart on the pages, of a version from a commit. */
  datatype Publication = Publication(stage: Stage, version: Version, commit: string)

  /** The refs of the source, and everything published, in order, starting with the charts there are. */
  datatype State = State(operator: string, refs: Refs, log: seq<Publication>)

  /** Somebody sets the refs; or a publisher runs the preflight with these arguments, and what it is shown. */
  datatype Event =
    | SetRefs(refs: Refs)
    | Publish(args: Args, isAncestor: bool, artifacts: Artifacts)

  predicate Has(log: seq<Publication>, stage: Stage, v: Version) {
    exists i | 0 <= i < |log| :: log[i].stage == stage && log[i].version == v
  }

  function Charts(log: seq<Publication>): seq<Version> {
    if log == [] then []
    else
      var last := log[|log| - 1];
      Charts(log[..|log| - 1]) + (if last.stage == Pages then [last.version] else [])
  }

  /**
   * Lookups tell the truth, as far as the stage goes by them. What is found is published. What the one lookup for
   * something yet to be published reports absent is not published. What an earlier stage has published may take any
   * number of lookups to show.
   */
  predicate Truthful(log: seq<Publication>, stage: Stage, v: Version, a: Artifacts) {
    && Answers(a)
    && (Visible(a.image) ==> Has(log, Image, v)) && (Visible(a.release) ==> Has(log, Release, v))
    && (stage == Image && a.image[0] == Absent ==> !Has(log, Image, v))
    && (stage != Pages && a.release[0] == Absent ==> !Has(log, Release, v))
  }

  /** A stage that has to look several times for what came before it is covered: it is truthful, and it passes. */
  lemma RetriesAreTruthful(log: seq<Publication>, v: Version, n: nat)
    requires n < DELAYS && Has(log, Image, v)
    ensures var late := seq(DELAYS, i => if i < n then Absent else There);
            var none := seq(DELAYS, i => Absent);
            && (!Has(log, Release, v) ==>
                  Truthful(log, Release, v, Artifacts(late, none)) && InOrder(Artifacts(late, none), Release))
            && (Has(log, Release, v) ==>
                  Truthful(log, Pages, v, Artifacts(late, late)) && InOrder(Artifacts(late, late), Pages))
  {
    var late := seq(DELAYS, i => if i < n then Absent else There);
    assert late[n] == There && forall j | 0 <= j < n :: late[j] == Absent;
  }

  function ChartList(operator: string, versions: seq<Version>): seq<Chart> {
    if versions == [] then []
    else
      ChartList(operator, versions[..|versions| - 1]) +
      [Chart("release-check/" + operator, Print(versions[|versions| - 1]))]
  }

  /** The charts of a history are listed under the operator's name, and their versions are read back. */
  lemma {:induction false} ChartListReadsBack(operator: string, versions: seq<Version>)
    ensures Published(ChartList(operator, versions)) == Some(versions)
    ensures Expected(operator, ChartList(operator, versions)) <==> versions != []
  {
    hide Parse, Print;
    if versions != [] {
      var front, last := versions[..|versions| - 1], versions[|versions| - 1];
      ChartListReadsBack(operator, front);
      ParsePrinted(last);
      var list := ChartList(operator, versions);
      assert list[..|list| - 1] == ChartList(operator, front);
      assert versions == front + [last];
    }
  }

  /** What a run of the preflight is shown: the refs and the charts as they are. */
  function View(s: State, isAncestor: bool, a: Artifacts): Outside {
    Outside(Some(s.refs), isAncestor, Some(ChartList(s.operator, Charts(s.log))), a)
  }

  /** What the preflight asks of the history. */
  ghost predicate Allowed(s: State, stage: Stage, tag: string, commit: string, v: Version, a: Artifacts)
    requires Answers(a)
  {
    && tag == "v" + Print(v) && SourceOk(s.refs, tag, commit, true)
    && Charts(s.log) != [] && Newest(s.refs, tag, v, Charts(s.log)) && InOrder(a, stage)
  }

  /** A run that is shown the history as it is admits exactly what is allowed here, from a commit on main. */
  lemma AdmittedIsAllowed(s: State, args: Args, isAncestor: bool, a: Artifacts, tag: string, commit: string, v: Version)
    requires WellFormed(View(s, isAncestor, a)) && args.operator == s.operator && !args.plan
    ensures Admitted(args, View(s, isAncestor, a), tag, commit, v) <==>
            Allowed(s, args.stage, tag, commit, v, a) && IsSha(commit) && isAncestor
  {
    hide Print, Newest, InOrder, SourceOk, IsSha, Charts, ChartList, Expected, Published;
    ChartListReadsBack(s.operator, Charts(s.log));
  }

  function TagOf(args: Args): string { if Request(args).Some? then Request(args).value.0 else "" }

  function CommitOf(args: Args): string { if Request(args).Some? then Request(args).value.1 else "" }

  /** The run passes as a publisher's run for version v, on lookups that tell the truth. */
  ghost predicate Publishes(s: State, args: Args, isAncestor: bool, a: Artifacts, v: Version) {
    && args.operator == s.operator && !args.plan && !args.checkSource
    && WellFormed(View(s, isAncestor, a)) && Passes(args, View(s, isAncestor, a))
    && TagOf(args) == "v" + Print(v) && Truthful(s.log, args.stage, v, a)
  }

  ghost function Next(s: State, e: Event): State {
    match e
    case SetRefs(refs) => s.(refs := refs)
    case Publish(args, isAncestor, a) =>
      if exists v :: Publishes(s, args, isAncestor, a, v) then
        var v :| Publishes(s, args, isAncestor, a, v);
        s.(log := s.log + [Publication(args.stage, v, CommitOf(args))])
      else s
  }

  /** A run that passes is allowed. */
  lemma PublishesAllowed(s: State, args: Args, isAncestor: bool, a: Artifacts, v: Version)
    requires Publishes(s, args, isAncestor, a, v)
    ensures Allowed(s, args.stage, TagOf(args), CommitOf(args), v, a)
  {
    hide Request, Print, Admitted, Allowed, Truthful, Answers;
    var (tag, commit) := (TagOf(args), CommitOf(args));
    var u :| Admitted(args, View(s, isAncestor, a), tag, commit, u);
    AdmittedIsAllowed(s, args, isAncestor, a, tag, commit, u);
    assert tag == "v" + Print(u) by { AllowedTag(s, args.stage, tag, commit, u, a); }
    assert ("v" + Print(u))[1..] == Print(u) && ("v" + Print(v))[1..] == Print(v);
    ParsePrinted(u);
    ParsePrinted(v);
  }

  lemma AllowedTag(s: State, stage: Stage, tag: string, commit: string, v: Version, a: Artifacts)
    requires Answers(a) && Allowed(s, stage, tag, commit, v, a)
    ensures tag == "v" + Print(v)
  {
  }

  ghost function Run(s: State, events: seq<Event>): State
    decreases |events|
  {
    if events == [] then s else Run(Next(s, events[0]), events[1..])
  }

  // ---------------------------------------------------------------- what every history keeps

  /** Nothing is published twice, and every stage follows the one before it. */
  ghost predicate Orderly(log: seq<Publication>, start: nat) {
    && (forall j | start <= j < |log| && log[j].stage == Pages ::
          forall i | 0 <= i < j && log[i].stage == Pages :: Less(log[i].version, log[j].version))
    && (forall j | start <= j < |log| && log[j].stage != Pages :: !Has(log[..j], log[j].stage, log[j].version))
    && (forall j | start <= j < |log| && log[j].stage == Pages :: Has(log[..j], Release, log[j].version))
    && (forall j | start <= j < |log| && log[j].stage != Image :: Has(log[..j], Image, log[j].version))
  }

  lemma {:induction false} ChartsAre(log: seq<Publication>, i: nat)
    requires i < |log| && log[i].stage == Pages
    ensures log[i].version in Charts(log)
    decreases |log|
  {
    if i < |log| - 1 {
      ChartsAre(log[..|log| - 1], i);
    }
  }

  /** One publication more, by the rules of its gate. */
  lemma PublishKeeps(s: State, start: nat, stage: Stage, tag: string, commit: string, v: Version, a: Artifacts)
    requires start <= |s.log| && Orderly(s.log, start)
    requires Truthful(s.log, stage, v, a) && Allowed(s, stage, tag, commit, v, a)
    ensures Orderly(s.log + [Publication(stage, v, commit)], start)
  {
    var log := s.log + [Publication(stage, v, commit)];
    assert log[..|s.log|] == s.log;
    hide Print, TagRef, SourceOk, Charts, Visible;
    forall i | 0 <= i < |s.log| && s.log[i].stage == Pages
      ensures stage == Pages ==> Less(s.log[i].version, v)
    {
      ChartsAre(s.log, i);
    }
    OrderIsTotal(v, v, v);
    assert forall j | 0 <= j < |s.log| :: log[..j] == s.log[..j];
  }

  lemma NextKeeps(s: State, start: nat, args: Args, isAncestor: bool, a: Artifacts, v: Version)
    requires start <= |s.log| && Orderly(s.log, start) && Publishes(s, args, isAncestor, a, v)
    ensures Orderly(s.log + [Publication(args.stage, v, CommitOf(args))], start)
  {
    PublishesAllowed(s, args, isAncestor, a, v);
    hide Orderly, Allowed, Request, Passes;
    PublishKeeps(s, start, args.stage, TagOf(args), CommitOf(args), v, a);
  }

  lemma {:induction false} RunKeeps(s: State, start: nat, events: seq<Event>)
    requires start <= |s.log| && Orderly(s.log, start)
    ensures s.log <= Run(s, events).log && Orderly(Run(s, events).log, start)
    decreases |events|
  {
    hide Orderly, Publishes;
    if events != [] {
      var e := events[0];
      if e.Publish? && exists v :: Publishes(s, e.args, e.isAncestor, e.artifacts, v) {
        var v :| Publishes(s, e.args, e.isAncestor, e.artifacts, v)
                 && Next(s, e).log == s.log + [Publication(e.args.stage, v, CommitOf(e.args))];
        NextKeeps(s, start, e.args, e.isAncestor, e.artifacts, v);
      }
      RunKeeps(Next(s, e), start, events[1..]);
    }
  }

  /**
   * Release history: with tags set and deleted freely, whatever the charts at the start, every chart published since
   * is above all charts before it, so versions increase strictly and are never used again, not even after their tag
   * is gone; no image and no release is created twice for a version; and a chart has its release, and a release its
   * image, before it.
   */
  lemma HistoryIsMonotone(s: State, events: seq<Event>)
    ensures var log := Run(s, events).log;
            var start := |s.log|;
            && s.log <= log
            && (forall j | start <= j < |log| && log[j].stage == Pages ::
                  (forall i | 0 <= i < j && log[i].stage == Pages :: Less(log[i].version, log[j].version))
                  && Has(log[..j], Release, log[j].version) && Has(log[..j], Image, log[j].version))
            && (forall j | start <= j < |log| && log[j].stage == Release ::
                  !Has(log[..j], Release, log[j].version) && Has(log[..j], Image, log[j].version))
            && (forall j | start <= j < |log| && log[j].stage == Image :: !Has(log[..j], Image, log[j].version))
  {
    RunKeeps(s, |s.log|, events);
  }

  // ---------------------------------------------------------------- the first chart

  /** The gate wants a chart history: where there is none, nothing is ever published. */
  lemma {:induction false} NoFirstRelease(s: State, events: seq<Event>)
    requires Charts(s.log) == []
    ensures Run(s, events).log == s.log
    decreases |events|
  {
    hide Publishes, Charts;
    if events != [] {
      var e := events[0];
      if e.Publish? && exists v :: Publishes(s, e.args, e.isAncestor, e.artifacts, v) {
        var v :| Publishes(s, e.args, e.isAncestor, e.artifacts, v);
        PublishesAllowed(s, e.args, e.isAncestor, e.artifacts, v);
      }
      NoFirstRelease(Next(s, e), events[1..]);
    }
  }

  // ---------------------------------------------------------------- tags that never move

  /** In these refs the tag of the version, if it is there, stands for this commit. */
  predicate Fixed(refs: Refs, v: Version, commit: string) {
    PointsTo(refs.at, "refs/tags/" + ("v" + Print(v)), commit, false)
  }

  /** Whenever the tag of the version is set, it is set to this commit. */
  predicate NeverMoves(events: seq<Event>, v: Version, commit: string) {
    forall e | e in events && e.SetRefs? :: Fixed(e.refs, v, commit)
  }

  predicate FromOne(log: seq<Publication>, v: Version, commit: string) {
    forall p | p in log && p.version == v :: p.commit == commit
  }

  /** If the tag of a version never moves, every stage of that version is published from its one commit. */
  lemma {:induction false} OneCommit(s: State, events: seq<Event>, v: Version, commit: string)
    requires Fixed(s.refs, v, commit) && NeverMoves(events, v, commit) && FromOne(s.log, v, commit)
    ensures FromOne(Run(s, events).log, v, commit)
    decreases |events|
  {
    hide Publishes, Newest, InOrder, Print, Target;
    if events != [] {
      var e := events[0];
      assert e in events;
      assert NeverMoves(events[1..], v, commit);
      if e.Publish? && exists u :: Publishes(s, e.args, e.isAncestor, e.artifacts, u) {
        var u :| Publishes(s, e.args, e.isAncestor, e.artifacts, u)
                 && Next(s, e).log == s.log + [Publication(e.args.stage, u, CommitOf(e.args))];
        PublishesAllowed(s, e.args, e.isAncestor, e.artifacts, u);
        SourceOkIff(s.refs, TagOf(e.args), CommitOf(e.args), true);
      }
      OneCommit(Next(s, e), events[1..], v, commit);
    }
  }
}
