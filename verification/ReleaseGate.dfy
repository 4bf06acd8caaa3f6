/** The release preflight: the source, version and artifact gates, and their order. */
module ReleaseGate {
  import opened Basics
  import opened Versions
  import Text

  datatype Verdict<+T> = Pass(value: T) | Refuse(reason: string) {
    predicate IsFailure() { Refuse? }
    function PropagateFailure<U>(): Verdict<U>
      requires Refuse?
    {
      Refuse(reason)
    }
    function Extract(): T
      requires Pass?
    {
      value
    }
  }

  /** Ref names in the order they were listed, and the commit each one points to. */
  datatype Refs = Refs(names: seq<string>, at: map<string, string>)

  predicate Listed(refs: Refs) {
    && (forall i, j | 0 <= i < j < |refs.names| :: refs.names[i] != refs.names[j])
    && (forall name | name in refs.names :: name in refs.at)
    && (forall name | name in refs.at :: name in refs.names)
  }

  const TAGS: string := "refs/tags/v"
  const PEELED: string := "^{}"

  function TagRef(tag: string): string { "refs/tags/" + tag }

  predicate StartsWith(s: string, prefix: string) { |prefix| <= |s| && s[..|prefix|] == prefix }

  predicate EndsWith(s: string, suffix: string) { |suffix| <= |s| && s[|s| - |suffix|..] == suffix }

  /** The commit a tag stands for: an annotated tag by its peeled ref. */
  function Target(refs: Refs, tag: string): Option<string> {
    var ref := TagRef(tag);
    if ref + PEELED in refs.at then Some(refs.at[ref + PEELED])
    else if ref in refs.at then Some(refs.at[ref]) else None
  }

  /** Whether the tag may be released from this commit. */
  predicate SourceOk(refs: Refs, tag: string, commit: string, requireTag: bool) {
    match Target(refs, tag)
    case None => !requireTag
    case Some(actual) => actual == commit
  }

  /**
   * What the refs must hold: under the name of the tag with `^{}` the commit, whatever the plain name holds; or, if
   * that name is not there, under the plain name the commit; or, if neither is there, nothing as long as no tag is
   * required.
   */
  predicate PointsTo(at: map<string, string>, ref: string, commit: string, requireTag: bool) {
    && (ref + "^{}" in at ==> at[ref + "^{}"] == commit)
    && (ref + "^{}" !in at && ref in at ==> at[ref] == commit)
    && (ref + "^{}" !in at && ref !in at ==> !requireTag)
  }

  lemma SourceOkIff(refs: Refs, tag: string, commit: string, requireTag: bool)
    ensures SourceOk(refs, tag, commit, requireTag) <==> PointsTo(refs.at, "refs/tags/" + tag, commit, requireTag)
  {
  }

  /** The ref name reserves a version: another canonical stable tag. */
  predicate Reserves(name: string, ref: string) {
    StartsWith(name, TAGS) && !EndsWith(name, PEELED) && name != ref && Matches(name[|TAGS|..])
  }

  function ReservedBy(names: seq<string>, ref: string): seq<Version> {
    if names == [] then []
    else
      var last := names[|names| - 1];
      ReservedBy(names[..|names| - 1], ref) +
      (if Reserves(last, ref) && Parse(last[|TAGS|..]).Some? then [Parse(last[|TAGS|..]).value] else [])
  }

  method CheckSource(refs: Refs, tag: string, commit: string, requireTag: bool) returns (r: Verdict<seq<Version>>)
    requires Listed(refs)
    ensures r.Pass? <==> SourceOk(refs, tag, commit, requireTag)
    ensures r.Pass? <==> PointsTo(refs.at, "refs/tags/" + tag, commit, requireTag)
    ensures r.Pass? ==> r.value == ReservedBy(refs.names, TagRef(tag))
  {
    SourceOkIff(refs, tag, commit, requireTag);
    var ref := TagRef(tag);
    var actual := Target(refs, tag);
    if actual.None? && requireTag {
      return Refuse("absent from the release source");
    }
    if actual.Some? && actual.value != commit {
      return Refuse("points to a different commit in the release source");
    }
    var reserved: seq<Version> := [];
    for i := 0 to |refs.names|
      invariant reserved == ReservedBy(refs.names[..i], ref)
    {
      var name := refs.names[i];
      assert refs.names[..i + 1][..i] == refs.names[..i];
      if StartsWith(name, TAGS) && !EndsWith(name, PEELED) && name != ref {
        var value := name[|TAGS|..];
        if Matches(value) {
          PrintParsed(value);
          reserved := reserved + [Parse(value).value];
        }
      }
    }
    assert refs.names[..|refs.names|] == refs.names;
    return Pass(reserved);
  }

  /** A canonical version is reserved exactly if its tag is among the refs and is not the one to be released. */
  lemma {:induction false} ReservedIff(names: seq<string>, tag: string, v: Version)
    ensures v in ReservedBy(names, TagRef(tag)) <==> "refs/tags/v" + Print(v) in names && tag != "v" + Print(v)
  {
    VersionRef(v);
    hide Print, TagRef, Reserves, Parse, Matches;
    if names != [] {
      var front, last := names[..|names| - 1], names[|names| - 1];
      ReservedIff(front, tag, v);
      OneReserved(last, tag, v);
      assert names == front + [last];
    }
  }

  lemma OneReserved(name: string, tag: string, v: Version)
    ensures Reserves(name, TagRef(tag)) && Parse(name[|TAGS|..]) == Some(v) <==>
            name == TagRef("v" + Print(v)) && tag != "v" + Print(v)
  {
    hide Parse, Matches, Print, TagRef, EndsWith;
    TagRefIsInjective(tag, "v" + Print(v));
    VersionRef(v);
    ParseIff(Print(v), v);
    if StartsWith(name, TAGS) {
      assert name == TAGS + name[|TAGS|..];
      ParseIff(name[|TAGS|..], v);
    }
  }

  /** The ref of a version's tag: its text stands after the prefix, and it is not a peeled ref. */
  lemma VersionRef(v: Version)
    ensures var full := TagRef("v" + Print(v));
            && full == TAGS + Print(v) == "refs/tags/v" + Print(v) && StartsWith(full, TAGS)
            && full[|TAGS|..] == Print(v) && !EndsWith(full, PEELED)
  {
    var full := TagRef("v" + Print(v));
    assert full == TAGS + Print(v);
    NeverPeeled(v);
    assert full[|full| - 3..] == Print(v)[|Print(v)| - 3..];
  }

  lemma TagRefIsInjective(tag: string, other: string)
    ensures TagRef(tag) == TagRef(other) <==> tag == other
  {
    assert TagRef(tag)[10..] == tag && TagRef(other)[10..] == other;
  }

  /** A canonical version does not end in `^{}`. */
  lemma NeverPeeled(v: Version)
    ensures |Print(v)| >= 3 && Print(v)[|Print(v)| - 3..] != PEELED
  {
    Text.PrintNatIsCanonical(v.major);
    Text.PrintNatIsCanonical(v.minor);
    Text.PrintNatIsCanonical(v.patch);
    var c := Text.PrintNat(v.patch);
    assert Print(v)[|Print(v)| - 1] == c[|c| - 1];
    assert Text.IsDigit(c[|c| - 1]);
  }

  // ---------------------------------------------------------------- the version

  /** Python's max of a list that is not empty. */
  function Max(vs: seq<Version>): (m: Version)
    requires vs != []
    ensures m in vs && forall v | v in vs :: AtMost(v, m)
  {
    if |vs| == 1 then vs[0]
    else
      var m := Max(vs[..|vs| - 1]);
      var last := vs[|vs| - 1];
      assert vs == vs[..|vs| - 1] + [last];
      OrderIsTotal(last, m, m);
      if Less(m, last) then last else m
  }

  function CheckVersion(candidate: Version, reserved: seq<Version>, published: seq<Version>): Verdict<()> {
    if reserved != [] && AtMost(candidate, Max(reserved)) then Refuse("not newer than all other reserved tags")
    else if published != [] && AtMost(candidate, Max(published)) then Refuse("not newer than all published charts")
    else Pass(())
  }

  lemma AboveMax(candidate: Version, vs: seq<Version>)
    requires vs != []
    ensures !AtMost(candidate, Max(vs)) <==> forall v | v in vs :: Less(v, candidate)
  {
    var m := Max(vs);
    OrderIsTotal(candidate, m, m);
    forall v | v in vs
      ensures AtMost(v, m) && (Less(m, candidate) ==> Less(v, candidate))
    {
      OrderIsTotal(v, m, candidate);
    }
  }

  /** The two comparisons with a maximum ask for exactly this: strictly above everything. */
  lemma CheckVersionIff(candidate: Version, reserved: seq<Version>, published: seq<Version>)
    ensures CheckVersion(candidate, reserved, published).Pass? <==>
            (forall v | v in reserved :: Less(v, candidate)) && (forall v | v in published :: Less(v, candidate))
  {
    hide Max, Less;
    if reserved != [] {
      AboveMax(candidate, reserved);
    }
    if published != [] {
      AboveMax(candidate, published);
    }
  }

  /** Strictly above every published version, and above every other canonical stable tag. */
  ghost predicate Newest(refs: Refs, tag: string, candidate: Version, published: seq<Version>) {
    && (forall v | v in published :: Less(v, candidate))
    && (forall v | "refs/tags/v" + Print(v) in refs.at && tag != "v" + Print(v) :: Less(v, candidate))
  }

  /** The gate accepts a version exactly if it is the newest; peeled duplicates and other refs play no part. */
  lemma GateAccepts(refs: Refs, tag: string, candidate: Version, published: seq<Version>)
    requires Listed(refs)
    ensures CheckVersion(candidate, ReservedBy(refs.names, TagRef(tag)), published).Pass? <==>
            Newest(refs, tag, candidate, published)
  {
    var reserved := ReservedBy(refs.names, TagRef(tag));
    hide ReservedBy, CheckVersion, Less, TagRef, Print;
    CheckVersionIff(candidate, reserved, published);
    forall v: Version | true
      ensures v in reserved <==> "refs/tags/v" + Print(v) in refs.at && tag != "v" + Print(v)
    {
      ReservedIff(refs.names, tag, v);
    }
  }

  // ---------------------------------------------------------------- the artifacts

  datatype Stage = Image | Release | Pages

  /** What one read-only lookup answers; an error other than "not found" is raised. */
  datatype Lookup = There | Absent | Raised

  const DELAYS: nat := 6

  /** Found within the first lookups, with no error raised before. */
  predicate Visible(answers: seq<Lookup>) {
    exists i | 0 <= i < DELAYS && i < |answers| :: answers[i] == There && forall j | 0 <= j < i :: answers[j] == Absent
  }

  method RequireVisible(answers: seq<Lookup>) returns (r: Verdict<()>)
    requires |answers| >= DELAYS
    ensures r.Pass? <==> Visible(answers)
    ensures r.Pass? <==>
            exists i | 0 <= i < 6 && i < |answers| ::
              answers[i] == There && forall j | 0 <= j < i :: answers[j] == Absent
  {
    for i := 0 to DELAYS
      invariant forall j | 0 <= j < i :: answers[j] == Absent
    {
      if answers[i] == Raised {
        return Refuse("lookup failed");
      }
      if answers[i] == There {
        return Pass(());
      }
    }
    return Refuse("prior publication is missing");
  }

  /** The artifacts of a version as the lookups show them. */
  datatype Artifacts = Artifacts(image: seq<Lookup>, release: seq<Lookup>)

  predicate Answers(a: Artifacts) { |a.image| >= DELAYS && |a.release| >= DELAYS }

  /** Each stage finds what the stages before it published, and nothing of its own. */
  predicate InOrder(a: Artifacts, stage: Stage)
    requires Answers(a)
  {
    match stage
    case Image => a.image[0] == Absent && a.release[0] == Absent
    case Release => Visible(a.image) && a.release[0] == Absent
    case Pages => Visible(a.image) && Visible(a.release)
  }

  method CheckArtifacts(a: Artifacts, stage: Stage) returns (r: Verdict<()>)
    requires Answers(a)
    ensures r.Pass? <==> InOrder(a, stage)
    ensures stage == Image ==> (r.Pass? <==> a.image[0] == Absent && a.release[0] == Absent)
    ensures stage == Release ==> (r.Pass? <==> Visible(a.image) && a.release[0] == Absent)
    ensures stage == Pages ==> (r.Pass? <==> Visible(a.image) && Visible(a.release))
  {
    if stage == Image {
      if a.image[0] != Absent {
        return Refuse("image version already exists, or the lookup failed");
      }
    } else {
      var _ :- RequireVisible(a.image);
    }
    if stage == Pages {
      var _ :- RequireVisible(a.release);
    } else if a.release[0] != Absent {
      return Refuse("release already exists, or the lookup failed");
    }
    return Pass(());
  }

  // ---------------------------------------------------------------- the handoff

  predicate IsSha(s: string) { |s| == 40 && forall c | c in s :: Text.IsDigit(c) || 'a' <= c <= 'f' }

  /** The part of a workflow_run event that the handoff reads. */
  datatype WorkflowRun = WorkflowRun(repository: string, headRepository: string, event: string, conclusion: string,
                                     path: string, name: string, headBranch: string, headSha: string)

  predicate Trusted(run: WorkflowRun, repository: string) {
    run.repository == repository && run.headRepository == repository && run.event == "push"
    && run.conclusion == "success" && run.path == ".github/workflows/release.yml" && run.name == "Release"
  }

  function WorkflowRelease(run: WorkflowRun, operator: string): Verdict<(string, string)> {
    if !Trusted(run, "morten-olsen/homelab-" + operator) then Refuse("not a successful release push")
    else if !StartsWith(run.headBranch, "v") || !IsSha(run.headSha) then Refuse("invalid release tag or commit")
    else if Parse(run.headBranch[1..]).None? then Refuse("not a canonical stable version")
    else Pass((run.headBranch, run.headSha))
  }

  /** A handoff is taken exactly for a trusted run of a canonical stable tag, and hands on that tag and commit. */
  lemma WorkflowReleaseIff(run: WorkflowRun, operator: string, tag: string, commit: string)
    ensures WorkflowRelease(run, operator) == Pass((tag, commit)) <==>
            && run.repository == "morten-olsen/homelab-" + operator
            && run.headRepository == "morten-olsen/homelab-" + operator
            && run.event == "push" && run.conclusion == "success"
            && run.path == ".github/workflows/release.yml" && run.name == "Release"
            && run.headBranch == tag && run.headSha == commit
            && |commit| == 40 && (forall c | c in commit :: '0' <= c <= '9' || 'a' <= c <= 'f')
            && exists v :: tag == "v" + Print(v)
  {
    hide Parse, Print;
    if StartsWith(tag, "v") {
      assert tag == "v" + tag[1..];
      if Parse(tag[1..]).Some? {
        ParseIff(tag[1..], Parse(tag[1..]).value);
      }
    }
    forall v | tag == "v" + Print(v)
      ensures StartsWith(tag, "v") && Parse(tag[1..]) == Some(v)
    {
      assert tag[1..] == Print(v);
      ParseIff(tag[1..], v);
    }
  }

  // ---------------------------------------------------------------- main

  datatype Args = Args(operator: string, tag: Option<string>, checkSource: bool, commit: Option<string>,
                       workflowRun: Option<WorkflowRun>, plan: bool, stage: Stage, githubOutput: bool)

  /** A published chart as the repository's index lists it. */
  datatype Chart = Chart(name: string, version: string)

  /** What the network showed this run of the preflight; None is an error raised on the way. */
  datatype Outside = Outside(refs: Option<Refs>, isAncestor: bool, charts: Option<seq<Chart>>,
                             artifacts: Artifacts)

  predicate WellFormed(o: Outside) { (o.refs.Some? ==> Listed(o.refs.value)) && Answers(o.artifacts) }

  function Filled(s: Option<string>): bool { s.Some? && s.value != "" }

  /** Versions of the published charts, if all are canonical. */
  function Published(charts: seq<Chart>): Option<seq<Version>> {
    if charts == [] then Some([])
    else
      var (front, last) := (Published(charts[..|charts| - 1]), Parse(charts[|charts| - 1].version));
      if front.Some? && last.Some? then Some(front.value + [last.value]) else None
  }

  /** All charts have canonical versions exactly if there is a version for each whose text is that of the chart. */
  lemma {:induction false} PublishedIff(charts: seq<Chart>, vs: seq<Version>)
    ensures Published(charts) == Some(vs) <==>
            |vs| == |charts| && forall i | 0 <= i < |charts| :: charts[i].version == Print(vs[i])
    decreases |charts|
  {
    hide Print, Parse;
    if charts != [] && vs != [] {
      var (n, m) := (|charts| - 1, |vs| - 1);
      PublishedIff(charts[..n], vs[..m]);
      ParseIff(charts[n].version, vs[m]);
      OneMore(Published(charts[..n]), Parse(charts[n].version), vs);
      EachPrinted(charts, vs);
    }
  }

  lemma OneMore(front: Option<seq<Version>>, last: Option<Version>, vs: seq<Version>)
    requires vs != []
    ensures front.Some? && last.Some? && front.value + [last.value] == vs <==>
            front == Some(vs[..|vs| - 1]) && last == Some(vs[|vs| - 1])
  {
    assert vs == vs[..|vs| - 1] + [vs[|vs| - 1]];
  }

  /** Each text is that of its version. */
  predicate Printed(charts: seq<Chart>, vs: seq<Version>) {
    |vs| == |charts| && forall i | 0 <= i < |charts| :: charts[i].version == Print(vs[i])
  }

  lemma EachPrinted(charts: seq<Chart>, vs: seq<Version>)
    requires charts != [] && vs != []
    ensures var (n, m) := (|charts| - 1, |vs| - 1);
            Printed(charts, vs) <==> Printed(charts[..n], vs[..m]) && charts[n].version == Print(vs[m])
  {
    hide Print;
    var (n, m) := (|charts| - 1, |vs| - 1);
    if Printed(charts[..n], vs[..m]) && charts[n].version == Print(vs[m]) {
      forall i | 0 <= i < |charts|
        ensures charts[i].version == Print(vs[i])
      {
        assert i < n ==> charts[..n][i] == charts[i] && vs[..m][i] == vs[i];
      }
    }
  }

  /** There is a history, and it is that of this operator's chart. */
  predicate Expected(operator: string, charts: seq<Chart>) {
    charts != [] && forall i | 0 <= i < |charts| :: charts[i].name == "release-check/" + operator
  }

  method PublishedVersions(operator: string, charts: Option<seq<Chart>>) returns (r: Verdict<seq<Version>>)
    ensures r.Pass? <==>
            && charts.Some? && charts.value != [] && Published(charts.value).Some?
            && forall i | 0 <= i < |charts.value| :: charts.value[i].name == "release-check/" + operator
    ensures r.Pass? ==> Some(r.value) == Published(charts.value)
  {
    hide Parse, Matches;
    if charts.None? {
      return Refuse("published chart history could not be read");
    }
    if !Expected(operator, charts.value) {
      return Refuse("published chart history is missing or unexpected");
    }
    var versions: seq<Version> := [];
    for i := 0 to |charts.value|
      invariant Published(charts.value[..i]) == Some(versions)
    {
      assert charts.value[..i + 1][..i] == charts.value[..i];
      var v := Parse(charts.value[i].version);
      if v.None? {
        NoneAtAll(charts.value, i + 1);
        return Refuse("not a canonical stable version");
      }
      versions := versions + [v.value];
    }
    assert charts.value[..|charts.value|] == charts.value;
    return Pass(versions);
  }

  /** One text that is no version spoils the whole list. */
  lemma {:induction false} NoneAtAll(charts: seq<Chart>, i: nat)
    requires i <= |charts| && Published(charts[..i]).None?
    ensures Published(charts).None?
    decreases |charts|
  {
    if i == |charts| {
      assert charts[..i] == charts;
    } else {
      assert charts[..|charts| - 1][..i] == charts[..i];
      NoneAtAll(charts[..|charts| - 1], i);
    }
  }

  /** The release a run of the preflight is about, if its arguments fit together. */
  function Request(args: Args): (r: Option<(string, string)>)
    ensures r.Some? ==> r.value.0 != "" && r.value.1 != ""
  {
    var handed := if args.workflowRun.None? then Pass((Unwrap(args.tag), Unwrap(args.commit)))
                  else WorkflowRelease(args.workflowRun.value, args.operator);
    if args.workflowRun.Some? && (Filled(args.tag) || Filled(args.commit) || args.plan || args.stage != Pages) then None
    else if handed.Refuse? || handed.value.0 == "" || handed.value.1 == "" then None
    else if args.plan && (args.githubOutput || args.stage != Image) then None
    else Some(handed.value)
  }

  function Unwrap(s: Option<string>): string { if s.Some? then s.value else "" }

  /** Everything that must hold for a release to go ahead. */
  ghost predicate Admitted(args: Args, o: Outside, tag: string, commit: string, version: Version)
    requires WellFormed(o)
  {
    && tag == "v" + Print(version) && IsSha(commit)
    && o.refs.Some? && SourceOk(o.refs.value, tag, commit, !args.plan) && o.isAncestor
    && o.charts.Some? && Expected(args.operator, o.charts.value) && Published(o.charts.value).Some?
    && Newest(o.refs.value, tag, version, Published(o.charts.value).value)
    && InOrder(o.artifacts, args.stage)
  }

  class Preflight {
    /** The file that hands the release on to the publisher. */
    var output: seq<string>

    constructor ()
      ensures output == []
    {
      output := [];
    }

    /** The gates for one release, in their order. */
    method Gates(args: Args, o: Outside, tag: string, commit: string) returns (r: Verdict<Version>)
      requires WellFormed(o)
      ensures r.Pass? ==> Admitted(args, o, tag, commit, r.value)
      ensures r.Refuse? ==> forall v :: !Admitted(args, o, tag, commit, v)
    {
      hide Parse, Print, Newest, InOrder, SourceOk, Published, IsSha;
      if !StartsWith(tag, "v") {
        return Refuse("release tag must start with v");
      }
      var candidate := Parse(tag[1..]);
      CandidateOf(tag);
      if candidate.None? {
        return Refuse("not a canonical stable version");
      }
      if !IsSha(commit) {
        return Refuse("commit must be a full lowercase SHA");
      }
      if o.refs.None? {
        return Refuse("release source could not be read");
      }
      var reserved :- CheckSource(o.refs.value, tag, commit, !args.plan);
      if !o.isAncestor {
        return Refuse("commit is not on main");
      }
      var charts :- PublishedVersions(args.operator, o.charts);
      GateAccepts(o.refs.value, tag, candidate.value, charts);
      var _ :- CheckVersion(candidate.value, reserved, charts);
      var _ :- CheckArtifacts(o.artifacts, args.stage);
      return Pass(candidate.value);
    }

    lemma CandidateOf(tag: string)
      requires StartsWith(tag, "v")
      ensures forall v :: tag == "v" + Print(v) <==> Parse(tag[1..]) == Some(v)
    {
      hide Parse, Print;
      assert tag == "v" + tag[1..];
      forall v
        ensures tag == "v" + Print(v) <==> Parse(tag[1..]) == Some(v)
      {
        ParseIff(tag[1..], v);
        assert ("v" + Print(v))[1..] == Print(v);
      }
    }

    /**
     * The preflight passes exactly if its arguments fit together and the release is admitted; and it writes the file,
     * once and at the end, exactly if it passes and was asked to. A refusal, an inspection and a plan leave nothing
     * behind.
     */
    method Run(args: Args, o: Outside) returns (r: Verdict<()>)
      requires WellFormed(o)
      modifies this
      ensures r.Pass? <==> Passes(args, o)
      ensures args.checkSource && r.Pass? ==>
                o.refs.Some? && !Filled(args.tag) && !Filled(args.commit) && args.workflowRun.None? && !args.plan
                && !args.githubOutput && args.stage == Image
      ensures output == if r.Pass? && args.githubOutput && !args.checkSource
                        then old(output) + ["new_tag=" + Request(args).value.0,
                                            "new_version=" + Request(args).value.0[1..],
                                            "release_commit=" + Request(args).value.1]
                        else old(output)
      ensures r.Pass? && !args.checkSource ==>
                && o.refs.Some?
                && PointsTo(o.refs.value.at, "refs/tags/" + Request(args).value.0, Request(args).value.1, !args.plan)
      ensures output != old(output) ==> !args.plan && !args.checkSource
    {
      hide Admitted, WorkflowRelease;
      if args.checkSource {
        if !Inspects(args) {
          return Refuse("source inspection cannot supply publication inputs or outputs");
        }
        return if o.refs.Some? then Pass(()) else Refuse("release source could not be read");
      }
      if args.workflowRun.Some? {
        if Filled(args.tag) || Filled(args.commit) || args.plan || args.stage != Pages {
          return Refuse("workflow handoff is only for the Pages stage");
        }
      }
      var handed := if args.workflowRun.None? then Pass((Unwrap(args.tag), Unwrap(args.commit)))
                    else WorkflowRelease(args.workflowRun.value, args.operator);
      if handed.Refuse? {
        return Refuse(handed.reason);
      }
      var (tag, commit) := handed.value;
      if tag == "" || commit == "" {
        return Refuse("both tag and commit are required");
      }
      if args.plan && (args.githubOutput || args.stage != Image) {
        return Refuse("plan mode cannot supply publication outputs");
      }
      assert Request(args) == Some((tag, commit));
      var version :- Gates(args, o, tag, commit);
      NotEmpty(args, o, tag, commit, version);
      AdmittedPointsTo(args, o, tag, commit, version);
      assert Admitted(args, o, tag, commit, version);
      if args.githubOutput {
        output := output + HandedOn(tag, commit);
      }
      return Pass(());
    }

    lemma AdmittedPointsTo(args: Args, o: Outside, tag: string, commit: string, version: Version)
      requires WellFormed(o) && Admitted(args, o, tag, commit, version)
      ensures o.refs.Some? && PointsTo(o.refs.value.at, "refs/tags/" + tag, commit, !args.plan)
    {
      hide Newest, InOrder, Published, PointsTo;
      SourceOkIff(o.refs.value, tag, commit, !args.plan);
    }

    lemma NotEmpty(args: Args, o: Outside, tag: string, commit: string, version: Version)
      requires WellFormed(o) && Admitted(args, o, tag, commit, version)
      ensures tag != ""
    {
    }
  }

  /** Nothing but the operator is given. */
  predicate Inspects(args: Args) {
    !Filled(args.tag) && !Filled(args.commit) && args.workflowRun.None? && !args.plan && !args.githubOutput
    && args.stage == Image
  }

  /** The lines for the publisher. */
  function HandedOn(tag: string, commit: string): seq<string>
    requires tag != ""
  {
    ["new_tag=" + tag, "new_version=" + tag[1..], "release_commit=" + commit]
  }

  ghost predicate Passes(args: Args, o: Outside)
    requires WellFormed(o)
  {
    if args.checkSource then Inspects(args) && o.refs.Some?
    else Request(args).Some? && exists v :: Admitted(args, o, Request(args).value.0, Request(args).value.1, v)
  }

  /**
   * Which arguments make a release: with a workflow run, nothing else but the pages stage, and the tag and commit that
   * run hands on; without one, both given and not empty, and no output and no later stage together with a plan.
   */
  lemma RequestIff(args: Args, tag: string, commit: string)
    ensures Request(args) == Some((tag, commit)) <==>
            && tag != "" && commit != ""
            && (args.workflowRun.None? ==>
                  && args.tag == Some(tag) && args.commit == Some(commit)
                  && (args.plan ==> !args.githubOutput && args.stage == Image))
            && (args.workflowRun.Some? ==>
                  && (args.tag == None || args.tag == Some("")) && (args.commit == None || args.commit == Some(""))
                  && !args.plan && args.stage == Pages
                  && WorkflowRelease(args.workflowRun.value, args.operator) == Pass((tag, commit)))
  {
    hide WorkflowRelease;
  }

  /**
   * A whole preflight for a release passes exactly if the tag is a canonical stable version and the commit a full
   * SHA, the refs point the tag to that commit, which is on main, there is a history of this operator's chart, the
   * version is above everything published or tagged elsewhere, and the artifacts are those of the stage.
   */
  lemma PassesIff(args: Args, o: Outside, tag: string, commit: string)
    requires WellFormed(o) && !args.checkSource && Request(args) == Some((tag, commit))
    ensures Passes(args, o) <==>
            && |commit| == 40 && (forall c | c in commit :: '0' <= c <= '9' || 'a' <= c <= 'f')
            && o.refs.Some? && PointsTo(o.refs.value.at, "refs/tags/" + tag, commit, !args.plan) && o.isAncestor
            && o.charts.Some? && o.charts.value != [] && Published(o.charts.value).Some?
            && (forall i | 0 <= i < |o.charts.value| :: o.charts.value[i].name == "release-check/" + args.operator)
            && InOrder(o.artifacts, args.stage)
            && exists v :: tag == "v" + Print(v) && Newest(o.refs.value, tag, v, Published(o.charts.value).value)
  {
    hide Request, Print, Newest, PointsTo, Published, InOrder, SourceOk;
    if o.refs.Some? {
      SourceOkIff(o.refs.value, tag, commit, !args.plan);
    }
    if Passes(args, o) {
      var v :| Admitted(args, o, tag, commit, v);
    }
    if o.refs.Some? && o.charts.Some? && Published(o.charts.value).Some? && IsSha(commit) && o.isAncestor
       && PointsTo(o.refs.value.at, "refs/tags/" + tag, commit, !args.plan)
       && Expected(args.operator, o.charts.value) && InOrder(o.artifacts, args.stage)
       && exists v :: tag == "v" + Print(v) && Newest(o.refs.value, tag, v, Published(o.charts.value).value) {
      var v :| tag == "v" + Print(v) && Newest(o.refs.value, tag, v, Published(o.charts.value).value);
      assert Admitted(args, o, tag, commit, v);
    }
  }
}
