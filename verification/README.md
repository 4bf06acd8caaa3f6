# PostgreSQL operator: verified model

A Dafny model of the two controllers of the PostgreSQL operator and of the release preflight of its charts, with proofs
of what they keep over whole runs.

**The database controller.** `Model` holds the two stores, Kubernetes objects and one PostgreSQL server, and the calls
made on them. Every call is decided by an adversary: it works, fails without effect, fails after its effect, or (a read)
hides what exists. `Machine` is one Reconcile pass as a machine that makes one call at a time; `System` interleaves the
passes of any number of resources call by call, lets each die between any two calls, and lets users edit and delete in
between. `Reconciler` and `DatabaseObject` are the same pass as the methods it is written in, which change the object in
memory in place; `Reconcile` is proved to do to the stores exactly what the machine does. The `...Safety` modules,
`RetryBound`, `Convergence`, `FixedPoint`, `FaultFree`, `FailureReports`, `ReadyAgreement` and `StaleReady`
prove properties of all runs, or of all passes. `CallSafety`, `PasswordSafety`, `UpdateSafety` and `EndingSafety` say of
every call, from the key and specification of the resource and the answers alone, what it asks for, whom it works for,
what it changes in Kubernetes and how its pass ends.

**The cluster controller.** `ClusterController` has its methods in place and the function that says what they write;
`ClusterSafety` has its runs, and the agreement between the two controllers about readiness.

**The texts.** `Conditions`, `Text`, `Names`, `SqlText` and `ConnectionUrl` model status conditions, decimal text,
default names, SQL quoting and connection URLs, each paired with a map, a parser or a lexer.

**Releases.** `Versions`, `ReleaseGate` and `ReleaseHistory` model the preflight script and the history it allows.

## Assumptions

- At most one pass of a resource runs at a time; its session on the server ends with it.
- Updates use optimistic concurrency: a write goes through only against the stored version. Create fails if the object is
  there. An object marked for deletion goes away with its last finalizer. A read returns the stored object, fails, or
  reports an object that exists as not found.
- What the client's Update leaves of the status in memory is its own choice: it keeps it or replaces it.
- There is one PostgreSQL server. CREATE USER and CREATE DATABASE report "already exists" exactly when the object exists;
  a commit that reports a failure may have taken effect; a BEGIN or a query that reports a failure leaves nothing open.
- A pass reads the clock once for each answer it deals with.
- Nobody else changes roles, passwords, databases, connection secrets of living resources, or this finalizer.
- `SecretBeforeRole` asks that no two resources ever name the same role, and `OwnersAreConserved` that a database is only
  ever meant for one user.
- The release history assumes that a publisher checks and publishes in one step, and that lookups tell the truth: what is
  found is published, and what the one lookup for something yet to be published reports absent is not published. What an
  earlier stage has published may take any number of lookups to show.

## Where the code differs from what is said about it

- README.md:16-22 and 95 speak of a StatefulSet, an admin secret and retained connection secrets. The controllers create
  no StatefulSet, and leave the connection secret to its owner reference.
- dropDatabaseAndUser issues DROP DATABASE inside a transaction, which PostgreSQL refuses. `PostgresNeverDrops` proves
  that on such a server the Delete policy never removes anything, and `DropsIff` exactly when it would; the finalizer is
  removed all the same.
- generateRandomPassword's comment lists `.` among the characters; the character set does not have it.
- Early exits leave an older Ready condition in place, so a stored Ready True need not agree with the other conditions:
  `StaleReadyIff` says exactly which writes leave it so, and `StaleReadyHappens` is a run that does.
- The pass that first adds the finalizer may forget that the cluster is ready: `FaultFreePass` says exactly when.
- One pass does not give an existing database to a role it has just created: `OnePass` says exactly when.
- The release gate refuses a repository that has no published chart yet: `NoFirstRelease`.

## Model

| member | source | states |
|---|---|---|
| Reconciler.DatabaseReconciler.Reconcile | internal/controller/postgresdatabase_controller.go:134-219 | one Reconcile, cut off anywhere by the end of the tape, leaves the two stores exactly as RunPass of the call-by-call machine does, and ends the way the machine ends; all run properties below are about that machine |
| Reconciler.DatabaseReconciler.FetchAndValidateCluster | internal/controller/postgresdatabase_controller.go:222-260 | hands on a cluster exactly where the machine goes on to resolve that cluster's credentials; otherwise the pass has been reported and ended as in the machine; which cluster is read is CallSafety.ReadsWhatIsReferenced |
| Reconciler.DatabaseReconciler.ResolveClusterConnection | internal/controller/postgresdatabase_controller.go:264-326 | hands on the credentials and port the machine has resolved, none empty, with the pass at the step the machine takes next: drop, finalizer or connection |
| Reconciler.DatabaseReconciler.ResolveField | internal/controller/postgresdatabase_controller.go:329-370 | hands on the value with which the machine goes on to the next field, or has ended as the machine does |
| Reconciler.DatabaseReconciler.EnsureFinalizer | internal/controller/postgresdatabase_controller.go:468-474 | ends at the connection step, with the object in memory the one the machine has after the update, not marked for deletion |
| Reconciler.DatabaseReconciler.EnsureConnectionSecret | internal/controller/postgresdatabase_controller.go:508-582 | ends at the role step with the password the machine works with, read or created; what the secret says is CallSafety.SecretSaysWhatIsCreated, where its password comes from PasswordSafety.PasswordIsDrawn |
| Reconciler.DatabaseReconciler.CreateDatabaseAndUser | internal/controller/postgresdatabase_controller.go:602-767 | ends where the machine has nothing left but its final status, or reported and ended as the machine is; the names it works on are CallSafety.WorksUnderOwnNames |
| Reconciler.DatabaseReconciler.TransferObjectOwnership | internal/controller/postgresdatabase_controller.go:952-1019 | true exactly if the machine has repaired the whole listing, false if it has a failed repair to report; its loops follow the machine row by row and object by object |
| Reconciler.DatabaseReconciler.HandleDeletion | internal/controller/postgresdatabase_controller.go:374-465 | always ends the way the machine's deletion pass ends, whatever became of the cleanup, or dies with the tape |
| Reconciler.DatabaseReconciler.DropBoth | internal/controller/postgresdatabase_controller.go:75-100 | ends at the re-read of the resource with the transaction closed as in the machine, by commit or by rollback |
| DatabaseObject.PostgresDatabase.SetCondition | internal/controller/postgresdatabase_controller.go:827-862 | in place: the conditions become the upsert of the old ones (field by field in Conditions.SetRecords), nothing else changes |
| DatabaseObject.PostgresDatabase.UpdatePhase | internal/controller/postgresdatabase_controller.go:865-893 | in place: Deleting exactly on a marked resource, else Ready exactly if Ready is True, Failed exactly if Ready and DatabaseReady are both False, Creating exactly if Ready is False and DatabaseReady is not, Pending exactly in the rest |
| DatabaseObject.PostgresDatabase.FinishStatus | internal/controller/postgresdatabase_controller.go:770-821 | in place: generation, overall Ready, phase and connection as in the machine's final step |
| System.DriveIsRun | internal/controller/postgresdatabase_controller.go:134-219 | a pass driven alone by its tape is a run in which only that pass moves, so what holds of all runs holds of it |
| FinalizerSafety.FinalizerBeforeEffects | internal/controller/postgresdatabase_controller.go:149-207 | in every reachable state, also after a crash: if a secret, role or database was created for an incarnation, the stored resource carries the finalizer or a deletion pass has removed it |
| SecretSafety.SecretBeforeRole | internal/controller/postgresdatabase_controller.go:508-582 | over every interleaving, crash and failure, with reads that hide what exists: until its resource is marked for deletion, every existing role has a stored connection secret under the key of its namespace and its name with -connection, whose password entry is the password of the role |
| Invariants.RunKeeps | internal/controller/postgresdatabase_controller.go:134-219 | stored objects stay well formed, running passes agree with the version they read, and a finalizer a pass relies on stays in the store |
| SessionSafety.LockDiscipline | internal/controller/postgresdatabase_controller.go:980-1016 | in every state: at most one open transaction, no cursor beside it, only the listed object at hand locked, nothing open once a pass has ended |
| SessionSafety.EveryWaitIsLimited | internal/controller/postgresdatabase_controller.go:1004-1006 | every ownership statement comes directly after a lock timeout was set in a transaction begun directly before |
| SessionSafety.EndsAtFirstTimeout | internal/controller/postgresdatabase_controller.go:1003-1015 | after the first refused repair statement a pass only rolls back, records the failure and stops |
| SessionSafety.StepDiscipline | internal/controller/postgresdatabase_controller.go:980-1016 | what a session holds is determined by the place its pass has reached |
| RepairSafety.AtomicPrefix | internal/controller/postgresdatabase_controller.go:986-1018 | however a pass ends: the owners of exactly a prefix of the listing changed, as long as the answered commits or one longer after a failed commit, nothing else in any database; a published pass listed and repaired every wrongly owned object |
| RepairSafety.DriveOk | internal/controller/postgresdatabase_controller.go:986-1018 | listing, commits and owners stay in step over every call of a pass |
| RetryBound.OwnersAreConserved | internal/controller/postgresdatabase_controller.go:952-1018 | over every interleaving of passes, for a database that is there or yet to be created: owner changes so far plus wrongly owned objects left equal the wrongly owned objects at the start |
| RetryBound.NextCounts | internal/controller/postgresdatabase_controller.go:1003-1016 | every event changes exactly as many owners as it removes wrong ones |
| Convergence.OnePass | internal/controller/postgresdatabase_controller.go:602-767 | a published pass with every statement answered leaves password, grants and objects right from any server state, and the database owner right if and only if it is not the case that the database existed before the role under another owner |
| Convergence.TwoPasses | internal/controller/postgresdatabase_controller.go:602-767 | two such passes always converge |
| FixedPoint.ConvergedIsFixed | internal/controller/postgresdatabase_controller.go:602-767 | from a converged state no pass, clean, failing or cut off, changes the server or a secret |
| FixedPoint.ThirdPassChangesNothing | internal/controller/postgresdatabase_controller.go:602-767 | after two clean passes any third changes nothing |
| FaultFree.FaultFreePass | internal/controller/postgresdatabase_controller.go:134-219 | without faults a pass ends published within 28 calls and five per wrongly owned object, and stores phase Ready if and only if the finalizer was there before, or its update kept the status in memory, or the stored status already had ClusterReady |
| DeletionSafety.OnlyPolicyDeletes | internal/controller/postgresdatabase_controller.go:374-432 | a role or database goes away only by the commit of a deletion pass that read policy Delete, and then exactly its own two names together |
| DeletionSafety.PostgresNeverDrops | internal/controller/postgresdatabase_controller.go:75-100 | on a server that refuses DROP DATABASE in a transaction, as PostgreSQL does, no run ever removes a role or database |
| DropSafety.DropsIff | internal/controller/postgresdatabase_controller.go:395-432 | a deletion pass with policy Delete, credentials that resolve and calls that all work releases the resource within twelve calls, leaves neither role nor database behind if and only if the server accepts DROP DATABASE in a transaction or neither was there, and changes nothing else on the server |
| DeletionSafety.DeletionReleases | internal/controller/postgresdatabase_controller.go:434-465 | a deletion pass given its twelve calls, whose reads and updates of the resource are answered, removes this finalizer and keeps every other |
| DeletionSafety.WithoutKeepsOthers | internal/controller/postgresdatabase_controller.go:452-454 | removing a finalizer takes out every occurrence of it and leaves the others as they were, in order and number |
| StatusSafety.PhaseCoherence | internal/controller/postgresdatabase_controller.go:865-893 | every stored status is untouched, or has the phase its own conditions mean (written out for each phase, with DatabaseReady to blame), or is Deleting on a marked resource; the observed generation never exceeds the generation |
| StatusSafety.EveryStatusWrite | internal/controller/postgresdatabase_controller.go:770-824 | a status changes only by its own pass, with exactly the phase that its conditions and the deletion mark the pass read mean, written out for each phase; its observed generation is that of the object the pass read in a final write and unchanged in every other, and never decreases |
| StatusSafety.ReadyIsEarned | internal/controller/postgresdatabase_controller.go:134-219 | a pass that turns Ready to True has itself seen the cluster Ready, three non-empty credentials, a ping, a connection secret, every required statement, and the listing with a commit right after the change of each listed object; the connection it publishes is that of its own resource |
| FailureReports.FailuresAreReported | internal/controller/postgresdatabase_controller.go:227-260 | every status written by a pass that gives up, in deletion too, has False the condition that its last observation is held against: cluster, secret, connection or database |
| ReadyAgreement.StaleReadyIff | internal/controller/postgresdatabase_controller.go:770-801 | over every run and status that changes: Ready is left True beside one of the four other conditions that is not, if and only if the writing pass gave up before its ownership repair and Ready was True before; a final write never does so, a failed repair always turns Ready off |
| StaleReady.LosesItsCluster | internal/controller/postgresdatabase_controller.go:222-243 | any Ready resource whose cluster is deleted is left Ready beside ClusterReady False by its next pass, although no call of it fails |
| StaleReady.StaleReadyHappens | internal/controller/postgresdatabase_controller.go:222-243 | a concrete run from an empty server that ends so |
| StatusSafety.ConnectionsAgree | internal/controller/postgresdatabase_controller.go:803-820 | over every run a stored connection's URL has its own user, host, port and database |
| StatusSafety.PortRoundTrip | internal/controller/postgresdatabase_controller.go:803-814 | scanning the printed port gives the port back for every integer, so the fallback is never taken |
| Text.ScanPrinted | internal/controller/postgresdatabase_controller.go:803-814 | printing and scanning with %d are inverse, whatever text follows |
| CallSafety.ReadsWhatIsReferenced | internal/controller/postgresdatabase_controller.go:222-231 | over every run, deletion included: a pass asks for the cluster its resource names, in the reference's namespace if it has one and in the resource's if not; before its ping it asks only for secrets the found cluster's host, user or password name, in their own namespace or else the cluster's, afterwards only for the resource's own |
| CallSafety.WorksUnderOwnNames | internal/controller/postgresdatabase_controller.go:47-63 | over every run: each statement on a database is on the explicit database name, or on namespace_name when that is empty; each about a role on the explicit user name, or namespace_name; the two decided apart |
| CallSafety.SecretSaysWhatIsCreated | internal/controller/postgresdatabase_controller.go:526-541 | over every run: the secret a pass creates has six entries; user and password are those of its role, database that of its database, host and port those it connects to, url the other five put together |
| CallSafety.ConnectsAsTold | internal/controller/postgresdatabase_controller.go:264-326 | over every run: host, user and password of each connection are the literals of the cluster found, or the named entries of the named secrets as read; the port is its port or 5432; the password set for a role is that of the resource's secret as read or created |
| CallSafety.ReadySaysWhereToConnect | internal/controller/postgresdatabase_controller.go:803-820 | the connection published with Ready has host and port of the server the pass connected to, and database and user by the two naming rules; its URL is those four put together without a password |
| PasswordSafety.PasswordIsDrawn | internal/controller/postgresdatabase_controller.go:102-117 | over every run: the password of each secret a pass creates is spelled by 32 random bytes drawn in that pass, byte by byte: 26 small letters, 26 capitals, ten digits, and - _ ~ in turn |
| UpdateSafety.TouchesOnlyItsOwn | internal/controller/postgresdatabase_controller.go:442-474 | over every run, each call of a pass leaves other resources alone and its own as it is but for its status, or this finalizer put last on an unmarked resource that lacks it, or taken from a marked one that has it; the resource goes only if it was marked and had no other finalizer |
| EndingSafety.EndingsIff | internal/controller/postgresdatabase_controller.go:134-219 | over every run, an ended pass asks to run again exactly after a conflict on the finalizer's removal, or a status written because cluster or secret was missing or the cluster not ready; it is released, published or had nothing to do exactly as written out on its calls; else it is an error |
| Conditions.CallsAreMapUpdates | internal/controller/postgresdatabase_controller.go:827-862 | any sequence of setCondition calls is observed through getCondition as the same sequence of plain map updates when reasons track status |
| Conditions.CallsKeepShape | internal/controller/postgresdatabase_controller.go:827-862 | any sequence of calls keeps the kinds unique and only appends |
| Conditions.PlainUpdateIff | internal/controller/postgresdatabase_controller.go:847-856 | the two update branches make the same record as a plain upsert exactly if a record left untouched has the reason of its status |
| Conditions.SetRecords | internal/controller/postgresdatabase_controller.go:827-862 | what a call leaves under its kind, field by field, and that every other kind keeps its record |
| Conditions.DatabasePhaseMeans | internal/controller/postgresdatabase_controller.go:865-893 | each of the five phases with the exact case in which it is given |
| Conditions.ClusterPhaseMeans | internal/controller/postgrescluster_controller.go:294-325 | the same for the cluster's phases |
| Conditions.ConditionBook.SetCondition | internal/controller/postgrescluster_controller.go:256-291 | the in-place loop of both controllers computes the upsert: the record of the kind is True or False as told, with its message, clock reading and generation, and the reason Ready or NotReady unless status and generation were the same before |
| Conditions.ConditionBook.GetCondition | internal/controller/postgrescluster_controller.go:328-335 | the loop finds the first condition of the kind |
| SqlText.LexPrinted | internal/controller/postgresdatabase_controller.go:67-72 | every list of tokens printed with the program's quoting lexes back to exactly that list, and to nothing exactly when a name is empty or a text holds a NUL |
| SqlText.CreateUserReadsBack | internal/controller/postgresdatabase_controller.go:605-612 | CREATE USER lexes to exactly the intended tokens, name and password unchanged, for all NUL-free values |
| SqlText.AlterUserReadsBack | internal/controller/postgresdatabase_controller.go:628-628 | the same for ALTER USER |
| SqlText.CreateDatabaseReadsBack | internal/controller/postgresdatabase_controller.go:636-636 | the same for CREATE DATABASE with its owner |
| SqlText.UserStatementIsInjective | internal/controller/postgresdatabase_controller.go:605-612 | two user statements are the same text only for the same name and password |
| ConnectionUrl.SecretUrlMatchesFields | internal/controller/postgresdatabase_controller.go:527-541 | splitting the secret's URL gives exactly the other fields of the secret |
| ConnectionUrl.UrlSplits | internal/controller/postgresdatabase_controller.go:541-541 | user, password, host, port and database come back from the split of the URL |
| ConnectionUrl.PasswordIsUnreserved | internal/controller/postgresdatabase_controller.go:104-117 | a password made of random bytes is as long as they are and has only unreserved characters |
| ConnectionUrl.GenerateRandomPassword | internal/controller/postgresdatabase_controller.go:104-117 | the loop over the byte buffer computes the password from the random bytes |
| ConnectionUrl.ChosenNameIsUnreserved | api/v1/postgresdatabase_types.go:36-50 | names that the API accepts need no escaping |
| Names.DefaultNamesSeparate | internal/controller/postgresdatabase_controller.go:49-63 | default names of different resources differ when namespaces and names are Kubernetes names that fit PostgreSQL's limit |
| Names.DefaultNameIsUniqueIff | internal/controller/postgresdatabase_controller.go:49-63 | a default name survives truncation apart from all others exactly if it is shorter than the limit |
| Names.DefaultIsNeverExplicit | api/v1/postgresdatabase_types.go:36-50 | a default name never equals an explicit one that fits the API's pattern |
| Names.SecretNamesSeparate | internal/controller/postgresdatabase_controller.go:509-509 | connection secrets of different resources in a namespace have different names |
| ClusterController.PostgresCluster.Reconcile | internal/controller/postgrescluster_controller.go:57-153 | after the read: what it leaves in memory to be written, and whether it writes, is the function Write of what it was told; it asks only for secrets that its host, user and password name, in their own namespace or else the cluster's, and tests, exactly if no credential is empty, the connection they give on the port of the specification or 5432 |
| ClusterController.PostgresCluster.UpdateStatus | internal/controller/postgrescluster_controller.go:216-253 | generation, overall Ready, phase and admin connection in place; the admin connection has the resolved host and user, the port or 5432, and a URL made of these |
| ClusterController.PostgresCluster.UpdatePhase | internal/controller/postgrescluster_controller.go:294-325 | in place: the phase its conditions mean, written out for each phase as for the database, with ConfigurationValid to blame; the last two branches agree |
| ClusterController.AdminUrlSplits | internal/controller/postgrescluster_controller.go:242-250 | the admin URL, split by section 3.2 of RFC 3986, gives user, host, port and the path /postgres, without a password |
| ClusterController.ResolveIff | internal/controller/postgrescluster_controller.go:157-193 | resolving a field brings a text exactly if it is the non-empty literal, or without one the entry found in the named secret; asks for a retry exactly if that secret is needed and missing; fails in every other case |
| ClusterController.WriteFacts | internal/controller/postgrescluster_controller.go:102-153 | a write changes the status only, with the phase its conditions mean and the generation it read, and has Ready True exactly if the cluster serves or an empty credential cut it short with Ready True before |
| ClusterSafety.EveryClusterWrite | internal/controller/postgrescluster_controller.go:216-253 | over every run a cluster status changes only by the end of its own pass against the object it read, with exactly the phase its conditions and the mark mean, Ready as earned, and the observed generation never decreasing |
| ClusterSafety.ClusterPhaseCoherence | internal/controller/postgrescluster_controller.go:294-325 | every stored cluster status is untouched, or has the phase its own conditions mean, or is Deleting on a marked cluster; with one condition of a kind |
| ClusterSafety.ReadinessAgrees | internal/controller/postgresdatabase_controller.go:912-919 | the database controller's readiness test agrees with the cluster controller's Ready condition and phase in every run |
| Versions.ParseIff | scripts/release_check.py:17-23 | the accepted texts are exactly three canonical numerals with dots between, major, minor and patch in this order; printing and parsing are inverse for unbounded numbers |
| Versions.LessIff | scripts/release_check.py:20-23 | one version is below another exactly if its number is smaller at the first of the three places where they differ |
| ReleaseGate.SourceOkIff | scripts/release_check.py:30-36 | the source gate against the refs themselves: peeled name, plain name, neither |
| ReleaseGate.PublishedIff | scripts/release_check.py:76-86 | the published versions are, one for one and in order, those whose texts the charts have |
| ReleaseGate.RequestIff | scripts/release_check.py:158-175 | which arguments make a release, with a handoff and without |
| ReleaseGate.PassesIff | scripts/release_check.py:151-189 | a whole preflight for a release passes exactly if all of its conditions hold, each written out: tag, commit, refs with the peeled one first, ancestry, history, version, artifacts |
| ReleaseGate.CheckSource | scripts/release_check.py:30-43 | passes exactly if the refs hold the commit under the tag's name with ^{}, whatever the plain name holds; or, if that name is missing, under the plain name; or, if both are missing, no tag is required; collects the reserved versions |
| ReleaseGate.ReservedIff | scripts/release_check.py:37-43 | a version is reserved exactly if its tag is listed and is not the one to be released |
| ReleaseGate.GateAccepts | scripts/release_check.py:37-73 | the version gate accepts exactly what is above every published version and every other canonical stable tag, whatever else is listed |
| ReleaseGate.RequireVisible | scripts/release_check.py:110-119 | passes exactly if one of six lookups finds it before any raises |
| ReleaseGate.CheckArtifacts | scripts/release_check.py:122-132 | stage by stage: before the image both artifacts are reported absent at the first lookup; before the release the image becomes visible within the allowed lookups and the release is absent; before the pages both become visible |
| ReleaseGate.PublishedVersions | scripts/release_check.py:76-86 | passes exactly for a chart history that is there, not empty, of the chart release-check/ and the operator's name only, and canonical throughout |
| ReleaseGate.WorkflowReleaseIff | scripts/release_check.py:135-148 | a handoff is taken exactly for a successful push run of the Release workflow in the operator's own repository, of a canonical stable tag with a full lowercase SHA; each field written out |
| ReleaseGate.Preflight.Gates | scripts/release_check.py:176-185 | all gates in their order pass exactly if the release is admitted |
| ReleaseGate.Preflight.Run | scripts/release_check.py:151-189 | passes exactly if the arguments fit and the release is admitted, and writes three lines once, at the end, only then: tag, tag without its first letter, and commit; the refs of a passed release hold its commit, peeled first |
| ReleaseHistory.HistoryIsMonotone | scripts/release_check.py:69-132 | with refs changed freely and publications decided by the preflight, retries included: charts increase strictly and are never reused, no image or release is created twice, a chart has its release and a release its image before it |
| ReleaseHistory.AdmittedIsAllowed | scripts/release_check.py:151-189 | a run shown the refs and charts as they are admits a release if and only if the history allows it and it comes from a commit on main |
| ReleaseHistory.RetriesAreTruthful | scripts/release_check.py:110-132 | a stage that finds its predecessors only at a later lookup is covered: it is truthful, and it passes |
| ReleaseHistory.OneCommit | scripts/release_check.py:30-36 | if a version's tag never moves, all its stages come from one commit |
| ReleaseHistory.NoFirstRelease | scripts/release_check.py:84-85 | without any published chart nothing is ever published |

## Left out

- Real input and output: the client cache and its staleness, HTTP, the driver, git, helm and the registries. They are
  calls with adversarial answers.
- More than one PostgreSQL server, and a cluster reference that changes servers under a running role.
- The SQL of the ownership listing beyond its meaning "owner differs from the role", owner changes that cascade to other
  objects, and statements of a listing that change more than one object.
- Error classification by the text "already exists" of a driver message, and passwordStatementError.
- The key-value text of a connection string: OpenServer and OpenTarget carry its host, port, user, password and database.
- Logging and message texts; messages in conditions are fixed words.
- Wall-clock bounds: the 30 second deadline, the lock timeout's length, requeue delays. A timeout is one way to fail.
- Quality of randomness; only length and characters of a password.
- Garbage collection of the connection secret after its resource is gone, except that it may happen.
- Truncation of explicit names beyond 63 bytes, IP literals as hosts, and SQL other than quoted identifiers, quoted
  strings, words and single characters.
- The Helm chart index format, the ancestry check of git and the validity of the mirrored main branch, which are given to
  the preflight as facts; workflow files, which are not shown.
- Reconciler.DatabaseReconciler.Reconcile: the texts of the statements are not part of the calls; SqlText models them.
- ConnectionUrl.UrlSplits: does not split IP literals, because the program never brackets a host.
- ClusterSafety.EveryClusterWrite: secret reads and the connection test are arbitrary answers, not reads of a shared store.
- cmd/main.go, generated code, manifests, the Makefile and tests.
