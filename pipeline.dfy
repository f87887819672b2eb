/**
 * The push-job orchestration of worker/jobTypes/githubPushJob.js:
 * `startGithubBuild`, `pushToStage` and `runGithubPush`.
 *
 * Each stage call, raced against its deadline, is an input (`StageCall`):
 * it settles with an output object, with null, by the deadline firing, or
 * by the stage rejecting. The directory listing is an input too. What the
 * handler does is recorded as an ordered trace of events beside the way it
 * ends. Each operation is given twice: a function that specifies it and
 * that the lemmas reason about, and a method that performs the source's
 * steps one after another and is proved to agree with it.
 */
module Pipeline {
  import opened Jobs
  import Sanitizer

  /** The deadline given to both stages, in seconds (7.5 hours). */
  const BUILD_TIMEOUT: nat := 60 * 450
  const BUILD_TIMEOUT_MESSAGE := "Timed out on build"
  const PUSH_TIMEOUT_MESSAGE := "Timed out on push to stage"
  /** The marker whose presence makes the build output worth a chat message. */
  const WARNING_MARKER := "WARNING:"

  const START_LOG := JobLog(Untagged, " ** Running github push function")
  const MISSING_DEFINITION_LOG := JobLog(BuildTag, "failed due to insufficient definition")

  /** What the build and publish collaborators resolve with. */
  datatype StageOutput = StageOutput(status: string, stdout: string, stderr: string)

  /** How a stage call raced against its deadline settles. */
  datatype StageCall =
    | Settled(output: StageOutput) // resolved with an output object
    | SettledNull                  // resolved with null (or nothing)
    | DeadlinePassed               // the timer fired first
    | Throws(message: string)      // the stage itself rejected

  /** What the directory lister does with the path it is given. */
  datatype Listing = Files(names: seq<string>) | ListingThrows(message: string)

  predicate Rejects(call: StageCall) {
    call.DeadlinePassed? || call.Throws?
  }

  /** The stage resolved with an output whose status is exactly `success`. */
  predicate Succeeded(call: StageCall) {
    call.Settled? && call.output.status == "success"
  }

  /** `pattern` occurs in `text` starting at index `i`. */
  predicate OccursAt(text: string, pattern: string, i: nat) {
    i + |pattern| <= |text| && text[i..i + |pattern|] == pattern
  }

  /** `text.indexOf(pattern) !== -1` */
  predicate Contains(text: string, pattern: string) {
    exists i: nat | i <= |text| :: OccursAt(text, pattern, i)
  }

  /**
   * Awaiting the deadline-guarded call: a rejection becomes a thrown error
   * (the deadline's carrying `timeoutMessage`), a resolution the possibly
   * null output.
   */
  function Await(call: StageCall, timeoutMessage: string): (r: Completion<Option<StageOutput>>)
    ensures r.Threw? <==> Rejects(call)
    ensures r.Returned? && r.value.Some? <==> call.Settled?
    ensures call.Settled? ==> r == Returned(Some(call.output))
    ensures call.DeadlinePassed? ==> r == Threw(TimedOut(timeoutMessage))
    ensures call.Throws? ==> r == Threw(Raised(call.message))
  {
    match call
    case Settled(output) => Returned(Some(output))
    case SettledNull => Returned(None)
    case DeadlinePassed => Threw(TimedOut(timeoutMessage))
    case Throws(message) => Threw(Raised(message))
  }

  /** The text posted for a build: stdout, a blank line, stderr. */
  function BuildReport(output: StageOutput): string {
    output.stdout + "\n\n" + output.stderr
  }

  /** Whether the build's report goes to chat: only a successful build whose report holds the marker. */
  predicate ReportsBuildWarnings(call: StageCall) {
    Succeeded(call) && Contains(BuildReport(call.output), WARNING_MARKER)
  }

  // ---------------------------------------------------------------------
  // startGithubBuild
  // ---------------------------------------------------------------------

  /**
   * `startGithubBuild`: resolves true on a successful build, false on a
   * null or unsuccessful one (the promise at the end resolves; it never
   * rejects), and rejects only when the guarded call does.
   */
  function BuildOutcome(call: StageCall): (r: Traced<bool>)
    ensures |r.trace| >= 1 && r.trace[0] == StageCalled(Build, BUILD_TIMEOUT, BUILD_TIMEOUT_MESSAGE)
    ensures r.result.Threw? <==> Rejects(call)
    ensures r.result == Returned(true) <==> Succeeded(call)
    ensures call.DeadlinePassed? ==> r.result == Threw(TimedOut(BUILD_TIMEOUT_MESSAGE))
    ensures call.Throws? ==> r.result == Threw(Raised(call.message))
    ensures ReportsBuildWarnings(call) ==> r.trace == [r.trace[0], SlackMsg(BuildReport(call.output))]
    ensures !ReportsBuildWarnings(call) ==> r.trace == [r.trace[0]]
  {
    var started := [StageCalled(Build, BUILD_TIMEOUT, BUILD_TIMEOUT_MESSAGE)];
    match Await(call, BUILD_TIMEOUT_MESSAGE)
    case Threw(e) => Traced(started, Threw(e))
    case Returned(buildOutput) =>
      if buildOutput.Some? && buildOutput.value.status == "success" then
        var report := BuildReport(buildOutput.value);
        Traced(started + (if Contains(report, WARNING_MARKER) then [SlackMsg(report)] else []), Returned(true))
      else
        Traced(started, Returned(false))
  }

  method StartGithubBuild(call: StageCall) returns (effects: seq<Event>, built: Completion<bool>)
    ensures Traced(effects, built) == BuildOutcome(call)
  {
    effects := [StageCalled(Build, BUILD_TIMEOUT, BUILD_TIMEOUT_MESSAGE)];
    var awaited := Await(call, BUILD_TIMEOUT_MESSAGE);
    if awaited.Threw? {
      return effects, Threw(awaited.error);
    }
    var buildOutput := awaited.value;
    if buildOutput.Some? && buildOutput.value.status == "success" {
      var buildOutputToSlack := BuildReport(buildOutput.value);
      if Contains(buildOutputToSlack, WARNING_MARKER) {
        effects := effects + [SlackMsg(buildOutputToSlack)];
      }
      return effects, Returned(true);
    }
    return effects, Returned(false);
  }

  // ---------------------------------------------------------------------
  // pushToStage
  // ---------------------------------------------------------------------

  /**
   * `pushToStage`: a successful push always posts its stdout to chat and
   * resolves true; any other resolution posts nothing and resolves false.
   */
  function PublishOutcome(call: StageCall): (r: Traced<bool>)
    ensures |r.trace| >= 1 && r.trace[0] == StageCalled(Publish, BUILD_TIMEOUT, PUSH_TIMEOUT_MESSAGE)
    ensures r.result.Threw? <==> Rejects(call)
    ensures r.result == Returned(true) <==> Succeeded(call)
    ensures call.DeadlinePassed? ==> r.result == Threw(TimedOut(PUSH_TIMEOUT_MESSAGE))
    ensures call.Throws? ==> r.result == Threw(Raised(call.message))
    ensures Succeeded(call) ==> r.trace == [r.trace[0], SlackMsg(call.output.stdout)]
    ensures !Succeeded(call) ==> r.trace == [r.trace[0]]
  {
    var started := [StageCalled(Publish, BUILD_TIMEOUT, PUSH_TIMEOUT_MESSAGE)];
    match Await(call, PUSH_TIMEOUT_MESSAGE)
    case Threw(e) => Traced(started, Threw(e))
    case Returned(stageOutput) =>
      if stageOutput.Some? && stageOutput.value.status == "success" then
        Traced(started + [SlackMsg(stageOutput.value.stdout)], Returned(true))
      else
        Traced(started, Returned(false))
  }

  method PushToStage(call: StageCall) returns (effects: seq<Event>, pushed: Completion<bool>)
    ensures Traced(effects, pushed) == PublishOutcome(call)
  {
    effects := [StageCalled(Publish, BUILD_TIMEOUT, PUSH_TIMEOUT_MESSAGE)];
    var awaited := Await(call, PUSH_TIMEOUT_MESSAGE);
    if awaited.Threw? {
      return effects, Threw(awaited.error);
    }
    var stageOutput := awaited.value;
    if stageOutput.Some? && stageOutput.value.status == "success" {
      effects := effects + [SlackMsg(stageOutput.value.stdout)];
      return effects, Returned(true);
    }
    return effects, Returned(false);
  }

  // ---------------------------------------------------------------------
  // runGithubPush
  // ---------------------------------------------------------------------

  /** The entry check of `runGithubPush`: job, payload, repoName and branchName; the owner is not looked at. */
  predicate HasRunFields(job: Option<Job>) {
    && job.Some?
    && job.value.payload.Some?
    && Truthy(job.value.payload.value.repoName)
    && Truthy(job.value.payload.value.branchName)
  }

  /** Nothing for `master`, `-<branch>` for every other branch. */
  function BranchSuffix(branch: string): (suffix: string)
    ensures branch == "master" ==> suffix == ""
    ensures branch != "master" ==> |suffix| == |branch| + 1 && suffix[0] == '-' && suffix[1..] == branch
  {
    if branch == "master" then "" else "-" + branch
  }

  /** The directory whose files the run returns. */
  function OutputDir(repoName: string, branch: string): string {
    "./" + repoName + "/build/public" + BranchSuffix(branch)
  }

  /**
   * `runGithubPush`. After the start line and the entry check it builds,
   * then pushes, then lists the output directory and returns its files.
   * The booleans the two stages resolve with are ignored: only a rejection
   * stops the run, so an unsuccessful build is still pushed and listed.
   */
  function PushJobOutcome(job: Option<Job>, build: StageCall, push: StageCall, listing: Listing)
    : (r: Traced<seq<string>>)
    ensures |r.trace| >= 2 && r.trace[0] == START_LOG
    ensures !HasRunFields(job) ==> r == Traced([START_LOG, MISSING_DEFINITION_LOG], Threw(InvalidJobDef))
    ensures r.result.Returned? ==>
      && HasRunFields(job) && !Rejects(build) && !Rejects(push) && listing.Files?
      && r.result.value == listing.names
      && r.trace[|r.trace| - 1]
         == FilesListed(OutputDir(job.value.payload.value.repoName.value, job.value.payload.value.branchName.value))
  {
    if !HasRunFields(job) then
      Traced([START_LOG, MISSING_DEFINITION_LOG], Threw(InvalidJobDef))
    else
      var payload := job.value.payload.value;
      var built := BuildOutcome(build);
      if built.result.Threw? then
        Traced([START_LOG] + built.trace, Threw(built.result.error))
      else
        var pushed := PublishOutcome(push);
        var staged := [START_LOG] + built.trace + pushed.trace;
        if pushed.result.Threw? then
          Traced(staged, Threw(pushed.result.error))
        else
          var listed := staged + [FilesListed(OutputDir(payload.repoName.value, payload.branchName.value))];
          match listing
          case Files(names) => Traced(listed, Returned(names))
          case ListingThrows(message) => Traced(listed, Threw(Raised(message)))
  }

  method RunGithubPush(job: Option<Job>, build: StageCall, push: StageCall, listing: Listing)
    returns (trace: seq<Event>, files: Completion<seq<string>>)
    ensures Traced(trace, files) == PushJobOutcome(job, build, push, listing)
  {
    trace := [START_LOG];
    if !HasRunFields(job) {
      trace := trace + [MISSING_DEFINITION_LOG];
      return trace, Threw(InvalidJobDef);
    }
    var payload := job.value.payload.value;

    var effects, built := StartGithubBuild(build);
    trace := trace + effects;
    if built.Threw? {
      return trace, Threw(built.error);
    }

    var branchext := "";
    if payload.branchName.value != "master" {
      branchext := "-" + payload.branchName.value;
    }

    var pushed;
    effects, pushed := PushToStage(push);
    trace := trace + effects;
    if pushed.Threw? {
      return trace, Threw(pushed.error);
    }

    trace := trace + [FilesListed("./" + payload.repoName.value + "/build/public" + branchext)];
    match listing {
      case Files(names) => files := Returned(names);
      case ListingThrows(message) => files := Threw(Raised(message));
    }
  }

  // ---------------------------------------------------------------------
  // Properties of a run
  // ---------------------------------------------------------------------

  /**
   * Distinct branches of one repository give distinct listing path strings.
   * The branch name is not checked, so two such strings may still name the
   * same directory (`public-a` and `public-a/`).
   */
  lemma OutputDirSeparatesBranches(repoName: string, b1: string, b2: string)
    requires b1 != b2
    ensures OutputDir(repoName, b1) != OutputDir(repoName, b2)
  {
    var prefix := "./" + repoName + "/build/public";
    var s1, s2 := BranchSuffix(b1), BranchSuffix(b2);
    assert s1 != s2 by {
      if b1 != "master" && b2 != "master" {
        assert s1[1..] != s2[1..];
      }
    }
    assert (prefix + s1)[|prefix|..] == s1;
    assert (prefix + s2)[|prefix|..] == s2;
  }

  /** The run reads only the presence of job and payload, the repository name and the branch name. */
  predicate SameRunFields(j1: Option<Job>, j2: Option<Job>) {
    && j1.Some? == j2.Some?
    && (j1.Some? ==> j1.value.payload.Some? == j2.value.payload.Some?)
    && (j1.Some? && j1.value.payload.Some? ==>
          && j1.value.payload.value.repoName == j2.value.payload.value.repoName
          && j1.value.payload.value.branchName == j2.value.payload.value.branchName)
  }

  /**
   * The owner, the title and the upstream list do not influence a run: a
   * job without an owner runs like one with an owner.
   */
  lemma OwnerNotConsulted(j1: Option<Job>, j2: Option<Job>, build: StageCall, push: StageCall, listing: Listing)
    requires SameRunFields(j1, j2)
    ensures PushJobOutcome(j1, build, push, listing) == PushJobOutcome(j2, build, push, listing)
  {
  }

  /**
   * The build's verdict is ignored: any two builds that do not reject lead
   * to the same result, and the push is always attempted after them.
   */
  lemma BuildVerdictIgnored(job: Option<Job>, b1: StageCall, b2: StageCall, push: StageCall, listing: Listing)
    requires HasRunFields(job) && !Rejects(b1) && !Rejects(b2)
    ensures PushJobOutcome(job, b1, push, listing).result == PushJobOutcome(job, b2, push, listing).result
    ensures StageCalled(Publish, BUILD_TIMEOUT, PUSH_TIMEOUT_MESSAGE) in PushJobOutcome(job, b1, push, listing).trace
  {
  }

  /** A build that fails without rejecting is still pushed, and its output directory still listed. */
  lemma FailedBuildStillPublished(job: Option<Job>, build: StageCall, push: StageCall, names: seq<string>)
    requires HasRunFields(job) && build.Settled? && !Succeeded(build) && Succeeded(push)
    ensures PushJobOutcome(job, build, push, Files(names)).result == Returned(names)
    ensures SlackMsg(push.output.stdout) in PushJobOutcome(job, build, push, Files(names)).trace
  {
  }

  /**
   * Neither stage's verdict stops the run: whenever neither call rejects,
   * the run logs its start, builds, pushes, lists the output directory, and
   * ends as the listing does, whether each stage resolved true or false.
   */
  lemma PushVerdictIgnored(job: Option<Job>, build: StageCall, push: StageCall, listing: Listing)
    requires HasRunFields(job) && !Rejects(build) && !Rejects(push)
    ensures PushJobOutcome(job, build, push, listing) ==
      Traced([START_LOG] + BuildOutcome(build).trace + PublishOutcome(push).trace
               + [FilesListed(OutputDir(job.value.payload.value.repoName.value,
                                        job.value.payload.value.branchName.value))],
             match listing
             case Files(names) => Returned(names)
             case ListingThrows(message) => Threw(Raised(message)))
  {
  }

  /** A push that times out or throws ends the run with its own error; nothing is listed. */
  lemma RejectedPushStopsRun(job: Option<Job>, build: StageCall, push: StageCall, listing: Listing)
    requires HasRunFields(job) && !Rejects(build) && Rejects(push)
    ensures var r := PushJobOutcome(job, build, push, listing);
      && r.result == Threw(if push.DeadlinePassed? then TimedOut(PUSH_TIMEOUT_MESSAGE) else Raised(push.message))
      && r.trace == [START_LOG] + BuildOutcome(build).trace + PublishOutcome(push).trace
      && (forall e | e in r.trace :: !e.FilesListed?)
  {
  }

  /**
   * A rejected build ends the run with its error: the only effects are the
   * start log and the build call; nothing is pushed or listed.
   */
  lemma RejectedBuildStopsRun(job: Option<Job>, build: StageCall, push: StageCall, listing: Listing)
    requires HasRunFields(job) && Rejects(build)
    ensures var r := PushJobOutcome(job, build, push, listing);
      && r.result == Threw(if build.DeadlinePassed? then TimedOut(BUILD_TIMEOUT_MESSAGE) else Raised(build.message))
      && r.trace == [START_LOG, StageCalled(Build, BUILD_TIMEOUT, BUILD_TIMEOUT_MESSAGE)]
      && (forall e | e in r.trace :: !e.FilesListed? && e != StageCalled(Publish, BUILD_TIMEOUT, PUSH_TIMEOUT_MESSAGE))
  {
  }

  /**
   * Everything posted to chat is either the report of a successful build
   * that holds the warning marker, or the stdout of a successful push.
   */
  lemma ChatMessagesReported(job: Option<Job>, build: StageCall, push: StageCall, listing: Listing)
    ensures forall e | e in PushJobOutcome(job, build, push, listing).trace && e.SlackMsg? ::
      || (ReportsBuildWarnings(build) && e.text == BuildReport(build.output))
      || (Succeeded(push) && e.text == push.output.stdout)
  {
  }

  /**
   * A job the gate accepts passes the entry check of the run: whatever the
   * stages and the listing do, the run reaches the build and never throws
   * `InvalidJobDef`.
   */
  lemma AcceptedJobPassesEntryCheck(job: Option<Job>, build: StageCall, push: StageCall, listing: Listing)
    requires Sanitizer.SafeGithubPush(job).result == Returned(true)
    ensures HasRunFields(job)
    ensures PushJobOutcome(job, build, push, listing).result != Threw(InvalidJobDef)
    ensures PushJobOutcome(job, build, push, listing).trace[1] == StageCalled(Build, BUILD_TIMEOUT, BUILD_TIMEOUT_MESSAGE)
  {
  }

  /**
   * A release branch whose build is clean and whose push reports `ok`:
   * the push output is posted, no build warning is, and the files of
   * ./docs/build/public-release-1 are returned.
   */
  lemma ReleaseBranchRun(names: seq<string>)
    ensures PushJobOutcome(
      Some(Job("", Some(Payload(Some("docs"), Some("org"), Some("release-1"), None)))),
      Settled(StageOutput("success", "", "")),
      Settled(StageOutput("success", "ok", "")),
      Files(names))
      == Traced([START_LOG,
                 StageCalled(Build, BUILD_TIMEOUT, BUILD_TIMEOUT_MESSAGE),
                 StageCalled(Publish, BUILD_TIMEOUT, PUSH_TIMEOUT_MESSAGE),
                 SlackMsg("ok"),
                 FilesListed("./docs/build/public-release-1")],
                Returned(names))
  {
    assert !Contains(BuildReport(StageOutput("success", "", "")), WARNING_MARKER);
    assert OutputDir("docs", "release-1") == "./docs/build/public-release-1";
  }
}
