# GitHub push job handler: validation gate and stage orchestration

This project models the handler that a documentation-build worker runs when a
GitHub push job comes off its queue (`worker/jobTypes/githubPushJob.js`). It
proves properties about that model. The handler has two parts:

- **The validation gate** (`safeString`, `safeBranch`, `safeGithubPush`). It
  checks the untrusted repository name, owner name and branch before they
  reach shell-invoking build steps.
  - The job must carry a payload with a truthy repository name, owner and
    branch.
  - Both names must be ASCII and match `^((\w)*[-.]?(\w)*)*$`.
  - The branch must pass the branch policy. With an upstream list, the branch
    must be an element of it. Without one, `master` is refused unless the job
    is the regression-test child process.
  - A failure throws either the shared `job not valid` error or the separate
    `master branches not supported` error.
- **The orchestration** (`startGithubBuild`, `pushToStage`, `runGithubPush`).
  - The run logs its start and re-checks the repository and branch names.
  - It then builds, then pushes to staging. Both stages run under a deadline
    of 60 × 450 seconds.
  - It then lists `./<repo>/build/public<suffix>` and returns the files. The
    suffix is empty for `master` and `-<branch>` otherwise.
  - A successful build posts its report to chat only when the report holds
    `WARNING:`.
  - A successful push always posts its stdout.

Files:

- `jobs.dfy` (module `Jobs`) holds the shared values:
  - the job and its payload; missing fields are `None`;
  - the events of a run: job-log lines with their tag, chat messages, stage
    invocations with their deadline and timeout message, and the listed
    directory;
  - the errors, and `Traced<T>`, which pairs the ordered events with how a
    step ended (returned or threw).
- `sanitizer.dfy` (module `Sanitizer`) holds the gate.
  - The pattern is a small regular-expression datatype with a full-match
    predicate.
  - `SafePatternIsCharacterClass` proves that the pattern matches exactly the
    strings over `[A-Za-z0-9_.-]`.
- `pipeline.dfy` (module `Pipeline`) holds the orchestration.
  - Each stage call is an input `StageCall`. It settles with an output, with
    null, by the deadline firing, or by the stage throwing.
  - The directory listing is an input `Listing`.
  - Each operation appears twice: as a function that the lemmas reason about,
    and as a method that performs the source's steps in order and is proved
    equal to that function.

Two behaviours of the code are easy to misread:

- **Upstream check.** `upstream.includes(branchName)` on a list is element
  membership, not substring containment. With `upstream = ["feature/xyz"]`,
  the branch `feature/x` is refused (`Sanitizer.UpstreamExamples`).
- **Stage verdicts.** A stage that fails without throwing does not stop the
  run. `startGithubBuild` and `pushToStage` resolve `false`, and
  `runGithubPush` ignores both results. A failed build is still pushed, and a
  failed push is still listed. Only a timeout or a thrown error stops the run
  (`Pipeline.BuildVerdictIgnored`, `Pipeline.PushVerdictIgnored`,
  `Pipeline.FailedBuildStillPublished`, `Pipeline.RejectedBuildStopsRun`,
  `Pipeline.RejectedPushStopsRun`).

## Model

| member | source | states |
|---|---|---|
| `Sanitizer.WordRunMatchesWordChars` | worker/jobTypes/githubPushJob.js:34 | `(\w)*` matches a string exactly when every character is in `[A-Za-z0-9_]` |
| `Sanitizer.GroupHasSafeChars` | worker/jobTypes/githubPushJob.js:34 | a string matched by one iteration of `(\w)*[-.]?(\w)*` contains only `[A-Za-z0-9_.-]` |
| `Sanitizer.SafeCharIsGroup` | worker/jobTypes/githubPushJob.js:34 | every single character in `[A-Za-z0-9_.-]` is matched by one iteration of the group |
| `Sanitizer.PatternHasSafeChars` | worker/jobTypes/githubPushJob.js:34 | a string the anchored pattern matches contains only `[A-Za-z0-9_.-]` |
| `Sanitizer.SafeCharsMatchPattern` | worker/jobTypes/githubPushJob.js:34 | every string over `[A-Za-z0-9_.-]`, the empty one included, is matched by the anchored pattern |
| `Sanitizer.SafePatternIsCharacterClass` | worker/jobTypes/githubPushJob.js:34 | the star-of-groups pattern and the character class `[A-Za-z0-9_.-]*` accept the same strings, so runs of `-` or `.` are not limited |
| `Sanitizer.SafeString` | worker/jobTypes/githubPushJob.js:31-36 | `safeString` (ASCII and matching the pattern) holds exactly when every character is in `[A-Za-z0-9_.-]` |
| `Sanitizer.ShellSensitiveRejected` | worker/jobTypes/githubPushJob.js:29-36 | a name holding `/`, `;`, a pipe, a backtick, another shell metacharacter or whitespace is refused |
| `Sanitizer.SafeStringExamples` | worker/jobTypes/githubPushJob.js:31-36 | `my-repo_123`, `a..b`, `--` and `..` are accepted; `repo; rm -rf /` is refused |
| `Sanitizer.SafeBranch` | worker/jobTypes/githubPushJob.js:11-27 | with an upstream list, the verdict is membership of the branch, nothing is logged and the master rule is skipped; without one, it throws the master error after a `(BUILD)` log exactly for branch `master` with a title other than the regression-test sentinel, and otherwise returns true |
| `Sanitizer.SafeGithubPush` | worker/jobTypes/githubPushJob.js:38-61 | the gate returns true or throws `InvalidJobDef` or `MasterBranchesNotSupported` and nothing else; when it returns true, the job is fully defined and both names are over `[A-Za-z0-9_.-]`; acceptance logs nothing; the `(sanitize)` line is logged exactly when a required field is missing; the master error always comes with the `(BUILD)` line |
| `Sanitizer.MissingFieldRefused` | worker/jobTypes/githubPushJob.js:39-51 | a missing job, a missing payload, or a missing or empty name, owner or branch gives the `(sanitize)` log and `InvalidJobDef`, with no further check |
| `Sanitizer.UnsafeNameShortCircuits` | worker/jobTypes/githubPushJob.js:53-60 | an unsafe repository or owner name gives `InvalidJobDef` without a log and without consulting the branch policy, even for `master` |
| `Sanitizer.MasterErrorCondition` | worker/jobTypes/githubPushJob.js:11-60 | the master error arises if and only if the job is fully defined, both names are safe, there is no upstream list, the branch is `master` and the title is not the sentinel |
| `Sanitizer.AcceptanceCondition` | worker/jobTypes/githubPushJob.js:11-60 | the gate accepts if and only if the job is fully defined, both names are safe, and the branch passes the upstream rule or the master rule; the branch's own characters are never checked |
| `Sanitizer.UnlistedUpstreamBranchRefused` | worker/jobTypes/githubPushJob.js:12-60 | with an upstream list that lacks the branch, the gate throws `InvalidJobDef` (not the master error), without a log |
| `Sanitizer.UpstreamExamples` | worker/jobTypes/githubPushJob.js:11-14 | upstream `["feature/x", "dev"]` admits `feature/x`; `["feature/xyz"]` does not, because this is membership and not substring containment; an empty list admits nothing, even `master` |
| `Pipeline.Await` | worker/jobTypes/githubPushJob.js:64-68 | awaiting a deadline-guarded stage throws exactly when the call rejects; a timeout carries the caller's timeout message and a stage exception carries its own; otherwise it yields the output, or null |
| `Pipeline.BuildOutcome` | worker/jobTypes/githubPushJob.js:63-85 | the build is invoked with deadline 27000 and `Timed out on build`; it resolves true exactly on status `success`, resolves false (never rejects) on null or any other status, and throws only on a rejection; the report `stdout\n\nstderr` goes to chat exactly when the build succeeded and the report holds `WARNING:` |
| `Pipeline.StartGithubBuild` | worker/jobTypes/githubPushJob.js:63-85 | the step-by-step `startGithubBuild` produces exactly the effects and result of `BuildOutcome` |
| `Pipeline.PublishOutcome` | worker/jobTypes/githubPushJob.js:87-104 | the push is invoked with deadline 27000 and `Timed out on push to stage`; on status `success` its stdout always goes to chat and it resolves true; otherwise it posts nothing and resolves false unless the call rejected |
| `Pipeline.PushToStage` | worker/jobTypes/githubPushJob.js:87-104 | the step-by-step `pushToStage` produces exactly the effects and result of `PublishOutcome` |
| `Pipeline.BranchSuffix` | worker/jobTypes/githubPushJob.js:131-135 | the suffix is empty for `master`; for any other branch it is `-` followed by the branch |
| `Pipeline.PushJobOutcome` | worker/jobTypes/githubPushJob.js:106-143 | a run begins with the start log; without a job, payload, repository name or branch name, it logs the `(BUILD)` line and throws `InvalidJobDef`; a returned file list means that neither stage rejected, the listing succeeded and the last event listed `./<repo>/build/public<suffix>` |
| `Pipeline.RunGithubPush` | worker/jobTypes/githubPushJob.js:106-143 | the step-by-step `runGithubPush`, with `branchext` reassigned between build and push, produces exactly the effects and result of `PushJobOutcome` |
| `Pipeline.OutputDirSeparatesBranches` | worker/jobTypes/githubPushJob.js:131-141 | two distinct branches of one repository give distinct listing path strings; the branch is not checked, so two strings may still name one directory |
| `Pipeline.OwnerNotConsulted` | worker/jobTypes/githubPushJob.js:109-120 | two jobs that agree on presence, repository name and branch name run identically, so the owner, the title and the upstream list are never consulted |
| `Pipeline.BuildVerdictIgnored` | worker/jobTypes/githubPushJob.js:127-137 | every build that does not reject leads to the same result, and the push is always invoked after it |
| `Pipeline.FailedBuildStillPublished` | worker/jobTypes/githubPushJob.js:127-143 | a build with a non-success status followed by a successful push still posts the push output and returns the listed files |
| `Pipeline.RejectedBuildStopsRun` | worker/jobTypes/githubPushJob.js:127 | a build that times out or throws ends the run with that error (`Timed out on build` or its own); the run's only effects are the start log and the build call, so nothing is pushed or listed |
| `Pipeline.PushVerdictIgnored` | worker/jobTypes/githubPushJob.js:106-143 | when neither stage rejects, the run is exactly: start log, the build's effects, the push's effects, the listing of `./<repo>/build/public<suffix>`, ending as the listing does, whether each stage resolved true or false |
| `Pipeline.RejectedPushStopsRun` | worker/jobTypes/githubPushJob.js:137-143 | a push that times out or throws ends the run with `Timed out on push to stage` or its own error, after the build's and the push's effects; nothing is listed |
| `Pipeline.ChatMessagesReported` | worker/jobTypes/githubPushJob.js:63-104 | every chat message of a run is either the report of a successful build that holds `WARNING:`, or the stdout of a successful push |
| `Pipeline.AcceptedJobPassesEntryCheck` | worker/jobTypes/githubPushJob.js:38-120 | a job the gate accepts passes the run's own entry check: for every stage and listing outcome, the run's second event is the build call and it never throws `InvalidJobDef` |
| `Pipeline.ReleaseBranchRun` | worker/jobTypes/githubPushJob.js:106-143 | for `docs`/`org`/`release-1` with a clean build and a push that prints `ok`: the events are the start log, the build, the push, the chat message `ok` and the listing of `./docs/build/public-release-1`, and the files are returned |

## Left out

- Deadline racing (`workerUtils.promiseTimeoutS`) is concurrency in a file that is not part of this model. Each stage call is an input that settles in one of four ways. The stage is not cancelled when the deadline fires, and that is not represented.
- The build, publish, chat, job-log and directory-listing collaborators (`GitHubJob.buildRepo`, `S3Publish.pushToStage`, `Logger.sendSlackMsg`, `workerUtils.logInMongo`, `workerUtils.getFilesInDir`) are foreign code.
  - Their calls appear as trace events.
  - Their results are inputs.
  - Chat sends and log writes are taken never to fail.
- `validator.isAscii` is taken to mean "every code point is below 128". The library is not part of this model. The gate applies `safeString` only to non-empty names, so how the library treats the empty string does not change the gate's verdict.
- Payload fields and stage outputs are taken to be strings or missing. The library's type-assertion throws are not modelled. Neither is JavaScript coercion: a non-list `upstream` would make `includes` a substring test, and an undefined `stdout` would be interpolated as `undefined`.
- The job-log messages are recorded with their tag and text. The `padEnd(15)` padding and the job reference passed to the log are not modelled. A missing title is treated like any title other than the regression-test sentinel.
- The model gives the verdict of the pattern at worker/jobTypes/githubPushJob.js:34, not its matching cost. The pattern nests `(\w)*` inside `(...)*`. On a long run of word characters followed by a refused ASCII character, a backtracking engine may try exponentially many splits before failing, so an untrusted name could stall the gate. `Sanitizer.SafePatternIsCharacterClass` shows that the linear class `[A-Za-z0-9_.-]*` accepts the same names.
- The two `console.log` lines of `runGithubPush` are diagnostic output only.
- The construction of the `GitHubJob`, `Logger` and `S3Publish` objects is not modelled. These objects are not part of this model.
