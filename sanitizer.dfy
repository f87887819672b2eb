/**
 * The validation gate in front of the build: `safeString`, `safeBranch` and
 * `safeGithubPush` of worker/jobTypes/githubPushJob.js. Repository and owner
 * names flow into shell-invoking build steps, so these checks are the only
 * guard against injection.
 */
module Sanitizer {
  import opened Jobs

  // ---------------------------------------------------------------------
  // Characters
  // ---------------------------------------------------------------------

  /** `\w` of a JavaScript regular expression without the `u` flag. */
  predicate IsWordChar(c: char) {
    ('A' <= c <= 'Z') || ('a' <= c <= 'z') || ('0' <= c <= '9') || c == '_'
  }

  /** The bracket class `[-.]`. */
  predicate IsSeparator(c: char) {
    c == '-' || c == '.'
  }

  /** The characters `[A-Za-z0-9_.-]`. */
  predicate IsSafeChar(c: char) {
    IsWordChar(c) || IsSeparator(c)
  }

  predicate AllWordChars(s: string) {
    forall i | 0 <= i < |s| :: IsWordChar(s[i])
  }

  predicate AllSafeChars(s: string) {
    forall i | 0 <= i < |s| :: IsSafeChar(s[i])
  }

  /** `validator.isAscii`: every code point is below 128. */
  predicate IsAscii(s: string) {
    forall i | 0 <= i < |s| :: s[i] as int < 128
  }

  // ---------------------------------------------------------------------
  // The pattern ^((\w)*[-.]?(\w)*)*$ as a regular expression over chars
  // ---------------------------------------------------------------------

  datatype CharClass = Word | HyphenOrDot

  predicate InClass(k: CharClass, c: char) {
    match k
    case Word => IsWordChar(c)
    case HyphenOrDot => IsSeparator(c)
  }

  datatype Regex =
    | Char(k: CharClass)
    | Concat(left: Regex, right: Regex)
    | Optional(body: Regex)
    | Star(body: Regex)

  /** `(\w)*` */
  const WORD_RUN: Regex := Star(Char(Word))
  /** `(\w)*[-.]?(\w)*`, one iteration of the outer group */
  const GROUP: Regex := Concat(Concat(WORD_RUN, Optional(Char(HyphenOrDot))), WORD_RUN)
  /** `((\w)*[-.]?(\w)*)*`, anchored at both ends by `^` and `$` */
  const SAFE_PATTERN: Regex := Star(GROUP)

  /**
   * Whether `r` matches the whole of `s`. An iteration of a star must
   * consume at least one character, as JavaScript's empty-iteration check
   * demands; the language matched is the usual one.
   */
  predicate FullMatch(r: Regex, s: string)
    decreases r, |s|
  {
    match r
    case Char(k) => |s| == 1 && InClass(k, s[0])
    case Concat(a, b) => exists i | 0 <= i <= |s| :: FullMatch(a, s[..i]) && FullMatch(b, s[i..])
    case Optional(a) => s == [] || FullMatch(a, s)
    case Star(a) => s == [] || exists i | 1 <= i <= |s| :: FullMatch(a, s[..i]) && FullMatch(r, s[i..])
  }

  /** `(\w)*` matches exactly the strings of word characters. */
  lemma {:induction false} WordRunMatchesWordChars(s: string)
    ensures FullMatch(WORD_RUN, s) <==> AllWordChars(s)
    decreases |s|
  {
    if s != [] {
      WordRunMatchesWordChars(s[1..]);
      if FullMatch(WORD_RUN, s) {
        var i :| 1 <= i <= |s| && FullMatch(Char(Word), s[..i]) && FullMatch(WORD_RUN, s[i..]);
        assert i == 1 && IsWordChar(s[0]);
        forall k | 0 <= k < |s| ensures IsWordChar(s[k]) {
          if k > 0 { assert s[k] == s[1..][k - 1]; }
        }
      }
      if AllWordChars(s) {
        assert AllWordChars(s[1..]) by {
          forall k | 0 <= k < |s[1..]| ensures IsWordChar(s[1..][k]) {
            assert s[1..][k] == s[k + 1];
          }
        }
        assert s[..1] == [s[0]];
        assert FullMatch(Char(Word), s[..1]) && FullMatch(WORD_RUN, s[1..]);
      }
    }
  }

  /** One iteration of the outer group consists of safe characters only. */
  lemma GroupHasSafeChars(s: string)
    requires FullMatch(GROUP, s)
    ensures AllSafeChars(s)
  {
    var head := Concat(WORD_RUN, Optional(Char(HyphenOrDot)));
    var i :| 0 <= i <= |s| && FullMatch(head, s[..i]) && FullMatch(WORD_RUN, s[i..]);
    var pre := s[..i];
    var j :| 0 <= j <= |pre| && FullMatch(WORD_RUN, pre[..j]) && FullMatch(Optional(Char(HyphenOrDot)), pre[j..]);
    WordRunMatchesWordChars(pre[..j]);
    WordRunMatchesWordChars(s[i..]);
    forall k | 0 <= k < |s| ensures IsSafeChar(s[k]) {
      if k < j {
        assert s[k] == pre[..j][k];
      } else if k < i {
        assert pre[j..] != [];
        assert FullMatch(Char(HyphenOrDot), pre[j..]);
        assert k == j && s[k] == pre[j..][0];
      } else {
        assert s[k] == s[i..][k - i];
      }
    }
  }

  /** Every safe character is, on its own, one iteration of the outer group. */
  lemma SafeCharIsGroup(c: char)
    requires IsSafeChar(c)
    ensures FullMatch(GROUP, [c])
  {
    var empty: string := [];
    var one: string := [c];
    var sep := Optional(Char(HyphenOrDot));
    assert FullMatch(WORD_RUN, empty);
    assert one[..1] == one && one[1..] == empty && one[..0] == empty && one[0..] == one;
    if IsWordChar(c) {
      assert FullMatch(Char(Word), one[..1]) && FullMatch(WORD_RUN, one[1..]);
      assert FullMatch(WORD_RUN, one);
      assert FullMatch(sep, empty);
      assert FullMatch(WORD_RUN, one[..1]) && FullMatch(sep, one[1..]);
      assert FullMatch(Concat(WORD_RUN, sep), one);
    } else {
      assert FullMatch(sep, one);
      assert FullMatch(WORD_RUN, one[..0]) && FullMatch(sep, one[0..]);
      assert FullMatch(Concat(WORD_RUN, sep), one);
    }
    assert FullMatch(Concat(WORD_RUN, sep), one[..1]) && FullMatch(WORD_RUN, one[1..]);
  }

  lemma {:induction false} PatternHasSafeChars(s: string)
    requires FullMatch(SAFE_PATTERN, s)
    ensures AllSafeChars(s)
    decreases |s|
  {
    if s != [] {
      var i :| 1 <= i <= |s| && FullMatch(GROUP, s[..i]) && FullMatch(SAFE_PATTERN, s[i..]);
      GroupHasSafeChars(s[..i]);
      PatternHasSafeChars(s[i..]);
      forall k | 0 <= k < |s| ensures IsSafeChar(s[k]) {
        if k < i { assert s[k] == s[..i][k]; } else { assert s[k] == s[i..][k - i]; }
      }
    }
  }

  lemma {:induction false} SafeCharsMatchPattern(s: string)
    requires AllSafeChars(s)
    ensures FullMatch(SAFE_PATTERN, s)
    decreases |s|
  {
    if s != [] {
      assert AllSafeChars(s[1..]) by {
        forall k | 0 <= k < |s[1..]| ensures IsSafeChar(s[1..][k]) {
          assert s[1..][k] == s[k + 1];
        }
      }
      SafeCharsMatchPattern(s[1..]);
      SafeCharIsGroup(s[0]);
      assert s[..1] == [s[0]];
      assert FullMatch(GROUP, s[..1]) && FullMatch(SAFE_PATTERN, s[1..]);
    }
  }

  /**
   * The star-of-groups pattern and the character class `[A-Za-z0-9_.-]*`
   * describe the same strings: the pattern places no limit on consecutive
   * hyphens or dots.
   */
  lemma SafePatternIsCharacterClass(s: string)
    ensures FullMatch(SAFE_PATTERN, s) <==> AllSafeChars(s)
  {
    if FullMatch(SAFE_PATTERN, s) {
      PatternHasSafeChars(s);
    }
    if AllSafeChars(s) {
      SafeCharsMatchPattern(s);
    }
  }

  // ---------------------------------------------------------------------
  // safeString, safeBranch, safeGithubPush
  // ---------------------------------------------------------------------

  /** `safeString`: ASCII and matching the anchored pattern. */
  function SafeString(s: string): (ok: bool)
    ensures ok <==> AllSafeChars(s)
  {
    SafePatternIsCharacterClass(s);
    IsAscii(s) && FullMatch(SAFE_PATTERN, s)
  }

  /** A character some shell gives a meaning: path, command and quoting characters, whitespace. */
  predicate IsShellSensitive(c: char) {
    c in {'/', ';', '|', '`', '&', '$', '>', '<', '(', ')', '\'', '"', '\\', '*', '?', '!', '~', '#',
          ' ', '\t', '\n', '\r'}
    || c as int == 11 || c as int == 12  // vertical tab, form feed
  }

  /** A name holding any shell-sensitive character is refused. */
  lemma ShellSensitiveRejected(s: string, i: nat)
    requires i < |s| && IsShellSensitive(s[i])
    ensures !SafeString(s)
  {
  }

  /** The title under which a master-branch build is let through. */
  const REGRESSION_TEST_TITLE := "Regression Test Child Process"

  const MASTER_REJECTED_LOG := JobLog(BuildTag, "failed, master branch not supported on staging builds")
  const INSUFFICIENT_DEFINITION_LOG := JobLog(SanitizeTag, "failed due to insufficient job definition")

  /**
   * `safeBranch`. With an upstream list (any list, the empty one included,
   * is truthy) the branch must be one of its elements and the master rule
   * is skipped. Without one, `master` is refused, with a log line and a
   * dedicated error, unless the title is the regression-test sentinel.
   */
  function SafeBranch(job: Job): (r: Traced<bool>)
    requires job.payload.Some?
    ensures job.payload.value.upstream.Some? ==>
      r == Traced([], Returned(job.payload.value.branchName.Some?
                               && job.payload.value.branchName.value in job.payload.value.upstream.value))
    ensures r.result.Threw? <==>
      job.payload.value.upstream.None? && job.payload.value.branchName == Some("master")
      && job.title != REGRESSION_TEST_TITLE
    ensures r.result.Threw? ==> r == Traced([MASTER_REJECTED_LOG], Threw(MasterBranchesNotSupported))
    ensures job.payload.value.upstream.None? && r.result.Returned? ==> r == Traced([], Returned(true))
  {
    var p := job.payload.value;
    if p.upstream.Some? then
      Traced([], Returned(p.branchName.Some? && p.branchName.value in p.upstream.value))
    else if p.branchName == Some("master") && job.title != REGRESSION_TEST_TITLE then
      Traced([MASTER_REJECTED_LOG], Threw(MasterBranchesNotSupported))
    else
      Traced([], Returned(true))
  }

  /** The structural check: job, payload, repoName, repoOwner and branchName all present and truthy. */
  predicate HasJobDefinition(job: Option<Job>) {
    && job.Some?
    && job.value.payload.Some?
    && Truthy(job.value.payload.value.repoName)
    && Truthy(job.value.payload.value.repoOwner)
    && Truthy(job.value.payload.value.branchName)
  }

  /** Both names pass `safeString`. */
  predicate HasSafeNames(job: Option<Job>)
    requires HasJobDefinition(job)
  {
    SafeString(job.value.payload.value.repoName.value) && SafeString(job.value.payload.value.repoOwner.value)
  }

  /**
   * `safeGithubPush`: returns true or throws one of the two validation
   * errors; checks run in order and the first failure wins.
   */
  function SafeGithubPush(job: Option<Job>): (r: Traced<bool>)
    ensures r.result in {Returned(true), Threw(InvalidJobDef), Threw(MasterBranchesNotSupported)}
    ensures r.result == Returned(true) ==>
      HasJobDefinition(job)
      && AllSafeChars(job.value.payload.value.repoName.value)
      && AllSafeChars(job.value.payload.value.repoOwner.value)
    ensures r.trace == [] || r.trace == [INSUFFICIENT_DEFINITION_LOG] || r.trace == [MASTER_REJECTED_LOG]
    ensures r.result == Returned(true) ==> r.trace == []
    ensures r.result == Threw(MasterBranchesNotSupported) ==> r.trace == [MASTER_REJECTED_LOG]
    ensures r.trace == [INSUFFICIENT_DEFINITION_LOG] <==> !HasJobDefinition(job)
  {
    if !HasJobDefinition(job) then
      Traced([INSUFFICIENT_DEFINITION_LOG], Threw(InvalidJobDef))
    else if HasSafeNames(job) then
      var branch := SafeBranch(job.value);
      match branch.result
      case Threw(e) => branch
      case Returned(allowed) =>
        if allowed then Traced(branch.trace, Returned(true)) else Traced(branch.trace, Threw(InvalidJobDef))
    else
      Traced([], Threw(InvalidJobDef))
  }

  /** A job missing any required field is refused by the structural check alone, with its log line. */
  lemma MissingFieldRefused(job: Option<Job>)
    requires !HasJobDefinition(job)
    ensures SafeGithubPush(job) == Traced([INSUFFICIENT_DEFINITION_LOG], Threw(InvalidJobDef))
  {
  }

  /**
   * An unsafe repository or owner name is refused before the branch is
   * looked at: the master error cannot occur and nothing is logged.
   */
  lemma UnsafeNameShortCircuits(job: Option<Job>)
    requires HasJobDefinition(job)
    requires !AllSafeChars(job.value.payload.value.repoName.value)
          || !AllSafeChars(job.value.payload.value.repoOwner.value)
    ensures SafeGithubPush(job) == Traced([], Threw(InvalidJobDef))
  {
  }

  /** The master error arises only after both names passed and only from the master rule. */
  lemma MasterErrorCondition(job: Option<Job>)
    ensures SafeGithubPush(job).result == Threw(MasterBranchesNotSupported) <==>
      && HasJobDefinition(job)
      && AllSafeChars(job.value.payload.value.repoName.value)
      && AllSafeChars(job.value.payload.value.repoOwner.value)
      && job.value.payload.value.upstream.None?
      && job.value.payload.value.branchName == Some("master")
      && job.value.title != REGRESSION_TEST_TITLE
  {
  }

  /**
   * The complete acceptance condition: a well-defined job with safe names
   * whose branch satisfies the upstream rule or, without upstream, the
   * master rule. The branch name itself is never character-checked.
   */
  lemma AcceptanceCondition(job: Option<Job>)
    ensures SafeGithubPush(job).result == Returned(true) <==>
      && HasJobDefinition(job)
      && AllSafeChars(job.value.payload.value.repoName.value)
      && AllSafeChars(job.value.payload.value.repoOwner.value)
      && var p := job.value.payload.value;
         if p.upstream.Some? then p.branchName.value in p.upstream.value
         else p.branchName != Some("master") || job.value.title == REGRESSION_TEST_TITLE
  {
  }

  /** A job that names an upstream list is refused with `InvalidJobDef` when its branch is not listed. */
  lemma UnlistedUpstreamBranchRefused(job: Option<Job>)
    requires HasJobDefinition(job) && HasSafeNames(job)
    requires job.value.payload.value.upstream.Some?
    requires job.value.payload.value.branchName.value !in job.value.payload.value.upstream.value
    ensures SafeGithubPush(job) == Traced([], Threw(InvalidJobDef))
  {
  }

  lemma SafeStringExamples()
    ensures SafeString("my-repo_123")
    ensures SafeString("a..b") && SafeString("--") && SafeString("..")
    ensures !SafeString("repo; rm -rf /")
  {
    var s := "my-repo_123";
    assert AllSafeChars(s) by {
      forall i | 0 <= i < |s| ensures IsSafeChar(s[i]) {}
    }
    assert AllSafeChars("a..b") by {
      forall i | 0 <= i < 4 ensures IsSafeChar("a..b"[i]) {}
    }
    assert "repo; rm -rf /"[4] == ';';
  }

  /**
   * Membership, not substring containment: a listed `feature/xyz` does not
   * admit the branch `feature/x`, and an empty upstream list admits nothing.
   */
  lemma UpstreamExamples()
    ensures SafeGithubPush(Some(Job("", Some(Payload(Some("docs"), Some("org"), Some("feature/x"),
                                                    Some(["feature/x", "dev"])))))).result == Returned(true)
    ensures SafeGithubPush(Some(Job("", Some(Payload(Some("docs"), Some("org"), Some("feature/x"),
                                                    Some(["feature/xyz"])))))).result == Threw(InvalidJobDef)
    ensures SafeGithubPush(Some(Job("", Some(Payload(Some("docs"), Some("org"), Some("master"),
                                                    Some([])))))).result == Threw(InvalidJobDef)
  {
    SafeStringExamples();
  }
}
