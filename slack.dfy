/**
 * The decision rules of the Slack listener in slack.go: phase aliases, the precedence of the
 * mention patterns, the deploy-button value, the three-step lock/unlock gate and the command
 * dispatch. Posting to Slack, the project and user registries and the lock coordinator are not
 * part of this model; their answers are parameters and the calls made to them are recorded.
 */
module Slack {
  import opened Wrappers
  import opened Projects

  // ---------------------------------------------------------------------------------------
  // Phase aliases (toPhase)

  /** toPhase: the phase an environment word names; unknown words fall back to staging. */
  function ToPhase(str: string): (r: string)
    ensures r == "production" <==> str in {"pro", "prd", "production"}
    ensures r == "sandbox" <==> str == "sandbox"
    ensures r == "staging" <==> str !in {"pro", "prd", "production", "sandbox"}
  {
    match str
    case "pro" => "production"
    case "prd" => "production"
    case "production" => "production"
    case "stg" => "staging"
    case "staging" => "staging"
    case "sandbox" => "sandbox"
    case _ => "staging"
  }

  /** Normalising an already normalised phase changes nothing. */
  lemma ToPhaseIdempotent(str: string)
    ensures ToPhase(ToPhase(str)) == ToPhase(str)
  {
  }

  // ---------------------------------------------------------------------------------------
  // Literal patterns

  /**
   * `regexp.MustCompile(pat).MatchString(s)` for a pattern without metacharacters:
   * whether `pat` occurs somewhere in `s`.
   */
  function Contains(s: string, pat: string): (r: bool)
    ensures pat <= s ==> r
    decreases |s|
  {
    if pat <= s then true
    else if s == [] then false
    else Contains(s[1..], pat)
  }

  /** Contains holds exactly when the pattern starts at some position of the text. */
  lemma {:induction false} ContainsIff(s: string, pat: string)
    ensures Contains(s, pat) <==> exists i :: 0 <= i <= |s| && pat <= s[i..]
    decreases |s|
  {
    if pat <= s {
      assert s[0..] == s;
    } else if s != [] {
      ContainsIff(s[1..], pat);
      if Contains(s[1..], pat) {
        var i :| 0 <= i <= |s[1..]| && pat <= s[1..][i..];
        assert s[1..][i..] == s[i + 1..];
      } else {
        forall i | 0 <= i <= |s|
          ensures !(pat <= s[i..])
        {
          if i == 0 {
            assert s[0..] == s;
          } else {
            assert s[1..][i - 1..] == s[i..];
          }
        }
      }
    }
  }

  /** A text that contains a word that contains a pattern contains the pattern. */
  lemma ContainsWithin(s: string, w: string, pat: string, i: nat)
    requires i <= |s| && w <= s[i..]
    requires Contains(w, pat)
    ensures Contains(s, pat)
  {
    ContainsIff(w, pat);
    var j :| 0 <= j <= |w| && pat <= w[j..];
    assert pat <= s[i + j..] by {
      forall k | 0 <= k < |pat|
        ensures pat[k] == s[i + j..][k]
      {
        assert pat[k] == w[j + k];
      }
    }
    ContainsIff(s, pat);
  }

  // ---------------------------------------------------------------------------------------
  // The deploy patterns
  //   deploy ([0-9a-zA-Z-]+) (staging|production|sandbox|stg|pro|prd) branch
  //   deploy ([0-9a-zA-Z-]+) (staging|production|sandbox|stg|pro|prd)
  // matched leftmost-first, as Go's regexp does. The project name is a maximal run of name
  // characters (a shorter run would have to be followed by a space, which is not a name
  // character), and the alternatives are tried in the order written.

  const DEPLOY_PREFIX := "deploy "
  const BRANCH_SUFFIX := " branch"
  const ENV_ALIASES: seq<string> := ["staging", "production", "sandbox", "stg", "pro", "prd"]

  predicate IsNameChar(c: char) {
    '0' <= c <= '9' || 'a' <= c <= 'z' || 'A' <= c <= 'Z' || c == '-'
  }

  predicate IsName(w: string) {
    |w| > 0 && forall k :: 0 <= k < |w| ==> IsNameChar(w[k])
  }

  /** The two submatches of a deploy pattern. */
  datatype DeployTarget = DeployTarget(project: string, env: string)

  /** The length of the run of name characters starting at `i`. */
  function NameRun(s: string, i: nat): (n: nat)
    requires i <= |s|
    ensures i + n <= |s|
    ensures forall k :: i <= k < i + n ==> IsNameChar(s[k])
    ensures i + n == |s| || !IsNameChar(s[i + n])
    decreases |s| - i
  {
    if i < |s| && IsNameChar(s[i]) then 1 + NameRun(s, i + 1) else 0
  }

  /** The first alternative that, followed by `tail`, begins `rest`. */
  function MatchEnv(rest: string, tail: string, alts: seq<string>): (r: Option<string>)
    ensures r.Some? ==> r.value in alts && r.value + tail <= rest
    ensures r.None? ==> forall a :: a in alts ==> !(a + tail <= rest)
  {
    if alts == [] then None
    else if alts[0] + tail <= rest then Some(alts[0])
    else MatchEnv(rest, tail, alts[1..])
  }

  /** The pattern `deploy <name> <env><tail>` anchored at position `i`. */
  function MatchAt(s: string, i: nat, tail: string): (r: Option<DeployTarget>)
    requires i <= |s|
    ensures r.Some? ==> IsName(r.value.project) && r.value.env in ENV_ALIASES
  {
    if i + |DEPLOY_PREFIX| <= |s| && s[i..i + |DEPLOY_PREFIX|] == DEPLOY_PREFIX then
      var k := i + |DEPLOY_PREFIX|;
      var n := NameRun(s, k);
      if n > 0 && k + n < |s| && s[k + n] == ' ' then
        match MatchEnv(s[k + n + 1..], tail, ENV_ALIASES)
        case Some(e) => Some(DeployTarget(s[k..k + n], e))
        case None => None
      else None
    else None
  }

  /** The value of `f` at the first position from `i` to `n` where it has one. */
  function FirstFrom<T>(f: nat -> Option<T>, i: nat, n: nat): Option<T>
    decreases n + 1 - i
  {
    if n < i then None
    else match f(i)
      case Some(t) => Some(t)
      case None => FirstFrom(f, i + 1, n)
  }

  /** The match of the pattern at each position of `s`. */
  function MatchesIn(s: string, tail: string): nat -> Option<DeployTarget> {
    (j: nat) => if j <= |s| then MatchAt(s, j, tail) else None
  }

  /** `FindAllStringSubmatch(text, -1)[0]`, split at spaces: the first match's two words. */
  function FindDeploy(s: string, tail: string): (r: Option<DeployTarget>)
    ensures r.Some? ==> IsName(r.value.project) && r.value.env in ENV_ALIASES
  {
    FirstFromSome(MatchesIn(s, tail), 0, |s|);
    FirstFrom(MatchesIn(s, tail), 0, |s|)
  }

  /**
   * The text `deploy <project> <env><tail>` starts at position `i`, written piece by piece:
   * the prefix, the project, one space, then the environment followed by the tail.
   */
  predicate OccursAt(s: string, i: nat, t: DeployTarget, tail: string) {
    var k := i + |DEPLOY_PREFIX|;
    var p := |t.project|;
    && k + p < |s|
    && s[i..k] == DEPLOY_PREFIX
    && s[k..k + p] == t.project
    && s[k + p] == ' '
    && t.env + tail <= s[k + p + 1..]
  }

  /** What MatchAt finds is a well-formed command that occurs at `i`. */
  lemma MatchAtSound(s: string, i: nat, tail: string)
    requires i <= |s| && MatchAt(s, i, tail).Some?
    ensures OccursAt(s, i, MatchAt(s, i, tail).value, tail)
    ensures IsName(MatchAt(s, i, tail).value.project) && MatchAt(s, i, tail).value.env in ENV_ALIASES
  {
  }

  /** A well-formed command at `i` is matched there (maybe with a longer alternative). */
  lemma MatchAtComplete(s: string, i: nat, t: DeployTarget, tail: string)
    requires OccursAt(s, i, t, tail) && IsName(t.project) && t.env in ENV_ALIASES
    ensures MatchAt(s, i, tail).Some?
    ensures MatchAt(s, i, tail).value.project == t.project
  {
    var k := i + |DEPLOY_PREFIX|;
    var p := |t.project|;
    forall j | k <= j < k + p
      ensures IsNameChar(s[j])
    {
      assert s[j] == s[k..k + p][j - k];
    }
  }

  /** What FirstFrom gives is the value of `f` at some position from `i` to `n`. */
  lemma {:induction false} FirstFromSome<T>(f: nat -> Option<T>, i: nat, n: nat)
    ensures FirstFrom(f, i, n).Some? ==> exists j :: i <= j <= n && f(j) == FirstFrom(f, i, n)
    decreases n + 1 - i
  {
    if i <= n && f(i).None? {
      FirstFromSome(f, i + 1, n);
    }
  }

  /** FirstFrom gives the value at the first position, from `i` on, where there is one. */
  lemma {:induction false} FirstFromLeftmost<T>(f: nat -> Option<T>, i: nat, n: nat) returns (j: nat)
    requires FirstFrom(f, i, n).Some?
    ensures i <= j <= n && f(j) == FirstFrom(f, i, n)
    ensures forall m :: i <= m < j ==> f(m).None?
    decreases n + 1 - i
  {
    if f(i).Some? {
      j := i;
    } else {
      j := FirstFromLeftmost(f, i + 1, n);
    }
  }

  /** If `f` has a value at some position from `i` to `n`, FirstFrom finds one. */
  lemma {:induction false} FirstFromComplete<T>(f: nat -> Option<T>, i: nat, j: nat, n: nat)
    requires i <= j <= n && f(j).Some?
    ensures FirstFrom(f, i, n).Some?
    decreases j - i
  {
    if i < j && f(i).None? {
      FirstFromComplete(f, i + 1, j, n);
    }
  }

  /** FindDeploy returns the match at the leftmost position where the pattern matches. */
  lemma FindDeployLeftmost(s: string, tail: string) returns (j: nat)
    requires FindDeploy(s, tail).Some?
    ensures j <= |s| && MatchAt(s, j, tail) == FindDeploy(s, tail)
    ensures forall m :: 0 <= m < j ==> MatchAt(s, m, tail).None?
  {
    var f := MatchesIn(s, tail);
    j := FirstFromLeftmost(f, 0, |s|);
    forall m | 0 <= m < j
      ensures MatchAt(s, m, tail).None?
    {
      assert f(m).None?;
    }
  }

  /** The deploy pattern with `tail` matches a text iff a well-formed command occurs in it. */
  lemma FindDeployIff(s: string, tail: string)
    ensures FindDeploy(s, tail).Some? <==>
              exists i, t :: OccursAt(s, i, t, tail) && IsName(t.project) && t.env in ENV_ALIASES
    ensures FindDeploy(s, tail).Some? ==>
              IsName(FindDeploy(s, tail).value.project) && FindDeploy(s, tail).value.env in ENV_ALIASES &&
              exists i :: OccursAt(s, i, FindDeploy(s, tail).value, tail)
  {
    if FindDeploy(s, tail).Some? {
      var j := FindDeployLeftmost(s, tail);
      MatchAtSound(s, j, tail);
    }
    if exists i, t :: OccursAt(s, i, t, tail) && IsName(t.project) && t.env in ENV_ALIASES {
      var i, t :| OccursAt(s, i, t, tail) && IsName(t.project) && t.env in ENV_ALIASES;
      MatchAtComplete(s, i, t, tail);
      assert MatchesIn(s, tail)(i).Some?;
      FirstFromComplete(MatchesIn(s, tail), 0, i, |s|);
    }
  }

  /**
   * Every text the `... branch` pattern matches is also matched by the plain pattern, so the
   * branch form is only reachable because it is tested first.
   */
  lemma BranchFormImpliesPlainForm(s: string)
    requires FindDeploy(s, BRANCH_SUFFIX).Some?
    ensures FindDeploy(s, "").Some?
  {
    FindDeployIff(s, BRANCH_SUFFIX);
    var t := FindDeploy(s, BRANCH_SUFFIX).value;
    var i :| OccursAt(s, i, t, BRANCH_SUFFIX);
    assert OccursAt(s, i, t, "") by {
      assert t.env + "" == t.env;
      assert t.env <= t.env + BRANCH_SUFFIX;
    }
    FindDeployIff(s, "");
  }

  // ---------------------------------------------------------------------------------------
  // Mention dispatch (handleMessageEvent)

  datatype Command =
    | Lock(project: string, env: string, reason: string)
    | Unlock(project: string, env: string)
    | OtherCommand(name: string)     // any other variant slackcmd.Parse may produce

  /** Which handler a mention reaches. */
  datatype Route =
    | ShowHelp
    | ShowProjectList
    | ReloadLists
    | ShowBranchList(project: string, phase: string)    // interactor.BranchList
    | RequestDeploy(project: string, phase: string)     // interactor.Request on the default branch
    | SelectTarget(phase: string)                       // SelectDeployTarget
    | RunParsedCommand(cmd: Command)                    // runCommand
    | Ignore

  /**
   * handleMessageEvent. `parsed` is what slackcmd.Parse returns for the text (None is a nil
   * command). Every route after the first three reloads both registries first.
   */
  function HandleMessageEvent(text: string, parsed: Option<Command>): (r: Route)
    ensures r.ShowHelp? <==> Contains(text, "help")
    ensures r.ShowProjectList? <==> !Contains(text, "help") && Contains(text, "ls")
    ensures r.ReloadLists? <==> !Contains(text, "help") && !Contains(text, "ls") && Contains(text, "reload")
    ensures r.ShowBranchList? ==>
              FindDeploy(text, BRANCH_SUFFIX).Some? &&
              r.project == FindDeploy(text, BRANCH_SUFFIX).value.project &&
              r.phase == ToPhase(FindDeploy(text, BRANCH_SUFFIX).value.env)
    ensures r.RequestDeploy? ==>
              FindDeploy(text, BRANCH_SUFFIX).None? && FindDeploy(text, "").Some? &&
              r.project == FindDeploy(text, "").value.project &&
              r.phase == ToPhase(FindDeploy(text, "").value.env)
    ensures r.SelectTarget? ==>
              FindDeploy(text, "").None? && r.phase in {"staging", "production", "sandbox"} &&
              Contains(text, DEPLOY_PREFIX + r.phase)
    ensures r.SelectTarget? && r.phase != "staging" ==> !Contains(text, "deploy staging")
    ensures r.SelectTarget? && r.phase == "sandbox" ==> !Contains(text, "deploy production")
    ensures r.RunParsedCommand? ==>
              Some(r.cmd) == parsed && FindDeploy(text, "").None? &&
              !Contains(text, "deploy staging") && !Contains(text, "deploy production") &&
              !Contains(text, "deploy sandbox")
    ensures r.Ignore? <==> (parsed.None? && !Contains(text, "help") && !Contains(text, "ls") &&
                            !Contains(text, "reload") && FindDeploy(text, "").None? &&
                            !Contains(text, "deploy staging") && !Contains(text, "deploy production") &&
                            !Contains(text, "deploy sandbox"))
  {
    if Contains(text, "help") then ShowHelp
    else if Contains(text, "ls") then ShowProjectList
    else if Contains(text, "reload") then ReloadLists
    else if FindDeploy(text, BRANCH_SUFFIX).Some? then
      var t := FindDeploy(text, BRANCH_SUFFIX).value;
      BranchFormImpliesPlainForm(text);
      ShowBranchList(t.project, ToPhase(t.env))
    else if FindDeploy(text, "").Some? then
      var t := FindDeploy(text, "").value;
      RequestDeploy(t.project, ToPhase(t.env))
    else if Contains(text, "deploy staging") then
      assert DEPLOY_PREFIX + "staging" == "deploy staging";
      SelectTarget("staging")
    else if Contains(text, "deploy production") then
      assert DEPLOY_PREFIX + "production" == "deploy production";
      SelectTarget("production")
    else if Contains(text, "deploy sandbox") then
      assert DEPLOY_PREFIX + "sandbox" == "deploy sandbox";
      SelectTarget("sandbox")
    else if parsed.Some? then RunParsedCommand(parsed.value)
    else Ignore
  }

  /** Whenever the branch form matches (and no keyword does), the branch list is shown. */
  lemma BranchFormWins(text: string, parsed: Option<Command>)
    requires !Contains(text, "help") && !Contains(text, "ls") && !Contains(text, "reload")
    requires FindDeploy(text, BRANCH_SUFFIX).Some?
    ensures HandleMessageEvent(text, parsed).ShowBranchList?
  {
  }

  /** A deploy command is never handed to the command parser's handler. */
  lemma DeployFormsShadowCommands(text: string, parsed: Option<Command>)
    requires FindDeploy(text, "").Some? || FindDeploy(text, BRANCH_SUFFIX).Some?
    ensures !HandleMessageEvent(text, parsed).RunParsedCommand?
    ensures !HandleMessageEvent(text, parsed).Ignore?
  {
    if FindDeploy(text, BRANCH_SUFFIX).Some? {
      BranchFormImpliesPlainForm(text);
    }
  }

  /**
   * A project whose alias contains "ls" (or "help", or "reload") can never be deployed from a
   * mention: the text then contains the keyword, which is tested first.
   */
  lemma KeywordInAliasShadowsDeploy(text: string, parsed: Option<Command>, i: nat, t: DeployTarget, tail: string)
    requires OccursAt(text, i, t, tail)
    requires Contains(t.project, "ls") || Contains(t.project, "help") || Contains(t.project, "reload")
    ensures HandleMessageEvent(text, parsed) in {ShowHelp, ShowProjectList, ReloadLists}
  {
    var k := i + |DEPLOY_PREFIX|;
    assert t.project <= text[k..] by {
      assert text[k..k + |t.project|] == t.project;
    }
    if Contains(t.project, "ls") {
      ContainsWithin(text, t.project, "ls", k);
    } else if Contains(t.project, "help") {
      ContainsWithin(text, t.project, "help", k);
    } else {
      ContainsWithin(text, t.project, "reload", k);
    }
  }

  // ---------------------------------------------------------------------------------------
  // The retry header (ServeHTTP)

  const UINT64_MAX := 0xffff_ffff_ffff_ffff
  const INT64_MAX := 0x7fff_ffff_ffff_ffff
  const INT64_MIN := -0x8000_0000_0000_0000

  predicate IsDigit(c: char) {
    '0' <= c <= '9'
  }

  predicate AllDigits(s: string) {
    forall k :: 0 <= k < |s| ==> IsDigit(s[k])
  }

  function DigitValue(c: char): nat
    requires IsDigit(c)
  {
    (c - '0') as nat
  }

  /** The value of `n` followed by the decimal digits of `s`, read left to right. */
  function DigitsFrom(s: string, n: nat): nat
    requires AllDigits(s)
  {
    if s == [] then n else DigitsFrom(s[1..], n * 10 + DigitValue(s[0]))
  }

  /** What `strconv.ParseUint(s, 10, 64)` yields. */
  datatype Parsed = Value(n: nat) | SyntaxError | RangeError

  /**
   * The digit loop of `strconv.ParseUint` in base 10, carrying on from the value `n`: a character
   * that is not a digit is a syntax error, and a digit that would take the value past 2^64 - 1
   * is a range error at once, whatever follows it.
   */
  function ScanDigits(s: string, n: nat): Parsed
    requires n <= UINT64_MAX
  {
    if s == [] then Value(n)
    else if !IsDigit(s[0]) then SyntaxError
    else if n * 10 + DigitValue(s[0]) > UINT64_MAX then RangeError
    else ScanDigits(s[1..], n * 10 + DigitValue(s[0]))
  }

  function ParseUint(s: string): Parsed {
    if s == [] then SyntaxError else ScanDigits(s, 0)
  }

  /** Some leading run of digits of `s`, read on from `n`, exceeds 2^64 - 1. */
  predicate Overflows(s: string, n: nat) {
    exists k :: 0 < k <= |s| && AllDigits(s[..k]) && DigitsFrom(s[..k], n) > UINT64_MAX
  }

  /**
   * The value `strconv.Atoi` returns, its error ignored: an optional sign, then `ParseUint` on
   * the rest; 0 on a syntax error, and the bound of Go's 64-bit int on the sign's side when the
   * magnitude does not fit. (Atoi's fast path for strings shorter than 19 bytes gives the same
   * values: such strings cannot overflow.)
   */
  function AtoiValue(s: string): (v: int)
    ensures INT64_MIN <= v <= INT64_MAX
    ensures s == [] ==> v == 0
  {
    if s == [] then 0
    else
      var negative := s[0] == '-';
      var magnitude := if s[0] == '+' || s[0] == '-' then s[1..] else s;
      match ParseUint(magnitude)
      case SyntaxError => 0
      case RangeError => if negative then INT64_MIN else INT64_MAX
      case Value(u) =>
        if negative then (if u > -INT64_MIN then INT64_MIN else -(u as int))
        else if u > INT64_MAX then INT64_MAX else u
  }

  /** ServeHTTP returns early, doing nothing, for these X-Slack-Retry-Num values ("" when absent). */
  predicate IgnoredAsRetry(retryNum: string): (ignored: bool)
    ensures ignored ==> |retryNum| > 0 && retryNum[0] != '-'
  {
    retryNum != "" && AtoiValue(retryNum) > 0
  }

  predicate HasNonZeroDigit(s: string) {
    exists k :: 0 <= k < |s| && s[k] != '0'
  }

  lemma {:induction false} DigitsFromAtLeast(s: string, n: nat)
    requires AllDigits(s)
    ensures DigitsFrom(s, n) >= n
  {
    if s != [] {
      DigitsFromAtLeast(s[1..], n * 10 + DigitValue(s[0]));
    }
  }

  /** The scan yields a value exactly when `s` is all digits whose value fits, and it is that value. */
  lemma {:induction false} ScanDigitsValue(s: string, n: nat)
    requires n <= UINT64_MAX
    ensures ScanDigits(s, n).Value? ==> AllDigits(s) && DigitsFrom(s, n) <= UINT64_MAX
    ensures AllDigits(s) && DigitsFrom(s, n) <= UINT64_MAX ==> ScanDigits(s, n) == Value(DigitsFrom(s, n))
  {
    if s != [] && IsDigit(s[0]) {
      var next := n * 10 + DigitValue(s[0]);
      assert AllDigits(s) <==> AllDigits(s[1..]) by {
        if AllDigits(s[1..]) {
          forall k | 0 <= k < |s|
            ensures IsDigit(s[k])
          {
            if k > 0 {
              assert s[k] == s[1..][k - 1];
            }
          }
        }
      }
      if next > UINT64_MAX {
        if AllDigits(s) {
          DigitsFromAtLeast(s[1..], next);
        }
      } else {
        ScanDigitsValue(s[1..], next);
      }
    }
  }

  /** The scan is a range error exactly when some leading run of digits overflows. */
  lemma {:induction false} ScanDigitsRange(s: string, n: nat)
    requires n <= UINT64_MAX
    ensures ScanDigits(s, n) == RangeError <==> Overflows(s, n)
  {
    if s == [] {
    } else if !IsDigit(s[0]) {
      forall k | 0 < k <= |s|
        ensures !AllDigits(s[..k])
      {
        assert s[..k][0] == s[0];
      }
    } else {
      var next := n * 10 + DigitValue(s[0]);
      assert DigitsFrom(s[..1], n) == next by {
        assert s[..1][1..] == [];
      }
      if next > UINT64_MAX {
        assert AllDigits(s[..1]);
      } else {
        ScanDigitsRange(s[1..], next);
        if Overflows(s, n) {
          OverflowsDrop(s, n);
        }
        if Overflows(s[1..], next) {
          OverflowsCons(s, n);
        }
      }
    }
  }

  /** An overflowing run of `s` that does not overflow at its first digit continues one in `s[1..]`. */
  lemma OverflowsDrop(s: string, n: nat)
    requires s != [] && IsDigit(s[0]) && n * 10 + DigitValue(s[0]) <= UINT64_MAX
    requires Overflows(s, n)
    ensures Overflows(s[1..], n * 10 + DigitValue(s[0]))
  {
    var next := n * 10 + DigitValue(s[0]);
    var k :| 0 < k <= |s| && AllDigits(s[..k]) && DigitsFrom(s[..k], n) > UINT64_MAX;
    assert s[..k][1..] == s[1..][..k - 1];
    assert DigitsFrom(s[..k], n) == DigitsFrom(s[1..][..k - 1], next);
    assert 0 < k - 1;
  }

  /** An overflowing run of `s[1..]`, preceded by the digit `s[0]`, is one of `s`. */
  lemma OverflowsCons(s: string, n: nat)
    requires s != [] && IsDigit(s[0])
    requires Overflows(s[1..], n * 10 + DigitValue(s[0]))
    ensures Overflows(s, n)
  {
    var next := n * 10 + DigitValue(s[0]);
    var k :| 0 < k <= |s[1..]| && AllDigits(s[1..][..k]) && DigitsFrom(s[1..][..k], next) > UINT64_MAX;
    assert s[..k + 1][1..] == s[1..][..k];
    assert s[..k + 1][0] == s[0];
    assert AllDigits(s[..k + 1]);
    assert DigitsFrom(s[..k + 1], n) == DigitsFrom(s[1..][..k], next);
  }

  lemma {:induction false} DigitsFromPositive(s: string, n: nat)
    requires AllDigits(s)
    ensures DigitsFrom(s, n) > 0 <==> n > 0 || HasNonZeroDigit(s)
  {
    if s != [] {
      DigitsFromPositive(s[1..], n * 10 + DigitValue(s[0]));
      if HasNonZeroDigit(s[1..]) {
        var k :| 0 <= k < |s[1..]| && s[1..][k] != '0';
        assert s[k + 1] != '0';
      }
      if HasNonZeroDigit(s) {
        var k :| 0 <= k < |s| && s[k] != '0';
        if k > 0 {
          assert s[1..][k - 1] != '0';
        }
      }
    }
  }

  /**
   * A request is ignored as a retry exactly when X-Slack-Retry-Num does not start with '-' and,
   * after an optional '+', is either a run of digits that are not all zeros or begins with a
   * run of digits whose value exceeds 2^64 - 1, whatever follows that run.
   */
  lemma IgnoredAsRetryIff(retryNum: string)
    ensures IgnoredAsRetry(retryNum) <==>
              |retryNum| > 0 && retryNum[0] != '-' &&
              var digits := if retryNum[0] == '+' then retryNum[1..] else retryNum;
              (|digits| > 0 && AllDigits(digits) && HasNonZeroDigit(digits)) || Overflows(digits, 0)
  {
    if |retryNum| > 0 {
      var digits := if retryNum[0] == '+' || retryNum[0] == '-' then retryNum[1..] else retryNum;
      if digits != [] {
        ScanDigitsValue(digits, 0);
        ScanDigitsRange(digits, 0);
        if AllDigits(digits) {
          DigitsFromPositive(digits, 0);
          assert digits[..|digits|] == digits;
        }
      }
    }
  }

  // ---------------------------------------------------------------------------------------
  // Project list and deploy buttons

  /** One line of the project list: `*<ID>* (<repository>)` and a newline. */
  function ProjectLine(pj: DeployProject): string {
    "*" + pj.id + "* (" + pj.repository + ")\n"
  }

  /** Lines joined in order. */
  function Concat(lines: seq<string>): string {
    if lines == [] then "" else Concat(lines[..|lines| - 1]) + lines[|lines| - 1]
  }

  lemma {:induction false} ConcatAppend(a: seq<string>, b: seq<string>)
    ensures Concat(a + b) == Concat(a) + Concat(b)
    decreases |b|
  {
    if b == [] {
      assert a + b == a;
    } else {
      var b' := b[..|b| - 1];
      var last := b[|b| - 1];
      assert (a + b)[..|a + b| - 1] == a + b';
      assert Concat(a + b) == Concat(a + b') + last;
      ConcatAppend(a, b');
      assert Concat(b) == Concat(b') + last;
    }
  }

  /** The lines of the project list, one per project, in list order. */
  function ProjectLines(items: seq<DeployProject>): (lines: seq<string>)
    ensures |lines| == |items|
    ensures forall k :: 0 <= k < |items| ==> lines[k] == ProjectLine(items[k])
  {
    seq(|items|, k requires 0 <= k < |items| => ProjectLine(items[k]))
  }

  /** The project-list text. */
  function ProjectListText(items: seq<DeployProject>): string {
    Concat(ProjectLines(items))
  }

  /** The project-list text of two lists joined is the two texts joined. */
  lemma ProjectListTextAppend(a: seq<DeployProject>, b: seq<DeployProject>)
    ensures ProjectListText(a + b) == ProjectListText(a) + ProjectListText(b)
  {
    assert ProjectLines(a + b) == ProjectLines(a) + ProjectLines(b);
    ConcatAppend(ProjectLines(a), ProjectLines(b));
  }

  /** The line of the k-th project sits right after the lines of the projects before it. */
  lemma ProjectLineAt(items: seq<DeployProject>, k: nat)
    requires k < |items|
    ensures ProjectListText(items) ==
              ProjectListText(items[..k]) + ProjectLine(items[k]) + ProjectListText(items[k + 1..])
  {
    var pre, post := items[..k], items[k + 1..];
    assert items == (pre + [items[k]]) + post;
    ProjectListTextAppend(pre + [items[k]], post);
    ProjectListTextAppend(pre, [items[k]]);
    ProjectListTextSingle(items[k]);
  }

  lemma ProjectListTextSingle(pj: DeployProject)
    ensures ProjectListText([pj]) == ProjectLine(pj)
  {
    var one := ProjectLines([pj]);
    assert one[..0] == [];
    assert Concat(one) == "" + ProjectLine(pj);
  }

  /** A block of the deploy-target message. */
  datatype Block =
    | Header(text: string)
    | DeployButton(caption: string, value: string)
    | CloseButton

  const HEADER_TEXT := ":cat:"

  /** The button's action: "request" when branch deploys are disabled, else "branchlist". */
  function ButtonAction(pj: DeployProject): (a: string)
    ensures a == "request" <==> pj.disableBranchDeploy
    ensures a == "branchlist" <==> !pj.disableBranchDeploy
  {
    if pj.disableBranchDeploy then "request" else "branchlist"
  }

  /** `deploy_<kind>_<action>|<ID>_<name>`, for the phase FindPhase gives. */
  function ButtonValue(pj: DeployProject, phaseName: string): (v: string)
    ensures "deploy_" <= v
    ensures var target := "|" + pj.id + "_" + FindPhase(pj, phaseName).name;
            |target| <= |v| && v[|v| - |target|..] == target
  {
    var phase := FindPhase(pj, phaseName);
    "deploy_" + phase.kind + "_" + ButtonAction(pj) + "|" + pj.id + "_" + phase.name
  }

  /**
   * createDeployButtonSection: a section captioned with the project's ID in bold and its
   * repository in parentheses, whose button carries the value ButtonValue describes.
   */
  function DeployButtonSection(pj: DeployProject, phaseName: string): (b: Block)
    ensures b.DeployButton?
    ensures b.caption == "*" + pj.id + "* (" + pj.repository + ")"
    ensures b.value == ButtonValue(pj, phaseName)
  {
    DeployButton("*" + pj.id + "* (" + pj.repository + ")", ButtonValue(pj, phaseName))
  }

  /** The text before the first `sep` and the text after it (all of `s` and "" without one). */
  function SplitFirst(s: string, sep: char): (string, string) {
    if s == [] then ("", "")
    else if s[0] == sep then ("", s[1..])
    else var r := SplitFirst(s[1..], sep); ([s[0]] + r.0, r.1)
  }

  lemma {:induction false} SplitFirstAt(a: string, sep: char, b: string)
    requires sep !in a
    ensures SplitFirst(a + [sep] + b, sep) == (a, b)
  {
    if a == [] {
      assert a + [sep] + b == [sep] + b;
    } else {
      var s := a + [sep] + b;
      assert s[0] == a[0] && a[0] != sep;
      assert s[1..] == a[1..] + [sep] + b;
      SplitFirstAt(a[1..], sep, b);
      assert [a[0]] + a[1..] == a;
    }
  }

  /**
   * Splitting a button value at its first '|' gives back `deploy_<kind>_<action>` and
   * `<ID>_<name>`, provided the phase kind has no '|'.
   */
  lemma ButtonValueParts(pj: DeployProject, phaseName: string)
    requires '|' !in FindPhase(pj, phaseName).kind
    ensures SplitFirst(ButtonValue(pj, phaseName), '|') ==
              ("deploy_" + FindPhase(pj, phaseName).kind + "_" + ButtonAction(pj),
               pj.id + "_" + FindPhase(pj, phaseName).name)
  {
    var phase := FindPhase(pj, phaseName);
    var a := "deploy_" + phase.kind + "_" + ButtonAction(pj);
    var b := pj.id + "_" + phase.name;
    assert '|' !in a by {
      forall k | 0 <= k < |a| ensures a[k] != '|' {
        if 7 <= k < 7 + |phase.kind| {
          assert a[k] == phase.kind[k - 7];
        }
      }
    }
    assert ButtonValue(pj, phaseName) == a + ['|'] + b;
    SplitFirstAt(a, '|', b);
  }

  // ---------------------------------------------------------------------------------------
  // lock / unlock and runCommand

  /**
   * The registries the gate consults: ProjectList.FindByAlias (the project, or the text of
   * its error) and `UserList.FindBySlackUserID(id).IsDeveloper()`.
   */
  datatype Registry = Registry(findByAlias: string -> Result<DeployProject>, isDeveloper: string -> bool)

  /** The outcome of validateProjectEnvUser: go ahead, or the one error message it posted. */
  datatype Gate = Pass | Reject(message: string)

  const NOT_ALLOWED := "you are not allowed to lock this project"

  function PhaseNotFound(env: string): string {
    "phase " + env + " is not found"
  }

  /**
   * validateProjectEnvUser: the alias must resolve, the project must have the phase, and the
   * user must be a developer, checked in that order; the first failure's message is posted.
   */
  function ValidateProjectEnvUser(reg: Registry, projectID: string, env: string, userID: string): (g: Gate)
    ensures g.Pass? <==>
              reg.findByAlias(projectID).Ok? && HasPhase(reg.findByAlias(projectID).value, env) &&
              reg.isDeveloper(userID)
    ensures reg.findByAlias(projectID).Err? ==> g == Reject(reg.findByAlias(projectID).error)
    ensures reg.findByAlias(projectID).Ok? && !HasPhase(reg.findByAlias(projectID).value, env) ==>
              g == Reject(PhaseNotFound(env))
    ensures (reg.findByAlias(projectID).Ok? && HasPhase(reg.findByAlias(projectID).value, env) &&
             !reg.isDeveloper(userID)) ==> g == Reject(NOT_ALLOWED)
  {
    match reg.findByAlias(projectID)
    case Err(e) => Reject(e)
    case Ok(pj) =>
      if !HasPhase(pj, env) then Reject(PhaseNotFound(env))
      else if !reg.isDeveloper(userID) then Reject(NOT_ALLOWED)
      else Pass
  }

  datatype Message = ErrorMessage(text: string) | InfoMessage(text: string)

  /** A call into deploy.Coordinator, with its arguments. */
  datatype CoordinatorCall =
    | LockCall(project: string, env: string, user: string, reason: string)
    | UnlockCall(project: string, env: string, user: string, force: bool)

  /**
   * What lock or unlock did: the error messages it posted itself, the coordinator call it made
   * (if any), and the message it hands back to runCommand (None is a nil MsgOption).
   */
  datatype CommandRun = CommandRun(posted: seq<Message>, call: Option<CoordinatorCall>, reply: Option<Message>)

  /** The shared shape of lock and unlock: gate, then one coordinator call, then the reply. */
  function Guarded(gate: Gate, call: CoordinatorCall, answer: Option<string>, done: string): CommandRun {
    if gate.Reject? then CommandRun([ErrorMessage(gate.message)], None, None)
    else if answer.Some? then CommandRun([ErrorMessage(answer.value)], Some(call), None)
    else CommandRun([], Some(call), Some(InfoMessage(done)))
  }

  /**
   * lock. `answer` is the coordinator's answer to the Lock call (None: no error); the
   * coordinator's rules for it are not part of this model.
   */
  function LockRun(reg: Registry, project: string, env: string, reason: string, user: string,
                   answer: Option<string>): (r: CommandRun)
    ensures r.call.Some? <==> ValidateProjectEnvUser(reg, project, env, user).Pass?
    ensures r.call.Some? ==> r.call.value == LockCall(project, env, user, reason)
    ensures r.call.None? ==> r.posted == [ErrorMessage(ValidateProjectEnvUser(reg, project, env, user).message)]
    ensures r.call.Some? && answer.Some? ==> r.posted == [ErrorMessage(answer.value)]
    ensures r.reply.Some? <==> r.call.Some? && answer.None?
    ensures r.reply.Some? ==> r.reply.value == InfoMessage("Locked " + project + " " + env) && r.posted == []
  {
    Guarded(ValidateProjectEnvUser(reg, project, env, user), LockCall(project, env, user, reason),
            answer, "Locked " + project + " " + env)
  }

  /** unlock; `answer` is the coordinator's answer to the Unlock call. */
  function UnlockRun(reg: Registry, project: string, env: string, user: string, force: bool,
                     answer: Option<string>): (r: CommandRun)
    ensures r.call.Some? <==> ValidateProjectEnvUser(reg, project, env, user).Pass?
    ensures r.call.Some? ==> r.call.value == UnlockCall(project, env, user, force)
    ensures r.call.None? ==> r.posted == [ErrorMessage(ValidateProjectEnvUser(reg, project, env, user).message)]
    ensures r.call.Some? && answer.Some? ==> r.posted == [ErrorMessage(answer.value)]
    ensures r.reply.Some? <==> r.call.Some? && answer.None?
    ensures r.reply.Some? ==> r.reply.value == InfoMessage("Unlocked " + project + " " + env) && r.posted == []
  {
    Guarded(ValidateProjectEnvUser(reg, project, env, user), UnlockCall(project, env, user, force),
            answer, "Unlocked " + project + " " + env)
  }

  /** runCommand: a command run by lock or unlock, or the panic of the default case. */
  datatype CommandResult = Ran(run: CommandRun) | Panicked

  function RunCommand(reg: Registry, cmd: Command, triggeredBy: string, answer: Option<string>): (r: CommandResult)
    ensures r.Panicked? <==> cmd.OtherCommand?
    ensures cmd.Lock? ==> r == Ran(LockRun(reg, cmd.project, cmd.env, cmd.reason, triggeredBy, answer))
    ensures cmd.Unlock? ==> r == Ran(UnlockRun(reg, cmd.project, cmd.env, triggeredBy, false, answer))
  {
    match cmd
    case Lock(project, env, reason) => Ran(LockRun(reg, project, env, reason, triggeredBy, answer))
    case Unlock(project, env) => Ran(UnlockRun(reg, project, env, triggeredBy, false, answer))
    case OtherCommand(_) => Panicked
  }

  /** A chat command never forces an unlock, and never calls the coordinator for someone else. */
  lemma RunCommandNeverForces(reg: Registry, cmd: Command, triggeredBy: string, answer: Option<string>)
    requires RunCommand(reg, cmd, triggeredBy, answer).Ran?
    requires RunCommand(reg, cmd, triggeredBy, answer).run.call.Some?
    ensures RunCommand(reg, cmd, triggeredBy, answer).run.call.value.user == triggeredBy
    ensures RunCommand(reg, cmd, triggeredBy, answer).run.call.value.UnlockCall? ==>
              !RunCommand(reg, cmd, triggeredBy, answer).run.call.value.force
  {
  }
}
