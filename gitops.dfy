/**
 * The two-phase GitOps deploy of model_gitops.go: ask the project's plugin to prepare a pull
 * request, and merge it only when preparation succeeded with status Success.
 *
 * The plugin and the GitHub client are not part of this model; they are the two functions a
 * ModelGitOps value carries. Each call the pipeline makes to them is recorded in a trace, so
 * "merge only on success" can be stated about the calls themselves.
 */
module GitOps {
  import opened Wrappers
  import opened Projects

  /** The DeployStatus constants are defined outside this model; only Success is compared. */
  datatype DeployStatus = Success | Pending | Failed

  const SUCCESS_MESSAGE := "Success to deploy"

  /** GitOpsPrepareOutput; `status` is unexported in Go and read through Status(). */
  datatype GitOpsPrepareOutput = GitOpsPrepareOutput(
    pullRequestID: string,
    pullRequestNumber: int,
    branch: string,
    status: DeployStatus)
  {
    function Status(): (s: DeployStatus)
      ensures s == status
    {
      status
    }

    function Message(): (m: string)
      ensures m == SUCCESS_MESSAGE
    {
      SUCCESS_MESSAGE
    }
  }

  datatype DeployOption = DeployOption(branch: string, assigner: string, tag: string)

  /** A call into a collaborator, with its arguments. */
  datatype Call =
    | PrepareCall(project: DeployProject, phase: string, branch: string, assigner: string, tag: string)
    | MergeCall(pullRequestID: string)

  /**
   * What Deploy returns: the DeployOutput (None is Go's nil interface), the error (None is nil),
   * and the calls it made, in order.
   */
  datatype DeployRun = DeployRun(output: Option<GitOpsPrepareOutput>, err: Option<string>, calls: seq<Call>)

  /** The error of Commit, and the calls it made. */
  datatype CommitRun = CommitRun(err: Option<string>, calls: seq<Call>)

  function MergeCount(calls: seq<Call>): (n: nat)
    ensures n <= |calls|
  {
    if calls == [] then 0 else (if calls[0].MergeCall? then 1 else 0) + MergeCount(calls[1..])
  }

  /**
   * ModelGitOps. `prepare` answers GitOpsPlugin.Prepare for its five arguments (project, phase,
   * branch, assigner, tag); `mergePullRequest` answers GitHub.MergePullRequest for a
   * pull-request ID (None: merged without error).
   */
  datatype ModelGitOps = ModelGitOps(
    prepare: (DeployProject, string, string, string, string) -> Result<GitOpsPrepareOutput>,
    mergePullRequest: string -> Option<string>)
  {
    /** Commit merges exactly the given pull request, once, and returns the merge error. */
    function Commit(pullRequestID: string): (r: CommitRun)
      ensures r.calls == [MergeCall(pullRequestID)]
      ensures r.err == mergePullRequest(pullRequestID)
    {
      CommitRun(mergePullRequest(pullRequestID), [MergeCall(pullRequestID)])
    }

    /** The PrepareCall that Deploy makes: the option's branch, assigner and tag, unchanged. */
    function PrepareFor(pj: DeployProject, phase: string, option: DeployOption): Call {
      PrepareCall(pj, phase, option.branch, option.assigner, option.tag)
    }

    /** The plugin's answer to that call. */
    function Prepared(pj: DeployProject, phase: string, option: DeployOption): Result<GitOpsPrepareOutput> {
      prepare(pj, phase, option.branch, option.assigner, option.tag)
    }

    /**
     * Deploy. The named results `do` and `err` start as nil; the two early returns leave `do`
     * nil, so a prepare error or a merge error comes back with a nil output.
     */
    function Deploy(pj: DeployProject, phase: string, option: DeployOption): (r: DeployRun)
      // Prepare is called first, exactly once, with the option passed through.
      ensures |r.calls| >= 1 && r.calls[0] == PrepareFor(pj, phase, option)
      ensures forall i :: 1 <= i < |r.calls| ==> r.calls[i].MergeCall?
      // Merge is called at most once, and only after a Success preparation, on its pull request.
      ensures MergeCount(r.calls) <= 1
      ensures MergeCount(r.calls) == 1 <==>
                Prepared(pj, phase, option).Ok? && Prepared(pj, phase, option).value.Status() == Success
      ensures MergeCount(r.calls) == 1 ==>
                r.calls == [PrepareFor(pj, phase, option),
                            MergeCall(Prepared(pj, phase, option).value.pullRequestID)]
      // Exactly one of output and error is set.
      ensures r.output.Some? <==> r.err.None?
      // A returned output is always the prepared one, unchanged.
      ensures r.output.Some? ==> Prepared(pj, phase, option) == Ok(r.output.value)
    {
      var first := PrepareFor(pj, phase, option);
      match Prepared(pj, phase, option)
      case Err(e) => DeployRun(None, Some(e), [first])
      case Ok(o) =>
        if o.Status() == Success then
          var c := Commit(o.pullRequestID);
          if c.err.Some? then DeployRun(None, c.err, [first] + c.calls)
          else DeployRun(Some(o), None, [first] + c.calls)
        else
          DeployRun(Some(o), None, [first])
    }
  }

  /** A Prepare error is returned as is, with a nil output, and nothing is merged. */
  lemma PrepareErrorAborts(g: ModelGitOps, pj: DeployProject, phase: string, option: DeployOption, e: string)
    requires g.Prepared(pj, phase, option) == Err(e)
    ensures g.Deploy(pj, phase, option) == DeployRun(None, Some(e), [g.PrepareFor(pj, phase, option)])
    ensures MergeCount(g.Deploy(pj, phase, option).calls) == 0
  {
  }

  /** A non-Success preparation is returned unchanged, with a nil error, and nothing is merged. */
  lemma NonSuccessReturnsPrepared(g: ModelGitOps, pj: DeployProject, phase: string, option: DeployOption,
                                  o: GitOpsPrepareOutput)
    requires g.Prepared(pj, phase, option) == Ok(o)
    requires o.Status() != Success
    ensures g.Deploy(pj, phase, option) == DeployRun(Some(o), None, [g.PrepareFor(pj, phase, option)])
    ensures MergeCount(g.Deploy(pj, phase, option).calls) == 0
  {
  }

  /** A Success preparation whose merge fails returns the merge error and a nil output. */
  lemma MergeFailureReturnsMergeError(g: ModelGitOps, pj: DeployProject, phase: string, option: DeployOption,
                                      o: GitOpsPrepareOutput, e: string)
    requires g.Prepared(pj, phase, option) == Ok(o)
    requires o.Status() == Success
    requires g.mergePullRequest(o.pullRequestID) == Some(e)
    ensures g.Deploy(pj, phase, option).output == None
    ensures g.Deploy(pj, phase, option).err == Some(e)
    ensures g.Deploy(pj, phase, option).calls == [g.PrepareFor(pj, phase, option), MergeCall(o.pullRequestID)]
  {
  }

  /** A Success preparation whose merge succeeds returns the prepared output and a nil error. */
  lemma MergeSuccessReturnsPrepared(g: ModelGitOps, pj: DeployProject, phase: string, option: DeployOption,
                                    o: GitOpsPrepareOutput)
    requires g.Prepared(pj, phase, option) == Ok(o)
    requires o.Status() == Success
    requires g.mergePullRequest(o.pullRequestID) == None
    ensures g.Deploy(pj, phase, option) ==
              DeployRun(Some(o), None, [g.PrepareFor(pj, phase, option), MergeCall(o.pullRequestID)])
  {
  }
}
