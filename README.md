# gocat deploy bot: GitOps deploy and Slack listener rules in Dafny

gocat is a Slack bot that deploys projects. A mention such as `deploy api staging` is
routed by the Slack listener. It shows the project list or deploy buttons, asks an
interactor to prepare a deploy, or runs a `lock` / `unlock` command against the deploy
coordinator. The GitOps deploy model prepares a pull request through a per-project plugin
and merges it only when the preparation reports success.

This project models that logic and proves its properties:

- `wrappers.dfy` (`Wrappers`): `Option` and `Result`. They stand for Go's nil values and
  `(value, error)` returns.
- `projects.dfy` (`Projects`): the parts of `DeployProject` and `DeployPhase` the listener
  reads. The file that defines them is not part of this model.
- `gitops.dfy` (`GitOps`): `ModelGitOps.Deploy` and `Commit`, with `GitOpsPrepareOutput`.
  The plugin's `Prepare` and GitHub's `MergePullRequest` are functions the `ModelGitOps`
  value carries. Each call made to them is recorded in a trace, so "merge only on success"
  is a statement about the calls themselves.
- `slack.dfy` (`Slack`): the pure rules of `slack.go`. These are `toPhase`; the literal
  mention patterns and an exact leftmost-first matcher for the two `deploy <project> <env>`
  regular expressions; the precedence of `handleMessageEvent`; the `X-Slack-Retry-Num`
  early return; the deploy-button value; the three-step `validateProjectEnvUser` gate; and
  `lock`, `unlock` and `runCommand` as functions of the collaborators' answers.
- `listener.dfy` (`Listener`): `SlackListener` as a class. Its `coordinator` field is
  created lazily, at most once per listener object. `projectListMessage` and `SelectDeployTarget` are loops
  over the project list. `Lock`, `Unlock` and `RunCommand` create the coordinator only
  after the gate passes, and each is proved equal to its function in `Slack`.

Collaborators whose code is not part of this model are parameters. Their answers are
inputs, and the model never decides them. These are the project and user registries
(`Slack.Registry`), the coordinator's answer to a `Lock` or `Unlock` call (`answer`), the
command parser's result (`parsed`), and the plugin and GitHub functions.

## Model

| member | source | states |
|---|---|---|
| `GitOps.GitOpsPrepareOutput.Status` | model_gitops.go:16-18 | Status() is the stored status |
| `GitOps.GitOpsPrepareOutput.Message` | model_gitops.go:20-22 | Message() is the constant "Success to deploy", so every prepared output has the same message whatever its status or other fields |
| `GitOps.ModelGitOps.Commit` | model_gitops.go:24-27 | Commit makes exactly one merge call, on exactly the given pull-request ID, and returns the merge's error |
| `GitOps.ModelGitOps.Deploy` | model_gitops.go:29-41 | Prepare is called first and exactly once, with the option's branch, assigner and tag unchanged; at most one merge call follows; a merge happens iff Prepare returned no error and status Success, and then on that output's PullRequestID; exactly one of output and error is set; any returned output is the prepared one, unchanged |
| `GitOps.PrepareErrorAborts` | model_gitops.go:30-33 | a Prepare error is returned with a nil output, and no merge is made |
| `GitOps.NonSuccessReturnsPrepared` | model_gitops.go:34-40 | a non-Success preparation is returned unchanged with a nil error, and no merge is made |
| `GitOps.MergeFailureReturnsMergeError` | model_gitops.go:29-37 | after a Success preparation, a merge error is returned with a nil output, after exactly one merge of that pull request |
| `GitOps.MergeSuccessReturnsPrepared` | model_gitops.go:34-40 | after a Success preparation and a clean merge, the prepared output is returned with a nil error |
| `Slack.ToPhase` | slack.go:365-376 | "pro"/"prd"/"production" give production, "sandbox" gives sandbox, every other word gives staging; so the result is always one of the three |
| `Slack.ToPhaseIdempotent` | slack.go:365-376 | normalising a normalised phase changes nothing |
| `Slack.Contains` | slack.go:89-101 | the literal-pattern test used for "help", "ls", "reload" and, at slack.go:169-189, for `deploy staging`, `production` and `sandbox`: a text that begins with the pattern contains it (the full characterisation is `Slack.ContainsIff`) |
| `Slack.ContainsIff` | slack.go:89-101 | a literal pattern matches exactly when it occurs at some position of the text |
| `Slack.FindDeploy` | slack.go:113-115 | the first match's two words, as both deploy patterns (slack.go:113 and slack.go:141) read them: when there is a match, its project is a non-empty run of `[0-9a-zA-Z-]` and its environment one of the six aliases |
| `Slack.FindDeployLeftmost` | slack.go:113-115 | the deploy matcher returns the match at the leftmost position where one exists, as `match[0]` does |
| `Slack.FindDeployIff` | slack.go:113-115 | a deploy pattern matches iff `deploy <name> <alias><tail>` occurs in the text; a match's project is a non-empty run of `[0-9a-zA-Z-]` and its environment one of the six aliases |
| `Slack.BranchFormImpliesPlainForm` | slack.go:113-141 | every text the `... branch` form matches is also matched by the plain form, so the branch form is reached only because it is tested first |
| `Slack.HandleMessageEvent` | slack.go:86-195 | "help" wins over "ls", which wins over "reload", which wins over every deploy form; the branch form is tried before the plain form, then `deploy staging`, `production` and `sandbox` in that order; the parsed command runs only if nothing matched; the deploy routes carry the matched project and the phase `toPhase` gives |
| `Slack.BranchFormWins` | slack.go:111-140 | without a keyword, a branch-form match always shows the branch list |
| `Slack.DeployFormsShadowCommands` | slack.go:141-193 | a text that matches a deploy form never reaches the command parser's handler |
| `Slack.KeywordInAliasShadowsDeploy` | slack.go:89-113 | a project alias containing "ls", "help" or "reload" can never be named in a deploy mention, because the keyword in it is tested first |
| `Slack.AtoiValue` | slack.go:46 | `strconv.Atoi`'s value always lies in Go's 64-bit int range, and the empty header gives 0 |
| `Slack.ScanDigitsValue` | slack.go:46 | the digit scan yields a value exactly when the text is all decimal digits whose value fits in 64 unsigned bits, and then it yields that value |
| `Slack.ScanDigitsRange` | slack.go:46 | the digit scan stops with a range error exactly when some leading run of digits exceeds 2^64 - 1, whatever characters follow that run |
| `Slack.IgnoredAsRetry` | slack.go:45-50 | the early return of `ServeHTTP`: a header that is ignored is non-empty and does not start with '-' (the exact set is `Slack.IgnoredAsRetryIff`) |
| `Slack.IgnoredAsRetryIff` | slack.go:45-50 | a request is ignored exactly when X-Slack-Retry-Num does not start with '-' and, after an optional '+', is either a run of decimal digits that are not all zeros or begins with a run of digits too large for 64 unsigned bits |
| `Slack.ProjectListTextAppend` | slack.go:216-219 | the project-list text of two lists joined is the two texts joined |
| `Slack.ProjectLineAt` | slack.go:216-219 | project k's line `*ID* (repo)` and newline sits between the lines of the projects before it and those after it |
| `Slack.ButtonAction` | slack.go:244-247 | the action is "request" iff DisableBranchDeploy holds, and "branchlist" otherwise |
| `Slack.ButtonValue` | slack.go:248-251 | the button value starts with `deploy_` and ends with a bar followed by `<ID>_<Name>` of the phase FindPhase returns |
| `Slack.ButtonValueParts` | slack.go:248-251 | provided the phase kind contains no bar character, splitting the button value at its first bar gives `deploy_<Kind>_<action>` and `<ID>_<Name>` of the phase FindPhase returns |
| `Slack.DeployButtonSection` | slack.go:243-254 | the section is a deploy button captioned `*<ID>* (<repository>)` whose value is the one `Slack.ButtonValue` describes |
| `Slack.ValidateProjectEnvUser` | slack.go:313-342 | the gate passes iff the alias resolves, the project has the phase and the user is a developer; otherwise it posts only the message of the first check that fails, in that order |
| `Slack.LockRun` | slack.go:280-294 | the coordinator's Lock is called, with the command's project, env and reason and the triggering user, iff the gate passes; "Locked <project> <env>" is returned iff it answered without error; every failure posts exactly one error message |
| `Slack.UnlockRun` | slack.go:297-311 | the same for Unlock and "Unlocked <project> <env>", with the force flag passed through |
| `Slack.RunCommand` | slack.go:260-277 | Lock goes to lock and Unlock to unlock with force false; every other variant panics |
| `Slack.RunCommandNeverForces` | slack.go:263-270 | a chat command calls the coordinator only on behalf of the user who triggered it, and never forces an unlock |
| `Listener.Coordinator.constructor` | slack.go:348 | the coordinator is made for the app "gocat" and the table "deploylocks" |
| `Listener.SlackListener.GetOrCreateCoordinator` | slack.go:344-351 | afterwards the field is non-nil; an existing coordinator is returned unchanged; a new one is created only when the field was nil; and the listener's invariant keeps the number of creations at most one over any sequence of calls |
| `Listener.SlackListener.ProjectListMessage` | slack.go:215-228 | the loop builds the in-order concatenation of the projects' lines |
| `Listener.SlackListener.SelectDeployTarget` | slack.go:231-241 | there are len(Items)+2 blocks: the ":cat:" header first, project i's deploy button at i+1, and the close button last |
| `Listener.SlackListener.Lock` | slack.go:280-294 | returns what `Slack.LockRun` describes; the coordinator is created only once the gate has passed, and an existing one is kept |
| `Listener.SlackListener.Unlock` | slack.go:297-311 | returns what `Slack.UnlockRun` describes, with the same coordinator behaviour |
| `Listener.SlackListener.RunCommand` | slack.go:260-277 | returns what `Slack.RunCommand` describes; an unknown command leaves the coordinator field alone |

## Left out

- HTTP handling in `ServeHTTP` (slack.go:35-84) is not modelled: body reading, event JSON parsing, token verification, the URL-verification challenge and event-type dispatch. This is plumbing around the Slack library. Only the retry-number check is modelled (`Slack.IgnoredAsRetry`), with the header taken as "" when absent.
- Posting to Slack is not modelled. This covers every `PostMessage` call, the Block Kit layout, and the `helpMessage`, `infoMessage`, `errorMessage` and `CloseButton` contents. The model records which message is posted and its text. `SelectDeployTarget`'s blocks keep only the button caption and value. After a declined lock or unlock, `runCommand` posts a nil message option; the model records this as a `None` reply, and what the Slack client does with it is outside the model.
- `Slack.HandleMessageEvent` only selects the handler. It does not model what the handler then does: the registry reloads (slack.go:102-103, 111-112), the interactor's `BranchList` and `Request` calls, and the posting.
- The `sync.Mutex` in `getOrCreateCoordinator` is left out. Its purpose is concurrency, and the model is sequential.
- `Listener.SlackListener.GetOrCreateCoordinator`: creation at most once holds per listener object, not per process. `ServeHTTP` has a value receiver (slack.go:35), so each request runs `handleMessageEvent` (slack.go:78) on a copy of the listener. The field set at slack.go:347-349, reached through slack.go:285 and slack.go:302, lands in that copy and is lost when the request ends, and the copied mutex orders nothing across requests. The source therefore creates a new coordinator for every lock or unlock request that passes the gate. The model has one listener object and does not capture this per-request copy.
- `deploy.Coordinator`'s lock store and its conflict and ownership rules are not part of this model. Its answer to each `Lock` or `Unlock` call is an input. No code for lock-conflict, ownership or forced-release rules is shown, so the model does not state them.
- `slackcmd.Parse`, `ProjectList.FindByAlias` and `Reload`, `UserList`, `InteractorFactory`, `GitOpsPlugin.Prepare` and `GitHub.MergePullRequest` are not part of this model. They enter as parameters.
- `DeployProject.FindPhase` and `None()` are not part of this model. They are taken as a lookup in a table keyed by phase name. A missing phase has an empty kind and name, as the Go zero value would, and `None()` is read as "the lookup gave that zero phase".
- The `DeployStatus` constants are not part of this model. Only Success is compared, and the model adds Pending and Failed as the other values.
- `ModelGitOps.git` is never used by the modelled code. `Deploy` never consults the lock state, and the model adds no such check.
- Go's `regexp` engine in general is left out. The literal patterns are modelled as substring tests, and the two deploy patterns by a matcher specific to their shape.
- `Slack.FindDeploy` reads the project and environment words straight from the match. The source splits the matched text at spaces, which gives the same two words.
- Errors are the collaborators' error text, passed through unchanged, as the code does.
- Logging is not modelled.
