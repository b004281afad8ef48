/**
 * The SlackListener of slack.go as an object: the lazily created coordinator field, the two
 * messages built by loops over the project list, and lock/unlock/runCommand, which create the
 * coordinator only once a command has passed the gate. The coordinator's mutex only serialises
 * first use; this model is sequential and keeps the "create once, then reuse" behaviour.
 */
module Listener {
  import opened Wrappers
  import opened Projects
  import opened Slack

  /** deploy.Coordinator. Its lock store and its locking rules are not part of this model. */
  class Coordinator {
    const app: string
    const table: string

    /** deploy.NewCoordinator(app, table). */
    constructor (app: string, table: string)
      ensures this.app == app && this.table == table
    {
      this.app := app;
      this.table := table;
    }
  }

  class SlackListener {
    var items: seq<DeployProject>       // projectList.Items
    var coordinator: Coordinator?
    ghost var coordinatorsCreated: nat  // how many times NewCoordinator has run for this listener

    /** The coordinator exists exactly when NewCoordinator has run, and it has run at most once. */
    ghost predicate Valid()
      reads this
    {
      coordinatorsCreated <= 1 && (coordinator == null <==> coordinatorsCreated == 0)
    }

    constructor (items: seq<DeployProject>)
      ensures Valid()
      ensures this.items == items && coordinator == null
    {
      this.items := items;
      coordinator := null;
      coordinatorsCreated := 0;
    }

    /** getOrCreateCoordinator: create the coordinator on first use, then return the same one. */
    method GetOrCreateCoordinator() returns (c: Coordinator)
      requires Valid()
      modifies this`coordinator, this`coordinatorsCreated
      ensures Valid()
      ensures c == coordinator
      ensures old(coordinator) != null ==>
                c == old(coordinator) && coordinatorsCreated == old(coordinatorsCreated)
      ensures old(coordinator) == null ==>
                fresh(c) && c.app == "gocat" && c.table == "deploylocks" && coordinatorsCreated == 1
    {
      if coordinator == null {
        coordinator := new Coordinator("gocat", "deploylocks");
        coordinatorsCreated := coordinatorsCreated + 1;
      }
      c := coordinator;
    }

    /** The text of projectListMessage: one line per project, in list order. */
    method ProjectListMessage() returns (text: string)
      ensures text == ProjectListText(items)
    {
      text := "";
      for i := 0 to |items|
        invariant text == ProjectListText(items[..i])
      {
        var pj := items[i];
        ProjectListTextAppend(items[..i], [pj]);
        ProjectListTextSingle(pj);
        assert items[..i + 1] == items[..i] + [pj];
        text := text + ProjectLine(pj);
      }
      assert items[..|items|] == items;
    }

    /**
     * SelectDeployTarget: a header, one deploy button per project in list order, and a close
     * button last.
     */
    method SelectDeployTarget(phase: string) returns (blocks: seq<Block>)
      ensures |blocks| == |items| + 2
      ensures blocks[0] == Header(HEADER_TEXT) && blocks[|blocks| - 1] == CloseButton
      ensures forall i :: 0 <= i < |items| ==> blocks[i + 1] == DeployButtonSection(items[i], phase)
    {
      var sections := new Block[|items| + 2];
      sections[0] := Header(HEADER_TEXT);
      for i := 0 to |items|
        invariant sections[0] == Header(HEADER_TEXT)
        invariant forall k :: 0 <= k < i ==> sections[k + 1] == DeployButtonSection(items[k], phase)
      {
        sections[i + 1] := DeployButtonSection(items[i], phase);
      }
      sections[sections.Length - 1] := CloseButton;
      blocks := sections[..];
    }

    /**
     * lock. `answer` is the coordinator's answer to the Lock call. The coordinator is created
     * (if it does not exist yet) only after the gate passes.
     */
    method Lock(reg: Registry, project: string, env: string, reason: string, triggeredBy: string,
                answer: Option<string>) returns (run: CommandRun)
      requires Valid()
      modifies this`coordinator, this`coordinatorsCreated
      ensures Valid()
      ensures run == LockRun(reg, project, env, reason, triggeredBy, answer)
      ensures run.call.Some? ==> coordinator != null
      ensures run.call.None? ==>
                coordinator == old(coordinator) && coordinatorsCreated == old(coordinatorsCreated)
      ensures old(coordinator) != null ==> coordinator == old(coordinator)
    {
      var gate := ValidateProjectEnvUser(reg, project, env, triggeredBy);
      if gate.Reject? {
        return CommandRun([ErrorMessage(gate.message)], None, None);
      }
      var _ := GetOrCreateCoordinator();
      var call := LockCall(project, env, triggeredBy, reason);
      if answer.Some? {
        return CommandRun([ErrorMessage(answer.value)], Some(call), None);
      }
      run := CommandRun([], Some(call), Some(InfoMessage("Locked " + project + " " + env)));
    }

    /** unlock; `answer` is the coordinator's answer to the Unlock call. */
    method Unlock(reg: Registry, project: string, env: string, triggeredBy: string, force: bool,
                  answer: Option<string>) returns (run: CommandRun)
      requires Valid()
      modifies this`coordinator, this`coordinatorsCreated
      ensures Valid()
      ensures run == UnlockRun(reg, project, env, triggeredBy, force, answer)
      ensures run.call.Some? ==> coordinator != null
      ensures run.call.None? ==>
                coordinator == old(coordinator) && coordinatorsCreated == old(coordinatorsCreated)
      ensures old(coordinator) != null ==> coordinator == old(coordinator)
    {
      var gate := ValidateProjectEnvUser(reg, project, env, triggeredBy);
      if gate.Reject? {
        return CommandRun([ErrorMessage(gate.message)], None, None);
      }
      var _ := GetOrCreateCoordinator();
      var call := UnlockCall(project, env, triggeredBy, force);
      if answer.Some? {
        return CommandRun([ErrorMessage(answer.value)], Some(call), None);
      }
      run := CommandRun([], Some(call), Some(InfoMessage("Unlocked " + project + " " + env)));
    }

    /** runCommand: Lock goes to lock, Unlock to unlock without force, anything else panics. */
    method RunCommand(reg: Registry, cmd: Command, triggeredBy: string, answer: Option<string>)
      returns (result: CommandResult)
      requires Valid()
      modifies this`coordinator, this`coordinatorsCreated
      ensures Valid()
      ensures result == Slack.RunCommand(reg, cmd, triggeredBy, answer)
      ensures old(coordinator) != null ==> coordinator == old(coordinator)
      ensures cmd.OtherCommand? ==> coordinator == old(coordinator)
    {
      match cmd
      case Lock(project, env, reason) =>
        var run := Lock(reg, project, env, reason, triggeredBy, answer);
        result := Ran(run);
      case Unlock(project, env) =>
        var run := Unlock(reg, project, env, triggeredBy, false, answer);
        result := Ran(run);
      case OtherCommand(_) =>
        result := Panicked;
    }
  }
}
