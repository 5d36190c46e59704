/**
 * The decisions taken on daemon events while watching (provider/docker/docker.go, Provide):
 * which standalone container events cause a re-listing, and the swarm readiness gate that
 * decides, for a service event, whether to re-list now or to wait and look again.
 */
module Events {
  import opened Results
  import opened Strconv
  import opened Daemon

  /** A standalone container event re-lists the containers: "start", "die" and every "health_status..." action. */
  predicate TriggersListing(action: string)
  {
    action == "start" || action == "die" || HasPrefix(action, "health_status")
  }

  /** Every health-status action re-lists, whatever follows the prefix. */
  lemma HealthStatusActionsTrigger(suffix: string)
    ensures TriggersListing("health_status" + suffix)
  {
    assert ("health_status" + suffix)[..|"health_status"|] == "health_status";
  }

  /** Which actions re-list, on the actions Docker sends for containers. */
  lemma ContainerActionExamples()
    ensures TriggersListing("start") && TriggersListing("die")
    ensures TriggersListing("health_status: healthy") && TriggersListing("health_status: unhealthy")
    ensures !TriggersListing("stop") && !TriggersListing("kill") && !TriggersListing("restart")
    ensures !TriggersListing("create") && !TriggersListing("destroy") && !TriggersListing("health")
  {
    HealthStatusActionsTrigger(": healthy");
    HealthStatusActionsTrigger(": unhealthy");
  }

  /** What the swarm event callback does with one event. */
  datatype GateDecision =
    | Relist   // list the services and publish a new configuration
    | Retry    // sleep one second and handle the same event again
    | Abandon  // the task list could not be obtained: return without re-listing

  /** The pre-running task states that make the gate wait. Allocated and ready are not among them. */
  predicate IsTransitional(s: TaskState)
  {
    s == New || s == Pending || s == Assigned || s == Accepted || s == Preparing || s == Starting
  }

  /** The service's running-desired tasks have not all left the transitional states (or there are none yet). */
  predicate NotConverged(tasks: seq<Task>)
  {
    |tasks| == 0 || exists i :: 0 <= i < |tasks| && IsTransitional(tasks[i].state)
  }

  /**
   * The readiness gate of the swarm event callback. An event without an actor ID re-lists.
   * Otherwise the actor's tasks with desired state running are listed: a failure abandons
   * the event, an empty list or a task in a transitional state retries, and anything else
   * (running, failed, complete, ...) re-lists.
   */
  method ReadinessGate(actorID: string, taskList: string -> Result<seq<Task>>) returns (d: GateDecision)
    ensures actorID == "" ==> d == Relist
    ensures actorID != "" && taskList(actorID).Err? ==> d == Abandon
    ensures actorID != "" && taskList(actorID).Ok? ==>
      d != Abandon && (d == Retry <==> NotConverged(taskList(actorID).value))
  {
    if actorID != "" {
      var listed := taskList(actorID);
      if listed.Err? {
        return Abandon;
      }
      var tasks := listed.value;
      var retry := false;
      if |tasks| == 0 {
        retry := true;
      }
      var i := 0;
      while i < |tasks|
        invariant 0 <= i <= |tasks|
        invariant retry <==> |tasks| == 0 || exists j :: 0 <= j < i && IsTransitional(tasks[j].state)
      {
        if tasks[i].state != Running {
          if IsTransitional(tasks[i].state) {
            retry := true;
            break;
          }
        }
        i := i + 1;
      }
      if !retry {
        return Relist;
      } else {
        return Retry;
      }
    }
    return Relist;
  }

  /** A service whose only task is still preparing makes the gate wait; once it runs, the gate re-lists. */
  lemma PreparingThenRunning(t: Task)
    ensures NotConverged([t.(state := Preparing)])
    ensures !NotConverged([t.(state := Running)])
  {
    assert [t.(state := Preparing)][0].state == Preparing;
  }

  /** Tasks that stopped (failed, rejected, shut down, ...) never make the gate wait. */
  lemma SettledTasksDoNotBlock(tasks: seq<Task>)
    requires |tasks| > 0
    requires forall i :: 0 <= i < |tasks| ==> tasks[i].state in {Running, Complete, Shutdown, Failed, Rejected, Remove, Orphaned}
    ensures !NotConverged(tasks)
  {
  }

  /** A task in a state Docker does not list does not make the gate wait. */
  lemma UnknownStateDoesNotBlock(t: Task, name: string)
    ensures !NotConverged([t.(state := OtherState(name))])
  {
    assert [t.(state := OtherState(name))][0].state == OtherState(name);
  }
}
