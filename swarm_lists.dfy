/**
 * Swarm mode, the listing side: listTasks and listServices (provider/docker/docker.go).
 * TaskList is a function from service ID to the daemon's answer for the filter
 * `service=<ID>, desired-state=running`; isBackendLBSwarm is a predicate on labels.
 */
module SwarmLists {
  import opened Results
  import opened Sequences
  import opened Indexing
  import opened Daemon
  import opened Records
  import opened Swarm

  // ---- listTasks ----

  /** The task is running and its record resolved at least one network. */
  predicate Kept(t: Task, service: DockerData, nm: map<string, NetworkResource>, isGlobal: bool)
  {
    t.state == Running && |Networks(ParsedTask(t, service, nm, isGlobal))| > 0
  }

  function KeptTaskOf(service: DockerData, nm: map<string, NetworkResource>, isGlobal: bool): Task -> seq<DockerData>
  {
    t => if Kept(t, service, nm, isGlobal) then [ParsedTask(t, service, nm, isGlobal)] else []
  }

  /** The records listTasks keeps, in task-list order. */
  function KeptTasks(tasks: seq<Task>, service: DockerData, nm: map<string, NetworkResource>, isGlobal: bool): seq<DockerData>
  {
    ConcatMap(tasks, KeptTaskOf(service, nm, isGlobal))
  }

  /**
   * listTasks: a TaskList failure is returned as is; otherwise the records of the running
   * tasks that resolved a network, in task-list order.
   */
  method ListTasks(taskList: string -> Result<seq<Task>>, serviceID: string, service: DockerData,
                   nm: map<string, NetworkResource>, isGlobal: bool)
    returns (r: Result<seq<DockerData>>)
    ensures taskList(serviceID).Err? ==> r == Err(taskList(serviceID).error)
    ensures taskList(serviceID).Ok? ==> r == Ok(KeptTasks(taskList(serviceID).value, service, nm, isGlobal))
  {
    var listed := taskList(serviceID);
    if listed.Err? {
      return Err(listed.error);
    }
    var tasks := listed.value;
    var records: seq<DockerData> := [];
    var i := 0;
    while i < |tasks|
      invariant 0 <= i <= |tasks|
      invariant records == KeptTasks(tasks[..i], service, nm, isGlobal)
    {
      var task := tasks[i];
      ConcatMapPrefix(tasks, i, KeptTaskOf(service, nm, isGlobal));
      if task.state != Running {
        // not in the desired state: skipped (the source logs it)
      } else {
        var d := ParseTasks(task, service, nm, isGlobal);
        if |Networks(d)| > 0 {
          records := records + [d];
        }
      }
      i := i + 1;
    }
    assert tasks[..i] == tasks;
    r := Ok(records);
  }

  /** Kept records keep the order of the task list. */
  lemma KeptTasksAppend(a: seq<Task>, b: seq<Task>, service: DockerData, nm: map<string, NetworkResource>, isGlobal: bool)
    ensures KeptTasks(a + b, service, nm, isGlobal) == KeptTasks(a, service, nm, isGlobal) + KeptTasks(b, service, nm, isGlobal)
  {
    ConcatMapAppend(a, b, KeptTaskOf(service, nm, isGlobal));
  }

  /** A record is kept exactly when it is the record of a listed task that is running and resolved a network. */
  lemma KeptTasksMembers(tasks: seq<Task>, service: DockerData, nm: map<string, NetworkResource>, isGlobal: bool, d: DockerData)
    ensures d in KeptTasks(tasks, service, nm, isGlobal) <==>
            exists t :: t in tasks && Kept(t, service, nm, isGlobal) && d == ParsedTask(t, service, nm, isGlobal)
  {
    var f := KeptTaskOf(service, nm, isGlobal);
    ConcatMapMembers(tasks, f, d);
    if exists t :: t in tasks && Kept(t, service, nm, isGlobal) && d == ParsedTask(t, service, nm, isGlobal) {
      var t :| t in tasks && Kept(t, service, nm, isGlobal) && d == ParsedTask(t, service, nm, isGlobal);
      var i :| 0 <= i < |tasks| && tasks[i] == t;
      assert d in f(tasks[i]);
    }
  }

  /** A task in a state Docker does not list is not running, so listTasks drops it. */
  lemma UnknownStateDropped(tasks: seq<Task>, service: DockerData, nm: map<string, NetworkResource>, isGlobal: bool, d: DockerData)
    requires forall i :: 0 <= i < |tasks| ==> tasks[i].state.OtherState?
    ensures d !in KeptTasks(tasks, service, nm, isGlobal)
  {
    KeptTasksMembers(tasks, service, nm, isGlobal, d);
  }

  function RunningCount(tasks: seq<Task>): nat
  {
    if tasks == [] then 0 else RunningCount(tasks[..|tasks| - 1]) + if tasks[|tasks| - 1].state == Running then 1 else 0
  }

  /** When every running task resolves a network, listTasks yields one record per running task. */
  lemma {:induction false} KeptTasksCount(tasks: seq<Task>, service: DockerData, nm: map<string, NetworkResource>, isGlobal: bool)
    requires forall t :: t in tasks && t.state == Running ==> |Networks(ParsedTask(t, service, nm, isGlobal))| > 0
    ensures |KeptTasks(tasks, service, nm, isGlobal)| == RunningCount(tasks)
  {
    if tasks != [] {
      var p := tasks[..|tasks| - 1];
      assert forall t :: t in p ==> t in tasks;
      KeptTasksCount(p, service, nm, isGlobal);
    }
  }

  // ---- listServices ----

  /** The service is left to listTasks (it is not load-balanced by swarm itself). */
  predicate ListsTasks(svc: Service, nm: map<string, NetworkResource>, isBackendLBSwarm: map<string, string> -> bool)
  {
    !isBackendLBSwarm(ParsedService(svc, nm).labels)
  }

  /** What one service adds to listServices' result. */
  function ServiceRecords(svc: Service, nm: map<string, NetworkResource>, taskList: string -> Result<seq<Task>>,
                          isBackendLBSwarm: map<string, string> -> bool): seq<DockerData>
  {
    var d := ParsedService(svc, nm);
    if !ListsTasks(svc, nm, isBackendLBSwarm) then (if |Networks(d)| > 0 then [d] else [])
    else match taskList(svc.id)
      case Err(_) => []
      case Ok(tasks) => KeptTasks(tasks, d, nm, svc.spec.global)
  }

  function ServiceRecordsOf(nm: map<string, NetworkResource>, taskList: string -> Result<seq<Task>>,
                            isBackendLBSwarm: map<string, string> -> bool): Service -> seq<DockerData>
  {
    svc => ServiceRecords(svc, nm, taskList, isBackendLBSwarm)
  }

  /** The records listServices collects, service by service. */
  function PassRecords(services: seq<Service>, nm: map<string, NetworkResource>, taskList: string -> Result<seq<Task>>,
                       isBackendLBSwarm: map<string, string> -> bool): seq<DockerData>
  {
    ConcatMap(services, ServiceRecordsOf(nm, taskList, isBackendLBSwarm))
  }

  /** The shared `err` after the loop: whatever the most recent listTasks call left in it. */
  function PassError(services: seq<Service>, nm: map<string, NetworkResource>, taskList: string -> Result<seq<Task>>,
                     isBackendLBSwarm: map<string, string> -> bool): Option<Error>
  {
    if services == [] then None
    else
      var svc := services[|services| - 1];
      if ListsTasks(svc, nm, isBackendLBSwarm) then
        (if taskList(svc.id).Err? then Some(taskList(svc.id).error) else None)
      else PassError(services[..|services| - 1], nm, taskList, isBackendLBSwarm)
  }

  /**
   * listServices: ServiceList, ServerVersion and NetworkList (with the filter chosen by the
   * API version) each fail the whole call; otherwise the records of every service, and the
   * error left by the last listTasks call.
   */
  method ListServices(serviceList: Result<seq<Service>>, serverVersion: Result<Version>,
                      networkList: NetworkFilter -> Result<seq<NetworkResource>>,
                      taskList: string -> Result<seq<Task>>,
                      isBackendLBSwarm: map<string, string> -> bool)
    returns (records: seq<DockerData>, err: Option<Error>)
    ensures serviceList.Err? ==> records == [] && err == Some(serviceList.error)
    ensures serviceList.Ok? && serverVersion.Err? ==> records == [] && err == Some(serverVersion.error)
    ensures serviceList.Ok? && serverVersion.Ok? ==>
      var listed := networkList(NetworkFilterFor(serverVersion.value.apiVersion));
      (listed.Err? ==> records == [] && err == Some(listed.error)) &&
      (listed.Ok? ==>
        var nm := IndexBy(listed.value, NetworkID);
        records == PassRecords(serviceList.value, nm, taskList, isBackendLBSwarm) &&
        err == PassError(serviceList.value, nm, taskList, isBackendLBSwarm))
  {
    if serviceList.Err? {
      return [], Some(serviceList.error);
    }
    if serverVersion.Err? {
      return [], Some(serverVersion.error);
    }
    var filter := NetworkFilterFor(serverVersion.value.apiVersion);
    var networks := networkList(filter);
    if networks.Err? {
      return [], Some(networks.error);
    }
    var nm := BuildNetworkMap(networks.value);
    records, err := CollectServices(serviceList.value, nm, taskList, isBackendLBSwarm);
  }

  /** The `for _, service := range serviceList` loop of listServices, with its shared `err`. */
  method CollectServices(services: seq<Service>, nm: map<string, NetworkResource>,
                         taskList: string -> Result<seq<Task>>, isBackendLBSwarm: map<string, string> -> bool)
    returns (records: seq<DockerData>, err: Option<Error>)
    ensures records == PassRecords(services, nm, taskList, isBackendLBSwarm)
    ensures err == PassError(services, nm, taskList, isBackendLBSwarm)
  {
    records, err := [], None;
    var i := 0;
    while i < |services|
      invariant 0 <= i <= |services|
      invariant records == PassRecords(services[..i], nm, taskList, isBackendLBSwarm)
      invariant err == PassError(services[..i], nm, taskList, isBackendLBSwarm)
    {
      var svc := services[i];
      ConcatMapPrefix(services, i, ServiceRecordsOf(nm, taskList, isBackendLBSwarm));
      assert services[..i + 1][..i] == services[..i];
      var d := ParseService(svc, nm);
      if isBackendLBSwarm(d.labels) {
        if |Networks(d)| > 0 {
          records := records + [d];
        }
      } else {
        var tasks := ListTasks(taskList, svc.id, d, nm, svc.spec.global);
        if tasks.Err? {
          err := Some(tasks.error);
        } else {
          err := None;
          records := records + tasks.value;
        }
      }
      i := i + 1;
    }
    assert services[..i] == services;
  }

  /** Services contribute independently and in order: a failing service does not stop the loop. */
  lemma PassRecordsAppend(a: seq<Service>, b: seq<Service>, nm: map<string, NetworkResource>,
                          taskList: string -> Result<seq<Task>>, isBackendLBSwarm: map<string, string> -> bool)
    ensures PassRecords(a + b, nm, taskList, isBackendLBSwarm) ==
            PassRecords(a, nm, taskList, isBackendLBSwarm) + PassRecords(b, nm, taskList, isBackendLBSwarm)
  {
    ConcatMapAppend(a, b, ServiceRecordsOf(nm, taskList, isBackendLBSwarm));
  }

  /**
   * A service whose task list cannot be obtained, or a swarm-balanced service without a
   * network, contributes nothing, and the services around it contribute as if it were absent.
   */
  lemma SkippedServiceContributesNothing(before: seq<Service>, svc: Service, after: seq<Service>, nm: map<string, NetworkResource>,
                                         taskList: string -> Result<seq<Task>>, isBackendLBSwarm: map<string, string> -> bool)
    requires if ListsTasks(svc, nm, isBackendLBSwarm) then taskList(svc.id).Err? else |Networks(ParsedService(svc, nm))| == 0
    ensures PassRecords(before + [svc] + after, nm, taskList, isBackendLBSwarm) ==
            PassRecords(before + after, nm, taskList, isBackendLBSwarm)
  {
    ConcatMapSkip(before, svc, after, ServiceRecordsOf(nm, taskList, isBackendLBSwarm));
  }

  /**
   * The records a service may contribute: its own record, when swarm load-balances it and it
   * resolved a network; otherwise the record of one of its running tasks that resolved a
   * network, when its task list was obtained.
   */
  ghost predicate ContributedBy(d: DockerData, svc: Service, nm: map<string, NetworkResource>,
                                taskList: string -> Result<seq<Task>>, isBackendLBSwarm: map<string, string> -> bool)
  {
    var sd := ParsedService(svc, nm);
    |Networks(d)| > 0 &&
    if isBackendLBSwarm(sd.labels) then d == sd
    else taskList(svc.id).Ok? &&
         exists t :: t in taskList(svc.id).value && t.state == Running && d == ParsedTask(t, sd, nm, svc.spec.global)
  }

  lemma ServiceRecordsMembers(svc: Service, nm: map<string, NetworkResource>, taskList: string -> Result<seq<Task>>,
                              isBackendLBSwarm: map<string, string> -> bool, d: DockerData)
    ensures d in ServiceRecords(svc, nm, taskList, isBackendLBSwarm) <==> ContributedBy(d, svc, nm, taskList, isBackendLBSwarm)
  {
    var sd := ParsedService(svc, nm);
    if ListsTasks(svc, nm, isBackendLBSwarm) && taskList(svc.id).Ok? {
      KeptTasksMembers(taskList(svc.id).value, sd, nm, svc.spec.global, d);
    }
  }

  /** Every collected record is running, resolved at least one network, and belongs to a service of the list. */
  lemma PassRecordsSound(services: seq<Service>, nm: map<string, NetworkResource>,
                         taskList: string -> Result<seq<Task>>, isBackendLBSwarm: map<string, string> -> bool,
                         d: DockerData)
    requires d in PassRecords(services, nm, taskList, isBackendLBSwarm)
    ensures exists i :: 0 <= i < |services| && ContributedBy(d, services[i], nm, taskList, isBackendLBSwarm)
  {
    var f := ServiceRecordsOf(nm, taskList, isBackendLBSwarm);
    ConcatMapMembers(services, f, d);
    var i :| 0 <= i < |services| && d in f(services[i]);
    ServiceRecordsMembers(services[i], nm, taskList, isBackendLBSwarm, d);
  }

  /** Every record a listed service contributes is collected. */
  lemma PassRecordsComplete(services: seq<Service>, nm: map<string, NetworkResource>,
                            taskList: string -> Result<seq<Task>>, isBackendLBSwarm: map<string, string> -> bool,
                            d: DockerData, i: int)
    requires 0 <= i < |services| && ContributedBy(d, services[i], nm, taskList, isBackendLBSwarm)
    ensures d in PassRecords(services, nm, taskList, isBackendLBSwarm)
  {
    var f := ServiceRecordsOf(nm, taskList, isBackendLBSwarm);
    ServiceRecordsMembers(services[i], nm, taskList, isBackendLBSwarm, d);
    assert d in f(services[i]);
    ConcatMapMembers(services, f, d);
  }

  /** The returned error is the outcome of the last service that called listTasks. */
  lemma {:induction false} PassErrorIsLastCall(services: seq<Service>, nm: map<string, NetworkResource>,
                                               taskList: string -> Result<seq<Task>>, isBackendLBSwarm: map<string, string> -> bool,
                                               k: int)
    requires 0 <= k < |services| && ListsTasks(services[k], nm, isBackendLBSwarm)
    requires forall j :: k < j < |services| ==> !ListsTasks(services[j], nm, isBackendLBSwarm)
    ensures PassError(services, nm, taskList, isBackendLBSwarm) ==
            if taskList(services[k].id).Err? then Some(taskList(services[k].id).error) else None
    decreases |services|
  {
    if k < |services| - 1 {
      var p := services[..|services| - 1];
      assert p[k] == services[k];
      forall j | k < j < |p| ensures !ListsTasks(p[j], nm, isBackendLBSwarm) { assert p[j] == services[j]; }
      PassErrorIsLastCall(p, nm, taskList, isBackendLBSwarm, k);
    }
  }

  /** Without any listTasks call there is no error. */
  lemma {:induction false} PassErrorWithoutCalls(services: seq<Service>, nm: map<string, NetworkResource>,
                                                 taskList: string -> Result<seq<Task>>, isBackendLBSwarm: map<string, string> -> bool)
    requires forall j :: 0 <= j < |services| ==> !ListsTasks(services[j], nm, isBackendLBSwarm)
    ensures PassError(services, nm, taskList, isBackendLBSwarm) == None
  {
    if services != [] {
      var p := services[..|services| - 1];
      forall j | 0 <= j < |p| ensures !ListsTasks(p[j], nm, isBackendLBSwarm) { assert p[j] == services[j]; }
      PassErrorWithoutCalls(p, nm, taskList, isBackendLBSwarm);
    }
  }
}
