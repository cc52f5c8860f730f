/** The IBM Cloud hibernation actuator: which instances to stop or start, and whether a cluster
    has finished stopping or starting. */
module Hibernation {
  import opened Wrappers
  import opened Seqs
  import opened Errors
  import opened Sdk
  import opened IbmClient

  // ---------------------------------------------------------------------------
  // Status sets

  /** Instance statuses from the IBM Cloud VPC API documentation, and the sets derived from them
      by union only. */
  const IbmRunningStates: set<string> := {"running"}
  const IbmStoppedStates: set<string> := {"stopped"}
  const IbmPendingStates: set<string> := {"pending"}
  const IbmStoppingStates: set<string> := {"stopping"}
  const IbmRunningOrPendingStates: set<string> := IbmRunningStates + IbmPendingStates
  const IbmStoppedOrStoppingStates: set<string> := IbmStoppedStates + IbmStoppingStates
  const IbmNotRunningStates: set<string> := IbmStoppedOrStoppingStates + IbmPendingStates
  const IbmNotStoppedStates: set<string> := IbmRunningOrPendingStates + IbmStoppingStates

  /** The sets the actuator's operations filter on. They are package-level names defined outside
      this file; the model takes them to hold the same strings as the IBM sets above. */
  const RunningOrPendingStates: set<string> := IbmRunningOrPendingStates
  const StoppedOrStoppingStates: set<string> := IbmStoppedOrStoppingStates
  const NotRunningStates: set<string> := IbmNotRunningStates
  const NotStoppedStates: set<string> := IbmNotStoppedStates

  /** Every status string any of the sets mentions. */
  const KnownStates: set<string> := {"running", "pending", "stopped", "stopping"}

  /** The four derived sets hold exactly the expected statuses. */
  lemma StatusSetAlgebra()
    ensures RunningOrPendingStates == {"running", "pending"}
    ensures StoppedOrStoppingStates == {"stopped", "stopping"}
    ensures NotRunningStates == {"stopped", "stopping", "pending"}
    ensures NotStoppedStates == {"running", "pending", "stopping"}
    ensures "running" !in NotRunningStates && "stopped" !in NotStoppedStates
  {
  }

  /** A status outside the four documented ones is in none of the sets. */
  lemma UnrecognisedInNoSet(status: string)
    requires status !in KnownStates
    ensures status !in RunningOrPendingStates && status !in StoppedOrStoppingStates
    ensures status !in NotRunningStates && status !in NotStoppedStates
  {
  }

  // ---------------------------------------------------------------------------
  // Cluster deployments and the actuator

  datatype IbmCloudPlatform = IbmCloudPlatform(credentialsSecretRef: string)

  /** The parts of a ClusterDeployment the actuator reads. */
  datatype ClusterDeployment = ClusterDeployment(
    namespace: string,
    infraID: string,
    ibmCloud: Option<IbmCloudPlatform>)

  /** The actuator holds the function that builds an IBM Cloud client for a cluster; building one
      can fail. */
  datatype IbmCloudActuator = IbmCloudActuator(ibmCloudClientFn: ClusterDeployment -> Result<Api, Error>)

  /** The calls an operation makes on the client it built, in order. */
  datatype ApiCall = ListInstances(infraID: string) | StopCall(instances: seq<Instance>) | StartCall(instances: seq<Instance>)

  /** The actuator applies exactly to clusters on the IBM Cloud platform. */
  function CanHandle(cd: ClusterDeployment): (b: bool)
    ensures b <==> cd.ibmCloud.Some?
  {
    cd.ibmCloud != None
  }

  // ---------------------------------------------------------------------------
  // Listing and filtering

  function HasStatusIn(states: set<string>): Instance -> bool
  {
    (x: Instance) => x.status in states
  }

  /** The listed instances whose status is in `states`, in listing order. */
  function WithStatus(instances: seq<Instance>, states: set<string>): seq<Instance>
  {
    Keep(instances, HasStatusIn(states))
  }

  /** Lists the cluster's instances and keeps those whose status is in `states`. A listing error is
      returned unchanged. */
  method GetIbmCloudClusterInstances(cd: ClusterDeployment, c: Api, states: set<string>)
    returns (r: Result<seq<Instance>, Error>)
    ensures c.getVPCInstances(cd.infraID).Failure? ==> r == Failure(c.getVPCInstances(cd.infraID).error)
    ensures c.getVPCInstances(cd.infraID).Success? ==>
      r == Success(WithStatus(c.getVPCInstances(cd.infraID).value, states))
    ensures r.Success? ==> forall x :: x in r.value <==> x in c.getVPCInstances(cd.infraID).value && x.status in states
  {
    var listed := c.getVPCInstances(cd.infraID);
    if listed.Failure? {
      return Failure(listed.error);
    }
    var instances := listed.value;
    var result: seq<Instance> := [];
    for idx := 0 to |instances|
      invariant result == WithStatus(instances[..idx], states)
    {
      KeepSnoc(instances[..idx], instances[idx], HasStatusIn(states));
      assert instances[..idx + 1] == instances[..idx] + [instances[idx]];
      if instances[idx].status in states {
        result := result + [instances[idx]];
      }
    }
    assert instances[..|instances|] == instances;
    forall x ensures x in result <==> x in instances && x.status in states {
      KeepMembership(instances, HasStatusIn(states), x);
    }
    return Success(result);
  }

  /** The names of `instances`, in order. */
  function Names(instances: seq<Instance>): seq<string>
  {
    if instances == [] then [] else Names(instances[..|instances| - 1]) + [instances[|instances| - 1].name]
  }

  lemma {:induction false} NamesAt(instances: seq<Instance>)
    ensures |Names(instances)| == |instances|
    ensures forall i :: 0 <= i < |instances| ==> Names(instances)[i] == instances[i].name
  {
    if instances != [] {
      var init := instances[..|instances| - 1];
      NamesAt(init);
      assert forall i :: 0 <= i < |init| ==> init[i] == instances[i];
    }
  }

  /** Fills a slice of the same length with the instances' names, position by position. */
  method IbmCloudInstanceNames(instances: seq<Instance>) returns (names: seq<string>)
    ensures |names| == |instances|
    ensures forall i :: 0 <= i < |instances| ==> names[i] == instances[i].name
  {
    var a := new string[|instances|];
    for i := 0 to |instances|
      invariant forall j :: 0 <= j < i ==> a[j] == instances[j].name
    {
      a[i] := instances[i].name;
    }
    names := a[..];
  }

  // ---------------------------------------------------------------------------
  // Stopping and starting

  /** Stops the cluster's running and pending instances with one StopInstances call, and makes no
      call when there are none. */
  method StopMachines(a: IbmCloudActuator, cd: ClusterDeployment)
    returns (err: Option<Error>, ghost calls: seq<ApiCall>)
    // what is returned
    ensures a.ibmCloudClientFn(cd).Failure? ==> err == Some(a.ibmCloudClientFn(cd).error)
    ensures a.ibmCloudClientFn(cd).Success? ==>
      var c := a.ibmCloudClientFn(cd).value;
      var listed := c.getVPCInstances(cd.infraID);
      && (listed.Failure? ==> err == Some(listed.error))
      && (listed.Success? ==>
            var targets := WithStatus(listed.value, RunningOrPendingStates);
            && (targets == [] ==> err == None)
            && (targets != [] ==> err == c.stopInstances(targets)))
    // which calls are made
    ensures a.ibmCloudClientFn(cd).Failure? ==> calls == []
    ensures a.ibmCloudClientFn(cd).Success? ==>
      var c := a.ibmCloudClientFn(cd).value;
      var listed := c.getVPCInstances(cd.infraID);
      && (listed.Failure? ==> calls == [ListInstances(cd.infraID)])
      && (listed.Success? ==>
            var targets := WithStatus(listed.value, RunningOrPendingStates);
            && (targets == [] ==> calls == [ListInstances(cd.infraID)])
            && (targets != [] ==> calls == [ListInstances(cd.infraID), StopCall(targets)]))
  {
    calls := [];
    var client := a.ibmCloudClientFn(cd);
    if client.Failure? {
      return Some(client.error), calls;
    }
    var ibmCloudClient := client.value;
    var instances := GetIbmCloudClusterInstances(cd, ibmCloudClient, RunningOrPendingStates);
    calls := [ListInstances(cd.infraID)];
    if instances.Failure? {
      return Some(instances.error), calls;
    }
    if |instances.value| == 0 {
      return None, calls;
    }
    err := ibmCloudClient.stopInstances(instances.value);
    calls := calls + [StopCall(instances.value)];
  }

  /** Starts the cluster's stopped and stopping instances with one StartInstances call, and makes no
      call when there are none. */
  method StartMachines(a: IbmCloudActuator, cd: ClusterDeployment)
    returns (err: Option<Error>, ghost calls: seq<ApiCall>)
    // what is returned
    ensures a.ibmCloudClientFn(cd).Failure? ==> err == Some(a.ibmCloudClientFn(cd).error)
    ensures a.ibmCloudClientFn(cd).Success? ==>
      var c := a.ibmCloudClientFn(cd).value;
      var listed := c.getVPCInstances(cd.infraID);
      && (listed.Failure? ==> err == Some(listed.error))
      && (listed.Success? ==>
            var targets := WithStatus(listed.value, StoppedOrStoppingStates);
            && (targets == [] ==> err == None)
            && (targets != [] ==> err == c.startInstances(targets)))
    // which calls are made
    ensures a.ibmCloudClientFn(cd).Failure? ==> calls == []
    ensures a.ibmCloudClientFn(cd).Success? ==>
      var c := a.ibmCloudClientFn(cd).value;
      var listed := c.getVPCInstances(cd.infraID);
      && (listed.Failure? ==> calls == [ListInstances(cd.infraID)])
      && (listed.Success? ==>
            var targets := WithStatus(listed.value, StoppedOrStoppingStates);
            && (targets == [] ==> calls == [ListInstances(cd.infraID)])
            && (targets != [] ==> calls == [ListInstances(cd.infraID), StartCall(targets)]))
  {
    calls := [];
    var client := a.ibmCloudClientFn(cd);
    if client.Failure? {
      return Some(client.error), calls;
    }
    var ibmCloudClient := client.value;
    var instances := GetIbmCloudClusterInstances(cd, ibmCloudClient, StoppedOrStoppingStates);
    calls := [ListInstances(cd.infraID)];
    if instances.Failure? {
      return Some(instances.error), calls;
    }
    if |instances.value| == 0 {
      return None, calls;
    }
    err := ibmCloudClient.startInstances(instances.value);
    calls := calls + [StartCall(instances.value)];
  }

  // ---------------------------------------------------------------------------
  // Observing

  /** Whether no instance is still short of running, and the names of those that are. Only lists. */
  method MachinesRunning(a: IbmCloudActuator, cd: ClusterDeployment)
    returns (allRunning: bool, stragglers: seq<string>, err: Option<Error>, ghost calls: seq<ApiCall>)
    ensures forall call :: call in calls ==> call == ListInstances(cd.infraID)
    ensures a.ibmCloudClientFn(cd).Failure? ==>
      !allRunning && stragglers == [] && err == Some(a.ibmCloudClientFn(cd).error)
    ensures a.ibmCloudClientFn(cd).Success? ==>
      var listed := a.ibmCloudClientFn(cd).value.getVPCInstances(cd.infraID);
      && (listed.Failure? ==> !allRunning && stragglers == [] && err == Some(listed.error))
      && (listed.Success? ==>
            && err == None
            && (allRunning <==> forall i :: 0 <= i < |listed.value| ==> listed.value[i].status !in NotRunningStates)
            && stragglers == Names(WithStatus(listed.value, NotRunningStates)))
  {
    calls := [];
    var client := a.ibmCloudClientFn(cd);
    if client.Failure? {
      return false, [], Some(client.error), calls;
    }
    var ibmCloudClient := client.value;
    var instances := GetIbmCloudClusterInstances(cd, ibmCloudClient, NotRunningStates);
    calls := [ListInstances(cd.infraID)];
    if instances.Failure? {
      return false, [], Some(instances.error), calls;
    }
    KeepEmpty(ibmCloudClient.getVPCInstances(cd.infraID).value, HasStatusIn(NotRunningStates));
    stragglers := IbmCloudInstanceNames(instances.value);
    NamesAt(instances.value);
    return |instances.value| == 0, stragglers, None, calls;
  }

  /** Whether no instance is still short of stopped, and the names of those that are. Only lists. */
  method MachinesStopped(a: IbmCloudActuator, cd: ClusterDeployment)
    returns (allStopped: bool, stragglers: seq<string>, err: Option<Error>, ghost calls: seq<ApiCall>)
    ensures forall call :: call in calls ==> call == ListInstances(cd.infraID)
    ensures a.ibmCloudClientFn(cd).Failure? ==>
      !allStopped && stragglers == [] && err == Some(a.ibmCloudClientFn(cd).error)
    ensures a.ibmCloudClientFn(cd).Success? ==>
      var listed := a.ibmCloudClientFn(cd).value.getVPCInstances(cd.infraID);
      && (listed.Failure? ==> !allStopped && stragglers == [] && err == Some(listed.error))
      && (listed.Success? ==>
            && err == None
            && (allStopped <==> forall i :: 0 <= i < |listed.value| ==> listed.value[i].status !in NotStoppedStates)
            && stragglers == Names(WithStatus(listed.value, NotStoppedStates)))
  {
    calls := [];
    var client := a.ibmCloudClientFn(cd);
    if client.Failure? {
      return false, [], Some(client.error), calls;
    }
    var ibmCloudClient := client.value;
    var instances := GetIbmCloudClusterInstances(cd, ibmCloudClient, NotStoppedStates);
    calls := [ListInstances(cd.infraID)];
    if instances.Failure? {
      return false, [], Some(instances.error), calls;
    }
    KeepEmpty(ibmCloudClient.getVPCInstances(cd.infraID).value, HasStatusIn(NotStoppedStates));
    stragglers := IbmCloudInstanceNames(instances.value);
    NamesAt(instances.value);
    return |instances.value| == 0, stragglers, None, calls;
  }

  // ---------------------------------------------------------------------------
  // Properties of the decisions

  /** An instance whose status is unrecognised is never a target of a stop or a start and never
      counted among the stragglers. */
  lemma UnrecognisedStatusIgnored(listed: seq<Instance>, x: Instance)
    requires x in listed && x.status !in KnownStates
    ensures x !in WithStatus(listed, RunningOrPendingStates) && x !in WithStatus(listed, StoppedOrStoppingStates)
    ensures x !in WithStatus(listed, NotRunningStates) && x !in WithStatus(listed, NotStoppedStates)
  {
  }

  /** Removing every instance whose status is unrecognised changes none of the filtered subsets,
      and so none of the actuator's decisions. */
  lemma {:induction false} UnrecognisedStatusesInvisible(listed: seq<Instance>, states: set<string>)
    requires states <= KnownStates
    ensures WithStatus(WithStatus(listed, KnownStates), states) == WithStatus(listed, states)
  {
    if listed != [] {
      var init := listed[..|listed| - 1];
      var last := listed[|listed| - 1];
      UnrecognisedStatusesInvisible(init, states);
      if last.status in KnownStates {
        KeepSnoc(WithStatus(init, KnownStates), last, HasStatusIn(states));
      }
    }
  }

  /** Instances with unrecognised statuses never hold up convergence: a cluster whose other
      instances are all running counts as running, and likewise for stopped. */
  lemma UnrecognisedNeverBlocks(listed: seq<Instance>)
    ensures (forall i :: 0 <= i < |listed| ==> listed[i].status == "running" || listed[i].status !in KnownStates)
      ==> WithStatus(listed, NotRunningStates) == []
    ensures (forall i :: 0 <= i < |listed| ==> listed[i].status == "stopped" || listed[i].status !in KnownStates)
      ==> WithStatus(listed, NotStoppedStates) == []
  {
    KeepEmpty(listed, HasStatusIn(NotRunningStates));
    KeepEmpty(listed, HasStatusIn(NotStoppedStates));
  }

  /** Stopping an already stopped (or stopping) cluster targets nothing, so StopMachines returns
      success without a StopInstances call; starting a running cluster likewise. */
  lemma NothingToDoWhenSettled(listed: seq<Instance>)
    ensures (forall i :: 0 <= i < |listed| ==> listed[i].status in StoppedOrStoppingStates)
      ==> WithStatus(listed, RunningOrPendingStates) == []
    ensures (forall i :: 0 <= i < |listed| ==> listed[i].status in IbmRunningStates)
      ==> WithStatus(listed, StoppedOrStoppingStates) == []
  {
    KeepEmpty(listed, HasStatusIn(RunningOrPendingStates));
    KeepEmpty(listed, HasStatusIn(StoppedOrStoppingStates));
  }

  /** A running instance "a" beside a stopped instance "b": only "a" is stopped. A lone stopping
      instance "a": the cluster is not stopped and "a" is the straggler. No instances: nothing
      to stop or start, and both convergence checks hold with no stragglers. */
  lemma Scenarios(a: Instance, b: Instance)
    requires a.name == "a" && a.status == "running" && b.status == "stopped"
    ensures WithStatus([a, b], RunningOrPendingStates) == [a]
    ensures var a' := a.(status := "stopping");
      WithStatus([a'], NotStoppedStates) == [a'] && Names(WithStatus([a'], NotStoppedStates)) == ["a"]
    ensures WithStatus([], RunningOrPendingStates) == [] && WithStatus([], StoppedOrStoppingStates) == []
    ensures Names(WithStatus([], NotRunningStates)) == [] && Names(WithStatus([], NotStoppedStates)) == []
  {
    KeepSnoc([], a, HasStatusIn(RunningOrPendingStates));
    KeepSnoc([a], b, HasStatusIn(RunningOrPendingStates));
    assert [a] + [b] == [a, b];
  }

  /** With the reference client as the API, the instances an operation filtering on `states`
      acts on or reports are exactly the listed instances of the cluster's VPC whose name contains
      the infrastructure ID and whose status is in `states`. */
  lemma ClientTargets(listInstances: string -> Result<seq<Instance>, string>,
                      createAction: InstanceAction -> Option<string>,
                      infraID: string, states: set<string>, x: Instance)
    requires listInstances(VpcName(infraID)).Success?
    ensures ClientApi(listInstances, createAction).getVPCInstances(infraID).Success?
    ensures x in WithStatus(ClientApi(listInstances, createAction).getVPCInstances(infraID).value, states) <==>
      x in listInstances(VpcName(infraID)).value && Contains(x.name, infraID) && x.status in states
  {
    KeepKeep(listInstances(VpcName(infraID)).value, IsClusterMember(infraID), HasStatusIn(states), x);
  }

  /** With the reference client as the API, StopMachines' one StopInstances call fails exactly when
      one of the targets' stop actions is rejected. */
  lemma ClientStopFailsIff(listInstances: string -> Result<seq<Instance>, string>,
                           createAction: InstanceAction -> Option<string>, targets: seq<Instance>)
    ensures ClientApi(listInstances, createAction).stopInstances(targets).Some? <==>
      exists j :: 0 <= j < |targets| && createAction(InstanceAction(targets[j].id, Stop)).Some?
  {
    var k := FirstRejected(targets, Stop, createAction);
    if k < |targets| {
      assert createAction(InstanceAction(targets[k].id, Stop)).Some?;
    }
  }
}
