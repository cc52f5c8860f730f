/** The reference IBM Cloud provider adapter (package ibmclient). Every SDK call is a parameter:
    a function from the request to the outcome the SDK hands back. The operations are the loops
    the client runs over those outcomes. */
module IbmClient {
  import opened Wrappers
  import opened Seqs
  import opened Errors
  import opened Sdk

  /** DNSZoneResponse: an active zone together with the CIS instance that manages it. */
  datatype DnsZoneResponse = DnsZoneResponse(
    name: string,
    id: string,
    cisInstanceCRN: string,
    cisInstanceName: string,
    resourceGroupID: string)

  /** The part of the API interface that the hibernation actuator calls. */
  datatype Api = Api(
    getVPCInstances: string -> Result<seq<Instance>, Error>,
    stopInstances: seq<Instance> -> Option<Error>,
    startInstances: seq<Instance> -> Option<Error>)

  // ---------------------------------------------------------------------------
  // GetVPCInstances

  /** An instance belongs to the cluster when its name contains the infrastructure ID. */
  function IsClusterMember(infraID: string): Instance -> bool
  {
    (x: Instance) => Contains(x.name, infraID)
  }

  function ClusterMembers(listed: seq<Instance>, infraID: string): seq<Instance>
  {
    Keep(listed, IsClusterMember(infraID))
  }

  /** The VPC name the instance listing is restricted to. */
  function VpcName(infraID: string): string
  {
    infraID + "-vpc"
  }

  function VpcInstances(infraID: string, listInstances: string -> Result<seq<Instance>, string>)
    : Result<seq<Instance>, Error>
  {
    match listInstances(VpcName(infraID))
    case Failure(e) => Failure(Wrapped("failed to list vpc instances", Sdk(e)))
    case Success(listed) => Success(ClusterMembers(listed, infraID))
  }

  /** Lists the instances of the VPC named after the cluster and keeps those whose name contains
      the infrastructure ID, in listing order. */
  method GetVPCInstances(infraID: string, listInstances: string -> Result<seq<Instance>, string>)
    returns (r: Result<seq<Instance>, Error>)
    ensures r == VpcInstances(infraID, listInstances)
    ensures listInstances(infraID + "-vpc").Failure? ==>
      r == Failure(Wrapped("failed to list vpc instances", Sdk(listInstances(infraID + "-vpc").error)))
    ensures r.Success? ==> forall x :: x in r.value <==>
      x in listInstances(infraID + "-vpc").value && exists i :: OccursAt(x.name, infraID, i)
  {
    var listed := listInstances(infraID + "-vpc");
    if listed.Failure? {
      return Failure(Wrapped("failed to list vpc instances", Sdk(listed.error)));
    }
    var result := listed.value;
    var instances: seq<Instance> := [];
    for idx := 0 to |result|
      invariant instances == ClusterMembers(result[..idx], infraID)
    {
      KeepSnoc(result[..idx], result[idx], IsClusterMember(infraID));
      assert result[..idx + 1] == result[..idx] + [result[idx]];
      if Contains(result[idx].name, infraID) {
        instances := instances + [result[idx]];
      }
    }
    assert result[..|result|] == result;
    forall x ensures x in instances <==> x in result && exists i :: OccursAt(x.name, infraID, i) {
      KeepMembership(result, IsClusterMember(infraID), x);
      ContainsOccurs(x.name, infraID);
    }
    return Success(instances);
  }

  // ---------------------------------------------------------------------------
  // StopInstances and StartInstances

  /** The position of the first instance whose `kind` action is rejected, or |s| if none is. */
  function FirstRejected(s: seq<Instance>, kind: ActionType, createAction: InstanceAction -> Option<string>)
    : (k: nat)
    ensures k <= |s|
    ensures forall j :: 0 <= j < k ==> createAction(InstanceAction(s[j].id, kind)).None?
    ensures k < |s| ==> createAction(InstanceAction(s[k].id, kind)).Some?
  {
    if s == [] then 0
    else if createAction(InstanceAction(s[0].id, kind)).Some? then 0
    else 1 + FirstRejected(s[1..], kind, createAction)
  }

  function StopOutcome(s: seq<Instance>, createAction: InstanceAction -> Option<string>): Option<Error>
  {
    var k := FirstRejected(s, Stop, createAction);
    if k == |s| then None
    else Some(Wrapped("failed to create stop instance action",
                      Sdk(createAction(InstanceAction(s[k].id, Stop)).value)))
  }

  function StartOutcome(s: seq<Instance>, createAction: InstanceAction -> Option<string>): Option<Error>
  {
    var k := FirstRejected(s, Start, createAction);
    if k == |s| then None
    else Some(Wrapped("failed to create start instance action for instance " + Quote(s[k].name),
                      Sdk(createAction(InstanceAction(s[k].id, Start)).value)))
  }

  /** Issues one stop action per instance, in order, and gives up at the first rejected one.
      `issued` is the log of the actions sent. */
  method StopInstances(instances: seq<Instance>, createAction: InstanceAction -> Option<string>)
    returns (err: Option<Error>, ghost issued: seq<InstanceAction>)
    ensures err == StopOutcome(instances, createAction)
    ensures err.None? <==>
      forall j :: 0 <= j < |instances| ==> createAction(InstanceAction(instances[j].id, Stop)).None?
    ensures |issued| <= |instances|
    ensures |issued| == if err.None? then |instances| else FirstRejected(instances, Stop, createAction) + 1
    ensures forall j :: 0 <= j < |issued| ==> issued[j] == InstanceAction(instances[j].id, Stop)
  {
    issued := [];
    for i := 0 to |instances|
      invariant |issued| == i
      invariant forall j :: 0 <= j < i ==> issued[j] == InstanceAction(instances[j].id, Stop)
      invariant forall j :: 0 <= j < i ==> createAction(InstanceAction(instances[j].id, Stop)).None?
    {
      var request := InstanceAction(instances[i].id, Stop);
      issued := issued + [request];
      var e := createAction(request);
      if e.Some? {
        err := Some(Wrapped("failed to create stop instance action", Sdk(e.value)));
        return;
      }
    }
    err := None;
  }

  /** The mirror image of StopInstances; its error names the instance whose action was rejected. */
  method StartInstances(instances: seq<Instance>, createAction: InstanceAction -> Option<string>)
    returns (err: Option<Error>, ghost issued: seq<InstanceAction>)
    ensures err == StartOutcome(instances, createAction)
    ensures err.None? <==>
      forall j :: 0 <= j < |instances| ==> createAction(InstanceAction(instances[j].id, Start)).None?
    ensures |issued| <= |instances|
    ensures |issued| == if err.None? then |instances| else FirstRejected(instances, Start, createAction) + 1
    ensures forall j :: 0 <= j < |issued| ==> issued[j] == InstanceAction(instances[j].id, Start)
  {
    issued := [];
    for i := 0 to |instances|
      invariant |issued| == i
      invariant forall j :: 0 <= j < i ==> issued[j] == InstanceAction(instances[j].id, Start)
      invariant forall j :: 0 <= j < i ==> createAction(InstanceAction(instances[j].id, Start)).None?
    {
      var request := InstanceAction(instances[i].id, Start);
      issued := issued + [request];
      var e := createAction(request);
      if e.Some? {
        err := Some(Wrapped("failed to create start instance action for instance " + Quote(instances[i].name),
                            Sdk(e.value)));
        return;
      }
    }
    err := None;
  }

  /** A failed start reports the name of the instance whose action was rejected. */
  lemma StartErrorNamesInstance(s: seq<Instance>, createAction: InstanceAction -> Option<string>)
    ensures StartOutcome(s, createAction).Some? ==>
      var k := FirstRejected(s, Start, createAction);
      k < |s| && Contains(Message(StartOutcome(s, createAction).value), s[k].name)
  {
    var k := FirstRejected(s, Start, createAction);
    if k < |s| {
      WrappedNames("failed to create start instance action for instance ", s[k].name,
                   Sdk(createAction(InstanceAction(s[k].id, Start)).value));
    }
  }

  /** Three instances whose second action is rejected: two actions are sent, the third instance
      is left alone, and the error carries the rejection (naming the instance for a start). */
  lemma SecondOfThreeRejected(x: Instance, y: Instance, z: Instance, kind: ActionType,
                              createAction: InstanceAction -> Option<string>, detail: string)
    requires createAction(InstanceAction(x.id, kind)) == None
    requires createAction(InstanceAction(y.id, kind)) == Some(detail)
    ensures FirstRejected([x, y, z], kind, createAction) == 1
    ensures kind == Stop ==>
      StopOutcome([x, y, z], createAction) == Some(Wrapped("failed to create stop instance action", Sdk(detail)))
    ensures kind == Start ==>
      && StartOutcome([x, y, z], createAction).Some?
      && Contains(Message(StartOutcome([x, y, z], createAction).value), y.name)
  {
    assert [x, y, z][1..] == [y, z];
    WrappedNames("failed to create start instance action for instance ", y.name, Sdk(detail));
  }

  // ---------------------------------------------------------------------------
  // First-match lookups

  /** The ID of the first zone named `name`; `zones` is what GetDNSZones returned. */
  method GetDNSZoneIDByName(name: string, zones: Result<seq<DnsZoneResponse>, Error>)
    returns (r: Result<string, Error>)
    ensures zones.Failure? ==> r == Failure(zones.error)
    ensures zones.Success? && r.Success? ==> var z := zones.value;
      exists k :: 0 <= k < |z| && z[k].name == name && r.value == z[k].id &&
        forall j :: 0 <= j < k ==> z[j].name != name
    ensures zones.Success? && r.Failure? ==> var z := zones.value;
      r.error == Errorf("DNS zone " + Quote(name) + " not found") &&
      forall j :: 0 <= j < |z| ==> z[j].name != name
  {
    if zones.Failure? {
      return Failure(zones.error);
    }
    var z := zones.value;
    for i := 0 to |z|
      invariant forall j :: 0 <= j < i ==> z[j].name != name
    {
      if z[i].name == name {
        return Success(z[i].id);
      }
    }
    return Failure(Errorf("DNS zone " + Quote(name) + " not found"));
  }

  /** The first dedicated host named `name` in `region`. */
  method GetDedicatedHostByName(
    name: string, region: string,
    setVPCServiceURLForRegion: string -> Option<string>,
    listDedicatedHosts: Result<seq<DedicatedHost>, string>)
    returns (r: Result<DedicatedHost, Error>)
    ensures setVPCServiceURLForRegion(region).Some? ==>
      r == Failure(Sdk(setVPCServiceURLForRegion(region).value))
    ensures setVPCServiceURLForRegion(region).None? && listDedicatedHosts.Failure? ==>
      r == Failure(Wrapped("failed to list dedicated hosts", Sdk(listDedicatedHosts.error)))
    ensures setVPCServiceURLForRegion(region).None? && listDedicatedHosts.Success? ==>
      var h := listDedicatedHosts.value;
      && (r.Success? ==>
            exists k :: 0 <= k < |h| && h[k].name == name && r.value == h[k] &&
              forall j :: 0 <= j < k ==> h[j].name != name)
      && (r.Failure? ==>
            && r.error == Errorf("dedicated host " + Quote(name) + " not found")
            && forall j :: 0 <= j < |h| ==> h[j].name != name)
  {
    var e := setVPCServiceURLForRegion(region);
    if e.Some? {
      return Failure(Sdk(e.value));
    }
    if listDedicatedHosts.Failure? {
      return Failure(Wrapped("failed to list dedicated hosts", Sdk(listDedicatedHosts.error)));
    }
    var dhosts := listDedicatedHosts.value;
    for i := 0 to |dhosts|
      invariant forall j :: 0 <= j < i ==> dhosts[j].name != name
    {
      if dhosts[i].name == name {
        return Success(dhosts[i]);
      }
    }
    return Failure(Errorf("dedicated host " + Quote(name) + " not found"));
  }

  /** The first resource group whose ID or name is `nameOrID`; `groups` is what GetResourceGroups
      returned. */
  method GetResourceGroup(nameOrID: string, groups: Result<seq<ResourceGroup>, Error>)
    returns (r: Result<ResourceGroup, Error>)
    ensures groups.Failure? ==> r == Failure(groups.error)
    ensures groups.Success? && r.Success? ==> var g := groups.value;
      exists k :: 0 <= k < |g| && (g[k].id == nameOrID || g[k].name == nameOrID) && r.value == g[k] &&
        forall j :: 0 <= j < k ==> g[j].id != nameOrID && g[j].name != nameOrID
    ensures groups.Success? && r.Failure? ==> var g := groups.value;
      r.error == Errorf("resource group " + Quote(nameOrID) + " not found") &&
      forall j :: 0 <= j < |g| ==> g[j].id != nameOrID && g[j].name != nameOrID
  {
    if groups.Failure? {
      return Failure(groups.error);
    }
    var g := groups.value;
    for idx := 0 to |g|
      invariant forall j :: 0 <= j < idx ==> g[j].id != nameOrID && g[j].name != nameOrID
    {
      if g[idx].id == nameOrID || g[idx].name == nameOrID {
        return Success(g[idx]);
      }
    }
    return Failure(Errorf("resource group " + Quote(nameOrID) + " not found"));
  }

  /** The CRN of the CIS instance managing the first zone named `baseDomain`. An empty CRN on that
      first match is a failure, whatever later zones of the same name carry. */
  method GetCISInstanceCRN(baseDomain: string, zones: Result<seq<DnsZoneResponse>, Error>)
    returns (r: Result<string, Error>)
    ensures zones.Failure? ==> r == Failure(Wrapped("Unable to retrieve IBM Cloud DNS zones", zones.error))
    ensures zones.Success? && r.Success? ==> var z := zones.value;
      exists k :: 0 <= k < |z| && z[k].name == baseDomain && (forall j :: 0 <= j < k ==> z[j].name != baseDomain) &&
        z[k].cisInstanceCRN != "" && r.value == z[k].cisInstanceCRN
    ensures zones.Success? && r.Failure? ==> var z := zones.value;
      && r.error == Errorf("Could not determine CISInstanceCRN, no DNS zone found for base domain " + baseDomain)
      && ((forall j :: 0 <= j < |z| ==> z[j].name != baseDomain) ||
          exists k :: 0 <= k < |z| && z[k].name == baseDomain &&
            (forall j :: 0 <= j < k ==> z[j].name != baseDomain) && z[k].cisInstanceCRN == "")
  {
    if zones.Failure? {
      return Failure(Wrapped("Unable to retrieve IBM Cloud DNS zones", zones.error));
    }
    var z := zones.value;
    var cisInstanceCRN := "";
    ghost var at := |z|;
    for i := 0 to |z|
      invariant forall j :: 0 <= j < i ==> z[j].name != baseDomain
      invariant cisInstanceCRN == "" && at == |z|
    {
      if z[i].name == baseDomain {
        cisInstanceCRN := z[i].cisInstanceCRN;
        at := i;
        break;
      }
    }
    assert at < |z| ==>
      && z[at].name == baseDomain
      && (forall j :: 0 <= j < at ==> z[j].name != baseDomain)
      && cisInstanceCRN == z[at].cisInstanceCRN;
    assert at == |z| ==> cisInstanceCRN == "" && forall j :: 0 <= j < |z| ==> z[j].name != baseDomain;
    if cisInstanceCRN == "" {
      return Failure(Errorf("Could not determine CISInstanceCRN, no DNS zone found for base domain " + baseDomain));
    }
    return Success(cisInstanceCRN);
  }

  // ---------------------------------------------------------------------------
  // GetDNSZones

  function ZoneResponse(instance: CisInstance, zone: DnsZone): DnsZoneResponse
  {
    DnsZoneResponse(zone.name, zone.id, instance.crn, instance.name, instance.resourceGroupID)
  }

  /** The active zones of one CIS instance, in listing order, each tagged with that instance. */
  function ActiveZones(instance: CisInstance, zones: seq<DnsZone>): seq<DnsZoneResponse>
  {
    if zones == [] then []
    else
      var last := zones[|zones| - 1];
      ActiveZones(instance, zones[..|zones| - 1]) +
        (if last.status == "active" then [ZoneResponse(instance, last)] else [])
  }

  /** Listing the zones of `instance` ends the whole collection: the zone service could not be
      built, or the listing gave no response. */
  predicate Aborts(instance: CisInstance, newZonesService: string -> Option<string>,
                   listZones: string -> Reply<seq<DnsZone>>)
  {
    newZonesService(instance.crn).Some? || listZones(instance.crn).value.None?
  }

  /** What the collection returns when `instance` ends it. A missing response with no error is a
      success with no zones: the zones collected so far are dropped. */
  function AbortResult(instance: CisInstance, newZonesService: string -> Option<string>,
                       listZones: string -> Reply<seq<DnsZone>>): Result<seq<DnsZoneResponse>, Error>
  {
    if newZonesService(instance.crn).Some? then
      Failure(Wrapped("failed to list DNS zones", Sdk(newZonesService(instance.crn).value)))
    else if listZones(instance.crn).err.Some? then
      Failure(Sdk(listZones(instance.crn).err.value))
    else
      Success([])
  }

  datatype ZoneScan = Scanning(collected: seq<DnsZoneResponse>) | Returned(result: Result<seq<DnsZoneResponse>, Error>)

  /** The state of the collection after it has visited `instances` in order. */
  function ScanCisInstances(instances: seq<CisInstance>, newZonesService: string -> Option<string>,
                            listZones: string -> Reply<seq<DnsZone>>): ZoneScan
  {
    if instances == [] then Scanning([])
    else
      var last := instances[|instances| - 1];
      match ScanCisInstances(instances[..|instances| - 1], newZonesService, listZones)
      case Returned(r) => Returned(r)
      case Scanning(acc) =>
        if Aborts(last, newZonesService, listZones) then Returned(AbortResult(last, newZonesService, listZones))
        else Scanning(acc + ActiveZones(last, listZones(last.crn).value.value))
  }

  function DnsZones(listResourceInstances: Result<seq<CisInstance>, string>,
                    newZonesService: string -> Option<string>,
                    listZones: string -> Reply<seq<DnsZone>>): Result<seq<DnsZoneResponse>, Error>
  {
    match listResourceInstances
    case Failure(e) => Failure(Wrapped("failed to get cis instance", Sdk(e)))
    case Success(instances) =>
      match ScanCisInstances(instances, newZonesService, listZones)
      case Scanning(acc) => Success(acc)
      case Returned(r) => r
  }

  /** Once the collection has returned, later instances change nothing. */
  lemma {:induction false} ReturnedIsFinal(instances: seq<CisInstance>, i: nat,
                                           newZonesService: string -> Option<string>,
                                           listZones: string -> Reply<seq<DnsZone>>)
    requires i <= |instances|
    requires ScanCisInstances(instances[..i], newZonesService, listZones).Returned?
    ensures ScanCisInstances(instances, newZonesService, listZones)
         == ScanCisInstances(instances[..i], newZonesService, listZones)
    decreases |instances|
  {
    if i < |instances| {
      var init := instances[..|instances| - 1];
      assert init[..i] == instances[..i];
      ReturnedIsFinal(init, i, newZonesService, listZones);
    } else {
      assert instances[..i] == instances;
    }
  }

  /** Collects the active DNS zones of all CIS instances, instance by instance. */
  method GetDNSZones(listResourceInstances: Result<seq<CisInstance>, string>,
                     newZonesService: string -> Option<string>,
                     listZones: string -> Reply<seq<DnsZone>>)
    returns (r: Result<seq<DnsZoneResponse>, Error>)
    ensures r == DnsZones(listResourceInstances, newZonesService, listZones)
  {
    if listResourceInstances.Failure? {
      return Failure(Wrapped("failed to get cis instance", Sdk(listResourceInstances.error)));
    }
    var resources := listResourceInstances.value;
    var allZones: seq<DnsZoneResponse> := [];
    for n := 0 to |resources|
      invariant ScanCisInstances(resources[..n], newZonesService, listZones) == Scanning(allZones)
    {
      var instance := resources[n];
      assert resources[..n + 1][..n] == resources[..n];
      var serviceErr := newZonesService(instance.crn);
      if serviceErr.Some? {
        ReturnedIsFinal(resources, n + 1, newZonesService, listZones);
        return Failure(Wrapped("failed to list DNS zones", Sdk(serviceErr.value)));
      }
      var listZonesResponse := listZones(instance.crn);
      if listZonesResponse.value.None? {
        ReturnedIsFinal(resources, n + 1, newZonesService, listZones);
        if listZonesResponse.err.Some? {
          return Failure(Sdk(listZonesResponse.err.value));
        }
        return Success([]);
      }
      var zones := listZonesResponse.value.value;
      ghost var before := allZones;
      for m := 0 to |zones|
        invariant allZones == before + ActiveZones(instance, zones[..m])
      {
        assert zones[..m + 1][..m] == zones[..m];
        var zone := zones[m];
        if zone.status == "active" {
          var zoneStruct := DnsZoneResponse(zone.name, zone.id, instance.crn, instance.name, instance.resourceGroupID);
          allZones := allZones + [zoneStruct];
        }
      }
      assert zones[..|zones|] == zones;
    }
    assert resources[..|resources|] == resources;
    return Success(allZones);
  }

  /** `z` is the response built for an active zone that one of `instances` listed. */
  ghost predicate FromActiveZone(z: DnsZoneResponse, instances: seq<CisInstance>,
                                 listZones: string -> Reply<seq<DnsZone>>)
  {
    exists i, zone :: 0 <= i < |instances| && listZones(instances[i].crn).value.Some? &&
      zone in listZones(instances[i].crn).value.value && zone.status == "active" &&
      z == ZoneResponse(instances[i], zone)
  }

  /** One instance contributes exactly its active zones. */
  lemma {:induction false} ActiveZonesExact(instance: CisInstance, zones: seq<DnsZone>, z: DnsZoneResponse)
    ensures z in ActiveZones(instance, zones) <==>
      exists zone :: zone in zones && zone.status == "active" && z == ZoneResponse(instance, zone)
  {
    if zones != [] {
      var init := zones[..|zones| - 1];
      ActiveZonesExact(instance, init, z);
      assert zones == init + [zones[|zones| - 1]];
    }
  }

  /** Whatever the collection has gathered comes from active zones of the instances visited, and
      a success it returns early carries no zones. */
  lemma {:induction false} ScanSound(instances: seq<CisInstance>, newZonesService: string -> Option<string>,
                                     listZones: string -> Reply<seq<DnsZone>>)
    ensures match ScanCisInstances(instances, newZonesService, listZones)
      case Scanning(acc) => forall z :: z in acc ==> FromActiveZone(z, instances, listZones)
      case Returned(r) => r.Success? ==> r.value == []
  {
    if instances != [] {
      var init := instances[..|instances| - 1];
      var last := instances[|instances| - 1];
      ScanSound(init, newZonesService, listZones);
      match ScanCisInstances(init, newZonesService, listZones)
      case Returned(r) =>
      case Scanning(acc) =>
        if !Aborts(last, newZonesService, listZones) {
          var added := ActiveZones(last, listZones(last.crn).value.value);
          forall z | z in acc + added ensures FromActiveZone(z, instances, listZones) {
            if z in acc {
              assert FromActiveZone(z, init, listZones);
              var i, zone :| 0 <= i < |init| && listZones(init[i].crn).value.Some? &&
                zone in listZones(init[i].crn).value.value && zone.status == "active" &&
                z == ZoneResponse(init[i], zone);
              assert instances[i] == init[i];
            } else {
              ActiveZonesExact(last, listZones(last.crn).value.value, z);
              var zone :| zone in listZones(last.crn).value.value && zone.status == "active" &&
                z == ZoneResponse(last, zone);
              assert instances[|instances| - 1] == last;
            }
          }
        }
    }
  }

  /** GetDNSZones returns only responses for active zones, each tagged with its own CIS instance. */
  lemma DnsZonesSound(listResourceInstances: Result<seq<CisInstance>, string>,
                      newZonesService: string -> Option<string>,
                      listZones: string -> Reply<seq<DnsZone>>, zs: seq<DnsZoneResponse>)
    requires DnsZones(listResourceInstances, newZonesService, listZones) == Success(zs)
    ensures listResourceInstances.Success?
    ensures forall z :: z in zs ==> FromActiveZone(z, listResourceInstances.value, listZones)
  {
    ScanSound(listResourceInstances.value, newZonesService, listZones);
  }

  /** The active zones of `instances`, instance by instance and zone by zone. */
  ghost function AllActiveZones(instances: seq<CisInstance>, listZones: string -> Reply<seq<DnsZone>>)
    : seq<DnsZoneResponse>
    requires forall i :: 0 <= i < |instances| ==> listZones(instances[i].crn).value.Some?
  {
    if instances == [] then []
    else
      var last := instances[|instances| - 1];
      AllActiveZones(instances[..|instances| - 1], listZones) + ActiveZones(last, listZones(last.crn).value.value)
  }

  /** When no instance ends the collection early, GetDNSZones returns every active zone, in
      instance-then-zone order. */
  lemma {:induction false} DnsZonesInOrder(instances: seq<CisInstance>, newZonesService: string -> Option<string>,
                                           listZones: string -> Reply<seq<DnsZone>>)
    requires forall i :: 0 <= i < |instances| ==>
      newZonesService(instances[i].crn).None? && listZones(instances[i].crn).value.Some?
    ensures ScanCisInstances(instances, newZonesService, listZones)
         == Scanning(AllActiveZones(instances, listZones))
    ensures DnsZones(Success(instances), newZonesService, listZones)
         == Success(AllActiveZones(instances, listZones))
  {
    if instances != [] {
      var init := instances[..|instances| - 1];
      assert forall i :: 0 <= i < |init| ==> init[i] == instances[i];
      DnsZonesInOrder(init, newZonesService, listZones);
    }
  }

  /** When no instance ends the collection early, every active zone of every instance is returned. */
  lemma {:induction false} DnsZonesComplete(instances: seq<CisInstance>, newZonesService: string -> Option<string>,
                                            listZones: string -> Reply<seq<DnsZone>>)
    requires forall i :: 0 <= i < |instances| ==> !Aborts(instances[i], newZonesService, listZones)
    ensures DnsZones(Success(instances), newZonesService, listZones).Success?
    ensures forall z :: FromActiveZone(z, instances, listZones) ==>
      z in DnsZones(Success(instances), newZonesService, listZones).value
  {
    DnsZonesInOrder(instances, newZonesService, listZones);
    forall z | FromActiveZone(z, instances, listZones)
      ensures z in AllActiveZones(instances, listZones)
    {
      var i, zone :| 0 <= i < |instances| && listZones(instances[i].crn).value.Some? &&
        zone in listZones(instances[i].crn).value.value && zone.status == "active" &&
        z == ZoneResponse(instances[i], zone);
      InAllActiveZones(instances, listZones, i, zone);
    }
  }

  lemma {:induction false} InAllActiveZones(instances: seq<CisInstance>, listZones: string -> Reply<seq<DnsZone>>,
                                            i: nat, zone: DnsZone)
    requires forall j :: 0 <= j < |instances| ==> listZones(instances[j].crn).value.Some?
    requires i < |instances| && zone in listZones(instances[i].crn).value.value && zone.status == "active"
    ensures ZoneResponse(instances[i], zone) in AllActiveZones(instances, listZones)
  {
    var init := instances[..|instances| - 1];
    var last := instances[|instances| - 1];
    if i == |instances| - 1 {
      ActiveZonesExact(last, listZones(last.crn).value.value, ZoneResponse(instances[i], zone));
    } else {
      assert forall j :: 0 <= j < |init| ==> init[j] == instances[j];
      InAllActiveZones(init, listZones, i, zone);
    }
  }

  /** The collection is still running after a prefix in which no instance ends it. */
  lemma {:induction false} ScanningBefore(instances: seq<CisInstance>, k: nat,
                                          newZonesService: string -> Option<string>,
                                          listZones: string -> Reply<seq<DnsZone>>)
    requires k <= |instances|
    requires forall j :: 0 <= j < k ==> !Aborts(instances[j], newZonesService, listZones)
    ensures ScanCisInstances(instances[..k], newZonesService, listZones).Scanning?
    decreases k
  {
    if k > 0 {
      assert instances[..k][..k - 1] == instances[..k - 1];
      ScanningBefore(instances, k - 1, newZonesService, listZones);
    }
  }

  /** The first instance that ends the collection decides what GetDNSZones returns; zones
      collected before it are discarded. */
  lemma DnsZonesFirstAbort(instances: seq<CisInstance>, k: nat, newZonesService: string -> Option<string>,
                           listZones: string -> Reply<seq<DnsZone>>)
    requires k < |instances|
    requires forall j :: 0 <= j < k ==> !Aborts(instances[j], newZonesService, listZones)
    requires Aborts(instances[k], newZonesService, listZones)
    ensures DnsZones(Success(instances), newZonesService, listZones)
         == AbortResult(instances[k], newZonesService, listZones)
  {
    ScanningBefore(instances, k, newZonesService, listZones);
    assert instances[..k + 1][..k] == instances[..k];
    ReturnedIsFinal(instances, k + 1, newZonesService, listZones);
  }

  // ---------------------------------------------------------------------------
  // GetVPC, GetSubnet, GetVPCZonesForRegion

  /** What asking one region for the VPC decides. */
  datatype Probe = Hit(vpc: Vpc) | Abort(error: Error) | Skip

  function ServiceURL(region: Region): string
  {
    region.endpoint + "/v1"
  }

  function ProbeRegion(vpcID: string, region: Region, setServiceURL: string -> Option<string>,
                       getVPC: (string, string) -> Reply<Vpc>): Probe
  {
    var url := ServiceURL(region);
    if setServiceURL(url).Some? then Abort(Wrapped("failed to set vpc api service url", Sdk(setServiceURL(url).value)))
    else
      var reply := getVPC(url, vpcID);
      if reply.err.Some? then
        (if reply.status != StatusNotFound then Abort(Sdk(reply.err.value)) else Skip)
      else if reply.value.Some? then Hit(reply.value.value)
      else Skip
  }

  function ScanRegions(vpcID: string, regions: seq<Region>, setServiceURL: string -> Option<string>,
                       getVPC: (string, string) -> Reply<Vpc>): Result<Vpc, Error>
    decreases |regions|
  {
    if regions == [] then Failure(NotFound)
    else
      match ProbeRegion(vpcID, regions[0], setServiceURL, getVPC)
      case Hit(vpc) => Success(vpc)
      case Abort(e) => Failure(e)
      case Skip => ScanRegions(vpcID, regions[1..], setServiceURL, getVPC)
  }

  function VpcLookup(vpcID: string, listRegions: Result<seq<Region>, string>,
                     setServiceURL: string -> Option<string>, getVPC: (string, string) -> Reply<Vpc>)
    : Result<Vpc, Error>
  {
    match listRegions
    case Failure(e) => Failure(Wrapped("failed to list vpc regions", Sdk(e)))
    case Success(regions) => ScanRegions(vpcID, regions, setServiceURL, getVPC)
  }

  /** Looks for the VPC region by region, pointing the VPC service at each region in turn. */
  method GetVPC(vpcID: string, listRegions: Result<seq<Region>, string>,
                setServiceURL: string -> Option<string>, getVPC: (string, string) -> Reply<Vpc>)
    returns (r: Result<Vpc, Error>)
    ensures r == VpcLookup(vpcID, listRegions, setServiceURL, getVPC)
  {
    if listRegions.Failure? {
      return Failure(Wrapped("failed to list vpc regions", Sdk(listRegions.error)));
    }
    var regions := listRegions.value;
    for i := 0 to |regions|
      invariant ScanRegions(vpcID, regions, setServiceURL, getVPC)
             == ScanRegions(vpcID, regions[i..], setServiceURL, getVPC)
    {
      assert regions[i..][1..] == regions[i + 1..];
      var url := regions[i].endpoint + "/v1";
      var e := setServiceURL(url);
      if e.Some? {
        return Failure(Wrapped("failed to set vpc api service url", Sdk(e.value)));
      }
      var reply := getVPC(url, vpcID);
      if reply.err.Some? {
        if reply.status != StatusNotFound {
          return Failure(Sdk(reply.err.value));
        }
      } else if reply.value.Some? {
        return Success(reply.value.value);
      }
    }
    assert regions[|regions|..] == [];
    return Failure(NotFound);
  }

  /** A region the scan passes over. */
  predicate Skipped(vpcID: string, region: Region, setServiceURL: string -> Option<string>,
                    getVPC: (string, string) -> Reply<Vpc>)
  {
    ProbeRegion(vpcID, region, setServiceURL, getVPC).Skip?
  }

  /** The scan ends in NotFound exactly when every region is passed over: a 404 or an empty
      answer, and nothing else. */
  lemma {:induction false} ScanNotFoundIff(vpcID: string, regions: seq<Region>, setServiceURL: string -> Option<string>,
                                           getVPC: (string, string) -> Reply<Vpc>)
    ensures ScanRegions(vpcID, regions, setServiceURL, getVPC) == Failure(NotFound) <==>
      forall i :: 0 <= i < |regions| ==> Skipped(vpcID, regions[i], setServiceURL, getVPC)
    decreases |regions|
  {
    if regions != [] {
      ScanNotFoundIff(vpcID, regions[1..], setServiceURL, getVPC);
      assert forall i :: 1 <= i < |regions| ==> regions[1..][i - 1] == regions[i];
    }
  }

  /** The first region that is not passed over decides the scan: a VPC there wins, an error there
      (other than a 404) ends the scan with that error. */
  lemma {:induction false} ScanDecidedAt(vpcID: string, regions: seq<Region>, k: nat,
                                         setServiceURL: string -> Option<string>,
                                         getVPC: (string, string) -> Reply<Vpc>)
    requires k < |regions|
    requires forall j :: 0 <= j < k ==> Skipped(vpcID, regions[j], setServiceURL, getVPC)
    requires !Skipped(vpcID, regions[k], setServiceURL, getVPC)
    ensures ScanRegions(vpcID, regions, setServiceURL, getVPC) ==
      match ProbeRegion(vpcID, regions[k], setServiceURL, getVPC)
      case Hit(vpc) => Success(vpc)
      case Abort(e) => Failure(e)
      case Skip => Failure(NotFound)
    decreases k
  {
    if k > 0 {
      assert forall j :: 0 <= j < k - 1 ==> regions[1..][j] == regions[j + 1];
      ScanDecidedAt(vpcID, regions[1..], k - 1, setServiceURL, getVPC);
    }
  }

  /** A 404 is NotFound whatever error comes with it; otherwise subnet and error pass through. */
  function GetSubnet(subnetID: string, getSubnet: string -> Reply<Subnet>): (r: (Option<Subnet>, Option<Error>))
    ensures getSubnet(subnetID).status == StatusNotFound ==> r == (None, Some(NotFound))
    ensures getSubnet(subnetID).status != StatusNotFound ==>
      r.0 == getSubnet(subnetID).value &&
      (r.1.Some? <==> getSubnet(subnetID).err.Some?) &&
      (r.1.Some? ==> r.1.value == Sdk(getSubnet(subnetID).err.value))
  {
    var reply := getSubnet(subnetID);
    if reply.status == StatusNotFound then (None, Some(NotFound))
    else (reply.value, if reply.err.Some? then Some(Sdk(reply.err.value)) else None)
  }

  /** The names of the zones of `region`, position by position. */
  method GetVPCZonesForRegion(region: string, listRegionZones: string -> Result<seq<RegionZone>, string>)
    returns (r: Result<seq<string>, Error>)
    ensures listRegionZones(region).Failure? ==> r == Failure(Sdk(listRegionZones(region).error))
    ensures listRegionZones(region).Success? ==> var zones := listRegionZones(region).value;
      r.Success? && |r.value| == |zones| && forall i :: 0 <= i < |zones| ==> r.value[i] == zones[i].name
  {
    var listed := listRegionZones(region);
    if listed.Failure? {
      return Failure(Sdk(listed.error));
    }
    var zones := listed.value;
    var response := new string[|zones|];
    for idx := 0 to |zones|
      invariant forall j :: 0 <= j < idx ==> response[j] == zones[j].name
    {
      response[idx] := zones[idx].name;
    }
    return Success(response[..]);
  }

  /** The reference client seen through the API interface the actuator uses. */
  function ClientApi(listInstances: string -> Result<seq<Instance>, string>,
                     createAction: InstanceAction -> Option<string>): Api
  {
    Api((infraID: string) => VpcInstances(infraID, listInstances),
        (s: seq<Instance>) => StopOutcome(s, createAction),
        (s: seq<Instance>) => StartOutcome(s, createAction))
  }
}
