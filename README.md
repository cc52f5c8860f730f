# IBM Cloud hibernation: actuator decisions and the reference client

This project models the two layers of the IBM Cloud path of cluster hibernation in Hive:

- **The hibernation actuator** (`pkg/controller/hibernation/ibmcloud_actuator.go`), module
  `Hibernation`. It has the status sets, the instance filter, `StopMachines`, `StartMachines`,
  `MachinesRunning`, `MachinesStopped`, `CanHandle` and the instance-name helper. The provider API
  is the datatype `IbmClient.Api`: the three operations the actuator calls, each a total function.
  The client factory `ibmCloudClientFn` may fail. Every operation returns a ghost log of the API
  calls it made (`ApiCall`). That log is how the contracts say "no StopInstances call", or "one
  StopInstances call on exactly this subset".
- **The reference client** (`pkg/ibmclient/client.go`), module `IbmClient`. It has the
  cluster-membership filter, the stop/start loops that give up at the first rejected action, the
  four first-match lookups, zone collection, the region scan for a VPC, the 404 mapping of
  `GetSubnet`, and the region-zone name list. Every SDK call is a parameter: a function from the
  request (a VPC name, an instance action, a service URL, a CRN) to what the SDK hands back.
  `Sdk.Reply` is a result that may be nil, an HTTP status and an error. The instance-action loops
  return a ghost log of the `InstanceAction`s they sent. `IbmClient.ClientApi` plugs the client
  into the actuator's `Api`.

Supporting modules: `Wrappers` (Option, Result), `Seqs` (order-preserving filter `Keep`,
substring search `Contains`), `Errors` (SDK errors, the client's `NotFound`, formatted and wrapped
errors, and the text `Error()` prints), `Sdk` (the SDK records, every optional field present).

Assumption about the status sets. The actuator's operations filter on `runningOrPendingStates`,
`stoppedOrStoppingStates`, `notRunningStates` and `notStoppedStates`. These are package-level
names defined in a file that is not part of this model. The `ibm*` sets built at lines 21-28 are
never used in the file. The model takes the four names to hold the same strings as the `ibm*`
sets (`Hibernation.RunningOrPendingStates` and its siblings). The filter itself takes the set as a
parameter.

Where the hibernation design and the code differ, the model follows the code:
- Statuses are raw strings tested for membership in string sets. No canonical-state enumeration
  or classifier function exists in this code.
- An instance whose status is in none of the sets (e.g. `"failed"`) is neither acted on nor
  reported as a straggler. The design asks for it to be reported.
- The error from `StopInstances` does not name the failing instance. Only `StartInstances`
  names it.
- No actuator registry or selection rule is defined in these files.

## Model

| member | source | states |
|---|---|---|
| `Hibernation.StatusSetAlgebra` | pkg/controller/hibernation/ibmcloud_actuator.go:21-28 | RunningOrPending = {running, pending}, StoppedOrStopping = {stopped, stopping}, NotRunning = {stopped, stopping, pending}, NotStopped = {running, pending, stopping}; running is not in NotRunning and stopped is not in NotStopped |
| `Hibernation.UnrecognisedInNoSet` | pkg/controller/hibernation/ibmcloud_actuator.go:21-28 | a status other than running, pending, stopped, stopping belongs to none of the four sets |
| `Hibernation.CanHandle` | pkg/controller/hibernation/ibmcloud_actuator.go:41-43 | true exactly when the cluster's IBM Cloud platform field is present (a pure function, so no side effect) |
| `Hibernation.GetIbmCloudClusterInstances` | pkg/controller/hibernation/ibmcloud_actuator.go:147-165 | a listing error is returned unchanged with no result; otherwise the result is the listed instances whose status is in the given set, in listing order, and an instance is in it iff it is listed and its status is in the set |
| `Seqs.KeepIsOrderedSubsequence` | pkg/controller/hibernation/ibmcloud_actuator.go:157-162 | the filtered result is the listing read at a strictly increasing sequence of positions, and those positions are exactly the ones whose element matches |
| `Seqs.KeepEmpty` | pkg/controller/hibernation/ibmcloud_actuator.go:117 | the filtered subset is empty iff no listed element matches |
| `Hibernation.IbmCloudInstanceNames` | pkg/controller/hibernation/ibmcloud_actuator.go:95-101 | the result has the input's length and its i-th element is the name of instance i |
| `Hibernation.StopMachines` | pkg/controller/hibernation/ibmcloud_actuator.go:46-68 | a client-build or listing error is returned with no StopInstances call; no running or pending instance gives nil with only the listing call; otherwise exactly one StopInstances call, on precisely the running/pending subset, whose error is returned |
| `Hibernation.StartMachines` | pkg/controller/hibernation/ibmcloud_actuator.go:71-93 | the mirror image of StopMachines, filtering on stopped/stopping and making one StartInstances call |
| `Hibernation.MachinesRunning` | pkg/controller/hibernation/ibmcloud_actuator.go:106-118 | only the listing call is made; on error the result is (false, [], err); otherwise the Boolean holds iff no listed instance has a NotRunning status and the stragglers are the names of the NotRunning instances in listing order |
| `Hibernation.MachinesStopped` | pkg/controller/hibernation/ibmcloud_actuator.go:123-135 | the same as MachinesRunning with the NotStopped set |
| `Hibernation.UnrecognisedStatusIgnored` | pkg/controller/hibernation/ibmcloud_actuator.go:158-162 | an instance with an unrecognised status is in none of the four filtered subsets, so it is never acted on and never a straggler |
| `Hibernation.UnrecognisedStatusesInvisible` | pkg/controller/hibernation/ibmcloud_actuator.go:157-163 | dropping every instance with an unrecognised status leaves each filtered subset unchanged |
| `Hibernation.UnrecognisedNeverBlocks` | pkg/controller/hibernation/ibmcloud_actuator.go:106-135 | if every instance is running (stopped) or has an unrecognised status, nothing is left short of running (stopped), so convergence is reported |
| `Hibernation.NothingToDoWhenSettled` | pkg/controller/hibernation/ibmcloud_actuator.go:53-60 | on a cluster that is all stopped/stopping there is nothing to stop, and on an all-running cluster there is nothing to start; StopMachines and StartMachines then return nil with no mutating call |
| `Hibernation.Scenarios` | pkg/controller/hibernation/ibmcloud_actuator.go:53-61 | [a running, b stopped] selects only a to stop; a lone stopping a is the only straggler of MachinesStopped; an empty listing selects nothing and reports no stragglers |
| `Hibernation.ClientTargets` | pkg/controller/hibernation/ibmcloud_actuator.go:152-162 | with the reference client, an operation acts on or reports exactly the listed VPC instances whose name contains the infrastructure ID and whose status is in its set |
| `Hibernation.ClientStopFailsIff` | pkg/controller/hibernation/ibmcloud_actuator.go:61-67 | with the reference client, the one StopInstances call fails iff some target's stop action is rejected |
| `IbmClient.GetVPCInstances` | pkg/ibmclient/client.go:485-499 | lists the VPC named infraID-vpc; a list failure is a wrapped error with no instances; otherwise the result keeps, in listing order, exactly the instances whose name contains infraID as a substring |
| `Seqs.ContainsOccurs` | pkg/ibmclient/client.go:494 | substring search agrees with "sub occurs at some position of s" |
| `Seqs.KeepMembership` | pkg/ibmclient/client.go:493-497 | an element is kept iff it is in the input and matches |
| `IbmClient.FirstRejected` | pkg/ibmclient/client.go:502-510 | the position of the first instance whose action is rejected: every earlier action is accepted, and the one at that position (if any) is rejected |
| `IbmClient.StopInstances` | pkg/ibmclient/client.go:501-512 | stop actions are sent in order, one per instance, up to and including the first rejected one and none after; the result is nil iff every action was accepted; an empty input sends nothing |
| `IbmClient.StartInstances` | pkg/ibmclient/client.go:514-525 | the same abort-at-first-failure behaviour for start actions |
| `IbmClient.StartErrorNamesInstance` | pkg/ibmclient/client.go:518-522 | a failed start's error text contains the name of the first instance whose action was rejected |
| `Errors.WrappedNames` | pkg/ibmclient/client.go:521 | a wrapped error whose context quotes a name has that name in its message |
| `IbmClient.SecondOfThreeRejected` | pkg/ibmclient/client.go:501-525 | when the second of three actions is rejected, exactly two actions are sent and the error reports the rejection (naming the instance for a start) |
| `IbmClient.GetDNSZoneIDByName` | pkg/ibmclient/client.go:226-240 | a zone-listing error is passed on; otherwise the ID of the first zone with the queried name, or a "not found" error when no zone has that name |
| `IbmClient.GetDedicatedHostByName` | pkg/ibmclient/client.go:164-183 | a region error is passed on, a listing error is wrapped; otherwise the first host with the queried name, or a "not found" error when none has it |
| `IbmClient.GetResourceGroup` | pkg/ibmclient/client.go:297-312 | a listing error is passed on; otherwise the first group whose ID or name equals nameOrID, or a "not found" error when none does |
| `IbmClient.GetCISInstanceCRN` | pkg/ibmclient/client.go:459-475 | a zone-listing error is wrapped; success gives the non-empty CRN of the first zone named baseDomain; failure means no zone has that name or the first one that does has an empty CRN |
| `IbmClient.GetDNSZones` | pkg/ibmclient/client.go:243-288 | behaves as the instance-by-instance collection `DnsZones`, including the instance-listing error wrap |
| `IbmClient.ReturnedIsFinal` | pkg/ibmclient/client.go:262-271 | once an instance ends the collection, later instances change nothing |
| `IbmClient.ActiveZonesExact` | pkg/ibmclient/client.go:273-283 | one CIS instance contributes exactly its active zones, each tagged with that instance's CRN, name and resource group |
| `IbmClient.ScanSound` | pkg/ibmclient/client.go:255-285 | everything gathered so far comes from active zones of visited instances, and an early success carries no zones |
| `IbmClient.DnsZonesSound` | pkg/ibmclient/client.go:273-284 | every returned zone is an active zone of some CIS instance, tagged with that instance |
| `IbmClient.DnsZonesInOrder` | pkg/ibmclient/client.go:255-287 | when no instance ends the collection early, the result is the active zones in instance-then-zone order |
| `IbmClient.DnsZonesComplete` | pkg/ibmclient/client.go:273-284 | when no instance ends the collection early, every active zone of every instance is returned |
| `IbmClient.DnsZonesFirstAbort` | pkg/ibmclient/client.go:262-271 | the first instance whose zone service fails or whose listing gives no response decides the result: its error, or success with no zones when that error is nil, and zones collected before it are dropped |
| `IbmClient.GetVPC` | pkg/ibmclient/client.go:356-381 | behaves as the region-by-region scan `VpcLookup`, including the region-listing error wrap |
| `IbmClient.ScanNotFoundIff` | pkg/ibmclient/client.go:365-380 | the scan ends in NotFound iff every region answered 404 or gave no VPC |
| `IbmClient.ScanDecidedAt` | pkg/ibmclient/client.go:365-378 | the first region not passed over decides: a VPC there wins, a service-URL error or non-404 error there ends the scan with that error |
| `IbmClient.GetSubnet` | pkg/ibmclient/client.go:334-343 | a 404 status gives NotFound and no subnet whatever error comes with it; any other status passes the subnet and the error through |
| `IbmClient.GetVPCZonesForRegion` | pkg/ibmclient/client.go:384-399 | a listing error is passed on; otherwise the result has one entry per zone and the i-th entry is zone i's name |

## Left out

- SDK construction, authentication and credentials are not modelled: `NewClient`,
  `NewClientFromSecret`, `loadSDKServices`, the `load*API` helpers, `GetAuthenticatorAPIKeyDetails`,
  `GetAccountID`, `GetVSIProfiles`, `GetDedicatedHostProfiles`, `GetDNSRecordsByName` and
  `GetCISInstance`. Their results are never inspected here.
- `setVPCServiceURLForRegion`, `GetResourceGroups`, `getVPCRegions` and `GetDNSZones`, as seen
  from their callers, appear only through their outcomes. These are parameters of `GetDedicatedHostByName`,
  `GetResourceGroup`, `GetVPC`, `GetDNSZoneIDByName` and `GetCISInstanceCRN`.
  `getVPCRegions`' error wrap is part of `IbmClient.VpcLookup`.
- The Kubernetes secret fetch in `getIBMCloudClient` is persistence I/O. The client factory is
  the actuator's function field `ibmCloudClientFn`, which may fail.
- Contexts, timeouts and cancellation are not modelled. The derived contexts are discarded in
  the source, so no deadline applies there either.
- `GetVPC` rewrites the shared VPC service URL for each region. The model passes each region's URL
  to the lookup oracle. It does not model the shared mutable client or concurrent use of it.
- An SDK oracle answers a given request the same way every time it is asked within one operation.
  Varying answers to repeated identical requests are not modelled.
- Actuator registration through `RegisterActuator` in `init` is not modelled, because the registry
  is defined elsewhere.
- The `GetEncryptionKey` stub and all logging are not modelled.
- Nil dereferences of optional SDK fields are not modelled: every field is a present string.
- A nil slice and an empty slice are both `[]`. So `MachinesRunning`' `(false, nil, err)` is
  `(false, [], err)`, and the nil, nil return of `GetDNSZones` is `Success([])`.
- `Errors.Quote` adds the surrounding quotes of Go's `%q` verb but not its escaping of special
  characters.
- `Errors.Message` follows github.com/pkg/errors' "context: cause" format. Stack traces are
  not modelled.
