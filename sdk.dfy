/** The IBM Cloud SDK records the client reads, with every optional field taken as present. */
module Sdk {
  import opened Wrappers

  /** vpcv1.Instance */
  datatype Instance = Instance(id: string, name: string, status: string)

  /** vpcv1.Region */
  datatype Region = Region(name: string, endpoint: string)

  /** vpcv1.VPC */
  datatype Vpc = Vpc(id: string, name: string)

  /** vpcv1.Subnet */
  datatype Subnet = Subnet(id: string, name: string)

  /** vpcv1.Zone, a zone of a VPC region */
  datatype RegionZone = RegionZone(name: string)

  /** vpcv1.DedicatedHost */
  datatype DedicatedHost = DedicatedHost(id: string, name: string)

  /** resourcemanagerv2.ResourceGroup */
  datatype ResourceGroup = ResourceGroup(id: string, name: string)

  /** resourcecontrollerv2.ResourceInstance, here always a Cloud Internet Services instance */
  datatype CisInstance = CisInstance(crn: string, name: string, resourceGroupID: string)

  /** zonesv1.ZoneDetails */
  datatype DnsZone = DnsZone(id: string, name: string, status: string)

  /** What one SDK call hands back: the result (nil or not), the HTTP status code of the detailed
      response (0 when there is none), and the error (nil or its text). */
  datatype Reply<T> = Reply(value: Option<T>, status: int, err: Option<string>)

  /** net/http.StatusNotFound */
  const StatusNotFound: int := 404

  /** The two CreateInstanceAction types the client uses. */
  datatype ActionType = Start | Stop

  /** One CreateInstanceAction request: which instance, and which action. */
  datatype InstanceAction = InstanceAction(instanceID: string, action: ActionType)
}
