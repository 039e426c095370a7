/** Identifiers and payloads shared by the agent controller (producer side) and the
    tray listeners (consumer side). */
module Client {

  /** Notification channel identifiers. */
  datatype NotifyChannel =
    | ChanPeerAddedOrUpdated
    | ChanPeerDeleted
    | ChanClusterName

  /** The custom resource kinds the agent controller watches. */
  datatype CRKind = CRForeignCluster | CRClusterConfig

  /** Connection state of one peering direction, as carried by a peer event. */
  datatype PeeringInfo = PeeringInfo(connected: bool)

  /** Payload of a peer add/update/delete event. */
  datatype NotifyDataForeignCluster = NotifyDataForeignCluster(
    clusterID: string,
    outPeering: PeeringInfo,
    inPeering: PeeringInfo)

  /** The dynamically typed payload a listener receives: a peer event, a bare string
      (the cluster name), or a value of any other type. */
  datatype NotifyData =
    | ForeignClusterData(fc: NotifyDataForeignCluster)
    | ClusterNameData(name: string)
    | OtherData

  /** One value sent on one notification channel. */
  datatype Message = Message(channel: NotifyChannel, data: NotifyData)
}
