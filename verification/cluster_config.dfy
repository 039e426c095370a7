/** The CRDController for the ClusterConfig custom resource: its construction and its
    ADD and UPDATE handlers, which forward the configured cluster name on the
    cluster-name channel. */
module ClusterConfigController {
  import opened Wrappers
  import opened Client
  import Listeners

  datatype DiscoveryConfig = DiscoveryConfig(clusterName: string)

  datatype ClusterConfigSpec = ClusterConfigSpec(discoveryConfig: DiscoveryConfig)

  datatype ClusterConfig = ClusterConfig(spec: ClusterConfigSpec)

  /** The untyped object an informer hands to a handler. */
  datatype WatchedObject = ClusterConfigObject(config: ClusterConfig) | OtherObject

  /** The panic raised when a handler receives an object that is not a ClusterConfig. */
  datatype HandlerError = WrongObjectType

  /** The event handlers a CRDController can hold. */
  datatype EventHandler = ClusterConfigAdd | ClusterConfigUpdate

  /** A CRDController: its registered handlers, its client and the resource it watches. */
  datatype CRDController<C> = CRDController(
    addFunc: Option<EventHandler>,
    updateFunc: Option<EventHandler>,
    deleteFunc: Option<EventHandler>,
    crdClient: C,
    resource: CRKind)

  /** `createClusterConfigController`: `newClient` is what the client constructor
      returns for the kubeconfig. */
  function CreateClusterConfigController<C, E>(newClient: Result<C, E>): (r: Result<CRDController<C>, E>)
    ensures newClient.Err? ==> r.Err? && r.error == newClient.error
    ensures newClient.Ok? ==>
      && r.Ok?
      && r.value.addFunc == Some(ClusterConfigAdd)
      && r.value.updateFunc == Some(ClusterConfigUpdate)
      && r.value.deleteFunc.None?
      && r.value.crdClient == newClient.value
      && r.value.resource == CRClusterConfig
  {
    match newClient
    case Err(e) => Err(e)
    case Ok(c) => Ok(CRDController(Some(ClusterConfigAdd), Some(ClusterConfigUpdate), None, c, CRClusterConfig))
  }

  /** `clusterConfigAddFunc`: the messages the handler sends. */
  function ClusterConfigAddFunc(obj: WatchedObject): (r: Result<seq<Message>, HandlerError>)
    ensures r.Err? <==> obj.OtherObject?
    ensures r.Ok? ==>
      && |r.value| == 1
      && r.value[0].channel == ChanClusterName
      && r.value[0].data == ClusterNameData(obj.config.spec.discoveryConfig.clusterName)
  {
    match obj
    case ClusterConfigObject(config) => Ok([Message(ChanClusterName, ClusterNameData(config.spec.discoveryConfig.clusterName))])
    case OtherObject => Err(WrongObjectType)
  }

  /** `clusterConfigUpdateFunc`: the old object is not looked at. */
  function ClusterConfigUpdateFunc(oldObj: WatchedObject, newObj: WatchedObject): (r: Result<seq<Message>, HandlerError>)
    ensures r.Err? <==> newObj.OtherObject?
    ensures r.Ok? ==>
      && |r.value| == 1
      && r.value[0].channel == ChanClusterName
      && r.value[0].data == ClusterNameData(newObj.config.spec.discoveryConfig.clusterName)
  {
    match newObj
    case ClusterConfigObject(config) => Ok([Message(ChanClusterName, ClusterNameData(config.spec.discoveryConfig.clusterName))])
    case OtherObject => Err(WrongObjectType)
  }

  /** Adding an object and updating to it send the same messages, whatever the old
      object was. */
  lemma AddAndUpdateAgree(oldObj: WatchedObject, obj: WatchedObject)
    ensures ClusterConfigUpdateFunc(oldObj, obj) == ClusterConfigAddFunc(obj)
  {
  }

  /** The message an ADD event sends, once received by the cluster-name listener, sets
      the status cluster name to the ClusterConfig's configured name. */
  lemma ClusterNameReachesStatus(config: ClusterConfig, status: Listeners.Status)
    ensures var sent := ClusterConfigAddFunc(ClusterConfigObject(config));
            var received := Listeners.ListenClusterName(sent.value[0].data, status);
            && received.Ok?
            && received.value.status.clusterName == config.spec.discoveryConfig.clusterName
            && received.value.status.peerCount == status.peerCount
  {
  }

  /** An informer event on the watched resource. */
  datatype WatchEvent =
    | Added(obj: WatchedObject)
    | Updated(oldObj: WatchedObject, newObj: WatchedObject)
    | Deleted(obj: WatchedObject)

  /** Runs one registered handler on an event's old and new object. */
  function Invoke(handler: EventHandler, oldObj: WatchedObject, newObj: WatchedObject): Result<seq<Message>, HandlerError> {
    match handler
    case ClusterConfigAdd => ClusterConfigAddFunc(newObj)
    case ClusterConfigUpdate => ClusterConfigUpdateFunc(oldObj, newObj)
  }

  /** Delivers an event to the handler the controller registered for its kind; a kind
      without a handler sends nothing. */
  function HandleEvent<C>(ctrl: CRDController<C>, ev: WatchEvent): Result<seq<Message>, HandlerError> {
    match ev
    case Added(obj) => if ctrl.addFunc.Some? then Invoke(ctrl.addFunc.value, obj, obj) else Ok([])
    case Updated(o, n) => if ctrl.updateFunc.Some? then Invoke(ctrl.updateFunc.value, o, n) else Ok([])
    case Deleted(obj) => if ctrl.deleteFunc.Some? then Invoke(ctrl.deleteFunc.value, obj, obj) else Ok([])
  }

  /** A controller built from a working client answers ADD with the add handler's
      message, UPDATE with the update handler's message, and DELETE with nothing. */
  lemma CreatedControllerDispatch<C, E>(newClient: Result<C, E>, ev: WatchEvent)
    requires newClient.Ok?
    ensures var ctrl := CreateClusterConfigController(newClient).value;
            && (ev.Added? ==> HandleEvent(ctrl, ev) == ClusterConfigAddFunc(ev.obj))
            && (ev.Updated? ==> HandleEvent(ctrl, ev) == ClusterConfigUpdateFunc(ev.oldObj, ev.newObj))
            && (ev.Deleted? ==> HandleEvent(ctrl, ev) == Ok([]))
  {
  }
}
