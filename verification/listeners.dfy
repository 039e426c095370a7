/** The tray listeners that react to peer events and cluster-name events.

    A listener is modelled as a pure function from its inputs to the ordered trace of
    calls it makes into the peer store and into the tray UI. What the store returns
    (the peer record after `AddOrUpdatePeer` / `RemovePeer`) is an input, since the store
    itself is not part of this model. The two refresh tasks that the add/update listener
    runs in parallel and joins are one step of the trace. */
module Listeners {
  import opened Wrappers
  import opened Client

  datatype Direction = PeeringOutgoing | PeeringIncoming

  datatype NotifyEvent = NotifyEventPeeringOn | NotifyEventPeeringOff

  /** One `NotifyPeering` call: direction, event kind and the affected peer. */
  datatype PeeringNotification = PeeringNotification(
    direction: Direction,
    event: NotifyEvent,
    clusterID: string)

  /** The stored peer record as returned by the peer store. */
  datatype PeerRecord = PeerRecord(
    clusterID: string,
    clusterName: string,
    outPeeringConnected: bool,
    inPeeringConnected: bool)

  /** The part of the tray menu the peer listeners consult: whether the PEERS quick node
      is registered, and the ids of its existing list children. */
  datatype TrayMenu = TrayMenu(peersQuickRegistered: bool, peerNodes: set<string>)

  /** A call a listener makes, in the order it makes them. */
  datatype Step =
    | AddOrUpdatePeer(data: NotifyDataForeignCluster)
    | RemovePeer(data: NotifyDataForeignCluster)
    | RefreshStatus
    | CreatePeerNode(clusterID: string)
    | RefreshPeerNode(clusterID: string)  // refreshPeerInfo and refreshPeeringInfo, joined
    | FreeListChild(clusterID: string)
    | RefreshPeerCount
    | NotifyPeering(notification: PeeringNotification)

  /** The panic raised when a listener receives a payload of the wrong type. */
  datatype ListenerError = WrongNotifyDataType

  /** The indicator status fields the listeners write. */
  datatype Status = Status(clusterName: string, peerCount: nat)

  function On(dir: Direction, id: string): PeeringNotification {
    PeeringNotification(dir, NotifyEventPeeringOn, id)
  }

  function Off(dir: Direction, id: string): PeeringNotification {
    PeeringNotification(dir, NotifyEventPeeringOff, id)
  }

  /** Some notification in `ns` concerns direction `dir`. */
  predicate Mentions(ns: seq<PeeringNotification>, dir: Direction) {
    exists n | n in ns :: n.direction == dir
  }

  /** Every outgoing notification precedes every incoming one, and there is at most one
      of each. */
  predicate OutgoingFirst(ns: seq<PeeringNotification>) {
    forall i, j | 0 <= i < j < |ns| ::
      ns[i].direction == PeeringOutgoing && ns[j].direction == PeeringIncoming
  }

  // ---------------------------------------------------------------------------------
  // Notification decisions
  // ---------------------------------------------------------------------------------

  /** One direction of the if / else-if comparison between the event's flag and the
      record's flag: On when the event says disconnected and the record says connected,
      Off in the opposite case, nothing when they agree. */
  function DirectionChange(dir: Direction, eventConnected: bool, recordConnected: bool, id: string)
    : (r: seq<PeeringNotification>)
    ensures |r| <= 1
    ensures |r| == 1 <==> eventConnected != recordConnected
    ensures forall n | n in r ::
      n.direction == dir && n.clusterID == id && (n.event == NotifyEventPeeringOn <==> recordConnected)
  {
    if !eventConnected && recordConnected then [On(dir, id)]
    else if eventConnected && !recordConnected then [Off(dir, id)]
    else []
  }

  /** The comparison both peer listeners run when the peer already had a menu node
      (add/update) and unconditionally (delete). */
  function PeeringChanges(fc: NotifyDataForeignCluster, peer: PeerRecord): (r: seq<PeeringNotification>)
    ensures |r| <= 2 && OutgoingFirst(r)
    ensures forall n | n in r :: n.clusterID == peer.clusterID
    ensures On(PeeringOutgoing, peer.clusterID) in r
      <==> !fc.outPeering.connected && peer.outPeeringConnected
    ensures Off(PeeringOutgoing, peer.clusterID) in r
      <==> fc.outPeering.connected && !peer.outPeeringConnected
    ensures On(PeeringIncoming, peer.clusterID) in r
      <==> !fc.inPeering.connected && peer.inPeeringConnected
    ensures Off(PeeringIncoming, peer.clusterID) in r
      <==> fc.inPeering.connected && !peer.inPeeringConnected
    ensures !Mentions(r, PeeringOutgoing) <==> fc.outPeering.connected == peer.outPeeringConnected
    ensures !Mentions(r, PeeringIncoming) <==> fc.inPeering.connected == peer.inPeeringConnected
  {
    var o := DirectionChange(PeeringOutgoing, fc.outPeering.connected, peer.outPeeringConnected, peer.clusterID);
    var i := DirectionChange(PeeringIncoming, fc.inPeering.connected, peer.inPeeringConnected, peer.clusterID);
    assert forall n | n in o + i :: n in o || n in i;
    o + i
  }

  /** The notifications for a peer that had no menu node yet: an On for every direction
      the record reports connected. */
  function FirstSightNotifications(peer: PeerRecord): (r: seq<PeeringNotification>)
    ensures |r| <= 2 && OutgoingFirst(r)
    ensures forall n | n in r :: n.event == NotifyEventPeeringOn && n.clusterID == peer.clusterID
    ensures On(PeeringOutgoing, peer.clusterID) in r <==> peer.outPeeringConnected
    ensures On(PeeringIncoming, peer.clusterID) in r <==> peer.inPeeringConnected
  {
    (if peer.outPeeringConnected then [On(PeeringOutgoing, peer.clusterID)] else [])
    + (if peer.inPeeringConnected then [On(PeeringIncoming, peer.clusterID)] else [])
  }

  /** Step 3 of the add/update listener: `present` says whether the peer's menu child
      existed before this call. */
  function AddedOrUpdatedNotifications(present: bool, fc: NotifyDataForeignCluster, peer: PeerRecord)
    : (r: seq<PeeringNotification>)
    ensures |r| <= 2 && OutgoingFirst(r)
    ensures !present ==> forall n | n in r :: n.event == NotifyEventPeeringOn
    ensures present ==> r == PeeringChanges(fc, peer)
    ensures !present ==> r == FirstSightNotifications(peer)
  {
    if !present then FirstSightNotifications(peer) else PeeringChanges(fc, peer)
  }

  // ---------------------------------------------------------------------------------
  // Traces
  // ---------------------------------------------------------------------------------

  /** The `NotifyPeering` calls of a trace, in order. */
  function Notifications(steps: seq<Step>): (r: seq<PeeringNotification>)
    ensures |r| <= |steps|
    ensures forall n | n in r :: NotifyPeering(n) in steps
  {
    if steps == [] then []
    else (if steps[0].NotifyPeering? then [steps[0].notification] else []) + Notifications(steps[1..])
  }

  /** One `NotifyPeering` call per notification, in order. */
  function NotifyAll(ns: seq<PeeringNotification>): (r: seq<Step>)
    ensures |r| == |ns|
    ensures forall i | 0 <= i < |ns| :: r[i] == NotifyPeering(ns[i])
    ensures forall s | s in r :: s.NotifyPeering?
  {
    seq(|ns|, i requires 0 <= i < |ns| => NotifyPeering(ns[i]))
  }

  lemma {:induction false} NotificationsAppend(a: seq<Step>, b: seq<Step>)
    ensures Notifications(a + b) == Notifications(a) + Notifications(b)
    decreases |a|
  {
    if a == [] {
      assert a + b == b;
    } else {
      assert (a + b)[0] == a[0];
      assert (a + b)[1..] == a[1..] + b;
      assert Notifications(a + b)
          == (if a[0].NotifyPeering? then [a[0].notification] else []) + Notifications(a[1..] + b);
      NotificationsAppend(a[1..], b);
    }
  }

  lemma {:induction false} NotificationsOfNotifyAll(ns: seq<PeeringNotification>)
    ensures Notifications(NotifyAll(ns)) == ns
    decreases |ns|
  {
    if ns != [] {
      assert NotifyAll(ns)[1..] == NotifyAll(ns[1..]);
      NotificationsOfNotifyAll(ns[1..]);
    }
  }

  /** A trace without `NotifyPeering` steps notifies nothing. */
  lemma {:induction false} NotificationsOfSilent(steps: seq<Step>)
    requires forall s | s in steps :: !s.NotifyPeering?
    ensures Notifications(steps) == []
    decreases |steps|
  {
    if steps != [] {
      assert steps[0] in steps;
      assert forall s | s in steps[1..] :: s in steps;
      NotificationsOfSilent(steps[1..]);
    }
  }

  /** A trace made of silent calls followed by notifications keeps the silent calls as
      its prefix, and its notifications are exactly the steps from there on. */
  lemma SilentThenNotified(silent: seq<Step>, notes: seq<Step>)
    requires forall s | s in silent :: !s.NotifyPeering?
    requires forall s | s in notes :: s.NotifyPeering?
    ensures (silent + notes)[..|silent|] == silent
    ensures forall j | 0 <= j < |silent + notes| :: ((silent + notes)[j].NotifyPeering? <==> j >= |silent|)
  {
    var t := silent + notes;
    forall j | 0 <= j < |t|
      ensures t[j].NotifyPeering? <==> j >= |silent|
    {
      if j < |silent| {
        assert t[j] == silent[j] && silent[j] in silent;
      } else {
        assert t[j] == notes[j - |silent|] && notes[j - |silent|] in notes;
      }
    }
  }

  // ---------------------------------------------------------------------------------
  // Listeners
  // ---------------------------------------------------------------------------------

  /** The calls of the add/update listener before its notifications: the store update
      and status refresh, then, with the PEERS quick node registered, the peer node's
      creation if it had none, the joined refresh and the peer count refresh. */
  function AddedOrUpdatedSilentSteps(fc: NotifyDataForeignCluster, peer: PeerRecord, menu: TrayMenu): seq<Step> {
    var id := peer.clusterID;
    if !menu.peersQuickRegistered then [AddOrUpdatePeer(fc), RefreshStatus]
    else if id in menu.peerNodes then [AddOrUpdatePeer(fc), RefreshStatus, RefreshPeerNode(id), RefreshPeerCount]
    else [AddOrUpdatePeer(fc), RefreshStatus, CreatePeerNode(id), RefreshPeerNode(id), RefreshPeerCount]
  }

  /** `listenAddedOrUpdatedPeer`: `peer` is what the store's `AddOrUpdatePeer` returns for
      the payload. */
  function ListenAddedOrUpdatedPeer(data: NotifyData, peer: PeerRecord, menu: TrayMenu)
    : (r: Result<seq<Step>, ListenerError>)
    ensures r.Err? <==> !data.ForeignClusterData?
    ensures r.Ok? ==> |r.value| >= 2 && r.value[..2] == [AddOrUpdatePeer(data.fc), RefreshStatus]
    ensures r.Ok? && !menu.peersQuickRegistered ==> r.value == [AddOrUpdatePeer(data.fc), RefreshStatus]
    ensures r.Ok? ==>
      (CreatePeerNode(peer.clusterID) in r.value <==>
         menu.peersQuickRegistered && peer.clusterID !in menu.peerNodes)
    ensures r.Ok? ==> forall s | s in r.value :: !s.RemovePeer? && !s.FreeListChild?
  {
    match data
    case ForeignClusterData(fc) =>
      var silent := AddedOrUpdatedSilentSteps(fc, peer, menu);
      var notes := if menu.peersQuickRegistered
        then NotifyAll(AddedOrUpdatedNotifications(peer.clusterID in menu.peerNodes, fc, peer))
        else [];
      assert forall s | s in silent + notes :: s in silent || s in notes;
      Ok(silent + notes)
    case _ => Err(WrongNotifyDataType)
  }

  /** The calls of the delete listener before its notifications: the store removal and
      status refresh, then, with the PEERS quick node registered, the freeing of the
      peer's node if it has one and the peer count refresh. */
  function DeletedSilentSteps(fc: NotifyDataForeignCluster, peer: PeerRecord, menu: TrayMenu): seq<Step> {
    var id := peer.clusterID;
    if !menu.peersQuickRegistered then [RemovePeer(fc), RefreshStatus]
    else if id in menu.peerNodes then [RemovePeer(fc), RefreshStatus, FreeListChild(id), RefreshPeerCount]
    else [RemovePeer(fc), RefreshStatus, RefreshPeerCount]
  }

  /** `listenDeletedPeer`: `peer` is what the store's `RemovePeer` returns for the payload. */
  function ListenDeletedPeer(data: NotifyData, peer: PeerRecord, menu: TrayMenu)
    : (r: Result<seq<Step>, ListenerError>)
    ensures r.Err? <==> !data.ForeignClusterData?
    ensures r.Ok? ==> |r.value| >= 2 && r.value[..2] == [RemovePeer(data.fc), RefreshStatus]
    ensures r.Ok? && !menu.peersQuickRegistered ==> r.value == [RemovePeer(data.fc), RefreshStatus]
    ensures r.Ok? ==>
      (FreeListChild(peer.clusterID) in r.value <==>
         menu.peersQuickRegistered && peer.clusterID in menu.peerNodes)
    ensures r.Ok? ==> forall s | s in r.value :: !s.AddOrUpdatePeer? && !s.CreatePeerNode?
  {
    match data
    case ForeignClusterData(fc) =>
      var silent := DeletedSilentSteps(fc, peer, menu);
      var notes := if menu.peersQuickRegistered then NotifyAll(PeeringChanges(fc, peer)) else [];
      assert forall s | s in silent + notes :: s in silent || s in notes;
      Ok(silent + notes)
    case _ => Err(WrongNotifyDataType)
  }

  /** The status after a cluster-name event, and the calls the listener made. */
  datatype NameUpdate = NameUpdate(status: Status, steps: seq<Step>)

  /** `listenClusterName`: the status takes the received string as cluster name, and
      the status line is refreshed. */
  function ListenClusterName(data: NotifyData, status: Status): (r: Result<NameUpdate, ListenerError>)
    ensures r.Err? <==> !data.ClusterNameData?
    ensures r.Ok? ==>
      && r.value.status.clusterName == data.name
      && r.value.status.peerCount == status.peerCount
      && r.value.steps == [RefreshStatus]
  {
    match data
    case ClusterNameData(name) => Ok(NameUpdate(status.(clusterName := name), [RefreshStatus]))
    case _ => Err(WrongNotifyDataType)
  }

  // ---------------------------------------------------------------------------------
  // Properties of the listeners' traces
  // ---------------------------------------------------------------------------------

  /** The add/update listener notifies exactly the decision of step 3, and nothing when
      the PEERS quick node is not registered. */
  lemma ListenAddedOrUpdatedPeerNotifications(data: NotifyData, peer: PeerRecord, menu: TrayMenu)
    requires data.ForeignClusterData?
    ensures Notifications(ListenAddedOrUpdatedPeer(data, peer, menu).value)
      == if menu.peersQuickRegistered
         then AddedOrUpdatedNotifications(peer.clusterID in menu.peerNodes, data.fc, peer)
         else []
  {
    var silent := AddedOrUpdatedSilentSteps(data.fc, peer, menu);
    var ns := if menu.peersQuickRegistered
      then AddedOrUpdatedNotifications(peer.clusterID in menu.peerNodes, data.fc, peer)
      else [];
    assert NotifyAll([]) == [];
    NotificationsOfSilent(silent);
    NotificationsAppend(silent, NotifyAll(ns));
    NotificationsOfNotifyAll(ns);
  }

  /** The delete listener notifies exactly the per-direction comparison, and nothing
      when the PEERS quick node is not registered. */
  lemma ListenDeletedPeerNotifications(data: NotifyData, peer: PeerRecord, menu: TrayMenu)
    requires data.ForeignClusterData?
    ensures Notifications(ListenDeletedPeer(data, peer, menu).value)
      == if menu.peersQuickRegistered then PeeringChanges(data.fc, peer) else []
  {
    var silent := DeletedSilentSteps(data.fc, peer, menu);
    var ns := if menu.peersQuickRegistered then PeeringChanges(data.fc, peer) else [];
    assert NotifyAll([]) == [];
    NotificationsOfSilent(silent);
    NotificationsAppend(silent, NotifyAll(ns));
    NotificationsOfNotifyAll(ns);
  }

  /** With the PEERS quick node registered, the add/update listener first updates the
      store and the status, creates the peer's node if it had none, refreshes the node
      and the peer count, and only then notifies: every later step is a notification,
      and no earlier one is. */
  lemma ListenAddedOrUpdatedPeerOrder(data: NotifyData, peer: PeerRecord, menu: TrayMenu)
    requires data.ForeignClusterData? && menu.peersQuickRegistered
    ensures var t := ListenAddedOrUpdatedPeer(data, peer, menu).value;
            var id := peer.clusterID;
            var k := if id in menu.peerNodes then 4 else 5;
            && |t| >= k
            && (id in menu.peerNodes ==>
                  t[..k] == [AddOrUpdatePeer(data.fc), RefreshStatus, RefreshPeerNode(id), RefreshPeerCount])
            && (id !in menu.peerNodes ==>
                  t[..k] == [AddOrUpdatePeer(data.fc), RefreshStatus, CreatePeerNode(id), RefreshPeerNode(id), RefreshPeerCount])
            && forall j | 0 <= j < |t| :: (t[j].NotifyPeering? <==> j >= k)
  {
    var silent := AddedOrUpdatedSilentSteps(data.fc, peer, menu);
    var notes := NotifyAll(AddedOrUpdatedNotifications(peer.clusterID in menu.peerNodes, data.fc, peer));
    SilentThenNotified(silent, notes);
  }

  /** With the PEERS quick node registered, the delete listener first removes the peer
      from the store, refreshes the status, frees the peer's node if it has one and
      refreshes the peer count, and only then notifies: every later step is a
      notification, and no earlier one is. */
  lemma ListenDeletedPeerOrder(data: NotifyData, peer: PeerRecord, menu: TrayMenu)
    requires data.ForeignClusterData? && menu.peersQuickRegistered
    ensures var t := ListenDeletedPeer(data, peer, menu).value;
            var id := peer.clusterID;
            var k := if id in menu.peerNodes then 4 else 3;
            && |t| >= k
            && (id in menu.peerNodes ==>
                  t[..k] == [RemovePeer(data.fc), RefreshStatus, FreeListChild(id), RefreshPeerCount])
            && (id !in menu.peerNodes ==>
                  t[..k] == [RemovePeer(data.fc), RefreshStatus, RefreshPeerCount])
            && forall j | 0 <= j < |t| :: (t[j].NotifyPeering? <==> j >= k)
  {
    var silent := DeletedSilentSteps(data.fc, peer, menu);
    var notes := NotifyAll(PeeringChanges(data.fc, peer));
    SilentThenNotified(silent, notes);
  }

  /** When the record the store returns already agrees with the event on both
      directions, an update of a peer that has a menu node notifies nothing. */
  lemma SettledUpdateIsSilent(data: NotifyData, peer: PeerRecord, menu: TrayMenu)
    requires data.ForeignClusterData?
    requires peer.clusterID in menu.peerNodes
    requires peer.outPeeringConnected == data.fc.outPeering.connected
    requires peer.inPeeringConnected == data.fc.inPeering.connected
    ensures Notifications(ListenAddedOrUpdatedPeer(data, peer, menu).value) == []
  {
    ListenAddedOrUpdatedPeerNotifications(data, peer, menu);
  }

  /** A delete whose event reports both directions connected while the removed record
      reports both disconnected notifies exactly two Offs, outgoing first. */
  lemma DeleteBothOff(data: NotifyData, peer: PeerRecord, menu: TrayMenu)
    requires data.ForeignClusterData? && menu.peersQuickRegistered
    requires data.fc.outPeering.connected && data.fc.inPeering.connected
    requires !peer.outPeeringConnected && !peer.inPeeringConnected
    ensures Notifications(ListenDeletedPeer(data, peer, menu).value)
      == [Off(PeeringOutgoing, peer.clusterID), Off(PeeringIncoming, peer.clusterID)]
  {
    ListenDeletedPeerNotifications(data, peer, menu);
  }
}
