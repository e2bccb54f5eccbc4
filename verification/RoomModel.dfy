/**
 * One room as a value: its sockets with their attachments, the groups of its relay and the digest
 * registry; and what each event of the room makes of them. What an event does to the groups is
 * given as the list of group operations it carries out.
 */
module RoomModel {
  import opened Orders
  import opened Collections
  import opened Wire
  import opened RouteModel
  import opened SyncRpc
  import opened PeerManager
  import opened Handshake

  type SocketId = nat

  const SOCKET_TIMEOUT_MS: Millis := 120_000
  const STALE_P2P_THRESHOLD_MS: Millis := 600_000

  datatype Attachment = Attachment(
    peerId: PeerId,
    groupKey: string,
    domainName: string,
    serverSessionId: SessionId,
    weAreInitiator: bool,
    lastSeen: Millis)

  datatype Room = Room(
    sockets: seq<SocketId>,
    atts: map<SocketId, Attachment>,
    groups: Groups,
    digests: Digests)

  // ---- group operations by key ----

  datatype Op = Op(key: string, event: Event)

  ghost function ApplyOp(groups: Groups, draws: string -> nat, op: Op): Groups {
    groups[op.key := Apply(Lookup(groups, draws, op.key), op.event)]
  }

  ghost function ApplyOps(groups: Groups, draws: string -> nat, ops: seq<Op>): Groups {
    if ops == [] then groups
    else ApplyOp(ApplyOps(groups, draws, ops[..|ops| - 1]), draws, ops[|ops| - 1])
  }

  lemma ApplyOneMore(groups: Groups, draws: string -> nat, ops: seq<Op>, op: Op)
    ensures ApplyOps(groups, draws, ops + [op]) == ApplyOp(ApplyOps(groups, draws, ops), draws, op)
  {
    assert (ops + [op])[..|ops|] == ops;
  }

  lemma {:induction false} ApplyConcat(groups: Groups, draws: string -> nat, a: seq<Op>, b: seq<Op>)
    ensures ApplyOps(groups, draws, a + b) == ApplyOps(ApplyOps(groups, draws, a), draws, b)
  {
    hide ApplyOp;
    if b == [] {
      assert a + b == a;
    } else {
      var prefix, last := b[..|b| - 1], b[|b| - 1];
      ApplyConcat(groups, draws, a, prefix);
      assert a + b == a + prefix + [last];
      ApplyOneMore(groups, draws, a + prefix, last);
    }
  }

  function OpsAt(key: string, es: seq<Event>): seq<Op> {
    if es == [] then [] else OpsAt(key, es[..|es| - 1]) + [Op(key, es[|es| - 1])]
  }

  /** A list of operations on one key is a run of that group. */
  lemma {:induction false} OpsAtIsRun(groups: Groups, draws: string -> nat, key: string, es: seq<Event>)
    requires es != []
    ensures ApplyOps(groups, draws, OpsAt(key, es)) == groups[key := Run(Lookup(groups, draws, key), es)]
  {
    var prefix, last := es[..|es| - 1], es[|es| - 1];
    var g := Lookup(groups, draws, key);
    ApplyOneMore(groups, draws, OpsAt(key, prefix), Op(key, last));
    if prefix == [] {
      assert Run(g, prefix) == g;
    } else {
      OpsAtIsRun(groups, draws, key, prefix);
      OverwriteTwice(groups, key, Run(g, prefix), Run(g, es));
    }
  }

  // ---- broadcasts ----

  /** A socket is sent a broadcast when it belongs to the group and does not stand for the excluded peer. */
  predicate IsReached(att: Attachment, key: string, excluded: PeerId) {
    att.peerId != excluded && att.groupKey == key
  }

  function UpdateOp(att: Attachment, now: Millis): Op {
    Op(att.groupKey, Build(att.peerId, att.serverSessionId, att.weAreInitiator, true, now))
  }

  function BroadcastOps(sockets: seq<SocketId>, atts: map<SocketId, Attachment>, key: string, excluded: PeerId,
                        now: Millis): seq<Op>
    requires forall s | s in sockets :: s in atts
  {
    if sockets == [] then []
    else
      var last := atts[sockets[|sockets| - 1]];
      BroadcastOps(sockets[..|sockets| - 1], atts, key, excluded, now) +
      (if IsReached(last, key, excluded) then [UpdateOp(last, now)] else [])
  }

  /** The groups once the update for one socket is built and recorded. */
  ghost function UpdateBuilt(groups: Groups, draws: string -> nat, att: Attachment, now: Millis): Groups {
    groups[att.groupKey := Built(Lookup(groups, draws, att.groupKey), att.peerId, att.serverSessionId, true, now)]
  }

  ghost function UpdateFor(groups: Groups, draws: string -> nat, att: Attachment, now: Millis): SyncRequest {
    Update(Lookup(groups, draws, att.groupKey), att.peerId, att.serverSessionId, att.weAreInitiator, true, now)
  }

  /** The groups after a broadcast, the sockets being served in order. */
  ghost function BroadcastGroups(groups: Groups, draws: string -> nat, sockets: seq<SocketId>,
                                 atts: map<SocketId, Attachment>,
                                 key: string, excluded: PeerId, now: Millis): Groups
    requires forall s | s in sockets :: s in atts
  {
    if sockets == [] then groups
    else
      var last := atts[sockets[|sockets| - 1]];
      var groups' := BroadcastGroups(groups, draws, sockets[..|sockets| - 1], atts, key, excluded, now);
      if IsReached(last, key, excluded) then UpdateBuilt(groups', draws, last, now) else groups'
  }

  lemma AppliedUpdate(groups: Groups, draws: string -> nat, att: Attachment, now: Millis)
    ensures ApplyOp(groups, draws, UpdateOp(att, now)) == UpdateBuilt(groups, draws, att, now)
  {
    ApplyBuild(Lookup(groups, draws, att.groupKey), att.peerId, att.serverSessionId, att.weAreInitiator, true, now);
  }

  lemma {:induction false} BroadcastIsOps(groups: Groups, draws: string -> nat, sockets: seq<SocketId>,
                                          atts: map<SocketId, Attachment>,
                                          key: string, excluded: PeerId, now: Millis)
    requires forall s | s in sockets :: s in atts
    ensures BroadcastGroups(groups, draws, sockets, atts, key, excluded, now) ==
            ApplyOps(groups, draws, BroadcastOps(sockets, atts, key, excluded, now))
  {
    if sockets != [] {
      var before, last := sockets[..|sockets| - 1], atts[sockets[|sockets| - 1]];
      var ops := BroadcastOps(before, atts, key, excluded, now);
      BroadcastIsOps(groups, draws, before, atts, key, excluded, now);
      if IsReached(last, key, excluded) {
        ApplyOneMore(groups, draws, ops, UpdateOp(last, now));
        AppliedUpdate(ApplyOps(groups, draws, ops), draws, last, now);
      } else {
        assert ops + [] == ops;
      }
    }
  }

  datatype Delivery = Delivery(socket: SocketId, peer: PeerId, update: SyncRequest)

  /** What a broadcast sends, socket by socket. */
  ghost function BroadcastDeliveries(groups: Groups, draws: string -> nat, sockets: seq<SocketId>,
                                     atts: map<SocketId, Attachment>,
                                     key: string, excluded: PeerId, now: Millis): seq<Delivery>
    requires forall s | s in sockets :: s in atts
  {
    if sockets == [] then []
    else
      var before, s := sockets[..|sockets| - 1], sockets[|sockets| - 1];
      var groups' := BroadcastGroups(groups, draws, before, atts, key, excluded, now);
      BroadcastDeliveries(groups, draws, before, atts, key, excluded, now) +
      (if IsReached(atts[s], key, excluded) then [Delivery(s, atts[s].peerId, UpdateFor(groups', draws, atts[s], now))]
       else [])
  }

  // ---- events of a room ----

  datatype Step =
    | Accept(socket: SocketId, serverSessionId: SessionId, now: Millis)
    | Shake(socket: SocketId, shake: Option<HandshakeRequest>, now: Millis)
    | Sync(socket: SocketId, req: Option<SyncRequest>, now: Millis)
    | SyncAnswer(socket: SocketId, from: PeerId, sid: SessionId, now: Millis)
    | Hear(socket: SocketId, now: Millis)
    | Close(socket: SocketId, now: Millis)
    | Alarm(keys: seq<string>, now: Millis)
    | Restart(isolateIsNew: bool)

  ghost predicate WellFormed(room: Room) {
    && (forall s | s in room.sockets :: s in room.atts)
    && (forall i, j | 0 <= i < j < |room.sockets| :: room.sockets[i] != room.sockets[j])
    && (forall s, s' | s in room.sockets && s' in room.sockets && s != s' ::
          room.atts[s].serverSessionId != room.atts[s'].serverSessionId)
  }

  /** The groups that have a live socket. */
  function AliveKeys(sockets: seq<SocketId>, atts: map<SocketId, Attachment>, now: Millis): set<string> {
    set s | s in sockets && s in atts && IsAlive(atts[s], now) && atts[s].groupKey != "" :: atts[s].groupKey
  }

  /** A time before the last message reads as a huge unsigned interval, so it counts as timed out. */
  predicate IsAlive(att: Attachment, now: Millis) {
    att.lastSeen > 0 && 0 <= now - att.lastSeen <= SOCKET_TIMEOUT_MS
  }

  /** The order of strings: by the first character that differs, a prefix first. */
  predicate Precedes(a: string, b: string) {
    b != [] && (a == [] || a[0] < b[0] || (a[0] == b[0] && Precedes(a[1..], b[1..])))
  }

  /**
   * Session ids are drawn unique; messages and closings come from sockets of the room; the alarm visits the
   * groups in order.
   */
  ghost predicate Enabled(room: Room, step: Step) {
    match step
    case Accept(s, ssid, _) =>
      && s !in room.sockets
      && (forall s' | s' in room.sockets && s' in room.atts :: room.atts[s'].serverSessionId != ssid)
    case Alarm(keys, now) =>
      && (forall k :: k in keys <==> k in AliveKeys(room.sockets, room.atts, now))
      && InOrder(Precedes, keys)
    case Restart(_) => true
    case _ => step.socket in room.sockets
  }

  function HandshakeInfo(p: PeerId, now: Millis): PeerInfo {
    PeerInfo(p, 1, Some(Seconds(now)), 24, 0, "")
  }

  function ShakenAttachment(att: Attachment, outcome: Outcome, now: Millis): Attachment {
    att.(peerId := outcome.peerId, groupKey := outcome.groupKey, domainName := outcome.domainName,
         weAreInitiator := false, lastSeen := now)
  }

  /** Whether another live socket stands for the same peer id, whatever its group. */
  predicate HasOtherConnection(room: Room, att: Attachment) {
    StandsElsewhere(room.sockets, room.atts, att)
  }

  predicate StandsElsewhere(sockets: seq<SocketId>, atts: map<SocketId, Attachment>, att: Attachment) {
    exists s | s in sockets ::
      s in atts && atts[s].peerId == att.peerId && atts[s].serverSessionId != att.serverSessionId
  }

  function ShakeOutcome(room: Room, shake: Option<HandshakeRequest>): Option<Outcome> {
    match shake case None => None case Some(req) => OutcomeOf(room.digests, req)
  }

  function ArrivalEvents(p: PeerId, now: Millis): seq<Event> {
    [AddPeer(p), BumpMyInfo, UpdateInfo(HandshakeInfo(p, now)), BumpMyInfo]
  }

  /**
   * The operations before the broadcast of an accepted handshake; the last one builds an update that is
   * thrown away.
   */
  function WelcomeEvents(att: Attachment, now: Millis): seq<Event> {
    ArrivalEvents(att.peerId, now) + [Build(att.peerId, att.serverSessionId, att.weAreInitiator, true, now)]
  }

  function AddEvents(p: PeerId): seq<Event> {
    [AddPeer(p), BumpMyInfo]
  }

  /** A restart adds the peer of every socket whose group does not list it yet. */
  ghost function RestartOps(groups: Groups, draws: string -> nat, sockets: seq<SocketId>,
                            atts: map<SocketId, Attachment>): seq<Op>
    requires forall s | s in sockets :: s in atts
  {
    if sockets == [] then []
    else
      var before, att := sockets[..|sockets| - 1], atts[sockets[|sockets| - 1]];
      var ops := RestartOps(groups, draws, before, atts);
      if att.peerId != 0 && att.peerId !in PeersAt(ApplyOps(groups, draws, ops), att.groupKey) then
        ops + OpsAt(att.groupKey, AddEvents(att.peerId))
      else ops
  }

  function CleanupOps(keys: seq<string>, now: Millis): seq<Op> {
    if keys == [] then []
    else CleanupOps(keys[..|keys| - 1], now) + [Op(keys[|keys| - 1], Cleanup(STALE_P2P_THRESHOLD_MS, now))]
  }

  function RefreshOps(sockets: seq<SocketId>, atts: map<SocketId, Attachment>, keys: seq<string>, now: Millis): seq<Op>
    requires forall s | s in sockets :: s in atts
  {
    if keys == [] then []
    else
      RefreshOps(sockets, atts, keys[..|keys| - 1], now) + BroadcastOps(sockets, atts, keys[|keys| - 1], 0, now)
  }

  /** The attachments after a step. */
  function AttsAfter(room: Room, step: Step): map<SocketId, Attachment>
    requires step.Accept? || step.Alarm? || step.Restart? || step.socket in room.atts
  {
    match step
    case Accept(s, ssid, now) => room.atts[s := Attachment(0, "", "", ssid, false, now)]
    case Shake(s, shake, now) =>
      (match ShakeOutcome(room, shake)
       case Some(outcome) => room.atts[s := ShakenAttachment(room.atts[s], outcome, now)]
       case None => room.atts[s := room.atts[s].(lastSeen := now)])
    case Close(s, _) => room.atts - {s}
    case Alarm(_, _) => room.atts
    case Restart(_) => room.atts
    case _ => room.atts[step.socket := room.atts[step.socket].(lastSeen := step.now)]
  }

  function SocketsLeft(sockets: seq<SocketId>, s: SocketId): seq<SocketId> {
    if sockets == [] then []
    else
      var last := sockets[|sockets| - 1];
      SocketsLeft(sockets[..|sockets| - 1], s) + (if last == s then [] else [last])
  }

  function SocketsAfter(room: Room, step: Step): seq<SocketId> {
    match step
    case Accept(s, _, _) => room.sockets + [s]
    case Close(s, _) => SocketsLeft(room.sockets, s)
    case _ => room.sockets
  }

  function DigestsAt(room: Room, step: Step): Digests {
    match step
    case Shake(_, Some(req), _) => Registered(room.digests, req)
    case Restart(isolateIsNew) => if isolateIsNew then map[] else room.digests
    case _ => room.digests
  }

  function GroupsKept(room: Room, step: Step): Groups {
    if step.Restart? && step.isolateIsNew then map[] else room.groups
  }

  /** The group operations a step carries out, in order. */
  ghost function Ops(room: Room, draws: string -> nat, step: Step): seq<Op>
    requires WellFormed(room) && Enabled(room, step)
  {
    match step
    case Accept(_, _, _) => []
    case Shake(s, shake, now) =>
      (match ShakeOutcome(room, shake)
       case Some(outcome) =>
         var atts := AttsAfter(room, step);
         OpsAt(atts[s].groupKey, WelcomeEvents(atts[s], now)) +
         BroadcastOps(room.sockets, atts, outcome.groupKey, 0, now)
       case None => [])
    case Sync(s, None, now) => []
    case Sync(s, Some(req), now) =>
      var att := room.atts[s];
      OpsAt(att.groupKey, SyncEvents(att.peerId, req, now)) + [UpdateOp(att, now)] +
      (if Broadcasts(Lookup(room.groups, draws, att.groupKey), att.peerId, req, now)
       then BroadcastOps(room.sockets, room.atts, att.groupKey, att.peerId, now) else [])
    case SyncAnswer(s, from, sid, now) =>
      var att := room.atts[s];
      if sid == 0 then [] else [Op(att.groupKey, Ack(from, sid, att.weAreInitiator, now))]
    case Hear(_, _) => []
    case Close(s, now) =>
      var att := room.atts[s];
      if att.peerId == 0 || HasOtherConnection(room, att) then []
      else
        [Op(att.groupKey, RemovePeer(att.peerId, now))] +
        BroadcastOps(room.sockets, room.atts, att.groupKey, att.peerId, now)
    case Alarm(keys, now) => CleanupOps(keys, now) + RefreshOps(room.sockets, room.atts, keys, now)
    case Restart(_) => RestartOps(GroupsKept(room, step), draws, room.sockets, room.atts)
  }

  ghost function RoomAfter(room: Room, draws: string -> nat, step: Step): Room
    requires WellFormed(room) && Enabled(room, step)
  {
    Room(SocketsAfter(room, step), AttsAfter(room, step),
         ApplyOps(GroupsKept(room, step), draws, Ops(room, draws, step)), DigestsAt(room, step))
  }

  ghost function ShakeDeliveries(room: Room, draws: string -> nat, atts: map<SocketId, Attachment>, att: Attachment,
                                 now: Millis): seq<Delivery>
    requires forall s | s in room.sockets :: s in atts
  {
    var groups := ApplyOps(room.groups, draws, OpsAt(att.groupKey, WelcomeEvents(att, now)));
    BroadcastDeliveries(groups, draws, room.sockets, atts, att.groupKey, 0, now)
  }

  ghost function SyncDeliveries(room: Room, draws: string -> nat, s: SocketId, req: SyncRequest,
                                now: Millis): seq<Delivery>
    requires s in room.atts && forall s | s in room.sockets :: s in room.atts
  {
    var att := room.atts[s];
    var groups := ApplyOps(room.groups, draws, OpsAt(att.groupKey, SyncEvents(att.peerId, req, now)));
    [Delivery(s, att.peerId, UpdateFor(groups, draws, att, now))] +
    (if Broadcasts(Lookup(room.groups, draws, att.groupKey), att.peerId, req, now) then
       BroadcastDeliveries(UpdateBuilt(groups, draws, att, now), draws, room.sockets, room.atts,
                           att.groupKey, att.peerId, now)
     else [])
  }

  ghost function RefreshDeliveries(groups: Groups, draws: string -> nat, sockets: seq<SocketId>,
                                   atts: map<SocketId, Attachment>,
                                   keys: seq<string>, now: Millis): seq<Delivery>
    requires forall s | s in sockets :: s in atts
  {
    if keys == [] then []
    else
      var before, key := keys[..|keys| - 1], keys[|keys| - 1];
      var groups' := ApplyOps(groups, draws, RefreshOps(sockets, atts, before, now));
      RefreshDeliveries(groups, draws, sockets, atts, before, now) +
      BroadcastDeliveries(groups', draws, sockets, atts, key, 0, now)
  }

  /** The route updates that a step sends, in order. */
  ghost function Deliveries(room: Room, draws: string -> nat, step: Step): seq<Delivery>
    requires WellFormed(room) && Enabled(room, step)
  {
    match step
    case Shake(s, shake, now) =>
      (match ShakeOutcome(room, shake)
       case Some(_) => ShakeDeliveries(room, draws, AttsAfter(room, step), AttsAfter(room, step)[s], now)
       case None => [])
    case Sync(s, Some(req), now) => SyncDeliveries(room, draws, s, req, now)
    case Close(s, now) =>
      var att := room.atts[s];
      if att.peerId == 0 || HasOtherConnection(room, att) then []
      else
        BroadcastDeliveries(ApplyOp(room.groups, draws, Op(att.groupKey, RemovePeer(att.peerId, now))), draws,
                            room.sockets, room.atts, att.groupKey, att.peerId, now)
    case Alarm(keys, now) =>
      RefreshDeliveries(ApplyOps(room.groups, draws, CleanupOps(keys, now)), draws, room.sockets, room.atts, keys, now)
    case _ => []
  }

  /** A step of a room leads to `after` and sends the updates `sent`, in this order. */
  ghost predicate Performs(room: Room, draws: string -> nat, step: Step, after: Room, sent: seq<Delivery>)
    requires WellFormed(room) && Enabled(room, step)
  {
    after == RoomAfter(room, draws, step) && sent == Deliveries(room, draws, step)
  }

  const EMPTY_ROOM := Room([], map[], map[], map[])
}
