/** What the relay says about itself: its own info in updates, and its session id in replies. */
module Announcements {
  import opened Collections
  import opened Wire
  import opened RouteModel
  import opened Invariants
  import opened GraphTheorems

  // ---- its own info ----

  ghost predicate NoneAhead(sessions: map<PeerId, Session>, v: Version) {
    forall t | t in sessions :: Get(sessions[t].peerInfoVersions, MY_PEER_ID, 0) <= v
  }

  /** The relay's info carries the relay's counter, and no target was sent a later one. */
  ghost predicate OwnInfoCounts(g: Group) {
    1 <= g.myInfoVersion == g.myInfo.version && NoneAhead(g.sessions, g.myInfoVersion)
  }

  lemma BuildKeepsCount(g: Group, t: PeerId, sid: SessionId, force: bool, now: Millis)
    requires OwnInfoCounts(g)
    ensures OwnInfoCounts(Built(g, t, sid, force, now))
  {
    hide Built, BitmapFor, BitmapOver, RelevantPeers, WithStubs;
    BuiltRest(g, t, sid, force, now);
    BuiltSessions(g, t, sid, force, now);
  }

  lemma StepKeepsCount(g: Group, e: Event)
    requires OwnInfoCounts(g)
    ensures OwnInfoCounts(Apply(g, e))
  {
    hide Built;
    if e.Build? {
      BuildKeepsCount(g, e.peer, e.sid, e.force, e.now);
    }
  }

  lemma {:induction false} RunKeepsCount(routeId: nat, es: seq<Event>)
    ensures OwnInfoCounts(Run(NewGroup(routeId), es))
  {
    if es != [] {
      RunKeepsCount(routeId, es[..|es| - 1]);
      StepKeepsCount(Run(NewGroup(routeId), es[..|es| - 1]), es[|es| - 1]);
    }
  }

  /** After any run, a bump of the relay's info is in the next update for any target, delta or full. */
  lemma OwnInfoGoesOut(routeId: nat, es: seq<Event>, t: PeerId, sid: SessionId, weAreInitiator: bool, force: bool,
                       now: Millis)
    ensures var g, h := Run(NewGroup(routeId), es), Run(NewGroup(routeId), es + [BumpMyInfo]);
            h.myInfo.version > g.myInfo.version && h.myInfo in ItemsOf(Update(h, t, sid, weAreInitiator, force, now))
  {
    var g, h := Run(NewGroup(routeId), es), Run(NewGroup(routeId), es + [BumpMyInfo]);
    RunAppend(NewGroup(routeId), es, BumpMyInfo);
    RunKeepsCount(routeId, es);
    RunKeepsInv(routeId, es + [BumpMyInfo]);
    BumpIsDue(g, t, sid, weAreInitiator, force, now);
  }

  lemma BumpIsDue(g: Group, t: PeerId, sid: SessionId, weAreInitiator: bool, force: bool, now: Millis)
    requires OwnInfoCounts(g) && Inv(MyInfoBumped(g))
    ensures var h := MyInfoBumped(g);
            h.myInfo.version > g.myInfo.version && h.myInfo in ItemsOf(Update(h, t, sid, weAreInitiator, force, now))
  {
    var h := MyInfoBumped(g);
    var s := SessionOf(h, t);
    InfosCarriedAreThoseDue(StoreOf(h), s.peerInfoVersions, SendsAll(s, force), RelevantPeers(h, t), now);
    assert IsDue(StoreOf(h), s.peerInfoVersions, SendsAll(s, force), MY_PEER_ID, now);
    assert MY_PEER_ID in RelevantPeers(h, t);
    assert ListsInfo(ItemsOf(Update(h, t, sid, weAreInitiator, force, now)), MY_PEER_ID);
  }

  // ---- its session id ----

  /** The session id that the last update built for a peer named, if the peer was not removed since. */
  function LastNamed(es: seq<Event>, p: PeerId): Option<SessionId> {
    if es == [] then None
    else
      match es[|es| - 1]
      case Build(q, sid, _, _, _) => if q == p then Some(sid) else LastNamed(es[..|es| - 1], p)
      case RemovePeer(q, _) => if q == p then None else LastNamed(es[..|es| - 1], p)
      case _ => LastNamed(es[..|es| - 1], p)
  }

  lemma StepNames(g: Group, e: Event, p: PeerId)
    ensures SessionOf(Apply(g, e), p).mySessionId ==
            match e
            case Build(q, sid, _, _, _) => if q == p then Some(sid) else SessionOf(g, p).mySessionId
            case RemovePeer(q, _) => if q == p then None else SessionOf(g, p).mySessionId
            case _ => SessionOf(g, p).mySessionId
  {
    hide Built;
    if e.Build? {
      BuiltSessions(g, e.peer, e.sid, e.force, e.now);
    }
  }

  /** Over every run a reply names the session id of the last update built for the peer, or 1 if there is none. */
  lemma {:induction false} RepliesNameLastSession(routeId: nat, es: seq<Event>, p: PeerId, req: SyncRequest)
    ensures SyncReply(Run(NewGroup(routeId), es), p, req).sessionId ==
            match LastNamed(es, p) case None => 1 case Some(sid) => sid
  {
    SessionsNamed(routeId, es, p);
  }

  lemma {:induction false} SessionsNamed(routeId: nat, es: seq<Event>, p: PeerId)
    ensures SessionOf(Run(NewGroup(routeId), es), p).mySessionId == LastNamed(es, p)
  {
    hide Apply;
    if es != [] {
      SessionsNamed(routeId, es[..|es| - 1], p);
      StepNames(Run(NewGroup(routeId), es[..|es| - 1]), es[|es| - 1], p);
    }
  }
}
