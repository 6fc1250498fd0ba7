/** Who drives a session: one driver, handed on by transfer or departure, and the view every peer is told. */
module RolesModel {
  import opened Protocol

  datatype SessionId = SessionId(text: string)

  datatype Peer = Peer(viewerId: ViewerId, sessionId: SessionId, driverInvited: bool, latestViewport: Option<string>)

  /** `ids` in insertion order. */
  datatype Session = Session(ids: seq<ViewerId>, driver: Option<ViewerId>)

  /** `inbox` is history: everything sent to a connected peer since it connected. */
  datatype Roles = Roles(peers: map<ViewerId, Peer>, sessions: map<SessionId, Session>, inbox: map<ViewerId, seq<Down>>)

  const EMPTY := Roles(map[], map[], map[])

  datatype Change = Change(sessionId: SessionId, from: ViewerId, to: ViewerId, viewport: Option<string>, transferred: bool)

  /** Upstream messages, as far as routing looks at them. */
  datatype Up = View(viewport: string) | OtherDriverOnly | Transfer(to: ViewerId) | Free

  datatype Disposition = Forwarded | Handled | Dropped

  function Broadcast(inbox: map<ViewerId, seq<Down>>, ids: seq<ViewerId>, msg: Down): map<ViewerId, seq<Down>> {
    map v | v in inbox :: if v in ids then inbox[v] + [msg] else inbox[v]
  }

  function BroadcastDriver(inbox: map<ViewerId, seq<Down>>, s: Session): map<ViewerId, seq<Down>> {
    if s.driver.Some? then Broadcast(inbox, s.ids, Driver(s.driver.value)) else inbox
  }

  function BroadcastState(inbox: map<ViewerId, seq<Down>>, s: Session): map<ViewerId, seq<Down>> {
    BroadcastDriver(Broadcast(inbox, s.ids, Presence(s.ids)), s)
  }

  function SessionOf(r: Roles, sid: SessionId): Session {
    if sid in r.sessions then r.sessions[sid] else Session([], None)
  }

  predicate CanConnect(r: Roles, id: ViewerId, sid: SessionId) {
    sid.text != "" && id.text != "" && id !in r.peers
  }

  function Connect(r: Roles, id: ViewerId, sid: SessionId, driverInvited: bool): Roles
    requires CanConnect(r, id, sid)
  {
    var before := SessionOf(r, sid);
    var s := Session(before.ids + [id], if before.driver.None? && driverInvited then Some(id) else before.driver);
    Roles(r.peers[id := Peer(id, sid, driverInvited, None)], r.sessions[sid := s],
          BroadcastState(r.inbox[id := [Hello(id, s.driver == Some(id))]], s))
  }

  /** The first peer, in insertion order, that was invited to drive. */
  function Replacement(peers: map<ViewerId, Peer>, ids: seq<ViewerId>): Option<ViewerId> {
    if ids == [] then None
    else if ids[0] in peers && peers[ids[0]].driverInvited then Some(ids[0])
    else Replacement(peers, ids[1..])
  }

  function Without(ids: seq<ViewerId>, id: ViewerId): seq<ViewerId> {
    if ids == [] then [] else if ids[0] == id then Without(ids[1..], id) else [ids[0]] + Without(ids[1..], id)
  }

  function Disconnect(r: Roles, id: ViewerId): (Roles, Option<Change>) {
    if id !in r.peers then (r, None)
    else
      var sid := r.peers[id].sessionId;
      var peers := r.peers - {id};
      var inbox := r.inbox - {id};
      if sid !in r.sessions then (Roles(peers, r.sessions, inbox), None)
      else
        var before := r.sessions[sid];
        var ids := Without(before.ids, id);
        var left := before.driver == Some(id);
        var s := Session(ids, if left then Replacement(peers, ids) else before.driver);
        var change := if left && s.driver.Some? && s.driver.value in peers
                      then Some(Change(sid, id, s.driver.value, peers[s.driver.value].latestViewport, false)) else None;
        if ids == [] then (Roles(peers, r.sessions - {sid}, inbox), change)
        else (Roles(peers, r.sessions[sid := s], BroadcastState(inbox, s)), change)
  }

  predicate IsDriver(r: Roles, id: ViewerId) {
    id in r.peers && r.peers[id].sessionId in r.sessions && r.sessions[r.peers[id].sessionId].driver == Some(id)
  }

  predicate DriverOnly(up: Up) {
    up.View? || up.OtherDriverOnly?
  }

  function WithViewport(r: Roles, id: ViewerId, viewport: string): Roles
    requires id in r.peers
  {
    r.(peers := r.peers[id := r.peers[id].(latestViewport := Some(viewport))])
  }

  function RouteUp(r: Roles, id: ViewerId, up: Up): (Roles, Disposition, Option<Change>) {
    if id !in r.peers || r.peers[id].sessionId !in r.sessions then (r, Dropped, None)
    else
      var sid := r.peers[id].sessionId;
      var s := r.sessions[sid];
      if up.Transfer? then
        if s.driver != Some(id) || up.to !in s.ids || up.to == id || up.to !in r.peers then (r, Dropped, None)
        else
          var t := s.(driver := Some(up.to));
          (Roles(r.peers, r.sessions[sid := t], BroadcastDriver(r.inbox, t)), Handled,
           Some(Change(sid, id, up.to, r.peers[up.to].latestViewport, true)))
      else
        var noted := if up.View? then WithViewport(r, id, up.viewport) else r;
        (noted, if DriverOnly(up) && s.driver != Some(id) then Dropped else Forwarded, None)
  }

  // ---- Runs ----

  datatype Step =
    | Connects(id: ViewerId, sessionId: SessionId, driverInvited: bool)
    | Leaves(id: ViewerId)
    | Sends(id: ViewerId, up: Up)

  function Apply(r: Roles, step: Step): Roles {
    match step
    case Connects(id, sid, driverInvited) => if CanConnect(r, id, sid) then Connect(r, id, sid, driverInvited) else r
    case Leaves(id) => Disconnect(r, id).0
    case Sends(id, up) => RouteUp(r, id, up).0
  }

  function Run(r: Roles, steps: seq<Step>): Roles
    decreases |steps|
  {
    if steps == [] then r else Run(Apply(r, steps[0]), steps[1..])
  }

  // ---- What a peer believes ----

  function LastDriver(inbox: seq<Down>): Option<ViewerId> {
    if inbox == [] then None
    else
      var last := inbox[|inbox| - 1];
      if last.Driver? then Some(last.viewerId) else LastDriver(inbox[..|inbox| - 1])
  }

  function LastPresence(inbox: seq<Down>): Option<seq<ViewerId>> {
    if inbox == [] then None
    else
      var last := inbox[|inbox| - 1];
      if last.Presence? then Some(last.viewers) else LastPresence(inbox[..|inbox| - 1])
  }

  lemma LastAfter(inbox: seq<Down>, msg: Down)
    ensures LastDriver(inbox + [msg]) == if msg.Driver? then Some(msg.viewerId) else LastDriver(inbox)
    ensures LastPresence(inbox + [msg]) == if msg.Presence? then Some(msg.viewers) else LastPresence(inbox)
  {
    assert (inbox + [msg])[..|inbox|] == inbox;
  }

  predicate Distinct(ids: seq<ViewerId>) {
    forall i, j :: 0 <= i < j < |ids| ==> ids[i] != ids[j]
  }

  // ---- Invariant ----

  ghost predicate PeersListed(peers: map<ViewerId, Peer>, sessions: map<SessionId, Session>) {
    forall id :: id in peers ==>
      peers[id].viewerId == id && peers[id].sessionId in sessions && id in sessions[peers[id].sessionId].ids
  }

  ghost predicate ListedOk(peers: map<ViewerId, Peer>, sid: SessionId, s: Session) {
    && s.ids != [] && Distinct(s.ids)
    && forall id :: id in s.ids ==> id in peers && peers[id].sessionId == sid
  }

  /** The peer map and the session map agree. */
  ghost predicate MapsAgree(r: Roles) {
    && r.inbox.Keys == r.peers.Keys
    && PeersListed(r.peers, r.sessions)
    && forall sid :: sid in r.sessions ==> ListedOk(r.peers, sid, r.sessions[sid])
  }

  /** The driver is a peer; there is none only if nobody present was invited to drive. */
  predicate DriverOk(peers: map<ViewerId, Peer>, s: Session) {
    && (s.driver.Some? ==> s.driver.value in s.ids)
    && (s.driver.None? ==> forall id :: id in s.ids ==> id in peers ==> !peers[id].driverInvited)
  }

  /** Every peer was last told the present list and, if there is one, the present driver. */
  predicate Told(inbox: map<ViewerId, seq<Down>>, s: Session) {
    forall id :: id in s.ids && id in inbox ==>
      LastPresence(inbox[id]) == Some(s.ids) && (s.driver.Some? ==> LastDriver(inbox[id]) == s.driver)
  }

  ghost predicate Inv(r: Roles) {
    && MapsAgree(r)
    && (forall sid :: sid in r.sessions ==> DriverOk(r.peers, r.sessions[sid]) && Told(r.inbox, r.sessions[sid]))
  }

  lemma BroadcastStateTells(inbox: map<ViewerId, seq<Down>>, s: Session)
    ensures var out := BroadcastState(inbox, s);
      && out.Keys == inbox.Keys && Told(out, s)
      && forall v :: v in inbox && v !in s.ids ==> out[v] == inbox[v]
  {
    var out := BroadcastState(inbox, s);
    forall id | id in s.ids && id in inbox
      ensures LastPresence(out[id]) == Some(s.ids) && (s.driver.Some? ==> LastDriver(out[id]) == s.driver)
    {
      LastAfter(inbox[id], Presence(s.ids));
      if s.driver.Some? { LastAfter(inbox[id] + [Presence(s.ids)], Driver(s.driver.value)); }
    }
  }

  lemma BroadcastDriverTells(inbox: map<ViewerId, seq<Down>>, s: Session, before: Option<ViewerId>)
    requires s.driver.Some? && Told(inbox, Session(s.ids, before))
    ensures var out := BroadcastDriver(inbox, s);
      && out.Keys == inbox.Keys && Told(out, s)
      && forall v :: v in inbox && v !in s.ids ==> out[v] == inbox[v]
  {
    forall id | id in s.ids && id in inbox
      ensures LastPresence(inbox[id] + [Driver(s.driver.value)]) == Some(s.ids)
      ensures LastDriver(inbox[id] + [Driver(s.driver.value)]) == s.driver
    {
      LastAfter(inbox[id], Driver(s.driver.value));
    }
  }

  lemma {:induction false} ReplacementIsFirst(peers: map<ViewerId, Peer>, ids: seq<ViewerId>)
    ensures var d := Replacement(peers, ids);
      && (d.Some? ==> d.value in ids && d.value in peers && peers[d.value].driverInvited)
      && (d.None? ==> forall id :: id in ids && id in peers ==> !peers[id].driverInvited)
  {
    if ids != [] {
      ReplacementIsFirst(peers, ids[1..]);
      assert forall id :: id in ids <==> id == ids[0] || id in ids[1..];
    }
  }

  lemma {:induction false} WithoutRemoves(ids: seq<ViewerId>, id: ViewerId)
    ensures forall x :: x in Without(ids, id) <==> x in ids && x != id
    ensures Distinct(ids) ==> Distinct(Without(ids, id))
  {
    if ids != [] {
      WithoutRemoves(ids[1..], id);
      assert forall x :: x in ids <==> x == ids[0] || x in ids[1..];
      if Distinct(ids) {
        assert Distinct(ids[1..]);
        assert ids[0] !in ids[1..];
      }
    }
  }

  /** A change to one session leaves every other session, its peers and their inboxes alone. */
  ghost predicate Frames(r: Roles, t: Roles, sid: SessionId) {
    && (forall x :: x in t.sessions && x != sid ==> x in r.sessions && t.sessions[x] == r.sessions[x])
    && (forall id :: id in r.peers && r.peers[id].sessionId != sid ==>
          id in t.peers && id in t.inbox && id in r.inbox && t.peers[id] == r.peers[id] && t.inbox[id] == r.inbox[id])
  }

  predicate SessionOk(r: Roles, sid: SessionId) {
    sid in r.sessions ==> DriverOk(r.peers, r.sessions[sid]) && Told(r.inbox, r.sessions[sid])
  }

  lemma OneSessionChanges(r: Roles, t: Roles, sid: SessionId)
    requires Inv(r) && MapsAgree(t) && Frames(r, t, sid) && SessionOk(t, sid)
    ensures Inv(t)
  {
    forall x | x in t.sessions && x != sid
      ensures SessionOk(t, x)
    {
      OtherSessionKept(r, t, sid, x);
    }
    assert forall x :: x in t.sessions ==> SessionOk(t, x);
  }

  lemma OtherSessionKept(r: Roles, t: Roles, sid: SessionId, x: SessionId)
    requires Inv(r) && Frames(r, t, sid) && x in t.sessions && x != sid
    ensures SessionOk(t, x)
  {
    assert ListedOk(r.peers, x, r.sessions[x]) && DriverOk(r.peers, r.sessions[x]) && Told(r.inbox, r.sessions[x]);
  }

  lemma ConnectAgrees(r: Roles, id: ViewerId, sid: SessionId, driverInvited: bool)
    requires MapsAgree(r) && CanConnect(r, id, sid)
    ensures MapsAgree(Connect(r, id, sid, driverInvited))
  {
    var t := Connect(r, id, sid, driverInvited);
    BroadcastStateTells(r.inbox[id := [Hello(id, t.sessions[sid].driver == Some(id))]], t.sessions[sid]);
    JoinLists(r.peers, t.peers, sid, SessionOf(r, sid), t.sessions[sid], id);
    forall x | x in t.sessions && x != sid
      ensures ListedOk(t.peers, x, t.sessions[x])
    {
      assert ListedOk(r.peers, x, r.sessions[x]);
    }
  }

  lemma JoinLists(peers: map<ViewerId, Peer>, more: map<ViewerId, Peer>, sid: SessionId, before: Session, s: Session, id: ViewerId)
    requires before.ids == [] || ListedOk(peers, sid, before)
    requires id !in peers && id in more && more == peers[id := more[id]] && more[id].sessionId == sid
    requires s.ids == before.ids + [id]
    ensures ListedOk(more, sid, s)
  {
    assert forall x :: x in s.ids <==> x in before.ids || x == id;
  }

  lemma JoinedOk(r: Roles, id: ViewerId, sid: SessionId, driverInvited: bool)
    requires Inv(r) && CanConnect(r, id, sid)
    ensures SessionOk(Connect(r, id, sid, driverInvited), sid)
  {
    var t := Connect(r, id, sid, driverInvited);
    BroadcastStateTells(r.inbox[id := [Hello(id, t.sessions[sid].driver == Some(id))]], t.sessions[sid]);
    if sid in r.sessions { assert DriverOk(r.peers, r.sessions[sid]); }
    assert forall x :: x in t.sessions[sid].ids <==> x == id || x in SessionOf(r, sid).ids;
  }

  lemma JoinFrames(r: Roles, id: ViewerId, sid: SessionId, driverInvited: bool)
    requires MapsAgree(r) && CanConnect(r, id, sid)
    ensures Frames(r, Connect(r, id, sid, driverInvited), sid)
  {
    var s := Connect(r, id, sid, driverInvited).sessions[sid];
    if sid in r.sessions { assert ListedOk(r.peers, sid, r.sessions[sid]); }
    assert forall other :: other in s.ids <==> other == id || other in SessionOf(r, sid).ids;
    BroadcastStateTells(r.inbox[id := [Hello(id, s.driver == Some(id))]], s);
  }

  lemma ConnectKeepsInv(r: Roles, id: ViewerId, sid: SessionId, driverInvited: bool)
    requires Inv(r) && CanConnect(r, id, sid)
    ensures Inv(Connect(r, id, sid, driverInvited))
  {
    ConnectAgrees(r, id, sid, driverInvited);
    JoinedOk(r, id, sid, driverInvited);
    JoinFrames(r, id, sid, driverInvited);
    OneSessionChanges(r, Connect(r, id, sid, driverInvited), sid);
  }

  lemma LeaveLists(peers: map<ViewerId, Peer>, sid: SessionId, before: Session, s: Session, id: ViewerId)
    requires ListedOk(peers, sid, before) && s.ids == Without(before.ids, id) && s.ids != []
    ensures ListedOk(peers - {id}, sid, s)
  {
    WithoutRemoves(before.ids, id);
  }

  lemma DisconnectAgrees(r: Roles, id: ViewerId)
    requires MapsAgree(r)
    ensures MapsAgree(Disconnect(r, id).0)
  {
    if id in r.peers {
      var sid := r.peers[id].sessionId;
      var t := Disconnect(r, id).0;
      WithoutRemoves(r.sessions[sid].ids, id);
      if sid in t.sessions {
        BroadcastStateTells(r.inbox - {id}, t.sessions[sid]);
        LeaveLists(r.peers, sid, r.sessions[sid], t.sessions[sid], id);
      }
      forall x | x in t.sessions && x != sid
        ensures ListedOk(t.peers, x, t.sessions[x])
      {
        assert ListedOk(r.peers, x, r.sessions[x]);
      }
      DisconnectListed(r, id);
    }
  }

  lemma DisconnectListed(r: Roles, id: ViewerId)
    requires MapsAgree(r) && id in r.peers
    ensures var t := Disconnect(r, id).0; t.peers == r.peers - {id} && PeersListed(t.peers, t.sessions)
  {
    var sid := r.peers[id].sessionId;
    WithoutRemoves(r.sessions[sid].ids, id);
    var t := Disconnect(r, id).0;
    forall x | x in t.peers
      ensures t.peers[x].viewerId == x && t.peers[x].sessionId in t.sessions && x in t.sessions[t.peers[x].sessionId].ids
    {
      assert x in r.peers && x in r.sessions[r.peers[x].sessionId].ids;
    }
  }

  lemma LeftBehindOk(r: Roles, id: ViewerId)
    requires Inv(r) && id in r.peers
    ensures SessionOk(Disconnect(r, id).0, r.peers[id].sessionId)
  {
    var sid := r.peers[id].sessionId;
    var before := r.sessions[sid];
    var ids := Without(before.ids, id);
    WithoutRemoves(before.ids, id);
    ReplacementIsFirst(r.peers - {id}, ids);
    assert DriverOk(r.peers, before);
    var s := Session(ids, if before.driver == Some(id) then Replacement(r.peers - {id}, ids) else before.driver);
    BroadcastStateTells(r.inbox - {id}, s);
    assert DriverOk(r.peers - {id}, s);
  }

  lemma LeaveFrames(r: Roles, id: ViewerId)
    requires MapsAgree(r) && id in r.peers
    ensures Frames(r, Disconnect(r, id).0, r.peers[id].sessionId)
  {
    var sid := r.peers[id].sessionId;
    assert ListedOk(r.peers, sid, r.sessions[sid]);
    WithoutRemoves(r.sessions[sid].ids, id);
    var t := Disconnect(r, id).0;
    if sid in t.sessions { BroadcastStateTells(r.inbox - {id}, t.sessions[sid]); }
  }

  lemma DisconnectKeepsInv(r: Roles, id: ViewerId)
    requires Inv(r)
    ensures Inv(Disconnect(r, id).0)
  {
    if id in r.peers {
      DisconnectAgrees(r, id);
      LeftBehindOk(r, id);
      LeaveFrames(r, id);
      OneSessionChanges(r, Disconnect(r, id).0, r.peers[id].sessionId);
    }
  }

  lemma TransferAgrees(r: Roles, id: ViewerId, to: ViewerId)
    requires MapsAgree(r) && RouteUp(r, id, Transfer(to)).1 == Handled
    ensures MapsAgree(RouteUp(r, id, Transfer(to)).0)
  {
    var t := RouteUp(r, id, Transfer(to)).0;
    var sid := r.peers[id].sessionId;
    assert BroadcastDriver(r.inbox, t.sessions[sid]).Keys == r.inbox.Keys;
    forall x | x in t.sessions
      ensures ListedOk(t.peers, x, t.sessions[x])
    {
      assert ListedOk(r.peers, x, r.sessions[x]);
    }
  }

  lemma TransferFrames(r: Roles, id: ViewerId, to: ViewerId)
    requires MapsAgree(r) && RouteUp(r, id, Transfer(to)).1 == Handled
    ensures Frames(r, RouteUp(r, id, Transfer(to)).0, r.peers[id].sessionId)
  {
    var sid := r.peers[id].sessionId;
    assert ListedOk(r.peers, sid, r.sessions[sid]);
  }

  lemma TransferredOk(r: Roles, id: ViewerId, to: ViewerId)
    requires Inv(r) && RouteUp(r, id, Transfer(to)).1 == Handled
    ensures SessionOk(RouteUp(r, id, Transfer(to)).0, r.peers[id].sessionId)
  {
    var sid := r.peers[id].sessionId;
    var s := r.sessions[sid].(driver := Some(to));
    assert Told(r.inbox, Session(s.ids, r.sessions[sid].driver));
    BroadcastDriverTells(r.inbox, s, r.sessions[sid].driver);
  }

  lemma TransferKeepsInv(r: Roles, id: ViewerId, to: ViewerId)
    requires Inv(r) && RouteUp(r, id, Transfer(to)).1 == Handled
    ensures Inv(RouteUp(r, id, Transfer(to)).0)
  {
    TransferAgrees(r, id, to);
    TransferFrames(r, id, to);
    TransferredOk(r, id, to);
    OneSessionChanges(r, RouteUp(r, id, Transfer(to)).0, r.peers[id].sessionId);
  }

  lemma NoteAgrees(r: Roles, id: ViewerId, viewport: string)
    requires MapsAgree(r) && id in r.peers
    ensures MapsAgree(WithViewport(r, id, viewport))
  {
    forall x | x in r.sessions
      ensures ListedOk(WithViewport(r, id, viewport).peers, x, r.sessions[x])
    {
      assert ListedOk(r.peers, x, r.sessions[x]);
    }
  }

  lemma NoteKeepsInv(r: Roles, id: ViewerId, viewport: string)
    requires Inv(r) && id in r.peers
    ensures Inv(WithViewport(r, id, viewport))
  {
    NoteAgrees(r, id, viewport);
    var sid := r.peers[id].sessionId;
    assert DriverOk(r.peers, r.sessions[sid]) && Told(r.inbox, r.sessions[sid]);
    OneSessionChanges(r, WithViewport(r, id, viewport), sid);
  }

  lemma RouteKeepsInv(r: Roles, id: ViewerId, up: Up)
    requires Inv(r)
    ensures Inv(RouteUp(r, id, up).0)
  {
    if RouteUp(r, id, up).1 == Handled {
      TransferKeepsInv(r, id, up.to);
    } else if id in r.peers && up.View? {
      NoteKeepsInv(r, id, up.viewport);
    }
  }

  lemma {:induction false} RunKeepsInv(r: Roles, steps: seq<Step>)
    requires Inv(r)
    ensures Inv(Run(r, steps))
    decreases |steps|
  {
    if steps != [] {
      match steps[0] {
        case Connects(id, sid, driverInvited) =>
          if CanConnect(r, id, sid) { ConnectKeepsInv(r, id, sid, driverInvited); }
        case Leaves(id) => DisconnectKeepsInv(r, id);
        case Sends(id, up) => RouteKeepsInv(r, id, up);
      }
      RunKeepsInv(Apply(r, steps[0]), steps[1..]);
    }
  }

  // ---- Results ----

  /**
   * After any connects, departures, transfers and messages: a peer is in exactly the session it joined;
   * the driver is one of its session's peers and there is none only when no driver-invited peer is
   * present; and every peer was last told the session's peers and, while there is one, its driver.
   */
  lemma OneDriverAndAgreedView(steps: seq<Step>, id: ViewerId)
    requires id in Run(EMPTY, steps).peers
    ensures var r := Run(EMPTY, steps); var sid := r.peers[id].sessionId;
      && sid in r.sessions && id in r.sessions[sid].ids && id in r.inbox
      && var s := r.sessions[sid];
      && (forall other :: other in s.ids <==> other in r.peers && r.peers[other].sessionId == sid)
      && (s.driver.Some? ==> s.driver.value in s.ids && LastDriver(r.inbox[id]) == s.driver)
      && (s.driver.None? ==> forall other :: other in s.ids ==> other in r.peers && !r.peers[other].driverInvited)
      && LastPresence(r.inbox[id]) == Some(s.ids)
  {
    RunKeepsInv(EMPTY, steps);
  }

  /** Two peers of one session are never both its driver. */
  lemma SingleDriver(steps: seq<Step>, a: ViewerId, b: ViewerId)
    requires var r := Run(EMPTY, steps); IsDriver(r, a) && IsDriver(r, b) && r.peers[a].sessionId == r.peers[b].sessionId
    ensures a == b
  {
    RunKeepsInv(EMPTY, steps);
  }

  /** A message for the driver alone is forwarded exactly when the driver sent it. */
  lemma OnlyDriverIsForwarded(r: Roles, id: ViewerId, up: Up)
    requires Inv(r) && DriverOnly(up)
    ensures RouteUp(r, id, up).1 == Forwarded <==> IsDriver(r, id)
  {}

  /**
   * After any run: if a message for the driver alone is forwarded, every peer of the sender's session was
   * last told that the sender drives, and the same message from any other of them is dropped.
   */
  lemma ForwardedIsBelieved(steps: seq<Step>, id: ViewerId, other: ViewerId, up: Up)
    requires DriverOnly(up) && RouteUp(Run(EMPTY, steps), id, up).1 == Forwarded
    requires var r := Run(EMPTY, steps); other in r.peers && (id in r.peers ==> r.peers[other].sessionId == r.peers[id].sessionId)
    ensures var r := Run(EMPTY, steps);
      && other in r.inbox && LastDriver(r.inbox[other]) == Some(id)
      && (other != id ==> RouteUp(r, other, up).1 == Dropped)
  {
    RunKeepsInv(EMPTY, steps);
    var r := Run(EMPTY, steps);
    OnlyDriverIsForwarded(r, id, up);
    OneDriverAndAgreedView(steps, other);
  }

  /** A transfer takes effect exactly when the driver names another peer of its session. */
  lemma TransferIff(r: Roles, id: ViewerId, to: ViewerId)
    requires Inv(r)
    ensures RouteUp(r, id, Transfer(to)).1 == Handled <==>
      IsDriver(r, id) && to != id && to in r.peers && r.peers[to].sessionId == r.peers[id].sessionId
    ensures RouteUp(r, id, Transfer(to)).1 == Handled ==>
      IsDriver(RouteUp(r, id, Transfer(to)).0, to) && !IsDriver(RouteUp(r, id, Transfer(to)).0, id)
  {}

  /** When the last driver leaves only viewers behind, they are told nothing and still believe in it. */
  lemma ViewersKeepBelievingInDepartedDriver(r: Roles, d: ViewerId, v: ViewerId)
    requires Inv(r) && IsDriver(r, d) && v != d && v in r.peers && r.peers[v].sessionId == r.peers[d].sessionId
    requires forall id :: id in r.peers && id != d && r.peers[id].sessionId == r.peers[d].sessionId ==> !r.peers[id].driverInvited
    ensures var (t, change) := Disconnect(r, d); var sid := r.peers[d].sessionId;
      && change.None? && d !in t.peers && v in t.inbox
      && sid in t.sessions && t.sessions[sid].driver == None
      && LastDriver(t.inbox[v]) == Some(d)
  {
    var sid := r.peers[d].sessionId;
    var ids := Without(r.sessions[sid].ids, d);
    WithoutRemoves(r.sessions[sid].ids, d);
    ReplacementIsFirst(r.peers - {d}, ids);
    assert v in ids;
    LastAfter(r.inbox[v], Presence(ids));
  }
}

module Roles {
  import opened Protocol
  import opened RolesModel

  class RoleManager {
    var peers: map<ViewerId, Peer>
    var sessions: map<SessionId, Session>
    var inbox: map<ViewerId, seq<Down>>

    ghost function State(): RolesModel.Roles
      reads this
    {
      RolesModel.Roles(peers, sessions, inbox)
    }

    constructor ()
      ensures State() == EMPTY
    {
      peers, sessions, inbox := map[], map[], map[];
    }

    method Broadcast(ids: seq<ViewerId>, msg: Down)
      requires Distinct(ids) && forall id :: id in ids ==> id in inbox
      modifies this`inbox
      ensures inbox == RolesModel.Broadcast(old(inbox), ids, msg)
    {
      for i := 0 to |ids|
        invariant inbox == RolesModel.Broadcast(old(inbox), ids[..i], msg)
        invariant forall id :: id in ids ==> id in inbox
      {
        assert ids[..i + 1] == ids[..i] + [ids[i]] && ids[i] !in ids[..i];
        inbox := inbox[ids[i] := inbox[ids[i]] + [msg]];
      }
      assert ids[..|ids|] == ids;
    }

    method BroadcastState(s: Session)
      requires Distinct(s.ids) && forall id :: id in s.ids ==> id in inbox
      modifies this`inbox
      ensures inbox == RolesModel.BroadcastState(old(inbox), s)
    {
      Broadcast(s.ids, Presence(s.ids));
      if s.driver.Some? { Broadcast(s.ids, Driver(s.driver.value)); }
    }

    method ConnectPeer(id: ViewerId, sid: SessionId, driverInvited: bool) returns (ok: bool)
      requires MapsAgree(State())
      modifies this
      ensures ok == CanConnect(old(State()), id, sid)
      ensures State() == if ok then Connect(old(State()), id, sid, driverInvited) else old(State())
    {
      if sid.text == "" || id.text == "" || id in peers { return false; }
      ConnectAgrees(State(), id, sid, driverInvited);
      var s := if sid in sessions then sessions[sid] else Session([], None);
      s := s.(ids := s.ids + [id]);
      if s.driver.None? && driverInvited { s := s.(driver := Some(id)); }
      peers := peers[id := Peer(id, sid, driverInvited, None)];
      sessions := sessions[sid := s];
      inbox := inbox[id := [Hello(id, s.driver == Some(id))]];
      BroadcastState(s);
      return true;
    }

    method FindReplacement(ids: seq<ViewerId>) returns (d: Option<ViewerId>)
      ensures d == Replacement(peers, ids)
    {
      for i := 0 to |ids|
        invariant Replacement(peers, ids[i..]) == Replacement(peers, ids)
      {
        assert ids[i..][0] == ids[i] && ids[i..][1..] == ids[i + 1..];
        if ids[i] in peers && peers[ids[i]].driverInvited { return Some(ids[i]); }
      }
      return None;
    }

    method DisconnectPeer(id: ViewerId) returns (change: Option<Change>)
      requires MapsAgree(State())
      modifies this
      ensures (State(), change) == Disconnect(old(State()), id)
    {
      if id !in peers { return None; }
      DisconnectAgrees(State(), id);
      var sid := peers[id].sessionId;
      peers, inbox := peers - {id}, inbox - {id};
      var before := sessions[sid];
      WithoutRemoves(before.ids, id);
      var s := before.(ids := Without(before.ids, id));
      change := None;
      if before.driver == Some(id) {
        var replacement := FindReplacement(s.ids);
        s := s.(driver := replacement);
        if replacement.Some? && replacement.value in peers {
          change := Some(Change(sid, id, replacement.value, peers[replacement.value].latestViewport, false));
        }
      }
      if s.ids == [] {
        sessions := sessions - {sid};
      } else {
        sessions := sessions[sid := s];
        BroadcastState(s);
      }
    }

    method Route(id: ViewerId, up: Up) returns (d: Disposition, change: Option<Change>)
      requires MapsAgree(State())
      modifies this
      ensures (State(), d, change) == RouteUp(old(State()), id, up)
    {
      if id !in peers || peers[id].sessionId !in sessions { return Dropped, None; }
      var sid := peers[id].sessionId;
      var s := sessions[sid];
      if up.View? { peers := peers[id := peers[id].(latestViewport := Some(up.viewport))]; }
      if up.Transfer? {
        if s.driver != Some(id) { return Dropped, None; }
        if up.to !in s.ids || up.to == id || up.to !in peers { return Dropped, None; }
        s := s.(driver := Some(up.to));
        sessions := sessions[sid := s];
        change := Some(Change(sid, id, up.to, peers[up.to].latestViewport, true));
        Broadcast(s.ids, Driver(up.to));
        return Handled, change;
      }
      if DriverOnly(up) && s.driver != Some(id) { return Dropped, None; }
      return Forwarded, None;
    }
  }
}
