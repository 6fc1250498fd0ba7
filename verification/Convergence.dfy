/**
 * One tab's hub, the fan-out, one viewer's connection and its mirror, run together: batching, stalls,
 * dropped deltas, disconnects, tab switches, replay failures, traffic of other tabs and the replacement
 * of the hub by one whose epochs start over included.
 */
module Convergence {
  import opened Protocol
  import HubModel
  import LinkModel
  import MirrorModel

  /** Everything an epoch ever contained: its opening pair and the deltas numbered after it. */
  datatype EpochLog = EpochLog(start: nat, opening: seq<Event>, deltas: seq<Event>)

  type Logs = map<nat, EpochLog>

  datatype Pos = Pos(epoch: nat, seqNo: nat)

  datatype Phase = Down | Joined | Open

  /** Loss is arbitrary: each broadcast may be dropped by the chaos option or meet any backlog. */
  datatype Choice = Choice(drop: bool, buffered: nat)

  /**
   * `chan` is the socket, in order. The rest of the last three lines is history. `logs`, `tail` and
   * `done`: the epochs of the present hub, and the position of its last message put on, respectively
   * taken off, this socket since the last resync notice. `stale`: the mirror may still show a replaced
   * hub's document. `fence`: this many messages at the head of the socket, and `oldBatch`: the batch of
   * the tab, are older than the present hub.
   */
  datatype Sys = Sys(
    hub: HubModel.State,
    logs: Logs,
    pending: LinkModel.Batches,
    conn: LinkModel.Conn,
    chan: seq<Protocol.Down>,
    phase: Phase,
    hasOpened: bool,
    mirror: MirrorModel.State,
    ticks: nat,
    tail: Option<Pos>,
    done: Option<Pos>,
    stale: bool,
    fence: nat,
    oldBatch: bool)

  /** The fixed parameters of a run: the hub's options and every loss decision. */
  datatype World = World(cfg: HubModel.Config, choice: nat -> Choice)

  function Start(w: World): Sys {
    Sys(HubModel.Initial(w.cfg), map[], map[], LinkModel.FRESH, [], Down, false, MirrorModel.INITIAL, 0, None, None, false, 0, false)
  }

  function Track(tab: TabId, p: Option<Pos>, msg: Protocol.Down): Option<Pos> {
    match msg
    case Snapshot(t, epoch, first, _, _) => if t == tab then Some(Pos(epoch, first)) else p
    case Delta(t, epoch, first, data) =>
      if t == tab && data != [] then Some(Pos(epoch, first + |data| - 1)) else p
    case ResyncNotice(t) => if t == tab then None else p
    case _ => p
  }

  function TrackAll(tab: TabId, p: Option<Pos>, msgs: seq<Protocol.Down>): Option<Pos>
    decreases |msgs|
  {
    if msgs == [] then p else TrackAll(tab, Track(tab, p, msgs[0]), msgs[1..])
  }

  // ---- Steps ----

  datatype Step =
    | HubStep(step: HubModel.Step, shown: bool)
    | ReplaceHub
    | CatchUp
    | PublishOther(msg: Protocol.Down)
    | FlushTimer(tab: TabId)
    | Connect(before: seq<Protocol.Down>, after: seq<Protocol.Down>)
    | ClientOpens
    | Lost
    | Drain(before: seq<Protocol.Down>, after: seq<Protocol.Down>)
    | Deliver(replay: MirrorModel.Replay)
    | SelectTab(tab: TabId)
    | Teardown

  predicate Foreign(w: World, msg: Protocol.Down) {
    LinkModel.HasTab(msg) ==> msg.tab != w.cfg.tab
  }

  predicate AllForeign(w: World, msgs: seq<Protocol.Down>) {
    forall m :: m in msgs ==> Foreign(w, m)
  }

  predicate Enabled(w: World, s: Sys, step: Step) {
    match step
    case HubStep(h, _) => HubModel.Enabled(s.hub, h)
    case PublishOther(msg) => Foreign(w, msg)
    case Connect(before, after) => s.phase.Down? && AllForeign(w, before) && AllForeign(w, after)
    case ClientOpens => s.phase.Joined?
    case Lost => !s.phase.Down?
    case Drain(before, after) =>
      !s.phase.Down? && s.conn.stalled && AllForeign(w, before) && AllForeign(w, after)
    case Deliver(_) => s.phase.Open? && s.chan != []
    case _ => true
  }

  function Record(logs: Logs, down: Protocol.Down): Logs {
    match down
    case Snapshot(_, epoch, first, data, _) => logs[epoch := EpochLog(first, data, [])]
    case Delta(_, epoch, _, data) =>
      if epoch in logs then logs[epoch := logs[epoch].(deltas := logs[epoch].deltas + data)] else logs
    case _ => logs
  }

  function Recorded(w: World, s: Sys, h: HubModel.Step): Sys
    requires HubModel.Enabled(s.hub, h)
  {
    var (hub, downs) := HubModel.Apply(w.cfg, s.hub, h);
    s.(hub := hub, logs := if downs == [] then s.logs else Record(s.logs, downs[0]))
  }

  function Put(w: World, s: Sys, msg: Protocol.Down, conn: LinkModel.Conn): Sys {
    s.(conn := conn, chan := s.chan + [msg], tail := Track(w.cfg.tab, s.tail, msg))
  }

  /** While a batch of a replaced hub is left, it is the only delta of the tab that can be broadcast. */
  predicate IsOldBatch(w: World, s: Sys, msg: Protocol.Down) {
    s.oldBatch && msg.Delta? && msg.tab == w.cfg.tab
  }

  function PutOld(s: Sys, msg: Protocol.Down, conn: LinkModel.Conn): Sys {
    s.(conn := conn, chan := s.chan + [msg], fence := |s.chan| + 1)
  }

  /** What the connection makes of the message, and whether it goes onto the socket. */
  function Offered(choice: Choice, phase: Phase, conn: LinkModel.Conn, msg: Protocol.Down): (LinkModel.Conn, bool) {
    if phase.Down? || (msg.Delta? && choice.drop) then (conn, false) else LinkModel.Send(conn, msg, choice.buffered)
  }

  function Broadcast(w: World, s: Sys, msg: Protocol.Down): Sys {
    var (conn, sent) := Offered(w.choice(s.ticks), s.phase, s.conn, msg);
    Settled(w, s, msg, conn, sent)
  }

  function Settled(w: World, s: Sys, msg: Protocol.Down, conn: LinkModel.Conn, sent: bool): Sys {
    var s1 := s.(ticks := s.ticks + 1, oldBatch := s.oldBatch && !IsOldBatch(w, s, msg));
    if !sent then s1.(conn := conn)
    else if IsOldBatch(w, s, msg) then PutOld(s1, msg, conn)
    else Put(w, s1, msg, conn)
  }

  function BroadcastAll(w: World, s: Sys, msgs: seq<Protocol.Down>): Sys
    decreases |msgs|
  {
    if msgs == [] then s else BroadcastAll(w, Broadcast(w, s, msgs[0]), msgs[1..])
  }

  function Publish(w: World, s: Sys, msg: Protocol.Down): Sys {
    var (pending, out) := LinkModel.Publish(s.pending, msg);
    BroadcastAll(w, s.(pending := pending), out)
  }

  function PublishAll(w: World, s: Sys, msgs: seq<Protocol.Down>): Sys
    decreases |msgs|
  {
    if msgs == [] then s else PublishAll(w, Publish(w, s, msgs[0]), msgs[1..])
  }

  /** A join payload goes onto the socket unconditionally, after every batch has been flushed past it. */
  function SendJoin(w: World, s: Sys, conn: LinkModel.Conn, payload: seq<Protocol.Down>): Sys {
    s.(pending := map[], oldBatch := false, conn := LinkModel.AdvanceAll(conn, payload), chan := s.chan + payload,
       tail := TrackAll(w.cfg.tab, s.tail, payload))
  }

  /** A new target of the tab gets a hub of its own; batches, sockets and mirrors keep what they have. */
  function Replaced(w: World, s: Sys): Sys {
    s.(hub := HubModel.Initial(w.cfg), logs := map[], tail := None, done := None,
       stale := true, fence := |s.chan|, oldBatch := w.cfg.tab in s.pending)
  }

  /** The mirror takes the next message off the socket. */
  function Delivered(w: World, s: Sys, replay: MirrorModel.Replay): Sys
    requires s.chan != []
  {
    var msg := s.chan[0];
    var t := s.(chan := s.chan[1..], mirror := MirrorModel.Handle(s.mirror, msg, replay));
    if s.fence > 0 then t.(fence := s.fence - 1)
    else
      t.(done := Track(w.cfg.tab, s.done, msg),
         stale := s.stale && !(msg.Snapshot? && msg.tab == w.cfg.tab && MirrorModel.Accepts(s.mirror, msg)))
  }

  /** A socket of its own for the joining viewer. */
  function NewSocket(s: Sys): Sys {
    s.(phase := Joined, conn := LinkModel.FRESH, chan := [], tail := None, done := None, fence := 0)
  }

  function Apply(w: World, s: Sys, step: Step): Sys
    requires Enabled(w, s, step)
  {
    match step
    case HubStep(h, shown) =>
      if shown then PublishAll(w, Recorded(w, s, h), HubModel.Apply(w.cfg, s.hub, h).1) else Recorded(w, s, h)
    case ReplaceHub => Replaced(w, s)
    case CatchUp => PublishAll(w, s, HubModel.JoinPayload(w.cfg, s.hub.log))
    case PublishOther(msg) => Publish(w, s, msg)
    case FlushTimer(tab) =>
      var (pending, out) := LinkModel.Flush(s.pending, tab);
      BroadcastAll(w, s.(pending := pending), out)
    case Connect(before, after) =>
      SendJoin(w, NewSocket(s), LinkModel.FRESH, before + HubModel.JoinPayload(w.cfg, s.hub.log) + after)
    case ClientOpens =>
      s.(phase := Open, hasOpened := true,
         mirror := if s.hasOpened then MirrorModel.ConnectionRestored(s.mirror) else s.mirror)
    case Lost => s.(phase := Down, chan := [], fence := 0, mirror := MirrorModel.ConnectionLost(s.mirror))
    case Drain(before, after) =>
      SendJoin(w, s, s.conn.(stalled := false), before + HubModel.JoinPayload(w.cfg, s.hub.log) + after)
    case Deliver(replay) => Delivered(w, s, replay)
    case SelectTab(tab) => s.(mirror := MirrorModel.SelectTab(s.mirror, tab))
    case Teardown => s.(mirror := MirrorModel.Teardown(s.mirror))
  }

  predicate Possible(w: World, s: Sys, run: seq<Step>)
    decreases |run|
  {
    run == [] || (Enabled(w, s, run[0]) && Possible(w, Apply(w, s, run[0]), run[1..]))
  }

  function After(w: World, s: Sys, run: seq<Step>): Sys
    requires Possible(w, s, run)
    decreases |run|
  {
    if run == [] then s else After(w, Apply(w, s, run[0]), run[1..])
  }

  // ---- Invariants ----

  /** The hub's current epoch is the last one logged, and its buffer is that epoch's log. */
  ghost predicate LogsInv(w: World, hub: HubModel.State, logs: Logs) {
    && HubModel.Inv(w.cfg, hub)
    && (forall e :: e in logs <==> 1 <= e <= hub.log.epoch)
    && (forall e :: e in logs ==> |logs[e].opening| == 2)
    && (hub.log.snapshot.Some? ==>
          logs[hub.log.epoch]
          == EpochLog(hub.log.snapshotSeq, [hub.log.meta.value, hub.log.snapshot.value], hub.log.deltas))
  }

  /** A message of the tab says something true about an epoch the hub really opened. */
  predicate Truthful(tab: TabId, logs: Logs, msg: Protocol.Down) {
    match msg
    case Snapshot(t, epoch, first, data, _) =>
      t == tab ==> epoch in logs && first == logs[epoch].start && data == logs[epoch].opening
    case Delta(t, epoch, first, data) =>
      t == tab ==>
        && epoch in logs && data != [] && logs[epoch].start < first
        && first - logs[epoch].start - 1 + |data| <= |logs[epoch].deltas|
        && data == logs[epoch].deltas[first - logs[epoch].start - 1..first - logs[epoch].start - 1 + |data|]
    case _ => true
  }

  predicate PosIn(logs: Logs, p: Option<Pos>) {
    p.Some? ==> p.value.epoch in logs
                && logs[p.value.epoch].start <= p.value.seqNo <= logs[p.value.epoch].start + |logs[p.value.epoch].deltas|
  }

  /** Without a resync notice in between, a snapshot always opens a later epoch than what precedes it. */
  predicate Ordered(tab: TabId, p: Option<Pos>, msgs: seq<Protocol.Down>)
    decreases |msgs|
  {
    msgs != [] ==>
      && (msgs[0].Snapshot? && msgs[0].tab == tab && p.Some? ==> p.value.epoch < msgs[0].epoch)
      && Ordered(tab, Track(tab, p, msgs[0]), msgs[1..])
  }

  /** The connection's replay cursor is one past the tail of its socket; without a tail it may be a replaced hub's. */
  predicate CursorInv(tab: TabId, k: LinkModel.Conn, p: Option<Pos>) {
    p.Some? ==> tab in k.cursors && k.cursors[tab] == LinkModel.Cursor(p.value.epoch, p.value.seqNo + 1)
  }

  /** What the present hub has on the socket. */
  function Fresh(s: Sys): seq<Protocol.Down>
    requires s.fence <= |s.chan|
  {
    s.chan[s.fence..]
  }

  predicate OfTab(tab: TabId, msg: Protocol.Down) {
    LinkModel.HasTab(msg) && msg.tab == tab
  }

  /** What is older than the present hub comes first, and nothing can pass for current before it is gone. */
  predicate FenceInv(tab: TabId, s: Sys) {
    && s.fence <= |s.chan|
    && (s.fence > 0 ==> s.stale && s.done.None?)
    && (s.oldBatch ==> tab in s.pending && s.stale && s.tail.None? && s.done.None?
                       && forall m :: m in Fresh(s) ==> !OfTab(tab, m))
  }

  predicate BatchesInv(tab: TabId, s: Sys) {
    forall t :: t in s.pending ==> s.pending[t].Delta? && s.pending[t].tab == t
                                   && ((t == tab && s.oldBatch) || Truthful(tab, s.logs, s.pending[t]))
  }

  predicate ChannelInv(tab: TabId, s: Sys) {
    && FenceInv(tab, s) && BatchesInv(tab, s)
    && (forall m :: m in Fresh(s) ==> Truthful(tab, s.logs, m))
    && PosIn(s.logs, s.done) && PosIn(s.logs, s.tail)
    && Ordered(tab, s.done, Fresh(s))
    && (!s.phase.Down? ==> s.tail == TrackAll(tab, s.done, Fresh(s)))
    && (s.phase.Down? ==> s.chan == [])
    && (!s.phase.Down? ==> CursorInv(tab, s.conn, s.tail))
  }

  /** What the mirror shows is a prefix of the log of its epoch, never more and never reordered. */
  predicate ShowsPrefix(tab: TabId, logs: Logs, m: MirrorModel.State) {
    m.live.Some? && m.live.value.tab == tab ==>
      var live := m.live.value;
      && live.epoch in logs
      && logs[live.epoch].start <= live.lastSeq
      && 2 + live.lastSeq - logs[live.epoch].start <= |live.applied|
      && live.applied <= logs[live.epoch].opening + logs[live.epoch].deltas
  }

  /** An open mirror that is not waiting for a resync stands exactly at the last message it was given. */
  predicate StandsAt(tab: TabId, logs: Logs, m: MirrorModel.State, p: Option<Pos>) {
    m.live.Some? && m.live.value.tab == tab && !m.resyncRequested ==>
      && p == Some(Pos(m.live.value.epoch, m.live.value.lastSeq))
      && (m.live.value.epoch in logs ==>
            |m.live.value.applied| == 2 + m.live.value.lastSeq - logs[m.live.value.epoch].start)
  }

  predicate MirrorInv(tab: TabId, s: Sys) {
    && (s.mirror.live.Some? ==> s.mirror.activeTab == Some(s.mirror.live.value.tab) && s.hasOpened)
    && (s.phase.Open? ==> s.hasOpened)
    && (!s.stale ==> ShowsPrefix(tab, s.logs, s.mirror) && (s.phase.Open? ==> StandsAt(tab, s.logs, s.mirror, s.done)))
  }

  ghost predicate Inv(w: World, s: Sys) {
    LogsInv(w, s.hub, s.logs) && ChannelInv(w.cfg.tab, s) && MirrorInv(w.cfg.tab, s)
  }

  // ---- The hub side ----

  predicate Grows(logs: Logs, more: Logs) {
    forall e :: e in logs ==>
      && e in more && more[e].start == logs[e].start && more[e].opening == logs[e].opening
      && logs[e].deltas <= more[e].deltas
  }

  lemma GrowthKeeps(tab: TabId, logs: Logs, more: Logs, msg: Protocol.Down, p: Option<Pos>)
    requires Grows(logs, more)
    ensures Truthful(tab, logs, msg) ==> Truthful(tab, more, msg)
    ensures PosIn(logs, p) ==> PosIn(more, p)
  {
    if msg.Delta? && msg.tab == tab && Truthful(tab, logs, msg) {
      var d := logs[msg.epoch].deltas;
      var from := msg.first - logs[msg.epoch].start - 1;
      assert d[from..from + |msg.data|] == more[msg.epoch].deltas[from..from + |msg.data|];
    }
  }

  lemma GrowthKeepsMirror(tab: TabId, logs: Logs, more: Logs, m: MirrorModel.State, p: Option<Pos>)
    requires Grows(logs, more) && ShowsPrefix(tab, logs, m)
    ensures ShowsPrefix(tab, more, m)
    ensures StandsAt(tab, logs, m, p) ==> StandsAt(tab, more, m, p)
  {
    if m.live.Some? && m.live.value.tab == tab {
      var e := m.live.value.epoch;
      var was, now := logs[e].opening + logs[e].deltas, more[e].opening + more[e].deltas;
      assert was <= now;
    }
  }

  lemma HubStepLogs(w: World, hub: HubModel.State, logs: Logs, h: HubModel.Step)
    requires HubModel.Legal(w.cfg) && LogsInv(w, hub, logs) && HubModel.Enabled(hub, h)
    ensures var (next, downs) := HubModel.Apply(w.cfg, hub, h);
      var more := if downs == [] then logs else Record(logs, downs[0]);
      && |downs| <= 1 && LogsInv(w, next, more) && Grows(logs, more)
      && (downs != [] ==> downs[0].tab == w.cfg.tab && Truthful(w.cfg.tab, more, downs[0])
                          && (downs[0].Snapshot? || downs[0].Delta?) && downs[0].data != []
                          && downs[0].epoch == next.log.epoch
                          && (downs[0].Snapshot? ==> downs[0].epoch !in logs)
                          && Track(w.cfg.tab, None, downs[0]) == Some(Pos(next.log.epoch, next.log.seqNo)))
  {
    HubModel.StepKeepsInv(w.cfg, hub, h);
    HubModel.StepAdvances(w.cfg, hub, h);
    HubModel.StepShape(w.cfg, hub, h);
    var (next, downs) := HubModel.Apply(w.cfg, hub, h);
    if downs != [] && downs[0].Delta? {
      var e := hub.log.epoch;
      var more := Record(logs, downs[0]);
      var from := |logs[e].deltas|;
      assert more[e].deltas[from..from + 1] == downs[0].data;
      assert downs[0].first - more[e].start - 1 == from;
    }
  }

  // ---- The channel ----

  lemma TrackAppends(tab: TabId, p: Option<Pos>, msgs: seq<Protocol.Down>, msg: Protocol.Down)
    ensures TrackAll(tab, p, msgs + [msg]) == Track(tab, TrackAll(tab, p, msgs), msg)
    decreases |msgs|
  {
    if msgs == [] {
      assert [] + [msg] == [msg];
    } else {
      assert (msgs + [msg])[1..] == msgs[1..] + [msg];
      TrackAppends(tab, Track(tab, p, msgs[0]), msgs[1..], msg);
    }
  }

  lemma OrderedAppends(tab: TabId, p: Option<Pos>, msgs: seq<Protocol.Down>, msg: Protocol.Down)
    requires Ordered(tab, p, msgs)
    requires msg.Snapshot? && msg.tab == tab && TrackAll(tab, p, msgs).Some? ==>
               TrackAll(tab, p, msgs).value.epoch < msg.epoch
    ensures Ordered(tab, p, msgs + [msg])
    decreases |msgs|
  {
    if msgs == [] {
      assert [] + [msg] == [msg];
    } else {
      assert (msgs + [msg])[1..] == msgs[1..] + [msg];
      OrderedAppends(tab, Track(tab, p, msgs[0]), msgs[1..], msg);
    }
  }

  /** The message may follow whatever this socket was sent last. */
  predicate MayFollow(w: World, s: Sys, msg: Protocol.Down) {
    && Truthful(w.cfg.tab, s.logs, msg)
    && (msg.Snapshot? && msg.tab == w.cfg.tab && !s.phase.Down? && s.tail.Some? ==> s.tail.value.epoch < msg.epoch)
  }

  lemma TrackIn(tab: TabId, logs: Logs, p: Option<Pos>, msg: Protocol.Down)
    requires PosIn(logs, p) && Truthful(tab, logs, msg)
    requires msg.Snapshot? && msg.tab == tab ==> msg.epoch in logs
    ensures PosIn(logs, Track(tab, p, msg))
  {}

  lemma PutKeepsInv(w: World, s: Sys, msg: Protocol.Down, conn: LinkModel.Conn)
    requires Inv(w, s) && !s.phase.Down? && MayFollow(w, s, msg) && (s.oldBatch ==> !OfTab(w.cfg.tab, msg))
    requires CursorInv(w.cfg.tab, conn, Track(w.cfg.tab, s.tail, msg))
    ensures Inv(w, Put(w, s, msg, conn))
  {
    var t := Put(w, s, msg, conn);
    assert Fresh(t) == Fresh(s) + [msg];
    TrackAppends(w.cfg.tab, s.done, Fresh(s), msg);
    OrderedAppends(w.cfg.tab, s.done, Fresh(s), msg);
    TrackIn(w.cfg.tab, s.logs, s.tail, msg);
  }

  lemma ConnIsIrrelevant(w: World, s: Sys, conn: LinkModel.Conn, ticks: nat)
    requires Inv(w, s) && (!s.phase.Down? ==> CursorInv(w.cfg.tab, conn, s.tail))
    ensures Inv(w, s.(conn := conn, ticks := ticks))
  {}

  lemma SendKeepsCursor(tab: TabId, logs: Logs, k: LinkModel.Conn, p: Option<Pos>, msg: Protocol.Down, buffered: nat)
    requires CursorInv(tab, k, p) && Truthful(tab, logs, msg)
    ensures var (next, sent) := LinkModel.Send(k, msg, buffered);
      CursorInv(tab, next, if sent then Track(tab, p, msg) else p)
    ensures CursorInv(tab, LinkModel.Advance(k, msg), Track(tab, p, msg))
  {}

  lemma AdvanceAllKeepsCursor(tab: TabId, logs: Logs, k: LinkModel.Conn, p: Option<Pos>, msgs: seq<Protocol.Down>)
    requires CursorInv(tab, k, p) && forall m :: m in msgs ==> Truthful(tab, logs, m)
    ensures CursorInv(tab, LinkModel.AdvanceAll(k, msgs), TrackAll(tab, p, msgs))
    decreases |msgs|
  {
    if msgs != [] {
      SendKeepsCursor(tab, logs, k, p, msgs[0], 0);
      AdvanceAllKeepsCursor(tab, logs, LinkModel.Advance(k, msgs[0]), Track(tab, p, msgs[0]), msgs[1..]);
    }
  }

  /** What a broadcast leaves alone, and what it may do to the tail. */
  predicate SentOrNot(tab: TabId, s: Sys, t: Sys, msg: Protocol.Down) {
    && SameBut(s, t) && t.pending == s.pending && t.oldBatch == s.oldBatch && t.fence == s.fence
    && (t.tail == s.tail || t.tail == Track(tab, s.tail, msg))
    && (!LinkModel.Droppable(msg) && !s.phase.Down? ==> t.tail == Track(tab, s.tail, msg))
  }

  predicate SameBut(s: Sys, t: Sys) {
    && t.hub == s.hub && t.logs == s.logs && t.phase == s.phase
    && t.mirror == s.mirror && t.hasOpened == s.hasOpened && t.stale == s.stale
  }

  lemma BroadcastKeepsInv(w: World, s: Sys, msg: Protocol.Down)
    requires Inv(w, s) && MayFollow(w, s, msg) && (s.oldBatch ==> !OfTab(w.cfg.tab, msg))
    ensures Inv(w, Broadcast(w, s, msg)) && SentOrNot(w.cfg.tab, s, Broadcast(w, s, msg), msg)
  {
    var (conn, sent) := Offered(w.choice(s.ticks), s.phase, s.conn, msg);
    OfferedShape(w, s, msg);
    SettledKeepsInv(w, s, msg, conn, sent);
  }

  lemma OfferedShape(w: World, s: Sys, msg: Protocol.Down)
    requires !s.phase.Down? ==> CursorInv(w.cfg.tab, s.conn, s.tail) && Truthful(w.cfg.tab, s.logs, msg)
    ensures var (conn, sent) := Offered(w.choice(s.ticks), s.phase, s.conn, msg);
      && (sent ==> !s.phase.Down?)
      && (!s.phase.Down? ==> CursorInv(w.cfg.tab, conn, if sent then Track(w.cfg.tab, s.tail, msg) else s.tail))
      && (!LinkModel.Droppable(msg) && !s.phase.Down? ==> sent)
  {
    if !s.phase.Down? { SendKeepsCursor(w.cfg.tab, s.logs, s.conn, s.tail, msg, w.choice(s.ticks).buffered); }
  }

  lemma SettledKeepsInv(w: World, s: Sys, msg: Protocol.Down, conn: LinkModel.Conn, sent: bool)
    requires Inv(w, s) && MayFollow(w, s, msg) && (s.oldBatch ==> !OfTab(w.cfg.tab, msg))
    requires sent ==> !s.phase.Down?
    requires !s.phase.Down? ==> CursorInv(w.cfg.tab, conn, if sent then Track(w.cfg.tab, s.tail, msg) else s.tail)
    requires !LinkModel.Droppable(msg) && !s.phase.Down? ==> sent
    ensures Inv(w, Settled(w, s, msg, conn, sent)) && SentOrNot(w.cfg.tab, s, Settled(w, s, msg, conn, sent), msg)
  {
    assert !IsOldBatch(w, s, msg);
    if sent {
      ConnIsIrrelevant(w, s, s.conn, s.ticks + 1);
      PutKeepsInv(w, s.(ticks := s.ticks + 1), msg, conn);
    } else {
      ConnIsIrrelevant(w, s, conn, s.ticks + 1);
    }
  }

  /** The batch of a replaced hub goes behind everything the replaced hub has on the socket. */
  lemma OldBatchKeepsInv(w: World, s: Sys)
    requires Inv(w, s) && s.oldBatch
    ensures var t := Broadcast(w, s.(pending := s.pending - {w.cfg.tab}), s.pending[w.cfg.tab]);
      Inv(w, t) && SameBut(s, t) && t.pending == s.pending - {w.cfg.tab} && t.tail == s.tail && !t.oldBatch
  {
    var s1 := s.(pending := s.pending - {w.cfg.tab});
    var (conn, sent) := Offered(w.choice(s1.ticks), s1.phase, s1.conn, s.pending[w.cfg.tab]);
    OldSettledKeepsInv(w, s, conn, sent);
  }

  lemma OldSettledKeepsInv(w: World, s: Sys, conn: LinkModel.Conn, sent: bool)
    requires Inv(w, s) && s.oldBatch && (sent ==> !s.phase.Down?)
    ensures var t := Settled(w, s.(pending := s.pending - {w.cfg.tab}), s.pending[w.cfg.tab], conn, sent);
      Inv(w, t) && SameBut(s, t) && t.pending == s.pending - {w.cfg.tab} && t.tail == s.tail && !t.oldBatch
  {
    var s1 := s.(pending := s.pending - {w.cfg.tab}, oldBatch := false, ticks := s.ticks + 1);
    UnbatchedKeepsInv(w, s, s1);
    if sent {
      PutOldKeepsInv(w, s1, s.pending[w.cfg.tab], conn);
    } else {
      OldConnKeepsInv(w, s1, conn);
    }
  }

  lemma UnbatchedKeepsInv(w: World, s: Sys, t: Sys)
    requires Inv(w, s) && t == s.(pending := s.pending - {w.cfg.tab}, oldBatch := false, ticks := t.ticks)
    ensures Inv(w, t)
  {}

  lemma OldConnKeepsInv(w: World, s: Sys, conn: LinkModel.Conn)
    requires Inv(w, s) && s.tail.None?
    ensures Inv(w, s.(conn := conn))
  {}

  lemma PutOldKeepsInv(w: World, s: Sys, msg: Protocol.Down, conn: LinkModel.Conn)
    requires Inv(w, s) && !s.phase.Down? && s.stale && s.tail.None? && s.done.None? && !s.oldBatch
    ensures Inv(w, PutOld(s, msg, conn))
  {
    assert Fresh(PutOld(s, msg, conn)) == [];
  }

  lemma FlushKeepsInv(w: World, s: Sys, tab: TabId)
    requires Inv(w, s)
    ensures var (pending, out) := LinkModel.Flush(s.pending, tab);
      var t := BroadcastAll(w, s.(pending := pending), out);
      && Inv(w, t) && tab !in t.pending && t.pending == pending && SameBut(s, t)
      && (t.oldBatch <==> s.oldBatch && tab != w.cfg.tab)
      && (if s.oldBatch then t.tail == s.tail else t.fence == s.fence)
      && (t.tail == s.tail || (tab in s.pending && t.tail == Track(w.cfg.tab, s.tail, s.pending[tab])))
  {
    var (pending, out) := LinkModel.Flush(s.pending, tab);
    var s1 := s.(pending := pending);
    if tab in s.pending {
      assert BroadcastAll(w, s1, out) == Broadcast(w, s1, out[0]) by {
        assert out[1..] == [];
      }
      if s.oldBatch && tab == w.cfg.tab {
        OldBatchKeepsInv(w, s);
      } else {
        FewerBatches(w, s, tab);
        BroadcastKeepsInv(w, s1, s.pending[tab]);
        assert s.oldBatch ==> Track(w.cfg.tab, s.tail, s.pending[tab]) == s.tail;
      }
    } else {
      assert s1 == s;
    }
  }

  lemma FewerBatches(w: World, s: Sys, tab: TabId)
    requires Inv(w, s) && (s.oldBatch ==> tab != w.cfg.tab)
    ensures Inv(w, s.(pending := s.pending - {tab}))
  {}

  /** Broadcasting does not look at the batches, so they may be swapped before or after. */
  lemma PendingCommutes(w: World, s: Sys, msgs: seq<Protocol.Down>, pending: LinkModel.Batches)
    ensures BroadcastAll(w, s.(pending := pending), msgs) == BroadcastAll(w, s, msgs).(pending := pending)
    decreases |msgs|
  {
    if msgs != [] {
      PendingCommutes(w, Broadcast(w, s, msgs[0]), msgs[1..], pending);
      PendingCommutesOnce(w, s, msgs[0], pending);
    }
  }

  lemma PendingCommutesOnce(w: World, s: Sys, msg: Protocol.Down, pending: LinkModel.Batches)
    ensures Broadcast(w, s.(pending := pending), msg) == Broadcast(w, s, msg).(pending := pending)
  {
    var (conn, sent) := Offered(w.choice(s.ticks), s.phase, s.conn, msg);
    SettledCommutes(w, s, msg, conn, sent, pending);
  }

  lemma SettledCommutes(w: World, s: Sys, msg: Protocol.Down, conn: LinkModel.Conn, sent: bool, pending: LinkModel.Batches)
    ensures Settled(w, s.(pending := pending), msg, conn, sent) == Settled(w, s, msg, conn, sent).(pending := pending)
  {}

  lemma BroadcastAllAppends(w: World, s: Sys, msgs: seq<Protocol.Down>, msg: Protocol.Down)
    ensures BroadcastAll(w, s, msgs + [msg]) == Broadcast(w, BroadcastAll(w, s, msgs), msg)
    decreases |msgs|
  {
    if msgs == [] {
      assert [] + [msg] == [msg];
      assert [msg][1..] == [];
    } else {
      assert (msgs + [msg])[1..] == msgs[1..] + [msg];
      BroadcastAllAppends(w, Broadcast(w, s, msgs[0]), msgs[1..], msg);
    }
  }

  lemma MergeIsTruthful(tab: TabId, logs: Logs, batch: Protocol.Down, msg: Protocol.Down)
    requires batch.Delta? && msg.Delta? && batch.tab == msg.tab && LinkModel.Extends(batch, msg) && msg.data != []
    requires Truthful(tab, logs, batch) && Truthful(tab, logs, msg)
    ensures var merged := Protocol.Delta(batch.tab, batch.epoch, batch.first, batch.data + msg.data);
      Truthful(tab, logs, merged) && Track(tab, None, merged) == Track(tab, None, msg)
  {
    if msg.tab == tab {
      var d := logs[msg.epoch].deltas;
      var from := batch.first - logs[batch.epoch].start - 1;
      assert d[from..from + |batch.data|] + d[from + |batch.data|..from + |batch.data| + |msg.data|]
          == d[from..from + |batch.data| + |msg.data|];
    }
  }

  /** What publishing leaves alone, and where the message ends up: on the wire, or last in its batch. */
  predicate Published(tab: TabId, s: Sys, t: Sys, msg: Protocol.Down) {
    && SameBut(s, t) && (t.oldBatch ==> s.oldBatch) && (!s.oldBatch ==> t.fence == s.fence)
    && (LinkModel.HasTab(msg) && msg.tab == tab ==>
          if msg.Delta? && msg.data != [] then
            tab in t.pending && Track(tab, None, t.pending[tab]) == Track(tab, None, msg) && (s.tail.Some? ==> t.tail.Some?)
          else tab !in t.pending && (!LinkModel.Droppable(msg) && !s.phase.Down? ==> t.tail == Track(tab, None, msg)))
    && (LinkModel.HasTab(msg) ==> msg.tab != tab ==> Untouched(tab, s, t))
    && (!LinkModel.HasTab(msg) ==> Untouched(tab, s, t))
  }

  predicate Untouched(tab: TabId, s: Sys, t: Sys) {
    && t.tail == s.tail
    && (tab in t.pending <==> tab in s.pending)
    && (tab in s.pending ==> t.pending[tab] == s.pending[tab])
  }

  /** The message may follow the socket's tail, and the batch that would be flushed before it. */
  predicate MayPublish(w: World, s: Sys, msg: Protocol.Down) {
    && MayFollow(w, s, msg)
    && (msg.Snapshot? && msg.tab == w.cfg.tab && msg.tab in s.pending && s.pending[msg.tab].Delta? && !s.oldBatch ==>
          s.pending[msg.tab].epoch < msg.epoch)
  }

  lemma PublishNowKeepsInv(w: World, s: Sys, msg: Protocol.Down)
    requires Inv(w, s) && MayPublish(w, s, msg) && LinkModel.HasTab(msg) && (msg.Delta? ==> msg.data == [])
    ensures Inv(w, Publish(w, s, msg)) && Published(w.cfg.tab, s, Publish(w, s, msg), msg)
  {
    var (pending, out) := LinkModel.Flush(s.pending, msg.tab);
    FlushKeepsInv(w, s, msg.tab);
    var s1 := BroadcastAll(w, s.(pending := pending), out);
    PublishNowShape(w, s, msg);
    FollowsFlush(w, s, s1, msg);
    BroadcastKeepsInv(w, s1, msg);
    NowIsPublished(w, s, s1, Broadcast(w, s1, msg), msg);
  }

  lemma PublishNowShape(w: World, s: Sys, msg: Protocol.Down)
    requires LinkModel.HasTab(msg) && (msg.Delta? ==> msg.data == [])
    ensures var (pending, out) := LinkModel.Flush(s.pending, msg.tab);
      Publish(w, s, msg) == Broadcast(w, BroadcastAll(w, s.(pending := pending), out), msg)
  {
    var (pending, out) := LinkModel.Flush(s.pending, msg.tab);
    BroadcastAllAppends(w, s.(pending := pending), out, msg);
  }

  lemma NowIsPublished(w: World, s: Sys, s1: Sys, t: Sys, msg: Protocol.Down)
    requires LinkModel.HasTab(msg) && (msg.Delta? ==> msg.data == [])
    requires SameBut(s, s1) && s1.pending == LinkModel.Flush(s.pending, msg.tab).0
    requires (s1.oldBatch ==> s.oldBatch) && (!s.oldBatch ==> s1.fence == s.fence)
    requires s1.tail == s.tail || (msg.tab in s.pending && s1.tail == Track(w.cfg.tab, s.tail, s.pending[msg.tab]))
    requires BatchesInv(w.cfg.tab, s) && SentOrNot(w.cfg.tab, s1, t, msg)
    ensures Published(w.cfg.tab, s, t, msg)
  {}

  lemma FollowsFlush(w: World, s: Sys, t: Sys, msg: Protocol.Down)
    requires Inv(w, s) && MayPublish(w, s, msg) && LinkModel.HasTab(msg)
    requires SameBut(s, t) && (s.oldBatch ==> t.tail == s.tail)
    requires t.tail == s.tail || (msg.tab in s.pending && t.tail == Track(w.cfg.tab, s.tail, s.pending[msg.tab]))
    ensures MayFollow(w, t, msg)
  {}

  lemma PublishPlainKeepsInv(w: World, s: Sys, msg: Protocol.Down)
    requires Inv(w, s) && MayPublish(w, s, msg) && !LinkModel.HasTab(msg)
    ensures Inv(w, Publish(w, s, msg)) && Published(w.cfg.tab, s, Publish(w, s, msg), msg)
  {
    BroadcastKeepsInv(w, s, msg);
    var out := [msg];
    assert out[1..] == [];
    assert s.(pending := s.pending) == s;
    assert Publish(w, s, msg) == BroadcastAll(w, s, out) == Broadcast(w, s, msg);
  }

  lemma PublishMergedKeepsInv(w: World, s: Sys, msg: Protocol.Down)
    requires Inv(w, s) && MayPublish(w, s, msg)
    requires msg.Delta? && msg.data != [] && msg.tab in s.pending && LinkModel.Extends(s.pending[msg.tab], msg)
    ensures Inv(w, Publish(w, s, msg)) && Published(w.cfg.tab, s, Publish(w, s, msg), msg)
  {
    var batch := s.pending[msg.tab];
    var merged := Protocol.Delta(batch.tab, batch.epoch, batch.first, batch.data + msg.data);
    assert Track(w.cfg.tab, None, merged) == Track(w.cfg.tab, None, msg);
    if !(s.oldBatch && msg.tab == w.cfg.tab) { MergeIsTruthful(w.cfg.tab, s.logs, batch, msg); }
    var t := Publish(w, s, msg);
    assert t == s.(pending := s.pending[msg.tab := merged]);
    BatchedKeepsInv(w, s, merged);
  }

  lemma BatchedKeepsInv(w: World, s: Sys, batch: Protocol.Down)
    requires Inv(w, s) && batch.Delta? && ((batch.tab == w.cfg.tab && s.oldBatch) || Truthful(w.cfg.tab, s.logs, batch))
    ensures Inv(w, s.(pending := s.pending[batch.tab := batch]))
  {}

  lemma PublishBatchedKeepsInv(w: World, s: Sys, msg: Protocol.Down)
    requires Inv(w, s) && MayPublish(w, s, msg)
    requires msg.Delta? && msg.data != [] && !(msg.tab in s.pending && LinkModel.Extends(s.pending[msg.tab], msg))
    ensures Inv(w, Publish(w, s, msg)) && Published(w.cfg.tab, s, Publish(w, s, msg), msg)
  {
    var (pending, out) := LinkModel.Flush(s.pending, msg.tab);
    FlushKeepsInv(w, s, msg.tab);
    var s1 := BroadcastAll(w, s.(pending := pending), out);
    PendingCommutes(w, s, out, pending);
    PendingCommutes(w, s, out, pending[msg.tab := msg]);
    var t := Publish(w, s, msg);
    assert t == s1.(pending := pending[msg.tab := msg]);
    BatchedKeepsInv(w, s1, msg);
  }

  lemma PublishKeepsInv(w: World, s: Sys, msg: Protocol.Down)
    requires Inv(w, s) && MayPublish(w, s, msg)
    ensures Inv(w, Publish(w, s, msg)) && Published(w.cfg.tab, s, Publish(w, s, msg), msg)
  {
    if !LinkModel.HasTab(msg) {
      PublishPlainKeepsInv(w, s, msg);
    } else if !msg.Delta? || msg.data == [] {
      PublishNowKeepsInv(w, s, msg);
    } else if msg.tab in s.pending && LinkModel.Extends(s.pending[msg.tab], msg) {
      PublishMergedKeepsInv(w, s, msg);
    } else {
      PublishBatchedKeepsInv(w, s, msg);
    }
  }

  lemma LogGrowthKeepsInv(w: World, s: Sys, hub: HubModel.State, more: Logs)
    requires Inv(w, s) && LogsInv(w, hub, more) && Grows(s.logs, more)
    ensures Inv(w, s.(hub := hub, logs := more))
  {
    var tab := w.cfg.tab;
    forall m | m in Fresh(s)
      ensures Truthful(tab, more, m)
    {
      GrowthKeeps(tab, s.logs, more, m, None);
    }
    forall t | t in s.pending
      ensures Truthful(tab, s.logs, s.pending[t]) ==> Truthful(tab, more, s.pending[t])
    {
      GrowthKeeps(tab, s.logs, more, s.pending[t], None);
    }
    GrowthKeeps(tab, s.logs, more, OtherDown, s.done);
    GrowthKeeps(tab, s.logs, more, OtherDown, s.tail);
    if !s.stale { GrowthKeepsMirror(tab, s.logs, more, s.mirror, s.done); }
  }

  lemma RecordedKeepsInv(w: World, s: Sys, h: HubModel.Step)
    requires HubModel.Legal(w.cfg) && Inv(w, s) && HubModel.Enabled(s.hub, h)
    ensures var downs := HubModel.Apply(w.cfg, s.hub, h).1;
      Inv(w, Recorded(w, s, h)) && |downs| <= 1 && (downs != [] ==> MayPublish(w, Recorded(w, s, h), downs[0]))
  {
    HubStepLogs(w, s.hub, s.logs, h);
    var (hub, downs) := HubModel.Apply(w.cfg, s.hub, h);
    LogGrowthKeepsInv(w, s, hub, if downs == [] then s.logs else Record(s.logs, downs[0]));
  }

  lemma HubStepKeepsInv(w: World, s: Sys, h: HubModel.Step, shown: bool)
    requires HubModel.Legal(w.cfg) && Inv(w, s) && HubModel.Enabled(s.hub, h)
    ensures Inv(w, Apply(w, s, HubStep(h, shown)))
  {
    RecordedKeepsInv(w, s, h);
    var s1 := Recorded(w, s, h);
    var downs := HubModel.Apply(w.cfg, s.hub, h).1;
    if downs != [] {
      PublishKeepsInv(w, s1, downs[0]);
      PublishAllCons(w, s1, downs[0], []);
      assert downs == [downs[0]] + [];
    }
  }

  lemma PublishAllCons(w: World, s: Sys, msg: Protocol.Down, rest: seq<Protocol.Down>)
    ensures PublishAll(w, s, [msg] + rest) == PublishAll(w, Publish(w, s, msg), rest)
  {
    assert ([msg] + rest)[1..] == rest;
  }

  // ---- Catching up and joining ----

  lemma JoinIsTruthful(w: World, hub: HubModel.State, logs: Logs)
    requires LogsInv(w, hub, logs)
    ensures forall m :: m in HubModel.JoinPayload(w.cfg, hub.log) ==> Truthful(w.cfg.tab, logs, m)
  {
    if hub.log.snapshot.Some? {
      var d := logs[hub.log.epoch].deltas;
      assert d[0..|d|] == d;
    }
  }

  lemma ChainCons(tab: TabId, p: Option<Pos>, msg: Protocol.Down, rest: seq<Protocol.Down>)
    requires msg.Snapshot? && msg.tab == tab && p.Some? ==> p.value.epoch < msg.epoch
    requires Ordered(tab, Track(tab, p, msg), rest)
    ensures Ordered(tab, p, [msg] + rest)
    ensures TrackAll(tab, p, [msg] + rest) == TrackAll(tab, Track(tab, p, msg), rest)
  {
    assert ([msg] + rest)[1..] == rest;
  }

  /** Whatever the socket carried before, a join payload leaves it at the hub's position. */
  lemma JoinChains(w: World, hub: HubModel.State, p: Option<Pos>)
    requires HubModel.Inv(w.cfg, hub)
    ensures Ordered(w.cfg.tab, p, HubModel.JoinPayload(w.cfg, hub.log))
    ensures TrackAll(w.cfg.tab, p, HubModel.JoinPayload(w.cfg, hub.log))
         == if hub.log.snapshot.Some? then Some(Pos(hub.log.epoch, hub.log.seqNo)) else None
  {
    var tab := w.cfg.tab;
    var payload := HubModel.JoinPayload(w.cfg, hub.log);
    var tail := if hub.log.deltas != [] then [payload[2]] else [];
    if hub.log.snapshot.Some? {
      var p1 := Track(tab, None, payload[1]);
      assert tail == [] || tail == [payload[2]] + [];
      if tail != [] {
        ChainCons(tab, p1, payload[2], []);
      }
      ChainCons(tab, None, payload[1], tail);
      ChainCons(tab, p, payload[0], [payload[1]] + tail);
      assert payload == [payload[0]] + ([payload[1]] + tail);
    } else {
      ChainCons(tab, p, payload[0], []);
      assert payload == [payload[0]] + [];
    }
  }

  lemma ForeignIsInvisible(w: World, p: Option<Pos>, msgs: seq<Protocol.Down>)
    requires AllForeign(w, msgs)
    ensures Ordered(w.cfg.tab, p, msgs) && TrackAll(w.cfg.tab, p, msgs) == p
    decreases |msgs|
  {
    if msgs != [] {
      assert Foreign(w, msgs[0]);
      ForeignIsInvisible(w, p, msgs[1..]);
    }
  }

  lemma ChainConcat(tab: TabId, p: Option<Pos>, a: seq<Protocol.Down>, b: seq<Protocol.Down>)
    requires Ordered(tab, p, a) && Ordered(tab, TrackAll(tab, p, a), b)
    ensures Ordered(tab, p, a + b) && TrackAll(tab, p, a + b) == TrackAll(tab, TrackAll(tab, p, a), b)
    decreases |a|
  {
    if a == [] {
      assert a + b == b;
    } else {
      assert (a + b)[1..] == a[1..] + b;
      ChainConcat(tab, Track(tab, p, a[0]), a[1..], b);
    }
  }

  lemma TrackAllIn(tab: TabId, logs: Logs, p: Option<Pos>, msgs: seq<Protocol.Down>)
    requires PosIn(logs, p) && forall m :: m in msgs ==> Truthful(tab, logs, m)
    ensures PosIn(logs, TrackAll(tab, p, msgs))
    decreases |msgs|
  {
    if msgs != [] {
      TrackIn(tab, logs, p, msgs[0]);
      TrackAllIn(tab, logs, Track(tab, p, msgs[0]), msgs[1..]);
    }
  }

  /** A join puts the hub's whole state on the socket, whatever was lost before it. */
  lemma SendJoinKeepsInv(w: World, s: Sys, conn: LinkModel.Conn, before: seq<Protocol.Down>, after: seq<Protocol.Down>)
    requires Inv(w, s) && !s.phase.Down? && AllForeign(w, before) && AllForeign(w, after)
    requires CursorInv(w.cfg.tab, conn, s.tail)
    ensures var t := SendJoin(w, s, conn, before + HubModel.JoinPayload(w.cfg, s.hub.log) + after);
      && Inv(w, t)
      && (s.hub.log.snapshot.Some? ==> t.tail == Some(Pos(s.hub.log.epoch, s.hub.log.seqNo)))
  {
    var tab := w.cfg.tab;
    var join := HubModel.JoinPayload(w.cfg, s.hub.log);
    var payload := before + join + after;
    JoinIsTruthful(w, s.hub, s.logs);
    JoinChains(w, s.hub, s.tail);
    ForeignIsInvisible(w, s.tail, before);
    ChainConcat(tab, s.tail, before, join);
    ForeignIsInvisible(w, TrackAll(tab, s.tail, join), after);
    ChainConcat(tab, s.tail, before + join, after);
    forall m | m in payload
      ensures Truthful(tab, s.logs, m)
    {
      if m in before || m in after {
        assert Foreign(w, m);
      } else {
        assert m in join;
      }
    }
    TrackAllIn(tab, s.logs, s.tail, payload);
    AdvanceAllKeepsCursor(tab, s.logs, conn, s.tail, payload);
    ChainConcat(tab, s.done, Fresh(s), payload);
    assert Fresh(SendJoin(w, s, conn, payload)) == Fresh(s) + payload;
  }

  /** A catch-up is one to three publishes. */
  lemma CatchUpUnfolds(w: World, s: Sys)
    ensures var payload := HubModel.JoinPayload(w.cfg, s.hub.log);
      var s1 := Publish(w, s, payload[0]);
      PublishAll(w, s, payload)
      == if |payload| == 1 then s1
         else if |payload| == 2 then Publish(w, s1, payload[1])
         else Publish(w, Publish(w, s1, payload[1]), payload[2])
  {
    var payload := HubModel.JoinPayload(w.cfg, s.hub.log);
    var s1 := Publish(w, s, payload[0]);
    if |payload| == 1 {
      assert payload == [payload[0]] + [];
      PublishAllCons(w, s, payload[0], []);
    } else {
      var rest := payload[2..];
      assert payload == [payload[0]] + ([payload[1]] + rest);
      PublishAllCons(w, s, payload[0], [payload[1]] + rest);
      PublishAllCons(w, s1, payload[1], rest);
      if |payload| == 3 {
        assert rest == [payload[2]] + [];
        PublishAllCons(w, Publish(w, s1, payload[1]), payload[2], []);
      } else {
        assert rest == [];
      }
    }
  }

  /** The notice leaves nothing batched and no tail, so a snapshot of the open epoch may follow it. */
  lemma NoticeKeepsInv(w: World, s: Sys)
    requires Inv(w, s)
    ensures var t := Publish(w, s, ResyncNotice(w.cfg.tab));
      && Inv(w, t) && t.hub == s.hub && t.logs == s.logs && t.phase == s.phase
      && w.cfg.tab !in t.pending && (!t.phase.Down? ==> t.tail.None?)
  {
    PublishKeepsInv(w, s, ResyncNotice(w.cfg.tab));
  }

  lemma CatchUpKeepsInv(w: World, s: Sys)
    requires Inv(w, s)
    ensures Inv(w, Apply(w, s, CatchUp))
  {
    var payload := HubModel.JoinPayload(w.cfg, s.hub.log);
    CatchUpUnfolds(w, s);
    NoticeKeepsInv(w, s);
    var s1 := Publish(w, s, payload[0]);
    if |payload| > 1 {
      CatchUpSnapshot(w, s1);
      if |payload| > 2 { PublishKeepsInv(w, Publish(w, s1, payload[1]), payload[2]); }
    }
  }

  lemma CatchUpSnapshot(w: World, s1: Sys)
    requires Inv(w, s1) && w.cfg.tab !in s1.pending && (!s1.phase.Down? ==> s1.tail.None?)
    requires |HubModel.JoinPayload(w.cfg, s1.hub.log)| > 1
    ensures var payload := HubModel.JoinPayload(w.cfg, s1.hub.log); var t := Publish(w, s1, payload[1]);
      && MayPublish(w, s1, payload[1]) && Inv(w, t) && t.hub == s1.hub && !t.oldBatch
      && (!t.phase.Down? ==> t.tail.Some?)
      && (|payload| == 3 ==> MayPublish(w, t, payload[2]))
  {
    var payload := HubModel.JoinPayload(w.cfg, s1.hub.log);
    JoinIsTruthful(w, s1.hub, s1.logs);
    assert payload[1] in payload && (|payload| == 3 ==> payload[2] in payload);
    PublishKeepsInv(w, s1, payload[1]);
  }

  // ---- Delivery ----

  lemma HandleKeepsInv(tab: TabId, logs: Logs, m: MirrorModel.State, p: Option<Pos>, msg: Protocol.Down, replay: MirrorModel.Replay)
    requires forall e :: e in logs ==> |logs[e].opening| == 2
    requires m.live.Some? ==> m.activeTab == Some(m.live.value.tab)
    requires ShowsPrefix(tab, logs, m) && StandsAt(tab, logs, m, p) && Truthful(tab, logs, msg)
    requires msg.Snapshot? && msg.tab == tab && p.Some? ==> p.value.epoch < msg.epoch
    ensures var n := MirrorModel.Handle(m, msg, replay);
      && (n.live.Some? ==> n.activeTab == Some(n.live.value.tab))
      && ShowsPrefix(tab, logs, n) && StandsAt(tab, logs, n, Track(tab, p, msg))
  {
    if msg.Delta? && msg.tab == tab && m.live.Some? && m.live.value.tab == tab && !m.resyncRequested
       && MirrorModel.Follows(m.live.value, msg) {
      var live := m.live.value;
      var all := logs[live.epoch].opening + logs[live.epoch].deltas;
      var n := |live.applied|;
      assert live.applied == all[..n];
      assert msg.data == all[n..n + |msg.data|];
      assert live.applied + msg.data == all[..n + |msg.data|];
      if replay.EventFails? && replay.index < |msg.data| {
        assert live.applied + msg.data[..replay.index] == all[..n + replay.index];
      }
    }
  }

  lemma HandleKeepsTab(m: MirrorModel.State, msg: Protocol.Down, replay: MirrorModel.Replay)
    requires m.live.Some? ==> m.activeTab == Some(m.live.value.tab)
    ensures var n := MirrorModel.Handle(m, msg, replay); n.live.Some? ==> n.activeTab == Some(n.live.value.tab)
  {}

  /** A snapshot of the present hub that is taken leaves nothing of a replaced one. */
  lemma AcceptedIsCurrent(tab: TabId, logs: Logs, m: MirrorModel.State, p: Option<Pos>, msg: Protocol.Down, replay: MirrorModel.Replay)
    requires forall e :: e in logs ==> |logs[e].opening| == 2
    requires msg.Snapshot? && msg.tab == tab && MirrorModel.Accepts(m, msg) && Truthful(tab, logs, msg)
    ensures var n := MirrorModel.Handle(m, msg, replay);
      ShowsPrefix(tab, logs, n) && StandsAt(tab, logs, n, Track(tab, p, msg))
  {}

  lemma DeliverKeepsInv(w: World, s: Sys, replay: MirrorModel.Replay)
    requires Inv(w, s) && Enabled(w, s, Deliver(replay))
    ensures Inv(w, Apply(w, s, Deliver(replay)))
  {
    HandleKeepsTab(s.mirror, s.chan[0], replay);
    if s.fence > 0 {
      OldDeliveryKeepsInv(w, s, replay);
    } else {
      FreshDeliveryKeepsChannel(w, s, replay);
      FreshDeliveryKeepsMirror(w, s, replay);
    }
  }

  lemma OldDeliveryKeepsInv(w: World, s: Sys, replay: MirrorModel.Replay)
    requires Inv(w, s) && Enabled(w, s, Deliver(replay)) && s.fence > 0
    requires var n := MirrorModel.Handle(s.mirror, s.chan[0], replay); n.live.Some? ==> n.activeTab == Some(n.live.value.tab)
    ensures Inv(w, Delivered(w, s, replay))
  {
    assert Fresh(Delivered(w, s, replay)) == Fresh(s);
  }

  lemma FreshDeliveryKeepsChannel(w: World, s: Sys, replay: MirrorModel.Replay)
    requires Inv(w, s) && Enabled(w, s, Deliver(replay)) && s.fence == 0
    ensures ChannelInv(w.cfg.tab, Delivered(w, s, replay))
  {
    assert Fresh(s) == s.chan;
    var t := Delivered(w, s, replay);
    assert Fresh(t) == s.chan[1..];
    assert s.chan[0] in Fresh(s) && forall m :: m in s.chan[1..] ==> m in s.chan;
    TrackIn(w.cfg.tab, s.logs, s.done, s.chan[0]);
    assert s.oldBatch ==> !OfTab(w.cfg.tab, s.chan[0]);
  }

  lemma FreshDeliveryKeepsMirror(w: World, s: Sys, replay: MirrorModel.Replay)
    requires Inv(w, s) && Enabled(w, s, Deliver(replay)) && s.fence == 0
    requires var n := MirrorModel.Handle(s.mirror, s.chan[0], replay); n.live.Some? ==> n.activeTab == Some(n.live.value.tab)
    ensures MirrorInv(w.cfg.tab, Delivered(w, s, replay))
  {
    var msg := s.chan[0];
    assert Fresh(s) == s.chan && msg in Fresh(s);
    if !s.stale {
      HandleKeepsInv(w.cfg.tab, s.logs, s.mirror, s.done, msg, replay);
    } else if msg.Snapshot? && msg.tab == w.cfg.tab && MirrorModel.Accepts(s.mirror, msg) {
      AcceptedIsCurrent(w.cfg.tab, s.logs, s.mirror, s.done, msg, replay);
    }
  }

  lemma NewSocketKeepsInv(w: World, s: Sys)
    requires Inv(w, s) && s.phase.Down?
    ensures Inv(w, NewSocket(s))
  {}

  lemma ConnectKeepsInv(w: World, s: Sys, before: seq<Protocol.Down>, after: seq<Protocol.Down>)
    requires Inv(w, s) && Enabled(w, s, Connect(before, after))
    ensures Inv(w, Apply(w, s, Connect(before, after)))
  {
    NewSocketKeepsInv(w, s);
    SendJoinKeepsInv(w, NewSocket(s), LinkModel.FRESH, before, after);
  }

  lemma ReplacedKeepsInv(w: World, s: Sys)
    requires HubModel.Legal(w.cfg) && Inv(w, s)
    ensures Inv(w, Replaced(w, s))
  {
    HubModel.InitialInv(w.cfg);
    assert Fresh(Replaced(w, s)) == [];
  }

  lemma StepKeepsInv(w: World, s: Sys, step: Step)
    requires HubModel.Legal(w.cfg) && Inv(w, s) && Enabled(w, s, step)
    ensures Inv(w, Apply(w, s, step))
  {
    match step
    case HubStep(h, shown) => HubStepKeepsInv(w, s, h, shown);
    case ReplaceHub => ReplacedKeepsInv(w, s);
    case CatchUp => CatchUpKeepsInv(w, s);
    case PublishOther(msg) => PublishKeepsInv(w, s, msg);
    case FlushTimer(tab) => FlushKeepsInv(w, s, tab);
    case Connect(before, after) => ConnectKeepsInv(w, s, before, after);
    case Drain(before, after) => SendJoinKeepsInv(w, s, s.conn.(stalled := false), before, after);
    case Deliver(replay) => DeliverKeepsInv(w, s, replay);
    case _ => ViewerStepKeepsInv(w, s, step);
  }

  lemma ViewerStepKeepsInv(w: World, s: Sys, step: Step)
    requires Inv(w, s) && Enabled(w, s, step)
    requires step.ClientOpens? || step.Lost? || step.SelectTab? || step.Teardown?
    ensures Inv(w, Apply(w, s, step))
  {}

  lemma StartInv(w: World)
    requires HubModel.Legal(w.cfg)
    ensures Inv(w, Start(w))
  {
    HubModel.InitialInv(w.cfg);
  }

  lemma {:induction false} RunKeepsInv(w: World, s: Sys, run: seq<Step>)
    requires HubModel.Legal(w.cfg) && Inv(w, s) && Possible(w, s, run)
    ensures Inv(w, After(w, s, run))
    decreases |run|
  {
    if run != [] {
      StepKeepsInv(w, s, run[0]);
      RunKeepsInv(w, Apply(w, s, run[0]), run[1..]);
    }
  }

  // ---- When a replaced hub may still be on show ----

  lemma {:induction false} BroadcastsKeepStale(w: World, s: Sys, msgs: seq<Protocol.Down>)
    ensures BroadcastAll(w, s, msgs).stale == s.stale && BroadcastAll(w, s, msgs).mirror == s.mirror
    decreases |msgs|
  {
    if msgs != [] { BroadcastsKeepStale(w, Broadcast(w, s, msgs[0]), msgs[1..]); }
  }

  lemma {:induction false} PublishesKeepStale(w: World, s: Sys, msgs: seq<Protocol.Down>)
    ensures PublishAll(w, s, msgs).stale == s.stale && PublishAll(w, s, msgs).mirror == s.mirror
    decreases |msgs|
  {
    if msgs != [] {
      var (pending, out) := LinkModel.Publish(s.pending, msgs[0]);
      BroadcastsKeepStale(w, s.(pending := pending), out);
      PublishesKeepStale(w, Publish(w, s, msgs[0]), msgs[1..]);
    }
  }

  /** Only a replacement makes a mirror stale, and only a snapshot of the present hub that is taken ends it. */
  lemma StaleIff(w: World, s: Sys, step: Step)
    requires Enabled(w, s, step)
    ensures Apply(w, s, step).stale <==>
      step.ReplaceHub?
      || (s.stale && !(step.Deliver? && s.fence == 0 && s.chan[0].Snapshot? && s.chan[0].tab == w.cfg.tab
                       && MirrorModel.Accepts(s.mirror, s.chan[0])))
  {
    match step
    case HubStep(h, _) => PublishesKeepStale(w, Recorded(w, s, h), HubModel.Apply(w.cfg, s.hub, h).1);
    case CatchUp => PublishesKeepStale(w, s, HubModel.JoinPayload(w.cfg, s.hub.log));
    case PublishOther(msg) =>
      var (pending, out) := LinkModel.Publish(s.pending, msg);
      BroadcastsKeepStale(w, s.(pending := pending), out);
    case FlushTimer(tab) =>
      var (pending, out) := LinkModel.Flush(s.pending, tab);
      BroadcastsKeepStale(w, s.(pending := pending), out);
    case _ =>
  }

  /** A run in which the hub is never replaced never has a stale mirror. */
  lemma {:induction false} NeverReplacedNeverStale(w: World, s: Sys, run: seq<Step>)
    requires Possible(w, s, run) && !s.stale && forall i :: 0 <= i < |run| ==> !run[i].ReplaceHub?
    ensures !After(w, s, run).stale
    decreases |run|
  {
    if run != [] {
      StaleIff(w, s, run[0]);
      NeverReplacedNeverStale(w, Apply(w, s, run[0]), run[1..]);
    }
  }

  /**
   * What a mirror with a replaced hub's document, at number `n` of epoch `e`, makes of a message of the
   * present hub, whatever was lost before it: it takes a snapshot exactly if that is of a later epoch, asks
   * exactly at a notice or a delta other than `n + 1` of `e`, and takes precisely that delta for its own.
   */
  lemma StaleDelivery(w: World, s: Sys)
    requires Inv(w, s) && s.phase.Open? && s.chan != [] && s.stale && s.fence == 0 && OfTab(w.cfg.tab, s.chan[0])
    requires s.mirror.live.Some? && s.mirror.live.value.tab == w.cfg.tab && !s.mirror.resyncRequested
    ensures var t := Apply(w, s, Deliver(MirrorModel.Works)); var msg, live := s.chan[0], s.mirror.live.value;
      && (!t.stale <==> msg.Snapshot? && msg.epoch > live.epoch)
      && (t.mirror.resyncRequested <==>
            msg.ResyncNotice? || (msg.Delta? && !(msg.epoch == live.epoch && msg.first == live.lastSeq + 1)))
      && (t.stale && t.mirror.live != s.mirror.live <==>
            msg.Delta? && msg.epoch == live.epoch && msg.first == live.lastSeq + 1)
  {
    var msg, live := s.chan[0], s.mirror.live.value;
    assert Fresh(s) == s.chan && msg in Fresh(s);
    if msg.Delta? { assert |live.applied + msg.data| > |live.applied|; }
  }

  // ---- Main results ----

  /**
   * Whatever is lost, merged or replayed, the mirror shows a contiguous prefix of one epoch of the
   * hub, and while it is connected and not waiting for a resync exactly up to its last number. After
   * the hub was replaced this holds again from the first of its snapshots that the mirror takes.
   */
  lemma ShowsContiguousPrefix(w: World, run: seq<Step>)
    requires HubModel.Legal(w.cfg) && Possible(w, Start(w), run)
    ensures var s := After(w, Start(w), run);
      !s.stale && s.mirror.live.Some? && s.mirror.live.value.tab == w.cfg.tab ==>
        var live := s.mirror.live.value;
        && live.epoch in s.logs
        && live.applied <= s.logs[live.epoch].opening + s.logs[live.epoch].deltas
        && (s.phase.Open? && !s.mirror.resyncRequested ==>
              |live.applied| == 2 + live.lastSeq - s.logs[live.epoch].start)
  {
    StartInv(w);
    RunKeepsInv(w, Start(w), run);
  }

  ghost predicate AgreesWithHub(w: World, s: Sys)
    requires s.hub.log.snapshot.Some? && s.hub.log.meta.Some?
  {
    s.mirror.live == Some(MirrorModel.Live(
      w.cfg.tab, s.hub.log.epoch, s.hub.log.seqNo, [s.hub.log.meta.value, s.hub.log.snapshot.value] + s.hub.log.deltas))
  }

  predicate AtHub(s: Sys, p: Option<Pos>) {
    p == Some(Pos(s.hub.log.epoch, s.hub.log.seqNo))
  }

  /** Nothing left in flight and no resync asked for. */
  predicate Quiet(w: World, s: Sys) {
    s.phase.Open? && s.chan == [] && !s.mirror.resyncRequested
    && s.mirror.live.Some? && s.mirror.live.value.tab == w.cfg.tab
  }

  /**
   * Loss in the middle never goes unnoticed: once the channel is drained, and the last message that
   * got through was the hub's latest, a mirror that asked for nothing has everything.
   */
  lemma QuietMirrorAgrees(w: World, s: Sys)
    requires Inv(w, s) && !s.stale && Quiet(w, s) && s.hub.log.snapshot.Some? && AtHub(s, s.tail)
    ensures AgreesWithHub(w, s)
  {
    var log := s.logs[s.hub.log.epoch];
    var live := s.mirror.live.value;
    assert s.tail == s.done;
    assert |live.applied| == |log.opening + log.deltas|;
    assert live.applied == log.opening + log.deltas;
  }

  lemma LossIsNeverUnnoticed(w: World, run: seq<Step>)
    requires HubModel.Legal(w.cfg) && Possible(w, Start(w), run)
    ensures var s := After(w, Start(w), run);
      !s.stale && Quiet(w, s) && s.hub.log.snapshot.Some? && AtHub(s, s.tail) ==>
        s.hub.log.meta.Some? && AgreesWithHub(w, s)
  {
    StartInv(w);
    RunKeepsInv(w, Start(w), run);
    var s := After(w, Start(w), run);
    if !s.stale && Quiet(w, s) && s.hub.log.snapshot.Some? && AtHub(s, s.tail) {
      QuietMirrorAgrees(w, s);
    }
  }

  function DeliverAll(w: World, s: Sys): Sys
    decreases |s.chan|
  {
    if !s.phase.Open? || s.chan == [] then s else DeliverAll(w, Apply(w, s, Deliver(MirrorModel.Works)))
  }

  predicate TakesEpoch(m: MirrorModel.State, epoch: nat) {
    m.live.None? || m.resyncRequested || m.live.value.epoch < epoch
  }

  lemma {:induction false} DrainToSnapshot(w: World, s: Sys, last: Protocol.Down)
    requires Inv(w, s) && s.phase.Open? && s.mirror.activeTab == Some(w.cfg.tab)
    requires s.chan != [] && s.chan[|s.chan| - 1] == last && last.Snapshot? && last.tab == w.cfg.tab
    requires s.stale ==> s.fence == 0 && TakesEpoch(s.mirror, last.epoch)
    ensures var t := DeliverAll(w, s);
      && t.hub == s.hub && t.chan == [] && !t.mirror.resyncRequested
      && t.mirror.live == Some(MirrorModel.Live(w.cfg.tab, last.epoch, last.first, last.data))
    decreases |s.chan|
  {
    var t := Apply(w, s, Deliver(MirrorModel.Works));
    if |s.chan| == 1 {
      LastIsTaken(w, s);
      assert t.chan == [];
    } else {
      DeliverKeepsInv(w, s, MirrorModel.Works);
      StillTakes(w, s, last.epoch);
      DrainToSnapshot(w, t, last);
    }
  }

  lemma StillTakes(w: World, s: Sys, epoch: nat)
    requires Inv(w, s) && s.phase.Open? && s.chan != [] && s.mirror.activeTab == Some(w.cfg.tab)
    requires s.stale ==> s.fence == 0 && TakesEpoch(s.mirror, epoch)
    ensures var t := Apply(w, s, Deliver(MirrorModel.Works));
      && t.hub == s.hub && t.chan == s.chan[1..] && t.phase.Open? && t.mirror.activeTab == Some(w.cfg.tab)
      && (t.stale ==> t.fence == 0 && TakesEpoch(t.mirror, epoch))
  {}

  lemma LastIsTaken(w: World, s: Sys)
    requires Inv(w, s) && s.phase.Open? && s.mirror.activeTab == Some(w.cfg.tab)
    requires |s.chan| == 1 && s.chan[0].Snapshot? && s.chan[0].tab == w.cfg.tab
    requires s.stale ==> s.fence == 0 && TakesEpoch(s.mirror, s.chan[0].epoch)
    ensures var t := Apply(w, s, Deliver(MirrorModel.Works)); var last := s.chan[0];
      && t.hub == s.hub && t.chan == [] && !t.mirror.resyncRequested
      && t.mirror.live == Some(MirrorModel.Live(w.cfg.tab, last.epoch, last.first, last.data))
  {
    if !s.stale { assert Fresh(s) == s.chan; }
  }

  /**
   * Recovery from any state at all: one fresh snapshot of the hub, once delivered to a mirror on the
   * tab, makes the two agree, no matter what was lost, half applied or pending before. A mirror with a
   * replaced hub's document must be one that takes the snapshot: it asked, or knows no epoch as late.
   */
  lemma FreshSnapshotRepairs(w: World, s: Sys, h: HubModel.Step)
    requires HubModel.Legal(w.cfg) && Inv(w, s) && HubModel.Enabled(s.hub, h)
    requires s.phase.Open? && s.mirror.activeTab == Some(w.cfg.tab)
    requires var downs := HubModel.Apply(w.cfg, s.hub, h).1;
      downs != [] && downs[0].Snapshot?
      && (s.stale ==> s.fence == 0 && !s.oldBatch && TakesEpoch(s.mirror, downs[0].epoch))
    ensures var t := DeliverAll(w, Apply(w, s, HubStep(h, true)));
      t.hub.log.snapshot.Some? && t.hub.log.meta.Some? && !t.mirror.resyncRequested && AgreesWithHub(w, t)
  {
    SnapshotPublished(w, s, h);
    DrainToSnapshot(w, Apply(w, s, HubStep(h, true)), HubModel.Apply(w.cfg, s.hub, h).1[0]);
    OpenedByStep(w, s.hub, h);
  }

  /** A step that says a snapshot leaves the hub with exactly that snapshot. */
  lemma OpenedByStep(w: World, hub: HubModel.State, h: HubModel.Step)
    requires HubModel.Legal(w.cfg) && HubModel.Inv(w.cfg, hub) && HubModel.Enabled(hub, h)
    requires var downs := HubModel.Apply(w.cfg, hub, h).1; downs != [] && downs[0].Snapshot?
    ensures var (next, downs) := HubModel.Apply(w.cfg, hub, h);
      && downs == [downs[0]] && downs[0].tab == w.cfg.tab
      && next.log.snapshot.Some? && next.log.meta.Some? && downs[0].epoch == next.log.epoch && downs[0].first == next.log.seqNo
      && downs[0].data == [next.log.meta.value, next.log.snapshot.value] + next.log.deltas
  {
    HubModel.StepShape(w.cfg, hub, h);
    HubModel.StepAdvances(w.cfg, hub, h);
  }

  /** The snapshot goes to the end of the socket. */
  lemma SnapshotPublished(w: World, s: Sys, h: HubModel.Step)
    requires HubModel.Legal(w.cfg) && Inv(w, s) && HubModel.Enabled(s.hub, h) && !s.phase.Down?
    requires var downs := HubModel.Apply(w.cfg, s.hub, h).1; downs != [] && downs[0].Snapshot?
    ensures var t := Apply(w, s, HubStep(h, true)); var (hub, downs) := HubModel.Apply(w.cfg, s.hub, h);
      && Inv(w, t) && t.hub == hub && t.phase == s.phase && t.mirror == s.mirror && t.stale == s.stale
      && (!s.oldBatch ==> t.fence == s.fence)
      && t.chan != [] && t.chan[|t.chan| - 1] == downs[0]
  {
    var s1, downs := Recorded(w, s, h), HubModel.Apply(w.cfg, s.hub, h).1;
    RecordedKeepsInv(w, s, h);
    PublishEndsWith(w, s1, downs[0]);
    PublishKeepsInv(w, s1, downs[0]);
    PublishAtMostOne(w, s1, downs);
  }

  lemma PublishEndsWith(w: World, s: Sys, msg: Protocol.Down)
    requires Inv(w, s) && !s.phase.Down? && msg.Snapshot?
    ensures var t := Publish(w, s, msg);
      t.chan != [] && t.chan[|t.chan| - 1] == msg
  {
    var (pending, out) := LinkModel.Flush(s.pending, msg.tab);
    FlushKeepsInv(w, s, msg.tab);
    BroadcastAllAppends(w, s.(pending := pending), out, msg);
  }

  // ---- From the mirror's request to agreement ----

  /** A pair from the page of the open document makes the hub say a snapshot, whatever it was waiting for. */
  lemma PairOpens(c: HubModel.Config, s: HubModel.State, meta: Event, full: Event, now: int, throws: seq<seq<bool>>)
    requires HubModel.Legal(c) && HubModel.Inv(c, s) && s.log.hasDocument && |throws| == 2
    requires meta.kind.Meta? && full.kind.FullSnapshot?
    ensures var first := HubModel.DoIngest(Rrweb(s.log.docId, meta), now, throws[0]);
      var second := HubModel.DoIngest(Rrweb(s.log.docId, full), now, throws[1]);
      var (next, downs) := HubModel.Apply(c, HubModel.Apply(c, s, first).0, second);
      && downs != [] && downs[0].Snapshot? && next.log.meta == Some(meta) && next.log.snapshot == Some(full)
  {}

  lemma RequestAsks(c: HubModel.Config, s: HubModel.State, throws: seq<bool>)
    ensures var next := HubModel.Apply(c, s, HubModel.DoRequest(Resync, throws)).0;
      && next.log == s.log && HubModel.Apply(c, s, HubModel.DoRequest(Resync, throws)).1 == []
      && (s.rec.requested || next.rec.asked == s.rec.asked + [HubModel.Stronger(s.rec.pending, Resync)])
  {}

  /** A hub step on show leaves the mirror alone, and cannot put a replaced hub's messages back in front. */
  lemma HubStepKeepsViewer(w: World, s: Sys, h: HubModel.Step)
    requires HubModel.Legal(w.cfg) && Inv(w, s) && HubModel.Enabled(s.hub, h)
    ensures var t := Apply(w, s, HubStep(h, true));
      && Inv(w, t) && t.hub == HubModel.Apply(w.cfg, s.hub, h).0
      && t.phase == s.phase && t.mirror == s.mirror && t.stale == s.stale
      && (s.oldBatch || (!t.oldBatch && t.fence == s.fence))
  {
    var s1, downs := Recorded(w, s, h), HubModel.Apply(w.cfg, s.hub, h).1;
    HubStepKeepsInv(w, s, h, true);
    RecordedKeepsInv(w, s, h);
    PublishAtMostOne(w, s1, downs);
    if downs != [] { PublishKeepsInv(w, s1, downs[0]); }
  }

  /**
   * A resync is answered in one round: the mirror's request reaches the hub, the hub asks the page, the
   * page sends its pair; and once the socket is drained the mirror has that pair and agrees with the hub.
   * It holds from every reachable state in which the hub has a document, open or not yet, and with any
   * losses; a replaced hub's messages must have been delivered first.
   */
  lemma ResyncRoundTrip(w: World, s: Sys, meta: Event, full: Event, now: int, throws: seq<seq<bool>>)
    requires HubModel.Legal(w.cfg) && Inv(w, s) && s.phase.Open? && |throws| == 3
    requires s.mirror.activeTab == Some(w.cfg.tab) && s.mirror.resyncRequested && (s.stale ==> s.fence == 0 && !s.oldBatch)
    requires s.hub.log.hasDocument && meta.kind.Meta? && full.kind.FullSnapshot?
    ensures var ask := HubStep(HubModel.DoRequest(Resync, throws[0]), true);
      var first := HubStep(HubModel.DoIngest(Rrweb(s.hub.log.docId, meta), now, throws[1]), true);
      var second := HubStep(HubModel.DoIngest(Rrweb(s.hub.log.docId, full), now, throws[2]), true);
      var asked := Apply(w, s, ask).hub.rec.asked;
      var t := DeliverAll(w, Apply(w, Apply(w, Apply(w, s, ask), first), second));
      && (s.hub.rec.requested || asked == s.hub.rec.asked + [HubModel.Stronger(s.hub.rec.pending, Resync)])
      && !t.mirror.resyncRequested && t.hub.log.meta == Some(meta) && t.hub.log.snapshot == Some(full) && AgreesWithHub(w, t)
  {
    var ask := HubModel.DoRequest(Resync, throws[0]);
    var first := HubModel.DoIngest(Rrweb(s.hub.log.docId, meta), now, throws[1]);
    var second := HubModel.DoIngest(Rrweb(s.hub.log.docId, full), now, throws[2]);
    HubStepKeepsViewer(w, s, ask);
    RequestAsks(w.cfg, s.hub, throws[0]);
    var s1 := Apply(w, s, HubStep(ask, true));
    PairOpens(w.cfg, s1.hub, meta, full, now, throws[1..]);
    HubStepKeepsViewer(w, s1, first);
    var s2 := Apply(w, s1, HubStep(first, true));
    FreshSnapshotRepairs(w, s2, second);
    SnapshotPublished(w, s2, second);
    DeliverAllKeepsHub(w, Apply(w, s2, HubStep(second, true)));
  }

  lemma {:induction false} DeliverAllKeepsHub(w: World, s: Sys)
    ensures DeliverAll(w, s).hub == s.hub
    decreases |s.chan|
  {
    if s.phase.Open? && s.chan != [] { DeliverAllKeepsHub(w, Apply(w, s, Deliver(MirrorModel.Works))); }
  }

  // ---- Runs without loss ----

  /** No drop option and no backlog above the stall mark. */
  ghost predicate Calm(w: World) {
    forall i :: !w.choice(i).drop && w.choice(i).buffered <= LinkModel.STALL_BYTES
  }

  predicate AllShown(run: seq<Step>) {
    forall i :: 0 <= i < |run| && run[i].HubStep? ==> run[i].shown
  }

  /** The hub's latest number is last on the socket or last in the open batch. */
  predicate Latest(w: World, s: Sys) {
    && !s.conn.stalled
    && (s.oldBatch ==> s.hub.log.snapshot.None?)
    && (!s.phase.Down? && s.hub.log.snapshot.Some? ==>
          if w.cfg.tab in s.pending then s.tail.Some? && AtHub(s, Track(w.cfg.tab, None, s.pending[w.cfg.tab]))
          else AtHub(s, s.tail))
  }

  lemma CalmBroadcast(w: World, s: Sys, msg: Protocol.Down)
    requires Calm(w) && !s.conn.stalled
    ensures var t := Broadcast(w, s, msg);
      !t.conn.stalled && (!s.phase.Down? ==>
        || t.tail == Track(w.cfg.tab, s.tail, msg)
        || (msg.Delta? && (IsOldBatch(w, s, msg) || LinkModel.AlreadyReplayed(s.conn, msg)) && t.tail == s.tail))
  {
    assert !w.choice(s.ticks).drop && w.choice(s.ticks).buffered <= LinkModel.STALL_BYTES;
  }

  lemma {:induction false} CalmBroadcastAll(w: World, s: Sys, msgs: seq<Protocol.Down>)
    requires Calm(w) && !s.conn.stalled
    ensures !BroadcastAll(w, s, msgs).conn.stalled
    decreases |msgs|
  {
    if msgs != [] {
      CalmBroadcast(w, s, msgs[0]);
      CalmBroadcastAll(w, Broadcast(w, s, msgs[0]), msgs[1..]);
    }
  }

  /** A batch the connection refuses as already replayed is one whose end it has already been sent. */
  lemma ReplayedIsCovered(w: World, s: Sys, msg: Protocol.Down)
    requires LogsInv(w, s.hub, s.logs) && s.hub.log.snapshot.Some?
    requires s.tail.Some? && PosIn(s.logs, s.tail) && CursorInv(w.cfg.tab, s.conn, s.tail)
    requires msg.Delta? && msg.tab == w.cfg.tab && msg.data != [] && AtHub(s, Track(w.cfg.tab, None, msg))
    requires LinkModel.AlreadyReplayed(s.conn, msg)
    ensures AtHub(s, s.tail)
  {}

  lemma FlushTabKeepsLatest(w: World, s: Sys)
    requires Calm(w) && Inv(w, s) && Latest(w, s) && w.cfg.tab in s.pending
    ensures Latest(w, Apply(w, s, FlushTimer(w.cfg.tab)))
  {
    var msg := s.pending[w.cfg.tab];
    var s1 := s.(pending := s.pending - {w.cfg.tab});
    var t := Broadcast(w, s1, msg);
    CalmBroadcast(w, s1, msg);
    assert [msg][1..] == [];
    assert Apply(w, s, FlushTimer(w.cfg.tab)) == BroadcastAll(w, s1, [msg]) == t;
    assert t.hub == s.hub && t.phase == s.phase && t.pending == s1.pending;
    if !s.phase.Down? && s.hub.log.snapshot.Some? && t.tail == s.tail {
      ReplayedIsCovered(w, s, msg);
    }
  }

  lemma FlushKeepsLatest(w: World, s: Sys, tab: TabId)
    requires Calm(w) && Inv(w, s) && Latest(w, s)
    ensures Latest(w, Apply(w, s, FlushTimer(tab)))
  {
    if tab == w.cfg.tab && tab in s.pending {
      FlushTabKeepsLatest(w, s);
    } else {
      var (pending, out) := LinkModel.Flush(s.pending, tab);
      FlushKeepsInv(w, s, tab);
      CalmBroadcastAll(w, s.(pending := pending), out);
    }
  }

  lemma PublishKeepsLatest(w: World, s: Sys, msg: Protocol.Down)
    requires Calm(w) && Inv(w, s) && MayPublish(w, s, msg) && !s.conn.stalled
    requires msg.Snapshot? || (msg.Delta? && msg.data != [])
    requires msg.tab == w.cfg.tab && AtHub(s, Track(w.cfg.tab, None, msg))
    requires msg.Delta? ==> !s.oldBatch && (!s.phase.Down? ==> s.tail.Some?)
    ensures Latest(w, Publish(w, s, msg))
  {
    PublishKeepsInv(w, s, msg);
    CalmBroadcastAll(w, s.(pending := LinkModel.Publish(s.pending, msg).0), LinkModel.Publish(s.pending, msg).1);
  }

  /** A hub step that emits nothing leaves the hub's numbers alone. */
  lemma SilentStepKeepsLatest(w: World, s: Sys, h: HubModel.Step)
    requires HubModel.Legal(w.cfg) && Inv(w, s) && Latest(w, s) && HubModel.Enabled(s.hub, h)
    requires HubModel.Apply(w.cfg, s.hub, h).1 == []
    ensures Latest(w, Recorded(w, s, h))
  {
    HubModel.StepShape(w.cfg, s.hub, h);
    HubModel.StepAdvances(w.cfg, s.hub, h);
  }

  lemma SpokenStepKeepsLatest(w: World, s: Sys, h: HubModel.Step)
    requires HubModel.Legal(w.cfg) && Calm(w) && Inv(w, s) && Latest(w, s) && HubModel.Enabled(s.hub, h)
    requires HubModel.Apply(w.cfg, s.hub, h).1 != []
    ensures Latest(w, Publish(w, Recorded(w, s, h), HubModel.Apply(w.cfg, s.hub, h).1[0]))
  {
    RecordedKeepsInv(w, s, h);
    HubStepLogs(w, s.hub, s.logs, h);
    PublishKeepsLatest(w, Recorded(w, s, h), HubModel.Apply(w.cfg, s.hub, h).1[0]);
  }

  lemma HubStepKeepsLatest(w: World, s: Sys, h: HubModel.Step)
    requires HubModel.Legal(w.cfg) && Calm(w) && Inv(w, s) && Latest(w, s) && HubModel.Enabled(s.hub, h)
    ensures Latest(w, Apply(w, s, HubStep(h, true)))
  {
    var downs := HubModel.Apply(w.cfg, s.hub, h).1;
    var s1 := Recorded(w, s, h);
    HubStepLogs(w, s.hub, s.logs, h);
    PublishAtMostOne(w, s1, downs);
    if downs == [] {
      SilentStepKeepsLatest(w, s, h);
    } else {
      SpokenStepKeepsLatest(w, s, h);
    }
  }

  lemma PublishAtMostOne(w: World, s: Sys, msgs: seq<Protocol.Down>)
    requires |msgs| <= 1
    ensures PublishAll(w, s, msgs) == if msgs == [] then s else Publish(w, s, msgs[0])
  {}

  lemma CalmPublish(w: World, s: Sys, msg: Protocol.Down)
    requires Calm(w) && !s.conn.stalled
    ensures !Publish(w, s, msg).conn.stalled
  {
    var (pending, out) := LinkModel.Publish(s.pending, msg);
    CalmBroadcastAll(w, s.(pending := pending), out);
  }

  lemma NoticeStaysCalm(w: World, s: Sys)
    requires Calm(w) && Inv(w, s) && Latest(w, s)
    ensures var t := Publish(w, s, HubModel.JoinPayload(w.cfg, s.hub.log)[0]);
      Inv(w, t) && !t.conn.stalled && t.hub == s.hub && t.logs == s.logs && (s.hub.log.snapshot.None? ==> Latest(w, t))
  {
    NoticeKeepsInv(w, s);
    CalmPublish(w, s, HubModel.JoinPayload(w.cfg, s.hub.log)[0]);
  }

  lemma CatchUpTail(w: World, s1: Sys)
    requires Calm(w) && Inv(w, s1) && !s1.conn.stalled && |HubModel.JoinPayload(w.cfg, s1.hub.log)| == 3
    requires var payload := HubModel.JoinPayload(w.cfg, s1.hub.log); var t := Publish(w, s1, payload[1]);
      Inv(w, t) && t.hub == s1.hub && !t.oldBatch && (!t.phase.Down? ==> t.tail.Some?) && MayPublish(w, t, payload[2])
    ensures var payload := HubModel.JoinPayload(w.cfg, s1.hub.log);
      Latest(w, Publish(w, Publish(w, s1, payload[1]), payload[2]))
  {
    var payload := HubModel.JoinPayload(w.cfg, s1.hub.log);
    CalmPublish(w, s1, payload[1]);
    PublishKeepsLatest(w, Publish(w, s1, payload[1]), payload[2]);
  }

  lemma CatchUpFromNotice(w: World, s1: Sys)
    requires Calm(w) && Inv(w, s1) && !s1.conn.stalled
    requires w.cfg.tab !in s1.pending && (!s1.phase.Down? ==> s1.tail.None?)
    requires |HubModel.JoinPayload(w.cfg, s1.hub.log)| > 1
    ensures var payload := HubModel.JoinPayload(w.cfg, s1.hub.log); var t := Publish(w, s1, payload[1]);
      if |payload| == 2 then Latest(w, t) else Latest(w, Publish(w, t, payload[2]))
  {
    CatchUpSnapshot(w, s1);
    var payload := HubModel.JoinPayload(w.cfg, s1.hub.log);
    if |payload| == 2 { PublishKeepsLatest(w, s1, payload[1]); } else { CatchUpTail(w, s1); }
  }

  lemma CatchUpKeepsLatest(w: World, s: Sys)
    requires Calm(w) && Inv(w, s) && Latest(w, s)
    ensures Latest(w, Apply(w, s, CatchUp))
  {
    var payload := HubModel.JoinPayload(w.cfg, s.hub.log);
    CatchUpUnfolds(w, s);
    NoticeStaysCalm(w, s);
    NoticeKeepsInv(w, s);
    var s1 := Publish(w, s, payload[0]);
    if |payload| > 1 { CatchUpFromNotice(w, s1); }
  }

  lemma StepKeepsLatest(w: World, s: Sys, step: Step)
    requires HubModel.Legal(w.cfg) && Calm(w) && Inv(w, s) && Latest(w, s) && Enabled(w, s, step)
    requires step.HubStep? ==> step.shown
    ensures Latest(w, Apply(w, s, step))
  {
    match step
    case HubStep(h, _) => HubStepKeepsLatest(w, s, h);
    case CatchUp => CatchUpKeepsLatest(w, s);
    case PublishOther(msg) =>
      PublishKeepsInv(w, s, msg);
      CalmBroadcastAll(w, s.(pending := LinkModel.Publish(s.pending, msg).0), LinkModel.Publish(s.pending, msg).1);
    case FlushTimer(tab) => FlushKeepsLatest(w, s, tab);
    case Connect(before, after) =>
      NewSocketKeepsInv(w, s);
      SendJoinKeepsInv(w, NewSocket(s), LinkModel.FRESH, before, after);
      LinkModel.JoinNeverStalls(LinkModel.FRESH, before + HubModel.JoinPayload(w.cfg, s.hub.log) + after);
    case _ =>
  }

  lemma {:induction false} RunKeepsLatest(w: World, s: Sys, run: seq<Step>)
    requires HubModel.Legal(w.cfg) && Calm(w) && Inv(w, s) && Latest(w, s) && Possible(w, s, run) && AllShown(run)
    ensures Latest(w, After(w, s, run)) && Inv(w, After(w, s, run))
    decreases |run|
  {
    if run != [] {
      StepKeepsInv(w, s, run[0]);
      StepKeepsLatest(w, s, run[0]);
      assert AllShown(run[1..]);
      RunKeepsLatest(w, Apply(w, s, run[0]), run[1..]);
    }
  }

  /** Without loss, every flushed and drained moment finds a mirror that asked for nothing in agreement. */
  lemma LosslessRunsAgree(w: World, run: seq<Step>)
    requires HubModel.Legal(w.cfg) && Calm(w) && Possible(w, Start(w), run) && AllShown(run)
    ensures var s := After(w, Start(w), run);
      !s.stale && Quiet(w, s) && w.cfg.tab !in s.pending && s.hub.log.snapshot.Some? ==>
        s.hub.log.meta.Some? && AgreesWithHub(w, s)
  {
    StartInv(w);
    RunKeepsLatest(w, Start(w), run);
    var s := After(w, Start(w), run);
    if !s.stale && Quiet(w, s) && w.cfg.tab !in s.pending && s.hub.log.snapshot.Some? {
      QuietMirrorAgrees(w, s);
    }
  }

  // ---- Joining late ----

  /** The buffer of an epoch, cut into batches in any way. */
  function Deltas(tab: TabId, epoch: nat, first: nat, batches: seq<seq<Event>>): seq<Protocol.Down>
    decreases |batches|
  {
    if batches == [] then []
    else [Protocol.Delta(tab, epoch, first, batches[0])] + Deltas(tab, epoch, first + |batches[0]|, batches[1..])
  }

  function Flatten(batches: seq<seq<Event>>): seq<Event>
    decreases |batches|
  {
    if batches == [] then [] else batches[0] + Flatten(batches[1..])
  }

  lemma {:induction false} WatchingAppends(m: MirrorModel.State, tab: TabId, epoch: nat, first: nat, batches: seq<seq<Event>>)
    requires m.activeTab == Some(tab) && !m.resyncRequested
    requires m.live.Some? && m.live.value.tab == tab && m.live.value.epoch == epoch && m.live.value.lastSeq + 1 == first
    requires forall b :: b in batches ==> b != []
    ensures MirrorModel.HandleAll(m, Deltas(tab, epoch, first, batches))
         == m.(live := Some(MirrorModel.Live(tab, epoch, first + |Flatten(batches)| - 1,
                                             m.live.value.applied + Flatten(batches))))
    decreases |batches|
  {
    if batches == [] {
      assert m.live.value.applied + [] == m.live.value.applied;
    } else {
      var msg := Protocol.Delta(tab, epoch, first, batches[0]);
      var rest := Deltas(tab, epoch, first + |batches[0]|, batches[1..]);
      assert ([msg] + rest)[1..] == rest;
      assert batches[0] in batches && forall b :: b in batches[1..] ==> b in batches;
      var next := MirrorModel.Handle(m, msg, MirrorModel.Works);
      WatchingAppends(next, tab, epoch, first + |batches[0]|, batches[1..]);
      assert m.live.value.applied + batches[0] + Flatten(batches[1..])
          == m.live.value.applied + (batches[0] + Flatten(batches[1..]));
    }
  }

  lemma HandleAllCons(m: MirrorModel.State, msg: Protocol.Down, rest: seq<Protocol.Down>)
    ensures MirrorModel.HandleAll(m, [msg] + rest)
         == MirrorModel.HandleAll(MirrorModel.Handle(m, msg, MirrorModel.Works), rest)
  {
    assert ([msg] + rest)[1..] == rest;
  }

  /** A join payload gives any mirror on the tab the hub's whole state. */
  lemma JoinGivesEverything(c: HubModel.Config, log: HubModel.Stream, m: MirrorModel.State)
    requires HubModel.StreamInv(c, log) && log.snapshot.Some? && MirrorModel.Listens(m, c.tab)
    ensures MirrorModel.HandleAll(m, HubModel.JoinPayload(c, log))
         == MirrorModel.State(Some(MirrorModel.Live(c.tab, log.epoch, log.seqNo,
                                                    [log.meta.value, log.snapshot.value] + log.deltas)),
                              Some(c.tab), false, m.asked)
  {
    var payload := HubModel.JoinPayload(c, log);
    var batches := if log.deltas != [] then [log.deltas] else [];
    var tail := Deltas(c.tab, log.epoch, log.snapshotSeq + 1, batches);
    if log.deltas != [] {
      assert batches[1..] == [];
      assert Deltas(c.tab, log.epoch, log.snapshotSeq + 1 + |batches[0]|, batches[1..]) == [];
      assert tail == [payload[2]];
    }
    assert payload == [payload[0]] + ([payload[1]] + tail);
    HandleAllCons(m, payload[0], [payload[1]] + tail);
    var m1 := MirrorModel.Handle(m, payload[0], MirrorModel.Works);
    HandleAllCons(m1, payload[1], tail);
    var m2 := MirrorModel.Handle(m1, payload[1], MirrorModel.Works);
    WatchingAppends(m2, c.tab, log.epoch, log.snapshotSeq + 1, batches);
    assert Flatten(batches) == log.deltas;
  }

  /**
   * Joining late is watching all along: a mirror fed the join payload stands where a mirror stands
   * that saw the epoch open and every event since, batched in any way; and both take the next event.
   */
  lemma LateJoinEqualsWatching(
    c: HubModel.Config, log: HubModel.Stream, joiner: MirrorModel.State, watcher: MirrorModel.State,
    reason: SnapshotReason, batches: seq<seq<Event>>, next: Event)
    requires HubModel.StreamInv(c, log) && log.snapshot.Some?
    requires MirrorModel.Listens(joiner, c.tab) && MirrorModel.Listens(watcher, c.tab)
    requires watcher.live.None? || watcher.resyncRequested || watcher.live.value.epoch < log.epoch
    requires Flatten(batches) == log.deltas && forall b :: b in batches ==> b != []
    ensures var opening := Protocol.Snapshot(c.tab, log.epoch, log.snapshotSeq, [log.meta.value, log.snapshot.value], reason);
      var watched := MirrorModel.HandleAll(watcher, [opening] + Deltas(c.tab, log.epoch, log.snapshotSeq + 1, batches));
      var joined := MirrorModel.HandleAll(joiner, HubModel.JoinPayload(c, log));
      var (log', down) := HubModel.Append(c, log, next);
      && joined.live == watched.live && joined.activeTab == watched.activeTab
      && !joined.resyncRequested && !watched.resyncRequested
      && MirrorModel.Handle(joined, down, MirrorModel.Works).live
         == MirrorModel.Handle(watched, down, MirrorModel.Works).live
         == Some(MirrorModel.Live(c.tab, log'.epoch, log'.seqNo, [log.meta.value, log.snapshot.value] + log'.deltas))
  {
    var opening := Protocol.Snapshot(c.tab, log.epoch, log.snapshotSeq, [log.meta.value, log.snapshot.value], reason);
    var deltas := Deltas(c.tab, log.epoch, log.snapshotSeq + 1, batches);
    JoinGivesEverything(c, log, joiner);
    HandleAllCons(watcher, opening, deltas);
    WatchingAppends(MirrorModel.Handle(watcher, opening, MirrorModel.Works), c.tab, log.epoch, log.snapshotSeq + 1, batches);
    var pair := [log.meta.value, log.snapshot.value];
    assert pair + log.deltas + [next] == pair + (log.deltas + [next]);
  }
}
