/**
 * The path from a hub to one viewer's socket: the fan-out batches adjacent deltas of a tab, and the
 * connection drops deltas while it is stalled or when a replay already covered them.
 */
module LinkModel {
  import opened Protocol

  const STALL_BYTES: nat := 8 * 1024 * 1024
  const RESUME_BYTES: nat := 1024 * 1024

  /** The un-flushed batch of each tab. */
  type Batches = map<TabId, Down>

  function Flush(p: Batches, tab: TabId): (Batches, seq<Down>) {
    if tab in p then (p - {tab}, [p[tab]]) else (p, [])
  }

  predicate HasTab(msg: Down) {
    msg.Snapshot? || msg.Delta? || msg.ResyncNotice? || msg.Px?
  }

  predicate Extends(batch: Down, msg: Down)
    requires msg.Delta?
  {
    batch.Delta? && batch.epoch == msg.epoch && msg.first == batch.first + |batch.data|
  }

  /** The new batches, and what is broadcast at once, in order. */
  function Publish(p: Batches, msg: Down): (Batches, seq<Down>) {
    if !msg.Delta? || msg.data == [] then
      if HasTab(msg) then (Flush(p, msg.tab).0, Flush(p, msg.tab).1 + [msg]) else (p, [msg])
    else if msg.tab in p && Extends(p[msg.tab], msg) then
      var batch := p[msg.tab];
      (p[msg.tab := Delta(batch.tab, batch.epoch, batch.first, batch.data + msg.data)], [])
    else (Flush(p, msg.tab).0[msg.tab := msg], Flush(p, msg.tab).1)
  }

  /** One past the last event this connection was sent, per tab. */
  datatype Cursor = Cursor(epoch: nat, nextSeq: nat)

  datatype Conn = Conn(stalled: bool, cursors: map<TabId, Cursor>)

  const FRESH := Conn(false, map[])

  predicate Droppable(msg: Down) {
    msg.Delta? || msg.Px?
  }

  predicate AlreadyReplayed(k: Conn, msg: Down)
    requires msg.Delta?
  {
    msg.tab in k.cursors && k.cursors[msg.tab].epoch == msg.epoch
    && msg.first + |msg.data| <= k.cursors[msg.tab].nextSeq
  }

  function Advance(k: Conn, msg: Down): Conn {
    match msg
    case Snapshot(tab, epoch, first, _, _) => k.(cursors := k.cursors[tab := Cursor(epoch, first + 1)])
    case Delta(tab, epoch, first, data) => k.(cursors := k.cursors[tab := Cursor(epoch, first + |data|)])
    case ResyncNotice(tab) => k.(cursors := k.cursors - {tab})
    case _ => k
  }

  /** `buffered` is the socket's backlog when the message is offered. */
  function Send(k: Conn, msg: Down, buffered: nat): (Conn, bool) {
    if msg.Delta? && AlreadyReplayed(k, msg) then (k, false)
    else if Droppable(msg) && buffered > STALL_BYTES then (k.(stalled := true), false)
    else if Droppable(msg) && k.stalled then (k, false)
    else (Advance(k, msg), true)
  }

  function AdvanceAll(k: Conn, msgs: seq<Down>): Conn
    decreases |msgs|
  {
    if msgs == [] then k else AdvanceAll(Advance(k, msgs[0]), msgs[1..])
  }

  lemma {:induction false} JoinNeverStalls(k: Conn, msgs: seq<Down>)
    ensures AdvanceAll(k, msgs).stalled == k.stalled
    decreases |msgs|
  {
    if msgs != [] { JoinNeverStalls(Advance(k, msgs[0]), msgs[1..]); }
  }
}

module Link {
  import opened Protocol
  import opened LinkModel

  /** Batching. What the source hands to every viewer is returned here, in order. */
  class Fanout {
    var pending: Batches

    constructor ()
      ensures pending == map[]
    {
      pending := map[];
    }

    method Publish(msg: Down) returns (out: seq<Down>)
      modifies this
      ensures (pending, out) == LinkModel.Publish(old(pending), msg)
    {
      if !msg.Delta? || |msg.data| == 0 {
        if !HasTab(msg) {
          return [msg];
        }
        out := FlushTab(msg.tab);
        return out + [msg];
      }
      if msg.tab in pending {
        var batch := pending[msg.tab];
        if batch.Delta? && batch.epoch == msg.epoch && msg.first == batch.first + |batch.data| {
          pending := pending[msg.tab := Delta(batch.tab, batch.epoch, batch.first, batch.data + msg.data)];
          return [];
        }
      }
      out := FlushTab(msg.tab);
      pending := pending[msg.tab := msg];
    }

    method FlushTab(tab: TabId) returns (out: seq<Down>)
      modifies this
      ensures (pending, out) == Flush(old(pending), tab)
    {
      if tab !in pending {
        return [];
      }
      out := [pending[tab]];
      pending := pending - {tab};
    }
  }

  /**
   * One viewer's socket; `open` is its ready state, `drainArmed` says whether the drain timer is set, and
   * `sent` is history: what went onto the wire.
   */
  class ViewerConn {
    var stalled: bool
    var cursors: map<TabId, Cursor>
    var open: bool
    var disposed: bool
    var drainArmed: bool
    ghost var sent: seq<Down>

    ghost function State(): Conn
      reads this
    {
      Conn(stalled, cursors)
    }

    predicate IsOpen()
      reads this
    {
      !disposed && open
    }

    /** A stalled connection that can still send is always going to be looked at again. */
    predicate Valid()
      reads this
    {
      (stalled && IsOpen() ==> drainArmed) && (disposed ==> !drainArmed)
    }

    constructor ()
      ensures State() == FRESH && sent == [] && IsOpen() && !drainArmed && Valid()
    {
      stalled, cursors, sent := false, map[], [];
      open, disposed, drainArmed := true, false, false;
    }

    method Send(msg: Down, buffered: nat) returns (ok: bool)
      requires Valid()
      modifies `stalled, `cursors, `drainArmed, `sent
      ensures Valid()
      ensures IsOpen() ==> (State(), ok) == LinkModel.Send(old(State()), msg, buffered)
      ensures !IsOpen() ==> State() == old(State()) && !ok
      ensures sent == if ok then old(sent) + [msg] else old(sent)
      ensures drainArmed == (old(drainArmed) || (stalled && !old(stalled)))
    {
      if !IsOpen() {
        return false;
      }
      if msg.Delta? {
        var replayed := WasAlreadyReplayed(msg);
        if replayed {
          return false;
        }
      }
      if Droppable(msg) && buffered > STALL_BYTES {
        MarkStalled();
        return false;
      }
      if stalled && Droppable(msg) {
        return false;
      }
      sent := sent + [msg];
      AdvanceCursor(msg);
      return true;
    }

    method MarkStalled()
      modifies `stalled, `drainArmed
      ensures stalled && drainArmed == (old(drainArmed) || (!old(stalled) && !disposed))
    {
      if stalled {
        return;
      }
      stalled := true;
      ScheduleDrainCheck();
    }

    method ScheduleDrainCheck()
      modifies `drainArmed
      ensures drainArmed == (old(drainArmed) || !disposed)
    {
      if disposed || drainArmed {
        return;
      }
      drainArmed := true;
    }

    method SendJoinPayload(payload: seq<Down>)
      modifies `cursors, `sent
      ensures IsOpen() ==> State() == AdvanceAll(old(State()), payload) && sent == old(sent) + payload
      ensures !IsOpen() ==> State() == old(State()) && sent == old(sent)
    {
      if !IsOpen() {
        return;
      }
      ghost var start := State();
      for i := 0 to |payload|
        invariant AdvanceAll(State(), payload[i..]) == AdvanceAll(start, payload)
        invariant sent == old(sent) + payload[..i]
      {
        sent := sent + [payload[i]];
        AdvanceCursor(payload[i]);
        assert payload[i..][1..] == payload[i + 1..];
        assert payload[..i + 1] == payload[..i] + [payload[i]];
      }
      assert payload[|payload|..] == [] && payload[..|payload|] == payload;
    }

    /**
     * The drain timer fires: nothing more on a closed socket, another look while the backlog is large,
     * and below the resume mark the connection restarts from a join payload.
     */
    method DrainCheck(buffered: nat, payload: seq<Down>)
      requires Valid() && drainArmed
      modifies `stalled, `cursors, `drainArmed, `sent
      ensures Valid()
      ensures drainArmed == (IsOpen() && buffered >= RESUME_BYTES)
      ensures !IsOpen() || buffered >= RESUME_BYTES ==> State() == old(State()) && sent == old(sent)
      ensures IsOpen() && buffered < RESUME_BYTES ==>
        State() == AdvanceAll(old(State()).(stalled := false), payload) && sent == old(sent) + payload && !stalled
    {
      drainArmed := false;
      if !IsOpen() {
        return;
      }
      if buffered >= RESUME_BYTES {
        ScheduleDrainCheck();
        return;
      }
      stalled := false;
      SendJoinPayload(payload);
      JoinNeverStalls(old(State()).(stalled := false), payload);
    }

    method SocketCloses()
      requires Valid()
      modifies `open
      ensures Valid() && !IsOpen()
    {
      open := false;
    }

    method Dispose()
      modifies `disposed, `drainArmed
      ensures Valid() && !IsOpen() && !drainArmed
    {
      disposed := true;
      drainArmed := false;
    }

    method WasAlreadyReplayed(msg: Down) returns (replayed: bool)
      requires msg.Delta?
      ensures replayed == AlreadyReplayed(State(), msg)
    {
      if msg.tab !in cursors {
        return false;
      }
      var cursor := cursors[msg.tab];
      return cursor.epoch == msg.epoch && msg.first + |msg.data| <= cursor.nextSeq;
    }

    method AdvanceCursor(msg: Down)
      modifies `cursors
      ensures State() == Advance(old(State()), msg)
    {
      match msg
      case Snapshot(tab, epoch, first, _, _) => cursors := cursors[tab := Cursor(epoch, first + 1)];
      case Delta(tab, epoch, first, data) => cursors := cursors[tab := Cursor(epoch, first + |data|)];
      case ResyncNotice(tab) => cursors := cursors - {tab};
      case _ =>
    }
  }
}
