/**
 * The viewer's replica of one remote tab: it accepts a snapshot or the next batch of events, and
 * on any gap or replay failure it asks for a fresh snapshot and ignores deltas until one arrives.
 */
module MirrorModel {
  import opened Protocol

  /** A live replayer: the events it has been given since its snapshot, in order. */
  datatype Live = Live(tab: TabId, epoch: nat, lastSeq: nat, applied: seq<Event>)

  /** `asked` is history: the tabs a resync was requested for. */
  datatype State = State(live: Option<Live>, activeTab: Option<TabId>, resyncRequested: bool, asked: seq<TabId>)

  const INITIAL := State(None, None, false, [])

  /** How the foreign replayer behaves during one message: construction, or the n-th event, may fail. */
  datatype Replay = Works | BuildFails | EventFails(index: nat)

  function RequestFresh(m: State, tab: TabId): State {
    if m.resyncRequested then m else m.(resyncRequested := true, asked := m.asked + [tab])
  }

  function Rebuild(m: State, msg: Down, replay: Replay): State
    requires msg.Snapshot?
  {
    if replay.BuildFails? then
      State(None, Some(msg.tab), true, m.asked + [msg.tab])
    else
      State(Some(Live(msg.tab, msg.epoch, msg.first, msg.data)), Some(msg.tab), false, m.asked)
  }

  predicate Follows(live: Live, msg: Down)
    requires msg.Delta?
  {
    msg.epoch == live.epoch && msg.first == live.lastSeq + 1 && msg.data != []
  }

  function ApplyDelta(m: State, msg: Down, replay: Replay): State
    requires msg.Delta?
  {
    if m.resyncRequested then m
    else if m.live.None? then
      RequestFresh(if m.activeTab.None? then m.(activeTab := Some(msg.tab)) else m, msg.tab)
    else if msg.tab != m.live.value.tab then m
    else if !Follows(m.live.value, msg) then RequestFresh(m, msg.tab)
    else if replay.EventFails? && replay.index < |msg.data| then
      RequestFresh(m.(live := Some(m.live.value.(applied := m.live.value.applied + msg.data[..replay.index]))),
                   m.live.value.tab)
    else
      m.(live := Some(m.live.value.(applied := m.live.value.applied + msg.data,
                                    lastSeq := msg.first + |msg.data| - 1)))
  }

  predicate Listens(m: State, tab: TabId) {
    m.activeTab.None? || m.activeTab == Some(tab)
  }

  /** A snapshot is taken by a mirror that has none, asked for one, or knows no epoch as late. */
  predicate Accepts(m: State, msg: Down)
    requires msg.Snapshot?
  {
    Listens(m, msg.tab) && (m.live.None? || msg.epoch > m.live.value.epoch || m.resyncRequested)
  }

  function Handle(m: State, msg: Down, replay: Replay): State {
    match msg
    case Snapshot(_, _, _, _, _) => if Accepts(m, msg) then Rebuild(m, msg, replay) else m
    case Delta(tab, _, _, _) => if Listens(m, tab) then ApplyDelta(m, msg, replay) else m
    case ResyncNotice(tab) =>
      if Listens(m, tab) then m.(activeTab := Some(tab), resyncRequested := true) else m
    case _ => m
  }

  /** A replayer that never fails. */
  function HandleAll(m: State, msgs: seq<Down>): State
    decreases |msgs|
  {
    if msgs == [] then m else HandleAll(Handle(m, msgs[0], Works), msgs[1..])
  }

  function ConnectionLost(m: State): State {
    m.(resyncRequested := false)
  }

  function ConnectionRestored(m: State): State {
    if m.activeTab.Some? then RequestFresh(m, m.activeTab.value) else m
  }

  function SelectTab(m: State, tab: TabId): State {
    if m.activeTab == Some(tab) then m
    else RequestFresh(m.(activeTab := Some(tab), live := None, resyncRequested := false), tab)
  }

  function Teardown(m: State): State {
    m.(live := None, activeTab := None)
  }
}

/** The mirror object: closure variables of the source as fields, one method per entry point. */
module Mirror {
  import opened Protocol
  import opened MirrorModel

  class MirrorClient {
    var live: Option<Live>
    var activeTab: Option<TabId>
    var resyncRequested: bool
    ghost var asked: seq<TabId>

    ghost function State(): State
      reads this
    {
      MirrorModel.State(live, activeTab, resyncRequested, asked)
    }

    constructor ()
      ensures State() == INITIAL
    {
      live, activeTab, resyncRequested, asked := None, None, false, [];
    }

    method Handle(msg: Down, replay: Replay)
      modifies this
      ensures State() == MirrorModel.Handle(old(State()), msg, replay)
    {
      match msg
      case Snapshot(tab, epoch, _, _, _) =>
        if activeTab.None? || activeTab == Some(tab) {
          if live.None? || epoch > live.value.epoch || resyncRequested {
            Rebuild(msg, replay);
          }
        }
      case Delta(tab, _, _, _) =>
        if activeTab.None? || activeTab == Some(tab) {
          ApplyDelta(msg, replay);
        }
      case ResyncNotice(tab) =>
        if activeTab.None? || activeTab == Some(tab) {
          activeTab := Some(tab);
          resyncRequested := true;
        }
      case _ =>
    }

    method Rebuild(msg: Down, replay: Replay)
      requires msg.Snapshot?
      modifies this
      ensures State() == MirrorModel.Rebuild(old(State()), msg, replay)
    {
      live := None;
      activeTab := Some(msg.tab);
      if replay.BuildFails? {
        resyncRequested := true;
        asked := asked + [msg.tab];
        return;
      }
      live := Some(Live(msg.tab, msg.epoch, msg.first, msg.data));
      resyncRequested := false;
    }

    method ApplyDelta(msg: Down, replay: Replay)
      requires msg.Delta?
      modifies this
      ensures State() == MirrorModel.ApplyDelta(old(State()), msg, replay)
    {
      if resyncRequested {
        return;
      }
      if live.None? {
        if activeTab.None? {
          activeTab := Some(msg.tab);
        }
        RequestFreshSnapshot(msg.tab);
        return;
      }
      if msg.tab != live.value.tab {
        return;
      }
      if msg.epoch != live.value.epoch {
        RequestFreshSnapshot(msg.tab);
        return;
      }
      if msg.first != live.value.lastSeq + 1 || |msg.data| == 0 {
        RequestFreshSnapshot(msg.tab);
        return;
      }
      ghost var before := live.value;
      assert before.applied + msg.data[..0] == before.applied;
      for i := 0 to |msg.data|
        invariant live == Some(before.(applied := before.applied + msg.data[..i]))
        invariant replay.EventFails? ==> i <= replay.index
        invariant unchanged(`activeTab) && unchanged(`asked) && !resyncRequested
      {
        if replay.EventFails? && replay.index == i {
          RequestFreshSnapshot(live.value.tab);
          return;
        }
        live := Some(live.value.(applied := live.value.applied + [msg.data[i]]));
        assert msg.data[..i + 1] == msg.data[..i] + [msg.data[i]];
        assert before.applied + msg.data[..i] + [msg.data[i]] == before.applied + msg.data[..i + 1];
      }
      assert msg.data[..|msg.data|] == msg.data;
      live := Some(live.value.(lastSeq := msg.first + |msg.data| - 1));
    }

    method RequestFreshSnapshot(tab: TabId)
      modifies this
      ensures State() == RequestFresh(old(State()), tab)
    {
      if resyncRequested {
        return;
      }
      resyncRequested := true;
      asked := asked + [tab];
    }

    method ConnectionLost()
      modifies this
      ensures State() == MirrorModel.ConnectionLost(old(State()))
    {
      resyncRequested := false;
    }

    method ConnectionRestored()
      modifies this
      ensures State() == MirrorModel.ConnectionRestored(old(State()))
    {
      if activeTab.Some? {
        RequestFreshSnapshot(activeTab.value);
      }
    }

    method SelectTab(tab: TabId)
      modifies this
      ensures State() == MirrorModel.SelectTab(old(State()), tab)
    {
      if activeTab == Some(tab) {
        return;
      }
      activeTab := Some(tab);
      live := None;
      resyncRequested := false;
      RequestFreshSnapshot(tab);
    }

    method Teardown()
      modifies this
      ensures State() == MirrorModel.Teardown(old(State()))
    {
      live := None;
      activeTab := None;
    }
  }
}
