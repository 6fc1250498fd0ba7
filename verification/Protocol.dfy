/** The messages that cross the wire, and the few value types every component shares. */
module Protocol {
  datatype Option<+T> = None | Some(value: T)

  type TabId = string
  datatype ViewerId = ViewerId(text: string)

  /** rrweb events are opaque apart from the three-way split the hub dispatches on. */
  datatype EventKind = Meta | FullSnapshot | Incremental
  datatype Event = Event(kind: EventKind, payload: string)

  datatype SnapshotReason = Trim | Resync | Viewport | Nav

  /** Gateway to viewer. Every message kind that no modelled component looks into is `OtherDown`. */
  datatype Down =
    | Snapshot(tab: TabId, epoch: nat, first: nat, data: seq<Event>, reason: SnapshotReason)
    | Delta(tab: TabId, epoch: nat, first: nat, data: seq<Event>)
    | ResyncNotice(tab: TabId)
    | Px(tab: TabId)
    | Hello(viewerId: ViewerId, isDriver: bool)
    | Driver(viewerId: ViewerId)
    | Presence(viewers: seq<ViewerId>)
    | OtherDown

  /** Page agent to gateway, after reassembly and JSON parsing. */
  datatype AgentMsg =
    | AgentHello(docId: nat, isTop: bool)
    | Rrweb(docId: nat, event: Event)
    | CmdRes(reqId: nat, ok: bool)

  function Min(a: int, b: int): int { if a <= b then a else b }

  function Max(a: int, b: int): int { if a <= b then b else a }

  function Pow2(n: nat): nat { if n == 0 then 1 else 2 * Pow2(n - 1) }
}
