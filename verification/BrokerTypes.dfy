/** The entities of the servicebroker, as values. IDs are fresh naturals; the
    fields that no table operation looks at (node, process and channel numbers,
    pulse contents, implementation versions) are not part of the model. */
module BrokerTypes {

  datatype Option<+T> = None | Some(value: T)

  /** SPartyID: the pair behind the 64-bit global ID. */
  datatype PartyId = PartyId(ext: nat, local: nat)

  /** The order of std::set<SPartyID>: by global ID, whose high word is `ext`. */
  predicate Before(a: PartyId, b: PartyId) {
    a.ext < b.ext || (a.ext == b.ext && a.local < b.local)
  }

  datatype Iface = Iface(name: string, major: int, minor: int)

  /** Does a request for `wanted` accept an `offer`? */
  predicate Accepts(wanted: Iface, offer: Iface) {
    wanted.name == offer.name && wanted.major == offer.major && wanted.minor <= offer.minor
  }

  const INVALID: nat := 0xFFFF_FFFF
  const NO_PARTY := PartyId(0, 0)
  const PENDING := PartyId(0, 0xFFFF_FFFF)
  const REFUSED: nat := 0xFFFF_FFFF
  const ANYBODY: int := -1

  datatype Server = Server(id: PartyId, masterId: PartyId, iface: Iface, grpid: int, local: bool)

  datatype Client = Client(id: PartyId, server: PartyId, conn: nat)

  /** The four notification lists. */
  datatype Kind = Available | Disconnect | Detach | ListChange

  datatype Notification = Notification(
    id: nat, masterId: nat, poolId: nat, host: Option<nat>, party: PartyId,
    iface: Iface, local: bool, uid: int, active: bool, regex: Option<string>)

  /** The tagged data of a notification pool. */
  datatype Target = Connecting(iface: Iface) | Monitor(server: PartyId)

  /** How a pool is found: by interface, or by server under the equality of SPartyID,
      which compares local IDs only. */
  predicate SameTarget(a: Target, b: Target) {
    match a
    case Connecting(_) => a == b
    case Monitor(id) => b.Monitor? && id.local == b.server.local
  }

  datatype Pool = Pool(id: nat, target: Target, grant: nat, refCount: nat)

  /** ClientSpecificData together with what the handlers ask of the connection. */
  datatype Conn = Conn(
    servers: seq<PartyId>, clients: seq<PartyId>, notifs: seq<nat>,
    slave: bool, node: nat, uid: int)

  const LOCAL_NODE: nat := 0
  const LOOPBACK: nat := 0x7F00_0001

  /** What is handed to the master adapter. */
  datatype Job =
    | RegisterJob(batch: seq<Server>)
    | UnregisterJob(server: PartyId)
    | AttachJob(conn: nat, iface: Iface)
    | DetachJob(client: PartyId)
    | WatchServerJob(cookie: nat, server: PartyId)
    | AvailableJob(items: seq<(nat, Iface)>)
    | WatchClientJob(notif: nat, client: PartyId)
    | WatchListJob(notif: nat)
    | ClearJob(notif: nat)

  /** How a job comes back: a transport error, or the master's answer. `genuine`
      tells whether the IDs in the answer were really granted by the master. */
  datatype Outcome = Failed | Done(ids: seq<nat>, parties: seq<PartyId>, genuine: bool)

  /** History only: who registered a notification and for what. */
  datatype Ticket = Ticket(conn: nat, kind: Kind)

  /** Configuration and operating system answers, kept abstract. */
  datatype Config = Config(
    ext: nat, treeMode: bool,
    isLocalService: string -> bool, forwards: string -> bool,
    inGroup: (int, int) -> bool, matches: (string, string) -> bool)

  datatype Lists = Lists(
    available: seq<Notification>, disconnect: seq<Notification>,
    detach: seq<Notification>, listChange: seq<Notification>)

  /** The master's side: the adapter's link flag, the session as seen by the
      dispatcher, the jobs pushed and not yet reported (oldest first), and, as
      history, the IDs the master granted to pools and those a clear job was queued
      for in this session, the IDs it granted to client and list notifications with
      no clear job queued since, and whether the link held since the CONNECTED pulse. */
  datatype Link = Link(
    connected: bool, session: bool, outstanding: seq<Job>,
    granted: set<nat>, cleared: set<nat>, lent: set<nat>, steady: bool)

  /** The next free server, client and pool IDs and the last notification ID. */
  datatype Counters = Counters(server: nat, client: nat, notif: nat, pool: nat)

  /** History: every notification ID handed out, the IDs pulsed, in order, and
      the IDs removed on request or on close. */
  datatype Past = Past(book: map<nat, Ticket>, pulses: seq<nat>, withdrawn: set<nat>)

  datatype State = State(
    servers: seq<Server>, clients: seq<Client>, lists: Lists, pools: seq<Pool>,
    conns: map<nat, Conn>, link: Link, next: Counters, past: Past)
}
