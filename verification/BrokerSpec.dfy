/** The servicebroker's handlers as functions from state to state: one function
    per handler, built from the list, pool and destructor operations it runs. */
module BrokerSpec {
  import opened BrokerTypes
  import opened ServerTable

  // ---------------------------------------------------------------- lists

  function L(s: State, k: Kind): seq<Notification> {
    match k
    case Available => s.lists.available
    case Disconnect => s.lists.disconnect
    case Detach => s.lists.detach
    case ListChange => s.lists.listChange
  }

  predicate SameButLists(s: State, r: State) {
    r == s.(lists := r.lists)
  }

  function Put(s: State, k: Kind, l: seq<Notification>): (r: State)
    ensures L(r, k) == l && forall k' :: k' != k ==> L(r, k') == L(s, k')
    ensures SameButLists(s, r)
  {
    match k
    case Available => s.(lists := s.lists.(available := l))
    case Disconnect => s.(lists := s.lists.(disconnect := l))
    case Detach => s.(lists := s.lists.(detach := l))
    case ListChange => s.(lists := s.lists.(listChange := l))
  }

  /** std::set<SPartyID>::insert and erase, on the ordered sequence of members. */
  function SetInsert(ids: seq<PartyId>, x: PartyId): seq<PartyId> {
    if ids == [] || Before(x, ids[0]) then [x] + ids
    else if ids[0] == x then ids
    else [ids[0]] + SetInsert(ids[1..], x)
  }

  function SetRemove(ids: seq<PartyId>, x: PartyId): seq<PartyId> {
    if ids == [] then []
    else if ids[0] == x then SetRemove(ids[1..], x)
    else [ids[0]] + SetRemove(ids[1..], x)
  }

  function Without(ids: seq<nat>, x: nat): (r: seq<nat>)
    ensures |r| <= |ids|
  {
    if ids == [] then []
    else if ids[0] == x then Without(ids[1..], x)
    else [ids[0]] + Without(ids[1..], x)
  }

  /** std::remove without erase: the kept elements move to the front, the length
      and the elements behind them stay as they were. */
  function StdRemove(ids: seq<nat>, x: nat): (r: seq<nat>)
    ensures |r| == |ids|
  {
    var kept := Without(ids, x);
    kept + ids[|kept|..]
  }

  /** Index of the first notification with the ID (and active, if asked), or -1. */
  function NotifAt(l: seq<Notification>, id: nat, onlyActive: bool): (r: int)
    ensures -1 <= r < |l|
    ensures r >= 0 ==> l[r].id == id && (onlyActive ==> l[r].active)
  {
    if l == [] then -1
    else if l[0].id == id && (onlyActive ==> l[0].active) then 0
    else var r := NotifAt(l[1..], id, onlyActive); if r < 0 then -1 else r + 1
  }

  /** ClientList::find, which compares local IDs only. */
  function ClientAt(l: seq<Client>, id: PartyId): (r: int)
    ensures -1 <= r < |l|
    ensures r >= 0 ==> l[r].id.local == id.local
  {
    if l == [] then -1
    else if l[0].id.local == id.local then 0
    else var r := ClientAt(l[1..], id); if r < 0 then -1 else r + 1
  }

  /** ClientList::remove, which compares whole IDs. */
  function RemoveClient(l: seq<Client>, id: PartyId): seq<Client> {
    if l == [] then []
    else if l[0].id == id then l[1..]
    else [l[0]] + RemoveClient(l[1..], id)
  }

  /** ClientList::removeServer. */
  function RemoveServerClients(l: seq<Client>, server: PartyId): seq<Client> {
    if l == [] then []
    else if l[0].server == server then RemoveServerClients(l[1..], server)
    else [l[0]] + RemoveServerClients(l[1..], server)
  }

  // ---------------------------------------------------------------- jobs and pools

  function Push(s: State, j: Job): State {
    s.(link := s.link.(outstanding := s.link.outstanding + [j]))
  }

  function PushAll(s: State, js: seq<Job>): State {
    s.(link := s.link.(outstanding := s.link.outstanding + js))
  }

  /** createClearNotificationJob. */
  function QueueClear(s: State, id: nat): (r: State)
    ensures r == s.(link := s.link.(outstanding := r.link.outstanding, cleared := r.link.cleared, lent := r.link.lent))
  {
    if s.link.connected then
      s.(link := s.link.(outstanding := s.link.outstanding + [ClearJob(id)], cleared := s.link.cleared + {id}, lent := s.link.lent - {id}))
    else s
  }

  function PoolAt(pools: seq<Pool>, id: nat): (r: int)
    ensures -1 <= r < |pools|
    ensures r >= 0 ==> pools[r].id == id
    ensures r < 0 ==> forall i :: 0 <= i < |pools| ==> pools[i].id != id
  {
    if pools == [] then -1
    else if pools[|pools| - 1].id == id then |pools| - 1
    else PoolAt(pools[..|pools| - 1], id)
  }

  function TargetAt(pools: seq<Pool>, target: Target): (r: int)
    ensures -1 <= r < |pools|
    ensures r >= 0 ==> SameTarget(pools[r].target, target)
    ensures r < 0 ==> forall i :: 0 <= i < |pools| ==> !SameTarget(pools[i].target, target)
  {
    if pools == [] then -1
    else if SameTarget(pools[|pools| - 1].target, target) then |pools| - 1
    else TargetAt(pools[..|pools| - 1], target)
  }

  /** NotificationPoolEntry::detach. */
  function DetachPool(s: State, poolId: nat): (r: State)
    ensures r == s.(pools := r.pools, link := s.link.(outstanding := r.link.outstanding, cleared := r.link.cleared, lent := r.link.lent))
  {
    var pos := PoolAt(s.pools, poolId);
    if pos < 0 then s else
    var p := s.pools[pos];
    if p.refCount <= 1 then
      var s1 := s.(pools := s.pools[..pos] + s.pools[pos + 1..]);
      if p.grant != INVALID then QueueClear(s1, p.grant) else s1
    else
      s.(pools := s.pools[pos := p.(refCount := p.refCount - 1)])
  }

  /** The host's list forgets an ID (ClientSpecificData::removeNotification). */
  function Forget(s: State, c: nat, id: nat): (r: State)
    ensures r == s.(conns := r.conns)
  {
    if c in s.conns then
      s.(conns := s.conns[c := s.conns[c].(notifs := StdRemove(s.conns[c].notifs, id))])
    else s
  }

  /** Notification::~Notification. */
  function Drop(s: State, n: Notification): (r: State)
    ensures r == s.(conns := r.conns, pools := r.pools, link := s.link.(outstanding := r.link.outstanding, cleared := r.link.cleared, lent := r.link.lent))
  {
    var s1 := if n.host.Some? then Forget(s, n.host.value, n.id) else s;
    if n.poolId != 0 then DetachPool(s1, n.poolId)
    else if n.masterId != INVALID then QueueClear(s1, n.id)
    else s1
  }

  /** Erasing runs the destructor, which never touches the notification lists. */
  function EraseAt(s: State, k: Kind, i: nat): (r: State)
    requires i < |L(s, k)|
    ensures L(r, k) == L(s, k)[..i] + L(s, k)[i + 1..]
    ensures forall k' :: k' != k ==> L(r, k') == L(s, k')
    ensures SameButLists(s.(conns := r.conns, pools := r.pools, link := s.link.(outstanding := r.link.outstanding, cleared := r.link.cleared, lent := r.link.lent)), r)
  {
    hide Drop, Put;
    Drop(Put(s, k, L(s, k)[..i] + L(s, k)[i + 1..]), L(s, k)[i])
  }

  function Send(s: State, id: nat): State {
    s.(past := s.past.(pulses := s.past.pulses + [id]))
  }

  function Withdraw(s: State, id: nat): State {
    s.(past := s.past.(withdrawn := s.past.withdrawn + {id}))
  }

  // ---------------------------------------------------------------- sweeps

  /** The condition of each loop over a notification list. */
  datatype Rule =
    | ByParty(id: PartyId)                // trigger(SPartyID)
    | ByOffer(offer: Iface, grpid: int)   // trigger(InterfaceDescription, gid_t)
    | ByPool(poolId: nat)                 // triggerPool
    | ByParties(ids: seq<PartyId>)        // trigger(PartyIDList)
    | NotLocal                            // triggerNotLocal
    | Absent                              // the loop of handleMasterDisconnected
    | Withdrawal(conn: nat)               // remove(NotificationIDList)

  datatype Action = Keep | Fire | Discard | Silence

  predicate MayPulse(cfg: Config, grpid: int, uid: int) {
    grpid == ANYBODY || uid == 0 || cfg.inGroup(grpid, uid)
  }

  function Decide(cfg: Config, servers: seq<Server>, conns: map<nat, Conn>, r: Rule, n: Notification): Action {
    match r
    case ByParty(id) => if n.active && n.party == id then Fire else Keep
    case ByOffer(offer, grpid) =>
      if !(n.active && Accepts(n.iface, offer)) then Keep
      else if MayPulse(cfg, grpid, n.uid) then Fire else Silence
    case ByPool(poolId) => if n.active && n.poolId == poolId then Fire else Keep
    case ByParties(ids) => if n.active && n.party in ids then Fire else Keep
    case NotLocal => if n.active && n.party.ext != cfg.ext then Fire else Keep
    case Absent =>
      if n.active && n.party.ext != cfg.ext && ScanId(servers, n.party).None? then Fire else Keep
    case Withdrawal(c) => if c in conns && n.id in conns[c].notifs then Discard else Keep
  }

  function Act(cfg: Config, s: State, r: Rule, n: Notification): Action {
    Decide(cfg, s.servers, s.conns, r, n)
  }

  predicate Erases(a: Action) {
    a.Fire? || a.Discard?
  }

  /** One turn of the loop at position i. */
  function Turn(cfg: Config, s: State, k: Kind, r: Rule, i: nat): (s': State)
    requires i < |L(s, k)|
    ensures |L(s', k)| == |L(s, k)| - (if Erases(Act(cfg, s, r, L(s, k)[i])) then 1 else 0)
  {
    var n := L(s, k)[i];
    match Act(cfg, s, r, n)
    case Keep => s
    case Fire => EraseAt(Send(s, n.id), k, i)
    case Discard => EraseAt(Withdraw(s, n.id), k, i)
    case Silence => Put(s, k, L(s, k)[i := n.(active := false)])
  }

  /** A whole loop, from position i on. */
  function Sweep(cfg: Config, s: State, k: Kind, r: Rule, i: nat): State
    requires i <= |L(s, k)|
    decreases |L(s, k)| - i
  {
    if i == |L(s, k)| then s else
    var a := Act(cfg, s, r, L(s, k)[i]);
    var s1 := Turn(cfg, s, k, r, i);
    if Erases(a) then Sweep(cfg, s1, k, r, i) else Sweep(cfg, s1, k, r, i + 1)
  }

  /** remove(notificationid_t): the first entry with the ID. */
  function RemoveOne(s: State, k: Kind, id: nat): State {
    var i := NotifAt(L(s, k), id, false);
    if i < 0 then s else EraseAt(Withdraw(s, id), k, i)
  }

  /** trigger(notificationid_t, removeIt). */
  function FireOne(s: State, k: Kind, id: nat, removeIt: bool): State {
    var i := NotifAt(L(s, k), id, true);
    if i < 0 then s
    else if removeIt then EraseAt(Send(s, id), k, i)
    else Send(s, id)
  }

  /** The IDs pulsed by triggerAll, with or without an interface description. */
  function ListPulses(cfg: Config, l: seq<Notification>, offer: Option<Iface>): seq<nat> {
    if l == [] then []
    else if l[0].active && (l[0].regex.None? || (offer.Some? && cfg.matches(l[0].regex.value, offer.value.name)))
    then [l[0].id] + ListPulses(cfg, l[1..], offer)
    else ListPulses(cfg, l[1..], offer)
  }

  function TriggerAll(cfg: Config, s: State, offer: Option<Iface>): State {
    s.(past := s.past.(pulses := s.past.pulses + ListPulses(cfg, s.lists.listChange, offer)))
  }

  // ---------------------------------------------------------------- forwarding to the master

  const MAX_MULTIPLE: nat := 32

  /** A stream of items cut into batches of MAX_MULTIPLE. */
  function Chunks<T>(xs: seq<T>): seq<seq<T>> {
    if xs == [] then []
    else if |xs| <= MAX_MULTIPLE then [xs]
    else [xs[..MAX_MULTIPLE]] + Chunks(xs[MAX_MULTIPLE..])
  }

  predicate NeedsForwarding(cfg: Config, e: Server) {
    e.masterId == NO_PARTY && !e.local && cfg.forwards(e.iface.name)
  }

  function Unforwarded(cfg: Config, l: seq<Server>): seq<Server> {
    if l == [] then []
    else if NeedsForwarding(cfg, l[0]) then [l[0]] + Unforwarded(cfg, l[1..])
    else Unforwarded(cfg, l[1..])
  }

  function MarkPending(cfg: Config, l: seq<Server>): seq<Server> {
    seq(|l|, i requires 0 <= i < |l| =>
      if NeedsForwarding(cfg, l[i]) then l[i].(masterId := PENDING) else l[i])
  }

  function RegisterJobs(batches: seq<seq<Server>>): seq<Job> {
    seq(|batches|, i requires 0 <= i < |batches| => RegisterJob(batches[i]))
  }

  /** registerInterfacesMaster. */
  function RegisterMaster(cfg: Config, s: State): State {
    if !s.link.connected then s
    else PushAll(s, RegisterJobs(Chunks(Unforwarded(cfg, s.servers)))).(servers := MarkPending(cfg, s.servers))
  }

  /** unregisterInterfaceMaster. */
  function UnregisterMaster(s: State, masterId: PartyId): State {
    if 0 < masterId.ext < 0x8000_0000 && s.link.connected then Push(s, UnregisterJob(masterId)) else s
  }

  predicate NeedsPool(cfg: Config, n: Notification) {
    n.poolId == 0 && !n.local && cfg.forwards(n.iface.name)
  }

  /** One notification is given to a pool; a new pool is announced to the master. */
  function PoolOne(cfg: Config, s: State, i: nat): (r: (State, seq<(nat, Iface)>))
    requires i < |s.lists.available|
    ensures |r.0.lists.available| == |s.lists.available|
  {
    var n := s.lists.available[i];
    if !NeedsPool(cfg, n) then (s, []) else
    var pos := TargetAt(s.pools, Connecting(n.iface));
    if pos >= 0 then
      (s.(lists := s.lists.(available := s.lists.available[i := n.(poolId := s.pools[pos].id)])), [])
    else
      (s.(lists := s.lists.(available := s.lists.available[i := n.(poolId := s.next.pool)]),
          pools := s.pools + [Pool(s.next.pool, Connecting(n.iface), INVALID, 0)],
          next := s.next.(pool := s.next.pool + 1)),
       [(s.next.pool, n.iface)])
  }

  function PoolAll(cfg: Config, s: State, i: nat): (r: (State, seq<(nat, Iface)>))
    requires i <= |s.lists.available|
    decreases |s.lists.available| - i
  {
    if i == |s.lists.available| then (s, []) else
    var (s1, here) := PoolOne(cfg, s, i);
    var (s2, rest) := PoolAll(cfg, s1, i + 1);
    (s2, here + rest)
  }

  function AvailableJobs(batches: seq<seq<(nat, Iface)>>): seq<Job> {
    seq(|batches|, i requires 0 <= i < |batches| => AvailableJob(batches[i]))
  }

  /** forwardServerAvailableNotifications. */
  function ForwardAvailable(cfg: Config, s: State): State {
    if !s.link.connected then s else
    var (s1, items) := PoolAll(cfg, s, 0);
    PushAll(s1, AvailableJobs(Chunks(items)))
  }

  // ---------------------------------------------------------------- request handlers

  /** check(SFNDInterfaceDescription). */
  predicate Checked(iface: Iface) {
    (forall i :: 0 <= i < |iface.name| ==> 0x20 as char <= iface.name[i] < 0x7F as char)
    && (iface.major != 0 || iface.minor != 0)
  }

  predicate IsLocal(c: Conn) {
    c.node == LOCAL_NODE || c.node == LOOPBACK
  }

  /** checkAccessPrivileges. */
  predicate MayAttach(cfg: Config, grpid: int, uid: int) {
    grpid == ANYBODY || (uid != -1 && (uid == 0 || cfg.inGroup(grpid, uid)))
  }

  /** Insert a server, note it with its connection, and wake the waiting clients. */
  function Announce(cfg: Config, s: State, c: nat, e: Server): State
    requires c in s.conns
  {
    var s1 := s.(servers := Inserted(s.servers, e),
                 conns := s.conns[c := s.conns[c].(servers := SetInsert(s.conns[c].servers, e.id))]);
    TriggerAll(cfg, Sweep(cfg, s1, Available, ByOffer(e.iface, e.grpid), 0), Some(e.iface))
  }

  /** addInterface. */
  function AddInterface(cfg: Config, s: State, c: nat, iface: Iface, grpid: int): State
    requires c in s.conns
  {
    if Scan(s.servers, iface.name).Some? then s
    else Announce(cfg, s.(next := s.next.(server := s.next.server + 1)), c,
                  Server(PartyId(cfg.ext, s.next.server), NO_PARTY, iface, grpid, cfg.isLocalService(iface.name)))
  }

  function Register(cfg: Config, s: State, c: nat, iface: Iface, grpid: int): State
    requires c in s.conns
  {
    if !Checked(iface) || !IsLocal(s.conns[c]) then s
    else RegisterMaster(cfg, AddInterface(cfg, s, c, iface, grpid))
  }

  function AddAll(cfg: Config, s: State, c: nat, ifaces: seq<Iface>): State
    requires c in s.conns
    decreases |ifaces|
  {
    if ifaces == [] then s else
    var s1 := AddInterface(cfg, s, c, ifaces[0], ANYBODY);
    if c in s1.conns then AddAll(cfg, s1, c, ifaces[1..]) else s1
  }

  function RegisterEx(cfg: Config, s: State, c: nat, ifaces: seq<Iface>): State
    requires c in s.conns
  {
    RegisterMaster(cfg, AddAll(cfg, s, c, ifaces))
  }

  /** A slave's description of one of its servers. */
  datatype Remote = Remote(id: PartyId, iface: Iface, chid: int)

  function RemoteId(c: nat, id: PartyId): PartyId {
    if id.ext == 0 then PartyId(1000 + c, id.local) else id
  }

  function AddRemote(cfg: Config, s: State, c: nat, d: Remote): State
    requires c in s.conns
  {
    if d.id.ext == cfg.ext then s
    else if !Checked(d.iface) || d.chid <= 0 then s
    else if Scan(s.servers, d.iface.name).Some? then s
    else if d.id.ext == 0 && cfg.ext != 1000 then s
    else Announce(cfg, s, c, Server(RemoteId(c, d.id), NO_PARTY, d.iface, ANYBODY, false))
  }

  function AddRemotes(cfg: Config, s: State, c: nat, ds: seq<Remote>): State
    requires c in s.conns
    decreases |ds|
  {
    if ds == [] then s else
    var s1 := AddRemote(cfg, s, c, ds[0]);
    if c in s1.conns then AddRemotes(cfg, s1, c, ds[1..]) else s1
  }

  /** handleRegisterMasterInterface. */
  function RegisterSlave(cfg: Config, s: State, c: nat, ds: seq<Remote>): State
    requires c in s.conns
  {
    RegisterMaster(cfg, AddRemotes(cfg, s, c, ds))
  }

  /** A server leaves the table together with its clients. */
  function Retire(s: State, e: Server): State {
    var s1 := UnregisterMaster(s, e.masterId);
    s1.(servers := Removed(s1.servers, e.id), clients := RemoveServerClients(s1.clients, e.id))
  }

  function Unregister(cfg: Config, s: State, c: nat, id: PartyId): State
    requires c in s.conns
  {
    if id !in s.conns[c].servers then s else
    var s1 := s.(conns := s.conns[c := s.conns[c].(servers := SetRemove(s.conns[c].servers, id))]);
    var e := ScanId(s1.servers, id);
    if e.None? then s1
    else TriggerAll(cfg, Retire(Sweep(cfg, s1, Disconnect, ByParty(id), 0), e.value), None)
  }

  function AddClient(cfg: Config, s: State, c: nat, server: PartyId): State
    requires c in s.conns
  {
    var id := PartyId(if cfg.treeMode then cfg.ext else server.ext, s.next.client);
    s.(next := s.next.(client := s.next.client + 1),
       clients := s.clients + [Client(id, server, c)],
       conns := s.conns[c := s.conns[c].(clients := SetInsert(s.conns[c].clients, id))])
  }

  function Attach(cfg: Config, s: State, c: nat, iface: Iface): State
    requires c in s.conns
  {
    if !Checked(iface) then s else
    var e := ScanVersion(s.servers, iface);
    if e.Some? then
      if e.value.grpid == ANYBODY || (IsLocal(s.conns[c]) && MayAttach(cfg, e.value.grpid, s.conns[c].uid))
      then AddClient(cfg, s, c, e.value.id) else s
    else if !cfg.isLocalService(iface.name) && cfg.forwards(iface.name) && s.link.connected
    then Push(s, AttachJob(c, iface)) else s
  }

  function DropClientId(s: State, c: nat, id: PartyId): State
    requires c in s.conns
  {
    s.(conns := s.conns[c := s.conns[c].(clients := SetRemove(s.conns[c].clients, id))])
  }

  /** handleDetachInterface. */
  function DetachClient(cfg: Config, s: State, c: nat, id: PartyId): State
    requires c in s.conns
  {
    if id in s.conns[c].clients && ClientAt(s.clients, id) >= 0 then
      var s1 := Sweep(cfg, s, Detach, ByParty(id), 0);
      var s2 := s1.(clients := RemoveClient(s1.clients, id));
      if c in s2.conns then DropClientId(s2, c, id) else s2
    else if s.link.connected then DropClientId(Push(s, DetachJob(id)), c, id)
    else s
  }

  /** NotificationList::add followed by ClientSpecificData::addNotification. */
  function AddNotif(s: State, k: Kind, c: nat, n: Notification): State
    requires c in s.conns
  {
    var id := s.next.notif + 1;
    Put(s, k, [n.(id := id)] + L(s, k)).(
      next := s.next.(notif := id),
      conns := s.conns[c := s.conns[c].(notifs := s.conns[c].notifs + [id])],
      past := s.past.(book := s.past.book[id := Ticket(c, k)]))
  }

  const BLANK := Notification(0, INVALID, 0, None, NO_PARTY, Iface("", 0, 0), false, -1, true, None)

  /** A failed connect still uses up an ID. */
  function Skip(s: State): State {
    s.(next := s.next.(notif := s.next.notif + 1))
  }

  /** The newest disconnect notification joins the master pool for its server. */
  function JoinPool(s: State, id: PartyId): State
    requires s.lists.disconnect != []
  {
    var pos := TargetAt(s.pools, Monitor(id));
    if pos >= 0 then
      s.(pools := s.pools[pos := s.pools[pos].(refCount := s.pools[pos].refCount + 1)],
         lists := s.lists.(disconnect := s.lists.disconnect[0 := s.lists.disconnect[0].(poolId := s.pools[pos].id)]))
    else
      s.(link := s.link.(outstanding := s.link.outstanding + [WatchServerJob(s.next.pool, id)]),
         pools := s.pools + [Pool(s.next.pool, Monitor(id), INVALID, 1)],
         next := s.next.(pool := s.next.pool + 1),
         lists := s.lists.(disconnect := s.lists.disconnect[0 := s.lists.disconnect[0].(poolId := s.next.pool)]))
  }

  /** handleNotifyServerDisconnect; `reached` tells whether a slave's pulse port could be connected. */
  function NotifyDisconnect(cfg: Config, s: State, c: nat, id: PartyId, reached: bool): State
    requires c in s.conns
  {
    if s.conns[c].slave && !reached then Skip(s) else
    var s1 := AddNotif(s, Disconnect, c, BLANK.(host := Some(c), party := id));
    if ScanId(s.servers, id).Some? then s1
    else if id.ext != cfg.ext && s.link.connected then JoinPool(s1, id)
    else Sweep(cfg, s1, Disconnect, ByParty(id), 0)
  }

  /** handleNotifyServerAvailable. */
  function NotifyAvailable(cfg: Config, s: State, c: nat, iface: Iface, reached: bool): State
    requires c in s.conns
  {
    var e := ScanVersion(s.servers, iface);
    var isLocal := cfg.isLocalService(iface.name);
    if e.Some? && !MayAttach(cfg, e.value.grpid, s.conns[c].uid) then s
    else if s.conns[c].slave && !reached then Skip(s) else
    var s1 := AddNotif(s, Available, c,
                       BLANK.(host := Some(c), iface := iface, local := isLocal, uid := s.conns[c].uid));
    if e.Some? then Sweep(cfg, s1, Available, ByOffer(iface, ANYBODY), 0)
    else if !isLocal && s.link.connected then ForwardAvailable(cfg, s1)
    else s1
  }

  function NotifyAvailableEx(cfg: Config, s: State, c: nat, ifaces: seq<Iface>, reached: bool): State
    requires c in s.conns
    decreases |ifaces|
  {
    if ifaces == [] then s else
    var s1 := NotifyAvailable(cfg, s, c, ifaces[0], reached);
    if c in s1.conns then NotifyAvailableEx(cfg, s1, c, ifaces[1..], reached) else s1
  }

  /** handleNotifyClientDetach. */
  function NotifyDetach(cfg: Config, s: State, c: nat, id: PartyId, reached: bool): State
    requires c in s.conns
  {
    if s.conns[c].slave && !reached then Skip(s) else
    var s1 := AddNotif(s, Detach, c, BLANK.(host := Some(c), party := id));
    if s.link.connected && id.ext != cfg.ext then Push(s1, WatchClientJob(s1.next.notif, id))
    else if ClientAt(s.clients, id) < 0 then Sweep(cfg, s1, Detach, ByParty(id), 0)
    else s1
  }

  predicate AnyMatch(cfg: Config, l: seq<Server>, here: bool, regex: string) {
    exists e :: e in l && (here || !e.local) && cfg.matches(regex, e.iface.name)
  }

  /** handleNotifyInterfaceListChange and, with an expression, handleNotifyInterfaceListMatch.
      These notifications have no host. */
  function NotifyList(cfg: Config, s: State, c: nat, regex: Option<string>, usable: bool): State
    requires c in s.conns
  {
    if !usable then Skip(s) else
    var s1 := AddNotif(s, ListChange, c, BLANK.(regex := regex));
    var s2 := if s.link.connected then Push(s1, WatchListJob(s1.next.notif)) else s1;
    if regex.Some? && AnyMatch(cfg, s.servers, s.conns[c].node == LOCAL_NODE, regex.value)
    then Send(s2, s1.next.notif) else s2
  }

  /** handleClearNofification. */
  function Clear(s: State, c: nat, id: nat): State
    requires c in s.conns
  {
    if id !in s.conns[c].notifs then s
    else RemoveOne(RemoveOne(RemoveOne(RemoveOne(Forget(s, c, id), Detach, id), Disconnect, id), Available, id), ListChange, id)
  }

  /** The server loop of ClientSpecificData::clear. */
  function CloseServers(s: State, ids: seq<PartyId>): State
    decreases |ids|
  {
    if ids == [] then s else
    var e := ScanId(s.servers, ids[0]);
    CloseServers(if e.Some? then Retire(s, e.value) else s, ids[1..])
  }

  /** The client loop of ClientSpecificData::clear. */
  function CloseClients(s: State, ids: seq<PartyId>): State
    decreases |ids|
  {
    if ids == [] then s else
    var s1 := s.(clients := RemoveClient(s.clients, ids[0]));
    CloseClients(if s.link.connected then Push(s1, DetachJob(ids[0])) else s1, ids[1..])
  }

  /** The four sweeps that end ClientSpecificData::clear. Each one reads the
      connection's own list while the destructors it runs rewrite that list. */
  function WithdrawAll(cfg: Config, s: State, c: nat): State {
    var s1 := Sweep(cfg, s, Disconnect, Withdrawal(c), 0);
    var s2 := Sweep(cfg, s1, Detach, Withdrawal(c), 0);
    var s3 := Sweep(cfg, s2, Available, Withdrawal(c), 0);
    Sweep(cfg, s3, ListChange, Withdrawal(c), 0)
  }

  /** ClientSpecificData::clear and the end of the connection. */
  function Close(cfg: Config, s: State, c: nat): State
    requires c in s.conns
  {
    var me := s.conns[c];
    var s1 := CloseClients(CloseServers(s, me.servers), me.clients);
    var s2 := Sweep(cfg, s1, Disconnect, ByParties(me.servers), 0);
    var s3 := Sweep(cfg, s2, Detach, ByParties(me.clients), 0);
    var s4 := WithdrawAll(cfg, s3, c);
    var s5 := if me.servers != [] then TriggerAll(cfg, s4, None) else s4;
    s5.(conns := s5.conns - {c})
  }

  // ---------------------------------------------------------------- pulses and job completions

  /** handleMasterConnected. */
  function MasterConnected(cfg: Config, s: State): State {
    ForwardAvailable(cfg, RegisterMaster(cfg,
      s.(link := s.link.(session := true, steady := s.link.connected, granted := {}, cleared := {}, lent := {}))))
  }

  function ClearMasterIds(l: seq<Server>): seq<Server> {
    seq(|l|, i requires 0 <= i < |l| => l[i].(masterId := NO_PARTY))
  }

  function ClearMasterNotification(l: seq<Notification>): seq<Notification> {
    seq(|l|, i requires 0 <= i < |l| => l[i].(masterId := INVALID, poolId := 0))
  }

  /** handleMasterDisconnected. */
  function MasterDisconnected(cfg: Config, s: State): State {
    var s1 := s.(servers := ClearMasterIds(s.servers), pools := [],
                 link := s.link.(session := false, steady := false, granted := {}, cleared := {}, lent := {}));
    var s2 := Sweep(cfg, s1, Disconnect, Absent, 0);
    var s3 := Sweep(cfg, s2, Detach, NotLocal, 0);
    s3.(lists := s3.lists.(available := ClearMasterNotification(s3.lists.available)))
  }

  function ClientDetached(cfg: Config, s: State, id: nat): State {
    var i := NotifAt(s.lists.detach, id, false);
    if i >= 0 then Sweep(cfg, s, Detach, ByParty(s.lists.detach[i].party), 0)
    else FireOne(s, Detach, id, true)
  }

  /** The master's answer to one pool's request. */
  function Grant(s: State, cookie: nat, id: nat, genuine: bool): State {
    var s1 := if genuine then s.(link := s.link.(granted := s.link.granted + {id})) else s;
    var pos := PoolAt(s.pools, cookie);
    if pos >= 0 then s1.(pools := s.pools[pos := s.pools[pos].(grant := id)])
    else QueueClear(s1, id)
  }

  function GrantAll(s: State, items: seq<(nat, Iface)>, ids: seq<nat>): State
    requires |items| <= |ids|
    decreases |items|
  {
    if items == [] then s else
    var s1 := if ids[0] == INVALID then s else Grant(s, items[0].0, ids[0], true);
    GrantAll(s1, items[1..], ids[1..])
  }

  /** The answer to a client-detach or list notification. */
  function SetMasterId(s: State, k: Kind, notif: nat, id: nat, genuine: bool): State {
    var s1 := if genuine then s.(link := s.link.(lent := s.link.lent + {id})) else s;
    var i := NotifAt(L(s, k), notif, false);
    if i >= 0 then Put(s1, k, L(s, k)[i := L(s, k)[i].(masterId := id)])
    else QueueClear(s1, id)
  }

  function PendingAt(l: seq<Server>, local: nat): (r: int)
    ensures -1 <= r < |l|
  {
    if l == [] then -1
    else if l[0].id.local == local && l[0].masterId.local == REFUSED then 0
    else var r := PendingAt(l[1..], local); if r < 0 then -1 else r + 1
  }

  function NoteServerId(s: State, id: PartyId): State {
    var i := PendingAt(s.servers, id.local);
    if i < 0 then UnregisterMaster(s, id)
    else if id.ext == REFUSED then s
    else s.(servers := s.servers[i := s.servers[i].(masterId := id)])
  }

  function RegisteredAll(s: State, ids: seq<PartyId>): State
    decreases |ids|
  {
    if ids == [] then s else RegisteredAll(NoteServerId(s, ids[0]), ids[1..])
  }

  predicate Fits(j: Job, o: Outcome) {
    o.Done? ==>
      && (j.WatchServerJob? || j.WatchClientJob? || j.WatchListJob? ==> o.ids != [])
      && (j.AvailableJob? ==> |o.ids| == |j.items|)
      && (j.RegisterJob? ==> |o.parties| == |j.batch|)
      && (j.AttachJob? ==> o.parties != [])
      && ((j.WatchServerJob? || j.WatchClientJob? || j.WatchListJob?) && o.genuine ==> o.ids[0] != INVALID)
  }

  /** handleJobFinished for the oldest job that has not been reported yet. */
  function Report(s: State, o: Outcome): State
    requires s.link.outstanding != [] && Fits(s.link.outstanding[0], o)
  {
    var j := s.link.outstanding[0];
    var s1 := s.(link := s.link.(outstanding := s.link.outstanding[1..]));
    if o.Failed? then s1 else
    match j
    case AttachJob(c, _) =>
      if c in s1.conns then s1.(conns := s1.conns[c := s1.conns[c].(clients := SetInsert(s1.conns[c].clients, o.parties[0]))])
      else s1
    case WatchServerJob(cookie, _) => Grant(s1, cookie, o.ids[0], o.genuine)
    case AvailableJob(items) => GrantAll(s1, items, o.ids)
    case WatchClientJob(notif, _) => SetMasterId(s1, Detach, notif, o.ids[0], o.genuine)
    case WatchListJob(notif) => SetMasterId(s1, ListChange, notif, o.ids[0], o.genuine)
    case RegisterJob(_) => RegisteredAll(s1, o.parties)
    case _ => s1
  }

  /** The master adapter's link flag, changed by the worker thread between handlers. */
  function SetLink(s: State, up: bool): State {
    s.(link := s.link.(connected := up, steady := s.link.steady && up))
  }

  // ---------------------------------------------------------------- events and runs

  datatype Event =
    | EOpen(c: nat, node: nat, uid: int)
    | EMarkSlave(c: nat)
    | ERegister(c: nat, iface: Iface, grpid: int)
    | ERegisterEx(c: nat, ifaces: seq<Iface>)
    | ERegisterSlave(c: nat, remotes: seq<Remote>)
    | EUnregister(c: nat, id: PartyId)
    | EAttach(c: nat, iface: Iface)
    | EDetach(c: nat, id: PartyId)
    | ENotifyDisconnect(c: nat, id: PartyId, reached: bool)
    | ENotifyAvailable(c: nat, ifaces: seq<Iface>, reached: bool)
    | ENotifyDetach(c: nat, id: PartyId, reached: bool)
    | ENotifyList(c: nat, regex: Option<string>, reached: bool)
    | EClear(c: nat, notif: nat)
    | EClose(c: nat)
    | EMasterConnected
    | EMasterDisconnected
    | EServerAvailable(poolId: nat)
    | EServerDisconnect(poolId: nat)
    | EClientDetached(notif: nat)
    | EListChanged(notif: nat)
    | EReport(outcome: Outcome)
    | ELink(up: bool)

  ghost predicate Registered(s: State, id: PartyId) {
    exists e :: e in s.servers && e.id == id
  }

  ghost function Names(s: State): set<string> {
    set e | e in s.servers :: e.iface.name
  }

  ghost function Ids(s: State): set<PartyId> {
    set e | e in s.servers :: e.id
  }

  /** The checks on one server of a slave, given the names in use. */
  predicate Takes(cfg: Config, names: set<string>, d: Remote) {
    && d.id.ext != cfg.ext && Checked(d.iface) && d.chid > 0 && d.iface.name !in names
    && (d.id.ext == 0 ==> cfg.ext == 1000)
  }

  /** Every server of the slave that is taken brings an ID that is not in use here. What is
      refused may carry any ID. */
  predicate UnusedIds(cfg: Config, names: set<string>, ids: set<PartyId>, c: nat, ds: seq<Remote>)
    decreases |ds|
  {
    if ds == [] then true
    else if Takes(cfg, names, ds[0]) then
      RemoteId(c, ds[0].id) !in ids
      && UnusedIds(cfg, names + {ds[0].iface.name}, ids + {RemoteId(c, ds[0].id)}, c, ds[1..])
    else UnusedIds(cfg, names, ids, c, ds[1..])
  }

  /** When the dispatcher can see an event. Master answers arrive within a session. */
  ghost predicate Enabled(cfg: Config, s: State, e: Event) {
    match e
    case EOpen(c, _, _) => c > 0 && c !in s.conns
    case EMarkSlave(c) => c in s.conns
    case ERegister(c, _, _) => c in s.conns
    case ERegisterEx(c, _) => c in s.conns
    case ERegisterSlave(c, _) => c in s.conns
    case EUnregister(c, _) => c in s.conns
    case EAttach(c, _) => c in s.conns
    case EDetach(c, _) => c in s.conns
    case ENotifyDisconnect(c, _, _) => c in s.conns
    case ENotifyAvailable(c, _, _) => c in s.conns
    case ENotifyDetach(c, _, _) => c in s.conns
    case ENotifyList(c, _, _) => c in s.conns
    case EClear(c, _) => c in s.conns
    case EClose(c) => c in s.conns
    case EReport(o) => s.link.outstanding != [] && Fits(s.link.outstanding[0], o) && (o.Done? ==> s.link.session)
    case _ => true
  }

  ghost function Step(cfg: Config, s: State, e: Event): State
    requires Enabled(cfg, s, e)
  {
    match e
    case EOpen(c, node, uid) => s.(conns := s.conns[c := Conn([], [], [], false, node, uid)])
    case EMarkSlave(c) => s.(conns := s.conns[c := s.conns[c].(slave := true)])
    case ERegister(c, iface, grpid) => Register(cfg, s, c, iface, grpid)
    case ERegisterEx(c, ifaces) => RegisterEx(cfg, s, c, ifaces)
    case ERegisterSlave(c, ds) => RegisterSlave(cfg, s, c, ds)
    case EUnregister(c, id) => Unregister(cfg, s, c, id)
    case EAttach(c, iface) => Attach(cfg, s, c, iface)
    case EDetach(c, id) => DetachClient(cfg, s, c, id)
    case ENotifyDisconnect(c, id, reached) => NotifyDisconnect(cfg, s, c, id, reached)
    case ENotifyAvailable(c, ifaces, reached) => NotifyAvailableEx(cfg, s, c, ifaces, reached)
    case ENotifyDetach(c, id, reached) => NotifyDetach(cfg, s, c, id, reached)
    case ENotifyList(c, regex, reached) => NotifyList(cfg, s, c, regex, reached)
    case EClear(c, notif) => Clear(s, c, notif)
    case EClose(c) => Close(cfg, s, c)
    case EMasterConnected => MasterConnected(cfg, s)
    case EMasterDisconnected => MasterDisconnected(cfg, s)
    case EServerAvailable(poolId) => Sweep(cfg, s, Available, ByPool(poolId), 0)
    case EServerDisconnect(poolId) => Sweep(cfg, s, Disconnect, ByPool(poolId), 0)
    case EClientDetached(notif) => ClientDetached(cfg, s, notif)
    case EListChanged(notif) => FireOne(s, ListChange, notif, false)
    case EReport(o) => Report(s, o)
    case ELink(up) => SetLink(s, up)
  }

  const INITIAL := State([], [], Lists([], [], [], []), [], map[], Link(false, false, [], {}, {}, {}, false),
                         Counters(500001, 100001, 0, 100000), Past(map[], [], {}))

  /** A run is the sequence of events since start-up. */
  ghost predicate IsRun(cfg: Config, es: seq<Event>)
    decreases |es|, 0
  {
    es == [] || (IsRun(cfg, es[..|es| - 1]) && Enabled(cfg, After(cfg, es[..|es| - 1]), es[|es| - 1]))
  }

  ghost function After(cfg: Config, es: seq<Event>): State
    requires IsRun(cfg, es)
    decreases |es|, 1
  {
    if es == [] then INITIAL else Step(cfg, After(cfg, es[..|es| - 1]), es[|es| - 1])
  }
}
