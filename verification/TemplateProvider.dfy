/** The template provider of bitcoin-core-sv2 as a labelled transition system.

    All tasks run on one `LocalSet` thread and give control away only at an
    `await`, so the system is a set of atomic segments, one per stretch of code
    between two awaits. `Event` names a segment together with everything its
    environment decides (what Bitcoin Core answered, whether a message could be
    built and sent, whether the minimum interval forces a sleep). `Step` is the
    effect of the segment, `Exec` a whole run.

    Sends go to unbounded channels and therefore do not yield.
    */
module TemplateProvider {
  import opened Common

  type Hash = nat
  type ClientId = nat

  // `template_id_factory` is an AtomicU64, `coinbase_output_constraints_counter`
  // an AtomicU32 and `wait_next_request_counter` an AtomicU8: all three wrap.
  const ID_SPACE: nat := 0x1_0000_0000_0000_0000
  const EPOCH_SPACE: nat := 0x1_0000_0000
  const REQUEST_SPACE: nat := 0x100

  datatype Template = Template(id: nat, prevHash: Hash, client: ClientId)

  datatype Message =
    | NewTemplate(id: nat, future: bool)
    | SetNewPrevHash(id: nat, prevHash: Hash)
    | TxDataSuccess(id: nat)
    | TxDataStale(id: nat)
    | TxDataNotFound(id: nat)

  datatype Bootstrap =
    | AwaitConstraints
    | AwaitClient
    | AwaitTemplate(id: nat, client: ClientId)
    | Running
    | Stopped

  /** Where a `monitor_ipc_templates` task is suspended. */
  datatype Monitor =
    | AwaitThread
    | Waiting(epoch: nat)                     // a waitNext request is in flight, sent after `epoch` changes
    | Fetching(id: nat, client: ClientId)     // inside fetch_template_data
    | Sleeping(template: Template)            // minimum interval not yet reached
    | Exited

  /** Where the `monitor_incoming_messages` task is suspended. */
  datatype Incoming = NotStarted | Listening | CreatingClient | FetchingTxs(id: nat) | Closed

  /** Where a stale-template cleanup task is suspended. */
  datatype Cleanup = Delayed(ids: set<nat>) | AwaitCleanupThread(ids: set<nat>) | Destroying(ids: set<nat>) | Finished

  datatype Request = Constraints | TxData(id: nat)

  datatype Response = Failed | Malformed | TimedOut | Fresh(client: ClientId)

  /** How far a stretch that builds and sends messages gets. */
  datatype Announce = Sent | BuildFailed | FirstSendFailed | SecondSendFailed

  datatype BootEvent =
    | FirstConstraints
    | FirstClient(created: Option<ClientId>)
    | FirstFetched(hash: Option<Hash>, announce: Announce)

  datatype MonitorEvent =
    | Thread(ok: bool, requestOk: bool)
    | Respond(response: Response, requestOk: bool)
    | Fetched(hash: Option<Hash>, sleep: bool, announce: Announce, requestOk: bool)
    | Awake(announce: Announce, requestOk: bool)

  datatype IncomingEvent =
    | Receive(request: Request, sendOk: bool)
    | ClientCreated(created: Option<ClientId>)
    | TxsFetched(ok: bool)
    | Stop

  datatype CleanupEvent = Remove | ThreadCreated(ok: bool) | Destroy(id: nat, ok: bool)

  datatype Event =
    | OfBoot(b: BootEvent)
    | OfMonitor(m: nat, me: MonitorEvent)
    | OfIncoming(i: IncomingEvent)
    | OfCleanup(k: nat, c: CleanupEvent)
    | Cancel

  /** Whether every recorded tip was announced, the latest one was not, or one was
      not but the latest one was. */
  datatype TipRecord = AlwaysAnnounced | Unannounced | AnnouncedAgain

  /** The shared state, the suspended tasks and the history of a run.
      `issued` and `epochs` count calls; the stored counters are their
      remainders. `inserted`, `destroyed`, `failed`, `clients`, `bound` and `tip`
      are history: every template ever stored, every template id whose IPC
      client was destroyed, in order, the number of failed waitNext requests,
      every client ever received, the client each issued id was fetched with,
      and whether recorded tips were announced. */
  datatype State = State(
    boot: Bootstrap,
    data: map<nat, Template>,
    stale: set<nat>,
    prev: Option<Hash>,
    client: Option<ClientId>,
    issued: nat,
    epochs: nat,
    requests: nat,
    cancelled: bool,
    monitors: seq<Monitor>,
    incoming: Incoming,
    cleanups: seq<Cleanup>,
    out: seq<Message>,
    inserted: map<nat, Template>,
    destroyed: seq<nat>,
    failed: nat,
    clients: set<ClientId>,
    bound: seq<ClientId>,
    tip: TipRecord)

  const Init := State(AwaitConstraints, map[], {}, None, None, 0, 0, 0, false, [], NotStarted, [], [],
                      map[], [], 0, {}, [], AlwaysAnnounced)

  /** Some recorded tip was never announced. */
  predicate Lost(s: State) {
    !s.tip.AlwaysAnnounced?
  }

  // ---------------------------------------------------------------- segments

  function AfterAnnouncement(tip: TipRecord): TipRecord {
    if tip.AlwaysAnnounced? then AlwaysAnnounced else AnnouncedAgain
  }

  function FailMonitor(s: State, m: nat): State
    requires m < |s.monitors|
  {
    s.(cancelled := true, monitors := s.monitors[m := Exited])
  }

  /** Top of the monitor loop: build the request, count it, remember the epoch. */
  function StartWait(s: State, m: nat, requestOk: bool): (r: State)
    requires m < |s.monitors|
    ensures |r.monitors| == |s.monitors|
  {
    if s.client.None? || !requestOk then FailMonitor(s, m)
    else s.(requests := (s.requests + 1) % REQUEST_SPACE,
            monitors := s.monitors[m := Waiting(s.epochs)])
  }

  function StartFetch(s: State, m: nat, c: ClientId): State
    requires m < |s.monitors|
  {
    s.(client := Some(c), clients := s.clients + {c}, issued := s.issued + 1, bound := s.bound + [c],
       monitors := s.monitors[m := Fetching(s.issued % ID_SPACE, c)])
  }

  /** A waitNext answer that survived the cancellation and epoch check. */
  function OnAnswer(s: State, m: nat, response: Response, requestOk: bool): (r: State)
    requires m < |s.monitors| && !response.Failed?
    ensures |r.monitors| == |s.monitors|
  {
    match response
    case Malformed => FailMonitor(s, m)
    case TimedOut => StartWait(s, m, requestOk)
    case Fresh(c) => StartFetch(s, m, c)
  }

  predicate Outdated(s: State, m: nat)
    requires m < |s.monitors| && s.monitors[m].Waiting?
  {
    s.epochs % EPOCH_SPACE != s.monitors[m].epoch % EPOCH_SPACE
  }

  function OnResponse(s: State, m: nat, response: Response, requestOk: bool): (r: State)
    requires m < |s.monitors| && s.monitors[m].Waiting?
    ensures |r.monitors| == |s.monitors|
  {
    if response.Failed? then FailMonitor(s.(failed := s.failed + 1), m)
    else
      var s1 := s.(requests := (s.requests + REQUEST_SPACE - 1) % REQUEST_SPACE);
      if s.cancelled || Outdated(s, m) then s1.(monitors := s.monitors[m := Exited])
      else OnAnswer(s1, m, response, requestOk)
  }

  function Store(s: State, t: Template): State {
    s.(data := s.data[t.id := t], inserted := s.inserted[t.id := t])
  }

  function TipChange(s: State, m: nat, t: Template, announce: Announce, requestOk: bool): (r: State)
    requires m < |s.monitors|
    ensures |r.monitors| == |s.monitors|
  {
    var s1 := Store(s.(prev := Some(t.prevHash), cleanups := s.cleanups + [Delayed(s.data.Keys)]), t);
    match announce
    case Sent =>
      StartWait(s1.(tip := AfterAnnouncement(s.tip), out := s.out + [NewTemplate(t.id, true), SetNewPrevHash(t.id, t.prevHash)]),
                m, requestOk)
    case SecondSendFailed =>
      FailMonitor(s1.(tip := Unannounced, out := s.out + [NewTemplate(t.id, true)]), m)
    case _ =>
      FailMonitor(s1.(tip := Unannounced), m)
  }

  function FeeChange(s: State, m: nat, t: Template, announce: Announce, requestOk: bool): (r: State)
    requires m < |s.monitors|
    ensures |r.monitors| == |s.monitors|
  {
    if announce.Sent? then
      StartWait(Store(s.(out := s.out + [NewTemplate(t.id, false)]), t), m, requestOk)
    else
      FailMonitor(s, m)
  }

  function OnFetched(s: State, m: nat, hash: Option<Hash>, sleep: bool, announce: Announce, requestOk: bool): (r: State)
    requires m < |s.monitors| && s.monitors[m].Fetching?
    ensures |r.monitors| == |s.monitors|
  {
    if hash.None? || s.prev.None? then FailMonitor(s, m)
    else
      var t := Template(s.monitors[m].id, hash.value, s.monitors[m].client);
      if t.prevHash != s.prev.value then TipChange(s, m, t, announce, requestOk)
      else if sleep then s.(monitors := s.monitors[m := Sleeping(t)])
      else FeeChange(s, m, t, announce, requestOk)
  }

  function OnBootClient(s: State, created: Option<ClientId>): State {
    match created
    case None => s.(boot := Stopped, cancelled := true)
    case Some(c) =>
      s.(client := Some(c), clients := s.clients + {c}, epochs := s.epochs + 1, issued := s.issued + 1,
         bound := s.bound + [c], boot := AwaitTemplate(s.issued % ID_SPACE, c))
  }

  function OnBootFetched(s: State, hash: Option<Hash>, announce: Announce): State
    requires s.boot.AwaitTemplate?
  {
    if hash.None? then s.(boot := Stopped, cancelled := true)
    else
      var t := Template(s.boot.id, hash.value, s.boot.client);
      match announce
      case Sent =>
        Store(s.(out := s.out + [NewTemplate(t.id, true), SetNewPrevHash(t.id, t.prevHash)],
                 prev := Some(t.prevHash), boot := Running,
                 monitors := s.monitors + [AwaitThread], incoming := Listening), t)
      case SecondSendFailed =>
        s.(out := s.out + [NewTemplate(t.id, true)], boot := Stopped, cancelled := true)
      case _ =>
        s.(boot := Stopped, cancelled := true)
  }

  /** The immediate answer to RequestTransactionData, None when the template is
      found and its transactions still have to be fetched. */
  function Lookup(s: State, id: nat): Option<Message> {
    if id in s.stale then Some(TxDataStale(id))
    else if id in s.data then None
    else Some(TxDataNotFound(id))
  }

  /** `handle_submit_solution` rejects a solution exactly when the template is not stored. */
  predicate SolutionAccepted(s: State, id: nat) {
    id in s.data
  }

  function OnRequest(s: State, request: Request, sendOk: bool): State {
    match request
    case Constraints => s.(incoming := CreatingClient)
    case TxData(id) =>
      match Lookup(s, id)
      case None => s.(incoming := FetchingTxs(id))
      case Some(answer) =>
        if sendOk then s.(out := s.out + [answer]) else s.(incoming := Closed, cancelled := true)
  }

  function OnIncomingClient(s: State, created: Option<ClientId>): State {
    match created
    case None => s.(incoming := Closed, cancelled := true)
    case Some(c) =>
      s.(client := Some(c), clients := s.clients + {c}, epochs := s.epochs + 1,
         monitors := s.monitors + [AwaitThread], incoming := Listening)
  }

  function RemoveStale(s: State, k: nat): State
    requires k < |s.cleanups| && s.cleanups[k].Delayed?
  {
    var ids := s.cleanups[k].ids;
    s.(stale := ids, data := s.data - ids,
       cleanups := s.cleanups[k := AwaitCleanupThread(ids * s.data.Keys)])
  }

  function DestroyOne(s: State, k: nat, id: nat, ok: bool): State
    requires k < |s.cleanups| && s.cleanups[k].Destroying?
  {
    if ok then
      s.(destroyed := s.destroyed + [id], cleanups := s.cleanups[k := Destroying(s.cleanups[k].ids - {id})])
    else
      s.(destroyed := s.destroyed + [id], cleanups := s.cleanups[k := Finished], cancelled := true)
  }

  // ------------------------------------------------------------------- steps

  // Which segments can run, and what they do. A client handed over by Bitcoin
  // Core is a new capability.

  predicate New(s: State, created: Option<ClientId>) {
    created.Some? ==> created.value !in s.clients
  }

  predicate BootEnabled(s: State, b: BootEvent) {
    match b
    case FirstConstraints => s.boot.AwaitConstraints?
    case FirstClient(created) => s.boot.AwaitClient? && New(s, created)
    case FirstFetched(_, _) => s.boot.AwaitTemplate?
  }

  function BootStep(s: State, b: BootEvent): State
    requires BootEnabled(s, b)
  {
    match b
    case FirstConstraints => s.(boot := AwaitClient)
    case FirstClient(created) => OnBootClient(s, created)
    case FirstFetched(hash, announce) => OnBootFetched(s, hash, announce)
  }

  predicate MonitorEnabled(s: State, m: nat, e: MonitorEvent) {
    && m < |s.monitors|
    && match e
       case Thread(_, _) => s.monitors[m].AwaitThread?
       case Respond(r, _) => s.monitors[m].Waiting? && (r.Fresh? ==> r.client !in s.clients)
       case Fetched(_, _, _, _) => s.monitors[m].Fetching?
       case Awake(_, _) => s.monitors[m].Sleeping?
  }

  function MonitorStep(s: State, m: nat, e: MonitorEvent): State
    requires MonitorEnabled(s, m, e)
  {
    match e
    case Thread(ok, requestOk) => if ok then StartWait(s, m, requestOk) else FailMonitor(s, m)
    case Respond(response, requestOk) => OnResponse(s, m, response, requestOk)
    case Fetched(hash, sleep, announce, requestOk) => OnFetched(s, m, hash, sleep, announce, requestOk)
    case Awake(announce, requestOk) => FeeChange(s, m, s.monitors[m].template, announce, requestOk)
  }

  predicate IncomingEnabled(s: State, i: IncomingEvent) {
    match i
    case Receive(_, _) => s.incoming.Listening?
    case ClientCreated(created) => s.incoming.CreatingClient? && New(s, created)
    case TxsFetched(_) => s.incoming.FetchingTxs?
    case Stop => s.incoming.Listening? && s.cancelled
  }

  function IncomingStep(s: State, i: IncomingEvent): State
    requires IncomingEnabled(s, i)
  {
    match i
    case Receive(request, sendOk) => OnRequest(s, request, sendOk)
    case ClientCreated(created) => OnIncomingClient(s, created)
    case TxsFetched(ok) =>
      if ok then s.(out := s.out + [TxDataSuccess(s.incoming.id)], incoming := Listening)
      else s.(incoming := Closed, cancelled := true)
    case Stop => s.(incoming := Closed)
  }

  predicate CleanupEnabled(s: State, k: nat, c: CleanupEvent) {
    && k < |s.cleanups|
    && match c
       case Remove => s.cleanups[k].Delayed?
       case ThreadCreated(_) => s.cleanups[k].AwaitCleanupThread?
       case Destroy(id, _) => s.cleanups[k].Destroying? && id in s.cleanups[k].ids
  }

  function CleanupStep(s: State, k: nat, c: CleanupEvent): State
    requires CleanupEnabled(s, k, c)
  {
    match c
    case Remove => RemoveStale(s, k)
    case ThreadCreated(ok) =>
      if ok then s.(cleanups := s.cleanups[k := Destroying(s.cleanups[k].ids)])
      else s.(cleanups := s.cleanups[k := Finished], cancelled := true)
    case Destroy(id, ok) => DestroyOne(s, k, id, ok)
  }

  predicate Enabled(s: State, e: Event) {
    match e
    case OfBoot(b) => BootEnabled(s, b)
    case OfMonitor(m, me) => MonitorEnabled(s, m, me)
    case OfIncoming(i) => IncomingEnabled(s, i)
    case OfCleanup(k, c) => CleanupEnabled(s, k, c)
    case Cancel => true
  }

  function Step(s: State, e: Event): State
    requires Enabled(s, e)
  {
    match e
    case OfBoot(b) => BootStep(s, b)
    case OfMonitor(m, me) => MonitorStep(s, m, me)
    case OfIncoming(i) => IncomingStep(s, i)
    case OfCleanup(k, c) => CleanupStep(s, k, c)
    case Cancel => s.(cancelled := true)
  }

  /** A run: every event is enabled where it happens. */
  ghost predicate ValidRun(es: seq<Event>)
    decreases |es|, 0
  {
    es == [] || (var n := |es| - 1; ValidRun(es[..n]) && Enabled(Exec(es[..n]), es[n]))
  }

  ghost function Exec(es: seq<Event>): State
    requires ValidRun(es)
    decreases |es|, 1
  {
    if es == [] then Init else Step(Exec(es[..|es| - 1]), es[|es| - 1])
  }

  ghost predicate Reachable(s: State) {
    exists es :: ValidRun(es) && Exec(es) == s
  }
}
