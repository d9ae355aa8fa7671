/** What every run of the template provider keeps: template ids, the messages
    sent, the template of the current tip and the waitNext counter. */
module TemplateProviderSafety {
  import opened Common
  import opened TemplateProvider

  // ------------------------------------------------------------ template ids

  /** The id issued to a fetch whose template is not stored yet. */
  function PendingId(m: Monitor): Option<nat> {
    match m
    case Fetching(id, _) => Some(id)
    case Sleeping(t) => Some(t.id)
    case _ => None
  }

  function CleanupIds(c: Cleanup): set<nat> {
    match c
    case AwaitCleanupThread(ids) => ids
    case Destroying(ids) => ids
    case _ => {}
  }

  ghost predicate Distinct(ids: seq<nat>) {
    forall i, j :: 0 <= i < j < |ids| ==> ids[i] != ids[j]
  }

  ghost predicate StoredOk(s: State) {
    && (forall id <- s.data :: id in s.inserted && s.data[id] == s.inserted[id])
    && (forall id <- s.inserted :: id < s.issued && s.inserted[id].id == id)
    && (forall id <- s.stale :: id in s.inserted && id !in s.data)
  }

  ghost predicate PendingOk(s: State) {
    && (forall m :: 0 <= m < |s.monitors| && PendingId(s.monitors[m]).Some? ==>
          PendingId(s.monitors[m]).value < s.issued && PendingId(s.monitors[m]).value !in s.inserted)
    && (forall m, n :: 0 <= m < n < |s.monitors| && PendingId(s.monitors[m]).Some? ==>
          PendingId(s.monitors[m]) != PendingId(s.monitors[n]))
    && (s.boot.AwaitTemplate? ==> s.boot.id < s.issued && s.boot.id !in s.inserted)
    && (!s.boot.Running? ==> s.monitors == [] && s.cleanups == [] && s.incoming.NotStarted?)
  }

  ghost predicate CleanupOk(s: State) {
    && (forall k :: 0 <= k < |s.cleanups| && s.cleanups[k].Delayed? ==> s.cleanups[k].ids <= s.inserted.Keys)
    && (forall k :: 0 <= k < |s.cleanups| ==>
          forall id <- CleanupIds(s.cleanups[k]) :: id in s.inserted && id !in s.data && id !in s.destroyed)
    && (forall k, l :: 0 <= k < l < |s.cleanups| ==> CleanupIds(s.cleanups[k]) !! CleanupIds(s.cleanups[l]))
    && (forall id <- s.destroyed :: id in s.inserted && id !in s.data)
    && Distinct(s.destroyed)
  }

  ghost predicate IdsOk(s: State) {
    StoredOk(s) && PendingOk(s) && CleanupOk(s)
  }

  /** Only the monitors and the id history matter to the ids discipline. */
  ghost predicate SameIds(s: State, r: State) {
    && s.data == r.data && s.inserted == r.inserted && s.stale == r.stale && s.issued == r.issued
    && s.boot == r.boot && s.cleanups == r.cleanups && s.incoming == r.incoming && s.destroyed == r.destroyed
  }

  /** A monitor that stops holding an id cannot break the discipline. */
  lemma ReleaseKeepsIds(s: State, m: nat, r: State)
    requires m < |s.monitors| && IdsOk(s.(monitors := s.monitors[m := Exited]))
    requires SameIds(s, r) && m < |r.monitors| && PendingId(r.monitors[m]).None?
    requires r.monitors == s.monitors[m := r.monitors[m]]
    ensures IdsOk(r)
  {
    var x := s.(monitors := s.monitors[m := Exited]);
    assert StoredOk(r) && CleanupOk(r);
    forall i | 0 <= i < |r.monitors| && PendingId(r.monitors[i]).Some?
      ensures PendingId(r.monitors[i]).value < r.issued && PendingId(r.monitors[i]).value !in r.inserted
    {
      assert x.monitors[i] == r.monitors[i];
    }
    forall i, j | 0 <= i < j < |r.monitors| && PendingId(r.monitors[i]).Some?
      ensures PendingId(r.monitors[i]) != PendingId(r.monitors[j])
    {
      assert x.monitors[i] == r.monitors[i];
      assert j != m ==> x.monitors[j] == r.monitors[j];
    }
  }

  lemma ExitKeepsIds(s: State, m: nat)
    requires IdsOk(s) && m < |s.monitors|
    ensures IdsOk(s.(monitors := s.monitors[m := Exited]))
  {
    assert s.monitors[m := Exited] == [] ==> s.monitors == [];
  }

  /** Storing a pending template and releasing its monitor. */
  lemma StoreKeepsIds(s: State, m: nat, t: Template)
    requires IdsOk(s) && m < |s.monitors| && PendingId(s.monitors[m]) == Some(t.id)
    ensures IdsOk(Store(s, t).(monitors := s.monitors[m := Exited]))
  {
    var r := Store(s, t).(monitors := s.monitors[m := Exited]);
    assert s.boot.Running?;
    forall i | 0 <= i < |r.monitors| && PendingId(r.monitors[i]).Some?
      ensures PendingId(r.monitors[i]).value !in r.inserted
    {
      assert i != m && r.monitors[i] == s.monitors[i];
      assert PendingId(s.monitors[i]) != PendingId(s.monitors[m]);
    }
    assert PendingOk(r);
    assert CleanupOk(r) by {
      forall k | 0 <= k < |r.cleanups|
        ensures forall id <- CleanupIds(r.cleanups[k]) :: id in r.inserted && id !in r.data && id !in r.destroyed
      {
        assert s.cleanups[k] == r.cleanups[k];
      }
    }
  }

  lemma ScheduleKeepsIds(s: State)
    requires IdsOk(s) && s.boot.Running?
    ensures IdsOk(s.(cleanups := s.cleanups + [Delayed(s.data.Keys)]))
  {
    var r := s.(cleanups := s.cleanups + [Delayed(s.data.Keys)]);
    forall k, l | 0 <= k < l < |r.cleanups|
      ensures CleanupIds(r.cleanups[k]) !! CleanupIds(r.cleanups[l])
    {
      if l < |s.cleanups| {
        assert r.cleanups[k] == s.cleanups[k] && r.cleanups[l] == s.cleanups[l];
      }
    }
  }

  lemma TipChangeIds(s: State, m: nat, t: Template, announce: Announce, requestOk: bool)
    requires m < |s.monitors|
    ensures
      var r := TipChange(s, m, t, announce, requestOk);
      && SameIds(Store(s.(prev := Some(t.prevHash), cleanups := s.cleanups + [Delayed(s.data.Keys)]), t), r)
      && |r.monitors| == |s.monitors| && r.monitors == s.monitors[m := r.monitors[m]] && PendingId(r.monitors[m]).None?
  {
  }

  lemma FeeChangeIds(s: State, m: nat, t: Template, announce: Announce, requestOk: bool)
    requires m < |s.monitors|
    ensures
      var r := FeeChange(s, m, t, announce, requestOk);
      && SameIds(if announce.Sent? then Store(s, t) else s, r)
      && |r.monitors| == |s.monitors| && r.monitors == s.monitors[m := r.monitors[m]] && PendingId(r.monitors[m]).None?
  {
  }

  lemma TipChangeKeepsIds(s: State, m: nat, t: Template, announce: Announce, requestOk: bool)
    requires IdsOk(s) && m < |s.monitors| && PendingId(s.monitors[m]) == Some(t.id)
    ensures IdsOk(TipChange(s, m, t, announce, requestOk))
  {
    hide TipChange;
    var s0 := s.(prev := Some(t.prevHash), cleanups := s.cleanups + [Delayed(s.data.Keys)]);
    ScheduleKeepsIds(s.(prev := Some(t.prevHash)));
    StoreKeepsIds(s0, m, t);
    var s1 := Store(s0, t);
    var r := TipChange(s, m, t, announce, requestOk);
    TipChangeIds(s, m, t, announce, requestOk);
    ReleaseKeepsIds(s1, m, r);
  }

  lemma FeeChangeKeepsIds(s: State, m: nat, t: Template, announce: Announce, requestOk: bool)
    requires IdsOk(s) && m < |s.monitors| && PendingId(s.monitors[m]) == Some(t.id)
    ensures IdsOk(FeeChange(s, m, t, announce, requestOk))
  {
    hide FeeChange, IdsOk;
    var r := FeeChange(s, m, t, announce, requestOk);
    FeeChangeIds(s, m, t, announce, requestOk);
    if announce.Sent? {
      StoreKeepsIds(s, m, t);
      ReleaseKeepsIds(Store(s, t), m, r);
    } else {
      LetGoKeepsIds(s, m, r);
    }
  }

  lemma StartFetchKeepsIds(s: State, m: nat, c: ClientId)
    requires IdsOk(s) && m < |s.monitors| && s.issued < ID_SPACE
    ensures IdsOk(StartFetch(s, m, c))
  {
    var r := StartFetch(s, m, c);
    assert r.monitors[m] == Fetching(s.issued, c);
    forall i, j | 0 <= i < j < |r.monitors| && PendingId(r.monitors[i]).Some?
      ensures PendingId(r.monitors[i]) != PendingId(r.monitors[j])
    {
      assert i != m ==> r.monitors[i] == s.monitors[i];
      assert j != m ==> r.monitors[j] == s.monitors[j];
    }
    assert PendingOk(r);
    assert CleanupOk(r);
  }

  /** A segment that only lets monitor m go on without an id. */
  lemma LetGoKeepsIds(s: State, m: nat, r: State)
    requires IdsOk(s) && m < |s.monitors| == |r.monitors| && SameIds(s, r)
    requires PendingId(r.monitors[m]).None? && r.monitors == s.monitors[m := r.monitors[m]]
    ensures IdsOk(r)
  {
    ExitKeepsIds(s, m);
    ReleaseKeepsIds(s, m, r);
  }

  /** What an answer does to monitor m: it goes on without an id, or starts a fetch. */
  ghost predicate LetsGo(s: State, m: nat, response: Response, r: State)
    requires m < |s.monitors|
  {
    && |r.monitors| == |s.monitors| && r.monitors == s.monitors[m := r.monitors[m]]
    && (r.issued == s.issued ==> SameIds(s, r) && r.bound == s.bound && r.clients == s.clients && PendingId(r.monitors[m]).None?)
    && (r.issued != s.issued ==> response.Fresh? && r == StartFetch(s.(requests := r.requests), m, response.client))
  }

  lemma OnAnswerLetsGo(s: State, m: nat, response: Response, requestOk: bool)
    requires m < |s.monitors| && !response.Failed?
    ensures LetsGo(s, m, response, OnAnswer(s, m, response, requestOk))
  {
  }

  lemma OnResponseLetsGo(s: State, m: nat, response: Response, requestOk: bool)
    requires m < |s.monitors| && s.monitors[m].Waiting?
    ensures LetsGo(s, m, response, OnResponse(s, m, response, requestOk))
  {
    if !response.Failed? {
      hide OnAnswer;
      OnAnswerLetsGo(s.(requests := (s.requests + REQUEST_SPACE - 1) % REQUEST_SPACE), m, response, requestOk);
    }
  }

  lemma OnResponseKeepsIds(s: State, m: nat, response: Response, requestOk: bool)
    requires IdsOk(s) && m < |s.monitors| && s.monitors[m].Waiting?
    requires OnResponse(s, m, response, requestOk).issued <= ID_SPACE
    ensures IdsOk(OnResponse(s, m, response, requestOk))
  {
    hide OnResponse;
    var r := OnResponse(s, m, response, requestOk);
    OnResponseLetsGo(s, m, response, requestOk);
    if r.issued == s.issued {
      LetGoKeepsIds(s, m, r);
    } else {
      StartFetchKeepsIds(s.(requests := r.requests), m, response.client);
    }
  }

  lemma SleepKeepsIds(s: State, m: nat, t: Template)
    requires IdsOk(s) && m < |s.monitors| && PendingId(s.monitors[m]) == Some(t.id)
    ensures IdsOk(s.(monitors := s.monitors[m := Sleeping(t)]))
  {
    var r := s.(monitors := s.monitors[m := Sleeping(t)]);
    assert forall i :: 0 <= i < |s.monitors| ==> PendingId(r.monitors[i]) == PendingId(s.monitors[i]);
    assert StoredOk(r) && CleanupOk(r);
  }

  lemma OnFetchedKeepsIds(s: State, m: nat, hash: Option<Hash>, sleep: bool, announce: Announce, requestOk: bool)
    requires IdsOk(s) && m < |s.monitors| && s.monitors[m].Fetching?
    ensures IdsOk(OnFetched(s, m, hash, sleep, announce, requestOk))
  {
    hide IdsOk, TipChange, FeeChange;
    if hash.None? || s.prev.None? {
      LetGoKeepsIds(s, m, FailMonitor(s, m));
    } else {
      var t := Template(s.monitors[m].id, hash.value, s.monitors[m].client);
      if t.prevHash != s.prev.value {
        TipChangeKeepsIds(s, m, t, announce, requestOk);
      } else if sleep {
        SleepKeepsIds(s, m, t);
      } else {
        FeeChangeKeepsIds(s, m, t, announce, requestOk);
      }
    }
  }

  lemma SpawnKeepsIds(s: State, r: State)
    requires IdsOk(s) && SameIds(s.(incoming := r.incoming), r) && s.boot.Running?
    requires r.monitors == s.monitors || r.monitors == s.monitors + [AwaitThread]
    ensures IdsOk(r)
  {
    forall i, j | 0 <= i < j < |r.monitors| && PendingId(r.monitors[i]).Some?
      ensures PendingId(r.monitors[i]) != PendingId(r.monitors[j])
    {
      assert r.monitors[i] == s.monitors[i];
      assert j < |s.monitors| ==> r.monitors[j] == s.monitors[j];
    }
    assert PendingOk(r);
  }

  lemma BootKeepsIds(s: State, hash: Option<Hash>, announce: Announce)
    requires IdsOk(s) && s.boot.AwaitTemplate?
    ensures IdsOk(OnBootFetched(s, hash, announce))
  {
    var r := OnBootFetched(s, hash, announce);
    assert s.monitors == [] && s.cleanups == [];
    assert StoredOk(r) && PendingOk(r);
    assert CleanupOk(r);
  }

  /** A cleanup task that keeps part of what it held, gains what leaves `data`
      or hands one id over to `destroyed`. */
  lemma CleanupKeepsIds(s: State, k: nat, r: State)
    requires IdsOk(s) && k < |s.cleanups| == |r.cleanups| && s.boot.Running?
    requires r.cleanups == s.cleanups[k := r.cleanups[k]] && r.monitors == s.monitors && r.boot == s.boot
    requires r.inserted == s.inserted && r.issued == s.issued && r.data == s.data - (s.data.Keys - r.data.Keys)
    requires r.stale == s.stale || r.stale <= s.inserted.Keys - r.data.Keys
    requires r.cleanups[k].Delayed? ==> r.cleanups[k].ids <= s.inserted.Keys
    requires CleanupIds(r.cleanups[k]) <= CleanupIds(s.cleanups[k]) + (s.data.Keys - r.data.Keys)
    requires r.destroyed == s.destroyed
      || (exists id :: id in CleanupIds(s.cleanups[k]) && id !in CleanupIds(r.cleanups[k]) && r.destroyed == s.destroyed + [id])
    ensures IdsOk(r)
  {
    forall i, j | 0 <= i < j < |r.cleanups|
      ensures CleanupIds(r.cleanups[i]) !! CleanupIds(r.cleanups[j])
    {
      assert CleanupIds(s.cleanups[i]) !! CleanupIds(s.cleanups[j]);
      assert CleanupIds(s.cleanups[i]) !! s.data.Keys && CleanupIds(s.cleanups[j]) !! s.data.Keys;
    }
    forall i | 0 <= i < |r.cleanups|
      ensures forall id <- CleanupIds(r.cleanups[i]) :: id in r.inserted && id !in r.data && id !in r.destroyed
    {
      assert i < k ==> CleanupIds(s.cleanups[i]) !! CleanupIds(s.cleanups[k]);
      assert k < i ==> CleanupIds(s.cleanups[k]) !! CleanupIds(s.cleanups[i]);
    }
  }

  lemma BootClientKeepsIds(s: State, created: Option<ClientId>)
    requires IdsOk(s) && s.boot.AwaitClient? && OnBootClient(s, created).issued <= ID_SPACE
    ensures IdsOk(OnBootClient(s, created))
  {
    var r := OnBootClient(s, created);
    assert StoredOk(r) && PendingOk(r);
    assert CleanupOk(r);
  }

  /** What the incoming task leaves alone: everything but the client, one new
      monitor and one message that is no SetNewPrevHash. */
  ghost predicate IncomingFrame(s: State, r: State) {
    && SameIds(s.(incoming := r.incoming), r)
    && r.prev == s.prev && r.tip == s.tip && (s.cancelled ==> r.cancelled)
    && r.bound == s.bound && r.failed == s.failed && r.requests == s.requests && s.clients <= r.clients
    && (if r.epochs == s.epochs then r.monitors == s.monitors && r.client == s.client
        else r.monitors == s.monitors + [AwaitThread] && r.client.Some?)
    && (r.out == s.out || exists x: Message :: !x.SetNewPrevHash? && r.out == s.out + [x])
  }

  lemma RequestFrames(s: State, request: Request, sendOk: bool)
    ensures IncomingFrame(s, OnRequest(s, request, sendOk))
    ensures OnRequest(s, request, sendOk).epochs == s.epochs
  {
  }

  lemma ClientFrames(s: State, created: Option<ClientId>)
    ensures IncomingFrame(s, OnIncomingClient(s, created))
    ensures created.None? ==> OnIncomingClient(s, created).epochs == s.epochs
  {
  }

  lemma IncomingFrames(s: State, i: IncomingEvent)
    requires IncomingEnabled(s, i)
    ensures IncomingFrame(s, IncomingStep(s, i))
    ensures !(i.ClientCreated? && i.created.Some?) ==> IncomingStep(s, i).epochs == s.epochs
  {
    hide OnRequest, OnIncomingClient;
    match i
    case Receive(request, sendOk) => RequestFrames(s, request, sendOk);
    case ClientCreated(created) => ClientFrames(s, created);
    case TxsFetched(_) =>
    case Stop =>
  }

  lemma IncomingKeepsIds(s: State, i: IncomingEvent)
    requires IdsOk(s) && IncomingEnabled(s, i)
    ensures IdsOk(IncomingStep(s, i))
  {
    hide IncomingStep;
    IncomingFrames(s, i);
    SpawnKeepsIds(s, IncomingStep(s, i));
  }

  lemma MonitorKeepsIds(s: State, m: nat, e: MonitorEvent)
    requires IdsOk(s) && MonitorEnabled(s, m, e) && MonitorStep(s, m, e).issued <= ID_SPACE
    ensures IdsOk(MonitorStep(s, m, e))
  {
    hide IdsOk, OnResponse, OnFetched, FeeChange;
    match e
    case Thread(ok, requestOk) =>
      LetGoKeepsIds(s, m, if ok then StartWait(s, m, requestOk) else FailMonitor(s, m));
    case Respond(response, requestOk) => OnResponseKeepsIds(s, m, response, requestOk);
    case Fetched(h, sleep, announce, requestOk) => OnFetchedKeepsIds(s, m, h, sleep, announce, requestOk);
    case Awake(announce, requestOk) => FeeChangeKeepsIds(s, m, s.monitors[m].template, announce, requestOk);
  }

  lemma CleanupStepKeepsIds(s: State, k: nat, c: CleanupEvent)
    requires IdsOk(s) && CleanupEnabled(s, k, c)
    ensures IdsOk(CleanupStep(s, k, c))
  {
    CleanupKeepsIds(s, k, CleanupStep(s, k, c));
  }

  /** Every segment keeps the ids discipline until the id factory wraps. */
  lemma StepKeepsIds(s: State, e: Event)
    requires IdsOk(s) && Enabled(s, e) && Step(s, e).issued <= ID_SPACE
    ensures IdsOk(Step(s, e))
  {
    match e
    case OfBoot(FirstConstraints) => assert IdsOk(BootStep(s, FirstConstraints));
    case OfBoot(FirstClient(created)) => BootClientKeepsIds(s, created);
    case OfBoot(FirstFetched(hash, announce)) => BootKeepsIds(s, hash, announce);
    case OfMonitor(m, me) => MonitorKeepsIds(s, m, me);
    case OfIncoming(i) => IncomingKeepsIds(s, i);
    case OfCleanup(k, c) => CleanupStepKeepsIds(s, k, c);
    case Cancel =>
  }

  // ------------------------------------------------------- clients behind ids

  ghost predicate Holds(s: State, id: nat, c: ClientId) {
    id < |s.bound| && s.bound[id] == c
  }

  /** Every template keeps the client its id was fetched with, and no two ids share one. */
  ghost predicate ClientsOk(s: State) {
    && |s.bound| == s.issued
    && Distinct(s.bound)
    && (forall c <- s.bound :: c in s.clients)
    && (forall id <- s.inserted :: Holds(s, id, s.inserted[id].client))
    && (forall m :: 0 <= m < |s.monitors| ==>
          && (s.monitors[m].Fetching? ==> Holds(s, s.monitors[m].id, s.monitors[m].client))
          && (s.monitors[m].Sleeping? ==> Holds(s, s.monitors[m].template.id, s.monitors[m].template.client)))
    && (s.boot.AwaitTemplate? ==> Holds(s, s.boot.id, s.boot.client))
  }

  /** Monitor m has let its id go and at most its template t was stored. */
  ghost predicate Released(s: State, m: nat, t: Template, r: State) {
    && m < |s.monitors| == |r.monitors| && r.monitors == s.monitors[m := r.monitors[m]]
    && !r.monitors[m].Fetching? && !r.monitors[m].Sleeping?
    && r.boot == s.boot && r.bound == s.bound && r.issued == s.issued && r.clients == s.clients
    && ((r.inserted == s.inserted && r.data == s.data)
        || (r.inserted == s.inserted[t.id := t] && r.data == s.data[t.id := t]))
  }

  lemma ReleaseKeepsClients(s: State, m: nat, t: Template, r: State)
    requires ClientsOk(s) && Released(s, m, t, r) && (r.inserted != s.inserted ==> Holds(s, t.id, t.client))
    ensures ClientsOk(r)
  {
    forall n | 0 <= n < |r.monitors| && n != m
      ensures r.monitors[n] == s.monitors[n]
    {
    }
  }

  lemma TipChangeReleases(s: State, m: nat, t: Template, announce: Announce, requestOk: bool)
    requires m < |s.monitors|
    ensures Released(s, m, t, TipChange(s, m, t, announce, requestOk))
  {
  }

  lemma FeeChangeReleases(s: State, m: nat, t: Template, announce: Announce, requestOk: bool)
    requires m < |s.monitors|
    ensures Released(s, m, t, FeeChange(s, m, t, announce, requestOk))
  {
  }

  lemma StartFetchKeepsClients(s: State, m: nat, c: ClientId)
    requires ClientsOk(s) && m < |s.monitors| && c !in s.clients && s.issued < ID_SPACE
    ensures ClientsOk(StartFetch(s, m, c))
  {
    var r := StartFetch(s, m, c);
    assert forall id: nat :: id < |s.bound| ==> r.bound[id] == s.bound[id];
    assert Holds(r, s.issued, c);
    forall n | 0 <= n < |r.monitors| && n != m
      ensures r.monitors[n] == s.monitors[n]
    {
    }
  }

  lemma OnResponseKeepsClients(s: State, m: nat, response: Response, requestOk: bool)
    requires ClientsOk(s) && MonitorEnabled(s, m, Respond(response, requestOk))
    requires OnResponse(s, m, response, requestOk).issued <= ID_SPACE
    ensures ClientsOk(OnResponse(s, m, response, requestOk))
  {
    var r := OnResponse(s, m, response, requestOk);
    OnResponseLetsGo(s, m, response, requestOk);
    if r.issued == s.issued {
      ReleaseKeepsClients(s, m, Template(0, 0, 0), r);
    } else {
      StartFetchKeepsClients(s.(requests := r.requests), m, response.client);
    }
  }

  lemma OnFetchedKeepsClients(s: State, m: nat, hash: Option<Hash>, sleep: bool, announce: Announce, requestOk: bool)
    requires ClientsOk(s) && m < |s.monitors| && s.monitors[m].Fetching?
    ensures ClientsOk(OnFetched(s, m, hash, sleep, announce, requestOk))
  {
    var t := Template(s.monitors[m].id, if hash.Some? then hash.value else 0, s.monitors[m].client);
    if hash.None? || s.prev.None? {
      ReleaseKeepsClients(s, m, t, FailMonitor(s, m));
    } else if t.prevHash != s.prev.value {
      TipChangeReleases(s, m, t, announce, requestOk);
      ReleaseKeepsClients(s, m, t, TipChange(s, m, t, announce, requestOk));
    } else if !sleep {
      FeeChangeReleases(s, m, t, announce, requestOk);
      ReleaseKeepsClients(s, m, t, FeeChange(s, m, t, announce, requestOk));
    }
  }

  lemma MonitorKeepsClients(s: State, m: nat, e: MonitorEvent)
    requires ClientsOk(s) && MonitorEnabled(s, m, e) && MonitorStep(s, m, e).issued <= ID_SPACE
    ensures ClientsOk(MonitorStep(s, m, e))
  {
    hide OnResponse, OnFetched, FeeChange;
    match e
    case Thread(ok, requestOk) => ReleaseKeepsClients(s, m, Template(0, 0, 0), MonitorStep(s, m, e));
    case Respond(response, requestOk) => OnResponseKeepsClients(s, m, response, requestOk);
    case Fetched(h, sleep, announce, requestOk) => OnFetchedKeepsClients(s, m, h, sleep, announce, requestOk);
    case Awake(announce, requestOk) =>
      FeeChangeReleases(s, m, s.monitors[m].template, announce, requestOk);
      ReleaseKeepsClients(s, m, s.monitors[m].template, MonitorStep(s, m, e));
  }

  lemma BootClientKeepsClients(s: State, c: ClientId)
    requires ClientsOk(s) && s.monitors == [] && c !in s.clients && s.issued < ID_SPACE
    ensures ClientsOk(OnBootClient(s, Some(c)))
  {
    var r := OnBootClient(s, Some(c));
    assert forall id: nat :: id < |s.bound| ==> r.bound[id] == s.bound[id];
    assert Holds(r, s.issued, c);
  }

  lemma BootFetchedKeepsClients(s: State, hash: Option<Hash>, announce: Announce)
    requires ClientsOk(s) && s.boot.AwaitTemplate? && s.monitors == []
    ensures ClientsOk(OnBootFetched(s, hash, announce))
  {
    var r := OnBootFetched(s, hash, announce);
    assert r.bound == s.bound && r.clients == s.clients;
    assert r.monitors == [] || r.monitors == [AwaitThread];
    forall id <- r.inserted
      ensures Holds(r, id, r.inserted[id].client)
    {
      assert id == s.boot.id || id in s.inserted;
    }
  }

  lemma BootKeepsClients(s: State, b: BootEvent)
    requires ClientsOk(s) && s.monitors == [] && BootEnabled(s, b) && BootStep(s, b).issued <= ID_SPACE
    ensures ClientsOk(BootStep(s, b))
  {
    match b
    case FirstConstraints => assert ClientsOk(s.(boot := AwaitClient));
    case FirstClient(None) => assert ClientsOk(s.(boot := Stopped, cancelled := true));
    case FirstClient(Some(c)) => BootClientKeepsClients(s, c);
    case FirstFetched(hash, announce) => BootFetchedKeepsClients(s, hash, announce);
  }

  lemma SpawnKeepsClients(s: State, r: State)
    requires ClientsOk(s) && r.bound == s.bound && r.issued == s.issued && s.clients <= r.clients
    requires r.inserted == s.inserted && r.boot == s.boot
    requires r.monitors == s.monitors || r.monitors == s.monitors + [AwaitThread]
    ensures ClientsOk(r)
  {
  }

  lemma IncomingKeepsClients(s: State, i: IncomingEvent)
    requires ClientsOk(s) && IncomingEnabled(s, i)
    ensures ClientsOk(IncomingStep(s, i))
  {
    hide IncomingStep, ClientsOk;
    IncomingFrames(s, i);
    SpawnKeepsClients(s, IncomingStep(s, i));
  }

  lemma CleanupKeepsClients(s: State, k: nat, c: CleanupEvent)
    requires ClientsOk(s) && CleanupEnabled(s, k, c)
    ensures ClientsOk(CleanupStep(s, k, c))
  {
    SpawnKeepsClients(s, CleanupStep(s, k, c));
  }

  lemma StepKeepsClients(s: State, e: Event)
    requires ClientsOk(s) && (e.OfBoot? ==> s.monitors == []) && Enabled(s, e) && Step(s, e).issued <= ID_SPACE
    ensures ClientsOk(Step(s, e))
  {
    hide ClientsOk, BootStep, MonitorStep, IncomingStep;
    match e
    case OfBoot(b) => BootKeepsClients(s, b);
    case OfMonitor(m, me) => MonitorKeepsClients(s, m, me);
    case OfIncoming(i) => IncomingKeepsClients(s, i);
    case OfCleanup(k, c) => CleanupKeepsClients(s, k, c);
    case Cancel => SpawnKeepsClients(s, s.(cancelled := true));
  }

  // ------------------------------------------------------------ sent messages

  /** The SetNewPrevHash messages of a trace, in order. */
  ghost function Tips(out: seq<Message>): (tips: seq<Message>)
    ensures forall t <- tips :: t.SetNewPrevHash?
  {
    if out == [] then []
    else
      var n := |out| - 1;
      Tips(out[..n]) + if out[n].SetNewPrevHash? then [out[n]] else []
  }

  lemma TipsAppend(out: seq<Message>, x: Message)
    ensures Tips(out + [x]) == Tips(out) + if x.SetNewPrevHash? then [x] else []
  {
    assert (out + [x])[..|out|] == out;
  }

  /** Each SetNewPrevHash directly follows the future NewTemplate it activates. */
  ghost predicate Announced(out: seq<Message>) {
    forall i :: 0 <= i < |out| && out[i].SetNewPrevHash? ==> i > 0 && out[i - 1] == NewTemplate(out[i].id, true)
  }

  ghost predicate Alternating(tips: seq<Message>)
    requires forall t <- tips :: t.SetNewPrevHash?
  {
    forall i :: 0 < i < |tips| ==> tips[i - 1].prevHash != tips[i].prevHash
  }

  ghost predicate Scheduled(s: State, id: nat) {
    exists k :: 0 <= k < |s.cleanups| && s.cleanups[k].Delayed? && id in s.cleanups[k].ids
  }

  /** The last announced tip is the recorded one, and its template is safely stored. */
  ghost predicate Synced(s: State) {
    var tips := Tips(s.out);
    && tips != []
    && s.prev == Some(tips[|tips| - 1].prevHash)
    && tips[|tips| - 1].id in s.data
    && !Scheduled(s, tips[|tips| - 1].id)
  }

  ghost predicate TraceOk(s: State) {
    && Announced(s.out)
    && (!s.boot.Running? ==> Tips(s.out) == [] && s.prev.None? && !Lost(s))
    && (s.boot.Running? ==> s.prev.Some?)
    && (s.boot.Running? || s.boot.AwaitTemplate? ==> s.client.Some?)
    && (Lost(s) ==> s.cancelled)
    && (!Lost(s) ==> Alternating(Tips(s.out)))
    && (!s.tip.Unannounced? && s.boot.Running? ==> Synced(s))
  }

  lemma QuietKeepsOut(out: seq<Message>, extra: seq<Message>)
    requires |extra| <= 1 && forall x <- extra :: !x.SetNewPrevHash?
    ensures Tips(out + extra) == Tips(out) && (Announced(out) ==> Announced(out + extra))
  {
    if extra == [] {
      assert out + extra == out;
    } else {
      TipsAppend(out, extra[0]);
      assert out + extra == out + [extra[0]];
    }
  }

  /** Segments that announce no tip and schedule no template. */
  lemma FrameKeepsTrace(s: State, extra: seq<Message>, r: State)
    requires TraceOk(s)
    requires r.out == s.out + extra && |extra| <= 1 && forall x <- extra :: !x.SetNewPrevHash?
    requires r.prev == s.prev && r.tip == s.tip && (s.cancelled ==> r.cancelled)
    requires r.boot.Running? == s.boot.Running? && (s.client.Some? ==> r.client.Some?)
    requires r.boot.AwaitTemplate? ==> r.client.Some?
    requires forall id <- s.data :: id in r.data || Scheduled(s, id)
    requires forall id :: Scheduled(r, id) ==> Scheduled(s, id)
    ensures TraceOk(r)
  {
    hide Announced, Tips;
    QuietKeepsOut(s.out, extra);
  }

  lemma AnnounceTip(out: seq<Message>, id: nat, h: Hash)
    requires Announced(out)
    ensures Announced(out + [NewTemplate(id, true), SetNewPrevHash(id, h)])
    ensures Tips(out + [NewTemplate(id, true), SetNewPrevHash(id, h)]) == Tips(out) + [SetNewPrevHash(id, h)]
  {
    AnnounceTipTips(out, id, h);
    hide Tips;
    var more := out + [NewTemplate(id, true), SetNewPrevHash(id, h)];
    assert more[|out|] == NewTemplate(id, true) && more[|out| + 1] == SetNewPrevHash(id, h);
    forall i | 0 <= i < |more| && more[i].SetNewPrevHash? ensures i > 0 && more[i - 1] == NewTemplate(more[i].id, true) {
      if i < |out| {
        assert more[i] == out[i] && (i > 0 ==> more[i - 1] == out[i - 1]);
      }
    }
  }

  lemma AnnounceTipTips(out: seq<Message>, id: nat, h: Hash)
    ensures Tips(out + [NewTemplate(id, true), SetNewPrevHash(id, h)]) == Tips(out) + [SetNewPrevHash(id, h)]
  {
    hide Tips;
    TipsAppend(out, NewTemplate(id, true));
    TipsAppend(out + [NewTemplate(id, true)], SetNewPrevHash(id, h));
    assert out + [NewTemplate(id, true), SetNewPrevHash(id, h)]
        == out + [NewTemplate(id, true)] + [SetNewPrevHash(id, h)];
    assert Tips(out) + [] == Tips(out);
  }

  lemma TipChangeFields(s: State, m: nat, t: Template, announce: Announce, requestOk: bool)
    requires m < |s.monitors|
    ensures
      var r := TipChange(s, m, t, announce, requestOk);
      && r.data == s.data[t.id := t] && r.cleanups == s.cleanups + [Delayed(s.data.Keys)]
      && r.prev == Some(t.prevHash) && r.client == s.client && r.boot == s.boot
      && r.tip == (if announce.Sent? then AfterAnnouncement(s.tip) else Unannounced) && (s.cancelled || !announce.Sent? ==> r.cancelled)
      && r.out == (match announce
                   case Sent => s.out + [NewTemplate(t.id, true), SetNewPrevHash(t.id, t.prevHash)]
                   case SecondSendFailed => s.out + [NewTemplate(t.id, true)]
                   case _ => s.out)
  {
  }

  lemma TipChangeKeepsTrace(s: State, m: nat, t: Template, announce: Announce, requestOk: bool)
    requires TraceOk(s) && IdsOk(s) && m < |s.monitors| && PendingId(s.monitors[m]) == Some(t.id)
    requires s.prev.Some? && t.prevHash != s.prev.value
    ensures TraceOk(TipChange(s, m, t, announce, requestOk))
  {
    hide TipChange, Announced, Tips;
    var r := TipChange(s, m, t, announce, requestOk);
    TipChangeFields(s, m, t, announce, requestOk);
    assert s.boot.Running?;
    match announce
    case Sent =>
      AnnounceTip(s.out, t.id, t.prevHash);
      forall k | 0 <= k < |r.cleanups| && r.cleanups[k].Delayed?
        ensures t.id !in r.cleanups[k].ids
      {
        assert k < |s.cleanups| ==> r.cleanups[k] == s.cleanups[k];
      }
    case SecondSendFailed => QuietKeepsOut(s.out, [NewTemplate(t.id, true)]);
    case _ =>
  }

  lemma FeeChangeKeepsTrace(s: State, m: nat, t: Template, announce: Announce, requestOk: bool)
    requires TraceOk(s) && m < |s.monitors|
    ensures TraceOk(FeeChange(s, m, t, announce, requestOk))
  {
    FrameKeepsTrace(s, if announce.Sent? then [NewTemplate(t.id, false)] else [], FeeChange(s, m, t, announce, requestOk));
  }

  lemma BootFields(s: State, hash: Option<Hash>, announce: Announce)
    requires s.boot.AwaitTemplate?
    ensures
      var r := OnBootFetched(s, hash, announce);
      && r.client == s.client && r.tip == s.tip && r.cleanups == s.cleanups
      && (r.boot.Running? <==> hash.Some? && announce.Sent?) && !r.boot.AwaitTemplate?
      && (r.boot.Running? ==>
            && r.prev == hash && s.boot.id in r.data && r.cancelled == s.cancelled
            && r.out == s.out + [NewTemplate(s.boot.id, true), SetNewPrevHash(s.boot.id, hash.value)])
      && (!r.boot.Running? ==>
            r.prev == s.prev && r.cancelled && (r.out == s.out || r.out == s.out + [NewTemplate(s.boot.id, true)]))
  {
  }

  lemma BootKeepsTrace(s: State, hash: Option<Hash>, announce: Announce)
    requires TraceOk(s) && IdsOk(s) && s.boot.AwaitTemplate?
    ensures TraceOk(OnBootFetched(s, hash, announce))
  {
    hide OnBootFetched, Announced, Tips;
    BootFields(s, hash, announce);
    QuietKeepsOut(s.out, [NewTemplate(s.boot.id, true)]);
    if hash.Some? {
      AnnounceTip(s.out, s.boot.id, hash.value);
    }
  }

  lemma OnFetchedKeepsTrace(s: State, m: nat, hash: Option<Hash>, sleep: bool, announce: Announce, requestOk: bool)
    requires TraceOk(s) && IdsOk(s) && m < |s.monitors| && s.monitors[m].Fetching?
    ensures TraceOk(OnFetched(s, m, hash, sleep, announce, requestOk))
  {
    hide TraceOk, TipChange, FeeChange;
    if hash.None? || s.prev.None? {
      FrameKeepsTrace(s, [], FailMonitor(s, m));
    } else {
      var t := Template(s.monitors[m].id, hash.value, s.monitors[m].client);
      if t.prevHash != s.prev.value {
        TipChangeKeepsTrace(s, m, t, announce, requestOk);
      } else if sleep {
        FrameKeepsTrace(s, [], s.(monitors := s.monitors[m := Sleeping(t)]));
      } else {
        FeeChangeKeepsTrace(s, m, t, announce, requestOk);
      }
    }
  }

  lemma CleanupKeepsTrace(s: State, k: nat, c: CleanupEvent)
    requires TraceOk(s) && CleanupEnabled(s, k, c)
    ensures TraceOk(CleanupStep(s, k, c))
  {
    var r := CleanupStep(s, k, c);
    forall id | Scheduled(r, id)
      ensures Scheduled(s, id)
    {
      var l :| 0 <= l < |r.cleanups| && r.cleanups[l].Delayed? && id in r.cleanups[l].ids;
      assert s.cleanups[l] == r.cleanups[l];
    }
    FrameKeepsTrace(s, [], r);
  }

  lemma IncomingKeepsTrace(s: State, i: IncomingEvent)
    requires TraceOk(s) && IncomingEnabled(s, i) && s.boot.Running?
    ensures TraceOk(IncomingStep(s, i))
  {
    hide IncomingStep;
    var r := IncomingStep(s, i);
    IncomingFrames(s, i);
    if r.out == s.out {
      FrameKeepsTrace(s, [], r);
    } else {
      var x: Message :| !x.SetNewPrevHash? && r.out == s.out + [x];
      FrameKeepsTrace(s, [x], r);
    }
  }

  lemma MonitorKeepsTrace(s: State, m: nat, e: MonitorEvent)
    requires TraceOk(s) && IdsOk(s) && MonitorEnabled(s, m, e)
    ensures TraceOk(MonitorStep(s, m, e))
  {
    hide OnFetched, FeeChange, Announced, Tips;
    match e
    case Fetched(hash, sleep, announce, requestOk) => OnFetchedKeepsTrace(s, m, hash, sleep, announce, requestOk);
    case Awake(announce, requestOk) => FeeChangeKeepsTrace(s, m, s.monitors[m].template, announce, requestOk);
    case _ => FrameKeepsTrace(s, [], MonitorStep(s, m, e));
  }

  /** Every segment keeps the discipline of the sent messages. */
  lemma StepKeepsTrace(s: State, e: Event)
    requires TraceOk(s) && IdsOk(s) && Enabled(s, e)
    ensures TraceOk(Step(s, e))
  {
    hide MonitorStep, IncomingStep, CleanupStep;
    match e
    case OfBoot(FirstFetched(hash, announce)) => BootKeepsTrace(s, hash, announce);
    case OfBoot(_) => FrameKeepsTrace(s, [], Step(s, e));
    case OfMonitor(m, me) => MonitorKeepsTrace(s, m, me);
    case OfIncoming(i) => IncomingKeepsTrace(s, i);
    case OfCleanup(k, c) => CleanupKeepsTrace(s, k, c);
    case Cancel => FrameKeepsTrace(s, [], Step(s, e));
  }

  // --------------------------------------------------------- waitNext counter

  function InFlight(ms: seq<Monitor>): nat {
    if ms == [] then 0 else InFlight(ms[..|ms| - 1]) + if ms[|ms| - 1].Waiting? then 1 else 0
  }

  function One(m: Monitor): nat {
    if m.Waiting? then 1 else 0
  }

  lemma {:induction false} InFlightUpdate(ms: seq<Monitor>, m: nat, x: Monitor)
    requires m < |ms|
    ensures InFlight(ms[m := x]) + One(ms[m]) == InFlight(ms) + One(x)
  {
    var n := |ms| - 1;
    if m == n {
      assert ms[m := x][..n] == ms[..n];
    } else {
      InFlightUpdate(ms[..n], m, x);
      assert ms[m := x][..n] == ms[..n][m := x];
    }
  }

  lemma InFlightSpawn(ms: seq<Monitor>, x: Monitor)
    ensures InFlight(ms + [x]) == InFlight(ms) + One(x)
  {
    assert (ms + [x])[..|ms|] == ms;
  }

  /** The AtomicU8 holds the requests in flight plus those that failed. */
  ghost predicate RequestsOk(s: State) {
    s.requests == (InFlight(s.monitors) + s.failed) % REQUEST_SPACE
  }

  lemma CountUp(n: nat)
    ensures (n % REQUEST_SPACE + 1) % REQUEST_SPACE == (n + 1) % REQUEST_SPACE
  {
  }

  lemma CountDown(n: nat)
    requires n > 0
    ensures (n % REQUEST_SPACE + REQUEST_SPACE - 1) % REQUEST_SPACE == (n - 1) % REQUEST_SPACE
  {
  }

  /** The counter without the contribution of monitor m. */
  ghost predicate RequestsBut(s: State, m: nat)
    requires m < |s.monitors|
  {
    RequestsOk(s.(monitors := s.monitors[m := Exited]))
  }

  lemma StartWaitKeepsRequests(s: State, m: nat, requestOk: bool)
    requires m < |s.monitors| && RequestsBut(s, m)
    ensures RequestsOk(StartWait(s, m, requestOk))
  {
    var ms := s.monitors[m := Exited];
    var x := Waiting(s.epochs);
    InFlightUpdate(ms, m, x);
    assert ms[m := x] == s.monitors[m := x];
    CountUp(InFlight(ms) + s.failed);
  }

  lemma OnAnswerKeepsRequests(s: State, m: nat, response: Response, requestOk: bool)
    requires m < |s.monitors| && !response.Failed? && RequestsBut(s, m)
    ensures RequestsOk(OnAnswer(s, m, response, requestOk))
  {
    match response
    case Malformed =>
    case TimedOut => StartWaitKeepsRequests(s, m, requestOk);
    case Fresh(c) =>
      InFlightUpdate(s.monitors, m, Fetching(s.issued % ID_SPACE, c));
      InFlightUpdate(s.monitors, m, Exited);
  }

  lemma OnResponseKeepsRequests(s: State, m: nat, response: Response, requestOk: bool)
    requires m < |s.monitors| && s.monitors[m].Waiting? && RequestsOk(s)
    ensures RequestsOk(OnResponse(s, m, response, requestOk))
  {
    hide OnAnswer;
    InFlightUpdate(s.monitors, m, Exited);
    if !response.Failed? {
      CountDown(InFlight(s.monitors) + s.failed);
      OnAnswerKeepsRequests(s.(requests := (s.requests + REQUEST_SPACE - 1) % REQUEST_SPACE), m, response, requestOk);
    }
  }

  lemma OnFetchedKeepsRequests(s: State, m: nat, hash: Option<Hash>, sleep: bool, announce: Announce, requestOk: bool)
    requires m < |s.monitors| && s.monitors[m].Fetching? && RequestsBut(s, m)
    ensures RequestsOk(OnFetched(s, m, hash, sleep, announce, requestOk))
  {
    hide TipChange, FeeChange;
    if hash.Some? && s.prev.Some? {
      var t := Template(s.monitors[m].id, hash.value, s.monitors[m].client);
      if t.prevHash != s.prev.value {
        TipChangeKeepsRequests(s, m, t, announce, requestOk);
      } else if sleep {
        InFlightUpdate(s.monitors, m, Sleeping(t));
        InFlightUpdate(s.monitors, m, Exited);
      } else {
        FeeChangeKeepsRequests(s, m, t, announce, requestOk);
      }
    }
  }

  lemma TipChangeKeepsRequests(s: State, m: nat, t: Template, announce: Announce, requestOk: bool)
    requires m < |s.monitors| && RequestsBut(s, m)
    ensures RequestsOk(TipChange(s, m, t, announce, requestOk))
  {
    if announce.Sent? {
      var s1 := Store(s.(prev := Some(t.prevHash), cleanups := s.cleanups + [Delayed(s.data.Keys)]), t);
      StartWaitKeepsRequests(
        s1.(tip := AfterAnnouncement(s.tip), out := s.out + [NewTemplate(t.id, true), SetNewPrevHash(t.id, t.prevHash)]), m, requestOk);
    }
  }

  lemma FeeChangeKeepsRequests(s: State, m: nat, t: Template, announce: Announce, requestOk: bool)
    requires m < |s.monitors| && RequestsBut(s, m)
    ensures RequestsOk(FeeChange(s, m, t, announce, requestOk))
  {
    if announce.Sent? {
      StartWaitKeepsRequests(Store(s.(out := s.out + [NewTemplate(t.id, false)]), t), m, requestOk);
    }
  }

  lemma MonitorKeepsRequests(s: State, m: nat, e: MonitorEvent)
    requires RequestsOk(s) && MonitorEnabled(s, m, e)
    ensures RequestsOk(MonitorStep(s, m, e))
  {
    hide OnResponse, OnFetched, FeeChange;
    InFlightUpdate(s.monitors, m, Exited);
    match e
    case Thread(ok, requestOk) => StartWaitKeepsRequests(s, m, requestOk);
    case Respond(response, requestOk) => OnResponseKeepsRequests(s, m, response, requestOk);
    case Fetched(h, sleep, announce, requestOk) => OnFetchedKeepsRequests(s, m, h, sleep, announce, requestOk);
    case Awake(announce, requestOk) => FeeChangeKeepsRequests(s, m, s.monitors[m].template, announce, requestOk);
  }

  lemma BootKeepsRequests(s: State, b: BootEvent)
    requires RequestsOk(s) && BootEnabled(s, b)
    ensures RequestsOk(BootStep(s, b))
  {
    hide InFlight;
    InFlightSpawn(s.monitors, AwaitThread);
  }

  lemma CleanupKeepsRequests(s: State, k: nat, c: CleanupEvent)
    requires RequestsOk(s) && CleanupEnabled(s, k, c)
    ensures RequestsOk(CleanupStep(s, k, c))
  {
  }

  lemma StepKeepsRequests(s: State, e: Event)
    requires RequestsOk(s) && Enabled(s, e)
    ensures RequestsOk(Step(s, e))
  {
    hide MonitorStep, IncomingStep, BootStep, CleanupStep;
    match e
    case OfMonitor(m, me) => MonitorKeepsRequests(s, m, me);
    case OfIncoming(i) =>
      IncomingFrames(s, i);
      InFlightSpawn(s.monitors, AwaitThread);
    case OfBoot(b) => BootKeepsRequests(s, b);
    case OfCleanup(k, c) => CleanupKeepsRequests(s, k, c);
    case Cancel =>
  }
}
