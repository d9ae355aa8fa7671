/** Theorems over whole runs of the template provider, and the runs that show
    where a stronger statement would be false. */
module TemplateProviderRuns {
  import opened Common
  import opened TemplateProvider
  import opened TemplateProviderSafety

  ghost predicate Inv(s: State) {
    s.issued <= ID_SPACE ==> IdsOk(s) && ClientsOk(s) && TraceOk(s)
  }

  lemma IssuedGrows(s: State, e: Event)
    requires Enabled(s, e)
    ensures s.issued <= Step(s, e).issued
  {
    hide OnResponse, TipChange, FeeChange;
    match e
    case OfMonitor(m, Thread(_, _)) =>
    case OfMonitor(m, Respond(response, requestOk)) => OnResponseLetsGo(s, m, response, requestOk);
    case OfMonitor(m, Fetched(hash, sleep, announce, requestOk)) =>
      if hash.Some? {
        var t := Template(s.monitors[m].id, hash.value, s.monitors[m].client);
        TipChangeReleases(s, m, t, announce, requestOk);
        FeeChangeReleases(s, m, t, announce, requestOk);
      }
    case OfMonitor(m, Awake(announce, requestOk)) =>
      FeeChangeReleases(s, m, s.monitors[m].template, announce, requestOk);
    case OfBoot(_) =>
    case OfIncoming(_) =>
    case OfCleanup(_, _) =>
    case Cancel =>
  }

  lemma StepKeepsInv(s: State, e: Event)
    requires Inv(s) && Enabled(s, e)
    ensures Inv(Step(s, e))
  {
    IssuedGrows(s, e);
    if Step(s, e).issued <= ID_SPACE {
      assert e.OfBoot? ==> s.monitors == [] by {
        assert e.OfBoot? ==> !s.boot.Running?;
      }
      StepKeepsIds(s, e);
      StepKeepsClients(s, e);
      StepKeepsTrace(s, e);
    }
  }

  lemma {:induction false} RunKeepsInv(es: seq<Event>)
    requires ValidRun(es)
    ensures Inv(Exec(es))
  {
    if es != [] {
      var n := |es| - 1;
      RunKeepsInv(es[..n]);
      StepKeepsInv(Exec(es[..n]), es[n]);
    }
  }

  // ------------------------------------------- one monitor: every template fresh

  /** Runs in which no constraints change reaches Bitcoin Core after the first. */
  ghost predicate SingleMonitor(es: seq<Event>) {
    forall e <- es :: !(e.OfIncoming? && e.i.ClientCreated? && e.i.created.Some?)
  }

  /** No template outside the scheduled stale sets has an outdated previous hash. */
  ghost predicate AllFresh(s: State) {
    forall id <- s.data :: Scheduled(s, id) || Some(s.data[id].prevHash) == s.prev
  }

  ghost predicate Retired(s: State, id: nat) {
    || Scheduled(s, id)
    || (exists k :: 0 <= k < |s.cleanups| && id in CleanupIds(s.cleanups[k]))
    || id in s.destroyed
  }

  ghost predicate SoloOk(s: State) {
    && |s.monitors| <= 1
    && (!s.boot.Running? ==> s.monitors == [] && s.data == map[] && s.cleanups == [] && s.destroyed == [])
    && AllFresh(s)
    && (s.monitors != [] && s.monitors[0].Sleeping? ==> Some(s.monitors[0].template.prevHash) == s.prev)
    && (s.monitors != [] && PendingId(s.monitors[0]).Some? ==> PendingId(s.monitors[0]).value == s.issued - 1)
    && (s.issued > 0 ==> |s.bound| == s.issued && s.client == Some(s.bound[s.issued - 1]) && !Retired(s, s.issued - 1))
  }

  lemma NewIdNotRetired(s: State, id: nat)
    requires IdsOk(s) && id !in s.inserted
    ensures !Retired(s, id)
  {
  }

  lemma TipChangeKeepsSolo(s: State, t: Template, announce: Announce, requestOk: bool)
    requires SoloOk(s) && IdsOk(s) && |s.monitors| == 1 && PendingId(s.monitors[0]) == Some(t.id)
    ensures SoloOk(TipChange(s, 0, t, announce, requestOk))
  {
    var r := TipChange(s, 0, t, announce, requestOk);
    assert t.id == s.issued - 1 && t.id !in s.data;
    assert r.cleanups == s.cleanups + [Delayed(s.data.Keys)] && r.data == s.data[t.id := t] && r.destroyed == s.destroyed;
    assert r.cleanups[|s.cleanups|] == Delayed(s.data.Keys);
    forall id <- r.data
      ensures Scheduled(r, id) || Some(r.data[id].prevHash) == r.prev
    {
      if id != t.id {
        assert id in r.cleanups[|s.cleanups|].ids;
      }
    }
    NewIdNotRetired(s, t.id);
    forall k | 0 <= k < |r.cleanups|
      ensures t.id !in CleanupIds(r.cleanups[k]) && (r.cleanups[k].Delayed? ==> t.id !in r.cleanups[k].ids)
    {
      if k < |s.cleanups| {
        assert r.cleanups[k] == s.cleanups[k];
      }
    }
    assert !Retired(r, t.id);
  }

  lemma FeeChangeKeepsSolo(s: State, t: Template, announce: Announce, requestOk: bool)
    requires SoloOk(s) && s.boot.Running? && |s.monitors| == 1 && Some(t.prevHash) == s.prev
    ensures SoloOk(FeeChange(s, 0, t, announce, requestOk))
  {
    var r := FeeChange(s, 0, t, announce, requestOk);
    assert r.cleanups == s.cleanups && r.destroyed == s.destroyed;
    assert forall id :: Scheduled(s, id) == Scheduled(r, id);
    assert forall id :: Retired(s, id) == Retired(r, id);
  }

  lemma OnFetchedKeepsSolo(s: State, hash: Option<Hash>, sleep: bool, announce: Announce, requestOk: bool)
    requires SoloOk(s) && IdsOk(s) && |s.monitors| == 1 && s.monitors[0].Fetching?
    ensures SoloOk(OnFetched(s, 0, hash, sleep, announce, requestOk))
  {
    if hash.None? || s.prev.None? {
      SameKeepsSolo(s, FailMonitor(s, 0));
    } else {
      var t := Template(s.monitors[0].id, hash.value, s.monitors[0].client);
      if t.prevHash != s.prev.value {
        TipChangeKeepsSolo(s, t, announce, requestOk);
      } else if sleep {
        SameKeepsSolo(s, s.(monitors := s.monitors[0 := Sleeping(t)]));
      } else {
        FeeChangeKeepsSolo(s, t, announce, requestOk);
      }
    }
  }

  /** Segments that touch neither templates nor clients. */
  lemma SameKeepsSolo(s: State, r: State)
    requires SoloOk(s) && s.boot.Running? && r.boot.Running? && |r.monitors| <= 1 && r.data == s.data && r.prev == s.prev && r.cleanups == s.cleanups
    requires r.destroyed == s.destroyed && r.issued == s.issued && r.bound == s.bound && r.client == s.client
    requires r.monitors != [] && PendingId(r.monitors[0]).Some? ==>
               s.monitors != [] && PendingId(r.monitors[0]) == PendingId(s.monitors[0])
    requires r.monitors != [] && r.monitors[0].Sleeping? ==> Some(r.monitors[0].template.prevHash) == r.prev
    ensures SoloOk(r)
  {
    assert forall id :: Scheduled(s, id) == Scheduled(r, id);
    assert forall id :: Retired(s, id) == Retired(r, id);
  }

  lemma StartFetchKeepsSolo(s: State, c: ClientId)
    requires SoloOk(s) && IdsOk(s) && ClientsOk(s) && |s.monitors| == 1 && s.issued < ID_SPACE
    ensures SoloOk(StartFetch(s, 0, c))
  {
    var r := StartFetch(s, 0, c);
    assert r.cleanups == s.cleanups && r.destroyed == s.destroyed;
    assert forall id :: Scheduled(s, id) == Scheduled(r, id);
    assert forall id :: Retired(s, id) == Retired(r, id);
    NewIdNotRetired(s, s.issued);
  }

  lemma OnResponseKeepsSolo(s: State, response: Response, requestOk: bool)
    requires SoloOk(s) && IdsOk(s) && ClientsOk(s) && |s.monitors| == 1 && s.monitors[0].Waiting?
    requires OnResponse(s, 0, response, requestOk).issued <= ID_SPACE
    ensures SoloOk(OnResponse(s, 0, response, requestOk))
  {
    hide OnResponse;
    var r := OnResponse(s, 0, response, requestOk);
    OnResponseLetsGo(s, 0, response, requestOk);
    if r.issued == s.issued {
      OnResponseSame(s, response, requestOk);
      SameKeepsSolo(s, r);
    } else {
      StartFetchKeepsSolo(s.(requests := r.requests), response.client);
    }
  }

  lemma OnResponseSame(s: State, response: Response, requestOk: bool)
    requires |s.monitors| == 1 && s.monitors[0].Waiting?
    ensures
      var r := OnResponse(s, 0, response, requestOk);
      r.prev == s.prev && (r.issued == s.issued ==> r.client == s.client)
  {
  }

  lemma CleanupKeepsFresh(s: State, k: nat, c: CleanupEvent)
    requires AllFresh(s) && CleanupEnabled(s, k, c)
    ensures AllFresh(CleanupStep(s, k, c))
  {
    var r := CleanupStep(s, k, c);
    forall id <- r.data
      ensures Scheduled(r, id) || Some(r.data[id].prevHash) == r.prev
    {
      assert id in s.data;
      if Scheduled(s, id) {
        var l :| 0 <= l < |s.cleanups| && s.cleanups[l].Delayed? && id in s.cleanups[l].ids;
        assert l != k;
        assert r.cleanups[l] == s.cleanups[l];
      }
    }
  }

  lemma CleanupRetires(s: State, k: nat, c: CleanupEvent, id: nat)
    requires CleanupEnabled(s, k, c) && Retired(CleanupStep(s, k, c), id)
    ensures Retired(s, id)
  {
    var r := CleanupStep(s, k, c);
    if Scheduled(r, id) {
      var l :| 0 <= l < |r.cleanups| && r.cleanups[l].Delayed? && id in r.cleanups[l].ids;
      assert s.cleanups[l] == r.cleanups[l];
    } else if l :| 0 <= l < |r.cleanups| && id in CleanupIds(r.cleanups[l]) {
      assert l != k ==> s.cleanups[l] == r.cleanups[l];
      assert l == k && c.Remove? ==> Scheduled(s, id);
      assert l == k && !c.Remove? ==> id in CleanupIds(s.cleanups[k]);
    } else {
      assert id in s.destroyed || id in CleanupIds(s.cleanups[k]);
    }
  }

  lemma CleanupKeepsSolo(s: State, k: nat, c: CleanupEvent)
    requires SoloOk(s) && CleanupEnabled(s, k, c)
    ensures SoloOk(CleanupStep(s, k, c))
  {
    CleanupKeepsFresh(s, k, c);
    if s.issued > 0 && Retired(CleanupStep(s, k, c), s.issued - 1) {
      CleanupRetires(s, k, c, s.issued - 1);
    }
  }

  /** Before the first cleanup nothing is retired. */
  lemma NothingRetired(s: State)
    requires s.cleanups == [] && s.destroyed == []
    ensures forall id :: !Retired(s, id)
  {
  }

  lemma BootClientKeepsSolo(s: State, created: Option<ClientId>)
    requires SoloOk(s) && |s.bound| == s.issued && !s.boot.Running?
    ensures SoloOk(OnBootClient(s, created))
  {
    var r := OnBootClient(s, created);
    NothingRetired(s);
    NothingRetired(r);
  }

  lemma BootFetchedKeepsSolo(s: State, hash: Option<Hash>, announce: Announce)
    requires SoloOk(s) && s.boot.AwaitTemplate?
    ensures SoloOk(OnBootFetched(s, hash, announce))
  {
    var r := OnBootFetched(s, hash, announce);
    NothingRetired(r);
    assert r.monitors == [] || r.monitors == [AwaitThread];
    assert forall id <- r.data :: Some(r.data[id].prevHash) == r.prev;
  }

  lemma BootKeepsSolo(s: State, b: BootEvent)
    requires SoloOk(s) && |s.bound| == s.issued && BootEnabled(s, b)
    ensures SoloOk(BootStep(s, b))
  {
    match b
    case FirstConstraints =>
      NothingRetired(s);
      NothingRetired(BootStep(s, b));
    case FirstClient(created) => BootClientKeepsSolo(s, created);
    case FirstFetched(hash, announce) => BootFetchedKeepsSolo(s, hash, announce);
  }

  lemma IncomingKeepsSolo(s: State, i: IncomingEvent)
    requires SoloOk(s) && IncomingEnabled(s, i) && s.boot.Running? && !(i.ClientCreated? && i.created.Some?)
    ensures SoloOk(IncomingStep(s, i))
  {
    hide IncomingStep;
    IncomingFrames(s, i);
    SameKeepsSolo(s, IncomingStep(s, i));
  }

  lemma MonitorKeepsSolo(s: State, m: nat, e: MonitorEvent)
    requires SoloOk(s) && IdsOk(s) && ClientsOk(s) && MonitorEnabled(s, m, e) && MonitorStep(s, m, e).issued <= ID_SPACE
    ensures SoloOk(MonitorStep(s, m, e))
  {
    hide OnResponse, OnFetched, FeeChange;
    assert m == 0;
    match e
    case Thread(ok, requestOk) => SameKeepsSolo(s, if ok then StartWait(s, m, requestOk) else FailMonitor(s, m));
    case Respond(response, requestOk) => OnResponseKeepsSolo(s, response, requestOk);
    case Fetched(h, sleep, announce, requestOk) => OnFetchedKeepsSolo(s, h, sleep, announce, requestOk);
    case Awake(announce, requestOk) => FeeChangeKeepsSolo(s, s.monitors[0].template, announce, requestOk);
  }

  lemma CancelKeepsSolo(s: State)
    requires SoloOk(s)
    ensures SoloOk(s.(cancelled := true))
  {
    assert forall id :: Scheduled(s, id) == Scheduled(s.(cancelled := true), id);
    assert forall id :: Retired(s, id) == Retired(s.(cancelled := true), id);
  }

  lemma StepKeepsSolo(s: State, e: Event)
    requires SoloOk(s) && IdsOk(s) && ClientsOk(s) && Enabled(s, e) && SingleMonitor([e])
    requires Step(s, e).issued <= ID_SPACE
    ensures SoloOk(Step(s, e))
  {
    hide SoloOk, BootStep, MonitorStep, CleanupStep;
    match e
    case OfBoot(b) => BootKeepsSolo(s, b);
    case OfMonitor(m, me) => MonitorKeepsSolo(s, m, me);
    case OfIncoming(i) =>
      assert e in [e];
      IncomingKeepsSolo(s, i);
    case OfCleanup(k, c) => CleanupKeepsSolo(s, k, c);
    case Cancel => CancelKeepsSolo(s);
  }

  lemma {:induction false} SingleMonitorRun(es: seq<Event>)
    requires ValidRun(es) && SingleMonitor(es) && Exec(es).issued <= ID_SPACE
    ensures SoloOk(Exec(es))
  {
    if es != [] {
      var n := |es| - 1;
      var s := Exec(es[..n]);
      IssuedGrows(s, es[n]);
      assert SingleMonitor(es[..n]);
      SingleMonitorRun(es[..n]);
      RunKeepsInv(es[..n]);
      assert es[n] in es;
      StepKeepsSolo(s, es[n]);
    }
  }

  // ------------------------------------------------------------ main theorems

  /** Reachable without the id factory having wrapped. */
  ghost predicate Live(s: State) {
    Reachable(s) && s.issued <= ID_SPACE
  }

  lemma LiveOk(s: State)
    requires Live(s)
    ensures IdsOk(s) && ClientsOk(s) && TraceOk(s)
  {
    var es :| ValidRun(es) && Exec(es) == s;
    RunKeepsInv(es);
  }

  /** In every run, for any interleaving of monitors: a SetNewPrevHash directly
      follows its future NewTemplate; until a recorded tip cannot be announced,
      consecutive SetNewPrevHash differ; whenever the latest tip change was
      announced, the last SetNewPrevHash is the recorded tip. Such a loss cancels
      the provider. */
  lemma TipsAnnouncedInOrder(s: State)
    requires Live(s)
    ensures Announced(s.out)
    ensures !Lost(s) ==> Alternating(Tips(s.out))
    ensures !s.tip.Unannounced? && s.boot.Running? ==>
              Tips(s.out) != [] && s.prev == Some(Tips(s.out)[|Tips(s.out)| - 1].prevHash)
    ensures !s.cancelled ==> !Lost(s)
  {
    hide IdsOk, ClientsOk;
    LiveOk(s);
  }

  /** With any number of overlapping cleanups, stale ids are not stored, and a
      template's client is destroyed at most once and only after its removal. */
  lemma CleanupIsExclusive(s: State)
    requires Live(s)
    ensures s.stale !! s.data.Keys
    ensures Distinct(s.destroyed)
    ensures forall id <- s.destroyed :: id in s.inserted && id !in s.data
    ensures forall a, b :: 0 <= a < b < |s.destroyed| ==>
              s.inserted[s.destroyed[a]].client != s.inserted[s.destroyed[b]].client
  {
    LiveOk(s);
    forall a, b | 0 <= a < b < |s.destroyed|
      ensures s.inserted[s.destroyed[a]].client != s.inserted[s.destroyed[b]].client
    {
      var i, j := s.destroyed[a], s.destroyed[b];
      assert i != j && Holds(s, i, s.inserted[i].client) && Holds(s, j, s.inserted[j].client);
    }
  }

  /** What is stored stays stored as it was; what becomes stored is new. */
  ghost predicate StoresNew(s: State, r: State) {
    && (forall id <- s.inserted :: id in r.inserted && r.inserted[id] == s.inserted[id])
    && (forall id <- r.data :: id in s.data || id !in s.inserted)
  }

  /** No segment of a run stores a template under an id that was stored before. */
  lemma StoredOnce(s: State, e: Event)
    requires Live(s) && Enabled(s, e)
    ensures StoresNew(s, Step(s, e))
  {
    LiveOk(s);
    StoreIsNew(s, e);
  }

  lemma StoreIsNew(s: State, e: Event)
    requires IdsOk(s) && Enabled(s, e)
    ensures StoresNew(s, Step(s, e))
  {
    hide MonitorStep, IncomingStep;
    match e
    case OfMonitor(m, me) => MonitorStoreIsNew(s, m, me);
    case OfBoot(_) =>
    case OfIncoming(i) => IncomingFrames(s, i);
    case OfCleanup(_, _) =>
    case Cancel =>
  }

  lemma MonitorStoreIsNew(s: State, m: nat, e: MonitorEvent)
    requires IdsOk(s) && MonitorEnabled(s, m, e)
    ensures StoresNew(s, MonitorStep(s, m, e))
  {
    hide OnResponse, OnFetched, FeeChange;
    match e
    case Thread(_, _) =>
    case Respond(response, requestOk) => OnResponseLetsGo(s, m, response, requestOk);
    case Fetched(hash, sleep, announce, requestOk) => FetchedIsNew(s, m, hash, sleep, announce, requestOk);
    case Awake(announce, requestOk) =>
      assert PendingId(s.monitors[m]) == Some(s.monitors[m].template.id);
      FeeChangeReleases(s, m, s.monitors[m].template, announce, requestOk);
  }

  lemma FetchedIsNew(s: State, m: nat, hash: Option<Hash>, sleep: bool, announce: Announce, requestOk: bool)
    requires IdsOk(s) && m < |s.monitors| && s.monitors[m].Fetching?
    ensures StoresNew(s, OnFetched(s, m, hash, sleep, announce, requestOk))
  {
    hide TipChange, FeeChange;
    assert PendingId(s.monitors[m]) == Some(s.monitors[m].id);
    if hash.Some? {
      var t := Template(s.monitors[m].id, hash.value, s.monitors[m].client);
      TipChangeReleases(s, m, t, announce, requestOk);
      FeeChangeReleases(s, m, t, announce, requestOk);
    }
  }

  /** Once a cleanup has run, requests for its templates are answered stale and
      those for templates it does not name are served as before; templates of
      earlier cleanups are no longer known. */
  lemma CleanupAnswers(s: State, k: nat, id: nat)
    requires Live(s) && CleanupEnabled(s, k, Remove)
    ensures
      var r := Step(s, OfCleanup(k, Remove));
      && (id in s.cleanups[k].ids ==> Lookup(r, id) == Some(TxDataStale(id)) && !SolutionAccepted(r, id))
      && (id in s.data && id !in s.cleanups[k].ids ==> Lookup(r, id).None? && SolutionAccepted(r, id))
      && (id in s.stale && id !in s.cleanups[k].ids ==> Lookup(r, id) == Some(TxDataNotFound(id)))
  {
    hide ClientsOk, TraceOk;
    LiveOk(s);
  }

  /** Without a later constraints change every template outside the scheduled
      stale sets extends the current tip, and the client that waitNext uses is
      not one whose destruction was requested. */
  lemma SingleMonitorStaysFresh(es: seq<Event>)
    requires ValidRun(es) && SingleMonitor(es) && Exec(es).issued <= ID_SPACE
    ensures AllFresh(Exec(es))
    ensures !CurrentClientDestroyed(Exec(es))
  {
    SingleMonitorRun(es);
    RunKeepsInv(es);
    CurrentClientAlive(Exec(es));
  }

  ghost predicate CurrentClientDestroyed(s: State) {
    exists id :: id in s.destroyed && id in s.inserted && s.client == Some(s.inserted[id].client)
  }

  lemma CurrentClientAlive(s: State)
    requires SoloOk(s) && CleanupOk(s) && ClientsOk(s)
    ensures !CurrentClientDestroyed(s)
  {
    forall id <- s.destroyed
      ensures id in s.inserted && s.client != Some(s.inserted[id].client)
    {
      assert Holds(s, id, s.inserted[id].client);
      assert s.issued > 0 && !Retired(s, s.issued - 1);
      assert id != s.issued - 1;
    }
  }

  // --------------------------------------------------------- waitNext requests

  /** The 8-bit counter holds the requests in flight plus the failed ones. */
  lemma {:induction false} RequestsAreCounted(es: seq<Event>)
    requires ValidRun(es)
    ensures RequestsOk(Exec(es))
    ensures Exec(es).requests == (InFlight(Exec(es).monitors) + Exec(es).failed) % 256
  {
    hide Step, Enabled;
    if es != [] {
      var n := |es| - 1;
      var s := Exec(es[..n]);
      RequestsAreCounted(es[..n]);
      StepKeepsRequests(s, es[n]);
      assert Exec(es) == Step(s, es[n]);
    }
  }

  /** An answer to a request of another epoch, fewer than 2^32 constraint
      changes away, only ends its monitor. */
  lemma OldEpochIsIgnored(s: State, m: nat, response: Response, requestOk: bool)
    requires m < |s.monitors| && s.monitors[m].Waiting? && !response.Failed?
    requires s.monitors[m].epoch < s.epochs < s.monitors[m].epoch + EPOCH_SPACE
    ensures OnResponse(s, m, response, requestOk)
         == s.(requests := (s.requests + REQUEST_SPACE - 1) % REQUEST_SPACE, monitors := s.monitors[m := Exited])
  {
  }

  /** The shutdown loop of `run`: `counter(k)` and `elapsed(k)` are what it reads
      after its k-th one-second sleep, in the state `states(k)` of the run. A clean
      exit is reported exactly when nothing is in flight and nothing has failed,
      unless 256 requests are outstanding. */
  method AwaitRequests(counter: nat -> nat, elapsed: nat -> nat, ghost states: nat -> State)
    returns (iterations: nat, clean: bool)
    requires forall k: nat :: elapsed(k) > k
    requires forall k: nat :: Reachable(states(k)) && counter(k) == states(k).requests
    ensures 1 <= iterations <= 51
    ensures clean <==> counter(iterations - 1) == 0
    ensures InFlight(states(iterations - 1).monitors) + states(iterations - 1).failed < REQUEST_SPACE ==>
      (clean <==> InFlight(states(iterations - 1).monitors) == 0 && states(iterations - 1).failed == 0)
    ensures !clean ==> elapsed(iterations - 1) > 50
    ensures forall k: nat :: k < iterations - 1 ==> counter(k) != 0 && elapsed(k) <= 50
  {
    iterations := 0;
    while true
      invariant iterations <= 50
      invariant forall k: nat :: k < iterations ==> counter(k) != 0 && elapsed(k) <= 50
      decreases 51 - iterations
    {
      var counterValue := counter(iterations);
      var seconds := elapsed(iterations);
      iterations := iterations + 1;
      if counterValue == 0 || seconds > 50 {
        clean := counterValue == 0;
        ReachableRequests(states(iterations - 1));
        return;
      }
    }
  }

  /** What a clean exit means: below 256 outstanding requests the counter is zero
      exactly when none is in flight and none has ever failed. */
  lemma CleanExitIff(s: State)
    requires Reachable(s) && InFlight(s.monitors) + s.failed < REQUEST_SPACE
    ensures s.requests == 0 <==> InFlight(s.monitors) == 0 && s.failed == 0
  {
    ReachableRequests(s);
  }

  lemma ReachableRequests(s: State)
    requires Reachable(s)
    ensures RequestsOk(s)
  {
    var es :| ValidRun(es) && Exec(es) == s;
    RequestsAreCounted(es);
  }
}
