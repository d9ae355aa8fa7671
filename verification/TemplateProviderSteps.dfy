/** What a segment does, observable by observable: when it cancels the provider,
    where its monitor goes, what it sends, stores, records, counts and schedules.
    Each statement is over every event that can happen in any state. */
module TemplateProviderSteps {
  import opened Common
  import opened TemplateProvider
  import opened TemplateProviderSafety
  import opened TemplateProviderRuns
  import opened TemplateProviderExact

  // -------------------------------------------------------------- cancellation

  /** The monitor's answer comes from its own constraints epoch, uncancelled. */
  ghost predicate Current(s: State, m: nat) {
    && m < |s.monitors| && s.monitors[m].Waiting? && !s.cancelled
    && s.epochs % 0x1_0000_0000 == s.monitors[m].epoch % 0x1_0000_0000
  }

  /** The next waitNext request can be built. */
  ghost predicate CanAsk(s: State, requestOk: bool) {
    s.client.Some? && requestOk
  }

  /** The segment meets an error that ends the provider. */
  ghost predicate Fails(s: State, e: Event) {
    match e
    case Cancel => false
    case OfBoot(FirstConstraints) => false
    case OfBoot(FirstClient(created)) => created.None?
    case OfBoot(FirstFetched(hash, announce)) => hash.None? || !announce.Sent?
    case OfMonitor(m, Thread(ok, requestOk)) => !ok || !CanAsk(s, requestOk)
    case OfMonitor(m, Respond(response, requestOk)) =>
      || response.Failed?
      || (Current(s, m) && (response.Malformed? || (response.TimedOut? && !CanAsk(s, requestOk))))
    case OfMonitor(m, Fetched(hash, sleep, announce, requestOk)) =>
      || hash.None? || s.prev.None?
      || ((hash != s.prev || !sleep) && (!announce.Sent? || !CanAsk(s, requestOk)))
    case OfMonitor(m, Awake(announce, requestOk)) => !announce.Sent? || !CanAsk(s, requestOk)
    case OfIncoming(Receive(request, sendOk)) => request.TxData? && !sendOk && (request.id in s.stale || request.id !in s.data)
    case OfIncoming(ClientCreated(created)) => created.None?
    case OfIncoming(TxsFetched(ok)) => !ok
    case OfIncoming(Stop) => false
    case OfCleanup(_, Remove) => false
    case OfCleanup(_, ThreadCreated(ok)) => !ok
    case OfCleanup(_, Destroy(_, ok)) => !ok
  }

  lemma MonitorCancelsIff(s: State, m: nat, e: MonitorEvent)
    requires MonitorEnabled(s, m, e)
    ensures MonitorStep(s, m, e).cancelled <==> s.cancelled || Fails(s, OfMonitor(m, e))
  {
    match e
    case Thread(_, _) =>
    case Respond(response, requestOk) => RespondCancelsIff(s, m, response, requestOk);
    case Fetched(_, _, _, _) =>
    case Awake(_, _) =>
  }

  lemma RespondCancelsIff(s: State, m: nat, response: Response, requestOk: bool)
    requires MonitorEnabled(s, m, Respond(response, requestOk))
    ensures OnResponse(s, m, response, requestOk).cancelled <==> s.cancelled || Fails(s, OfMonitor(m, Respond(response, requestOk)))
  {
  }

  /** The provider is cancelled from outside or by one of these errors, and by
      nothing else: in particular an ordinary waitNext timeout goes on. */
  lemma CancelsIff(s: State, e: Event)
    requires Enabled(s, e)
    ensures Step(s, e).cancelled <==> s.cancelled || e.Cancel? || Fails(s, e)
  {
    hide MonitorStep;
    match e
    case OfMonitor(m, me) => MonitorCancelsIff(s, m, me);
    case OfBoot(_) =>
    case OfIncoming(_) =>
    case OfCleanup(_, _) =>
    case Cancel =>
  }

  // ------------------------------------------------------------------ monitors

  /** The fetched template extends the recorded tip. */
  ghost predicate FeeChanges(s: State, e: Event) {
    && e.OfMonitor? && e.m < |s.monitors| && s.monitors[e.m].Fetching? && e.me.Fetched? && e.me.hash.Some?
    && e.me.hash == s.prev
  }

  ghost function FetchedTemplate(s: State, e: Event): Template
    requires e.OfMonitor? && e.m < |s.monitors| && s.monitors[e.m].Fetching? && e.me.Fetched? && e.me.hash.Some?
  {
    Template(s.monitors[e.m].id, e.me.hash.value, s.monitors[e.m].client)
  }

  /** Where a monitor is after its segment: it fetches exactly for a fresh answer of
      its epoch, sleeps exactly when told to with a fee change, asks again after a
      start, a timeout and an announced template, and has exited otherwise. */
  lemma MonitorGoes(s: State, m: nat, e: MonitorEvent)
    requires MonitorEnabled(s, m, e)
    ensures
      var r, x := MonitorStep(s, m, e), OfMonitor(m, e);
      && |r.monitors| == |s.monitors| && r.monitors == s.monitors[m := r.monitors[m]]
      && (r.monitors[m].Fetching? <==> e.Respond? && e.response.Fresh? && Current(s, m))
      && (r.monitors[m].Fetching? ==> r.monitors[m] == Fetching(s.issued % 0x1_0000_0000_0000_0000, e.response.client))
      && (r.monitors[m].Sleeping? <==> FeeChanges(s, x) && e.sleep)
      && (r.monitors[m].Sleeping? ==> r.monitors[m].template == FetchedTemplate(s, x))
      && (r.monitors[m].Waiting? <==> !Fails(s, x) && (e.Thread? || e.Awake? || TipChanges(s, x) || (FeeChanges(s, x) && !e.sleep)
                                                       || (e.Respond? && e.response.TimedOut? && Current(s, m))))
      && (r.monitors[m].Waiting? ==> r.monitors[m].epoch == s.epochs)
      && !r.monitors[m].AwaitThread?
  {
    match e
    case Thread(_, _) =>
    case Respond(response, requestOk) => RespondGoes(s, m, response, requestOk);
    case Fetched(hash, sleep, announce, requestOk) => FetchedGoes(s, m, hash, sleep, announce, requestOk);
    case Awake(_, _) =>
  }

  lemma RespondGoes(s: State, m: nat, response: Response, requestOk: bool)
    requires MonitorEnabled(s, m, Respond(response, requestOk))
    ensures
      var r := OnResponse(s, m, response, requestOk);
      r.monitors == s.monitors[m :=
        if !Current(s, m) || response.Failed? || response.Malformed? then Exited
        else if response.Fresh? then Fetching(s.issued % ID_SPACE, response.client)
        else if CanAsk(s, requestOk) then Waiting(s.epochs) else Exited]
  {
  }

  lemma FetchedGoes(s: State, m: nat, hash: Option<Hash>, sleep: bool, announce: Announce, requestOk: bool)
    requires m < |s.monitors| && s.monitors[m].Fetching?
    ensures
      var r := OnFetched(s, m, hash, sleep, announce, requestOk);
      r.monitors == s.monitors[m :=
        if hash.None? || s.prev.None? then Exited
        else if hash == s.prev && sleep then Sleeping(Template(s.monitors[m].id, hash.value, s.monitors[m].client))
        else if announce.Sent? && CanAsk(s, requestOk) then Waiting(s.epochs) else Exited]
  {
  }

  /** A monitor starts exactly with the bootstrap's first announced tip and with
      every later client that a constraints change brings. */
  lemma MonitorsStartIff(s: State, e: Event)
    requires Enabled(s, e) && !e.OfMonitor?
    ensures Step(s, e).monitors
         == s.monitors + if BootAnnounces(e) || (e.OfIncoming? && e.i.ClientCreated? && e.i.created.Some?) then [AwaitThread] else []
  {
  }

  // ------------------------------------------------------------------ messages

  /** What an attempt to announce a tip gets out. */
  ghost function TipMessages(t: Template, announce: Announce): seq<Message> {
    match announce
    case Sent => [NewTemplate(t.id, true), SetNewPrevHash(t.id, t.prevHash)]
    case SecondSendFailed => [NewTemplate(t.id, true)]
    case _ => []
  }

  /** The messages of a segment: the tip, a non-future template, or the answer to a
      request, with the id asked for. */
  ghost function Sends(s: State, e: Event): seq<Message>
    requires Enabled(s, e)
  {
    if TipChanges(s, e) then TipMessages(NewTip(s, e), e.me.announce)
    else if FeeChanges(s, e) then
      if e.me.announce.Sent? && !e.me.sleep then [NewTemplate(s.monitors[e.m].id, false)] else []
    else
      match e
      case OfMonitor(m, Awake(announce, _)) =>
        if announce.Sent? then [NewTemplate(s.monitors[m].template.id, false)] else []
      case OfBoot(FirstFetched(Some(hash), announce)) => TipMessages(Template(s.boot.id, hash, s.boot.client), announce)
      case OfIncoming(Receive(TxData(id), true)) =>
        if id in s.stale then [TxDataStale(id)] else if id !in s.data then [TxDataNotFound(id)] else []
      case OfIncoming(TxsFetched(true)) => [TxDataSuccess(s.incoming.id)]
      case _ => []
  }

  lemma MonitorSends(s: State, m: nat, e: MonitorEvent)
    requires MonitorEnabled(s, m, e)
    ensures MonitorStep(s, m, e).out == s.out + Sends(s, OfMonitor(m, e))
  {
    var x := OfMonitor(m, e);
    assert s.out + [] == s.out;
    match e
    case Thread(_, _) =>
    case Respond(response, requestOk) => RespondSendsNothing(s, m, response, requestOk);
    case Fetched(hash, sleep, announce, requestOk) => FetchedSends(s, m, hash, sleep, announce, requestOk);
    case Awake(_, _) =>
  }

  lemma RespondSendsNothing(s: State, m: nat, response: Response, requestOk: bool)
    requires MonitorEnabled(s, m, Respond(response, requestOk))
    ensures OnResponse(s, m, response, requestOk).out == s.out
  {
  }

  lemma FetchedSends(s: State, m: nat, hash: Option<Hash>, sleep: bool, announce: Announce, requestOk: bool)
    requires m < |s.monitors| && s.monitors[m].Fetching?
    ensures OnFetched(s, m, hash, sleep, announce, requestOk).out
         == s.out + Sends(s, OfMonitor(m, Fetched(hash, sleep, announce, requestOk)))
  {
    assert s.out + [] == s.out;
  }

  /** Every segment sends exactly these messages. */
  lemma SendsExactly(s: State, e: Event)
    requires Enabled(s, e)
    ensures Step(s, e).out == s.out + Sends(s, e)
  {
    hide MonitorStep;
    assert s.out + [] == s.out;
    match e
    case OfMonitor(m, me) => MonitorSends(s, m, me);
    case OfBoot(_) =>
    case OfIncoming(_) =>
    case OfCleanup(_, _) =>
    case Cancel =>
  }

  /** A request for a stored template is answered with success under its own id as
      soon as Bitcoin Core has delivered the transactions, whatever happens to the
      template in between. */
  lemma FoundIsAnswered(s: State, id: nat, sendOk: bool, t: State)
    requires Enabled(s, OfIncoming(Receive(TxData(id), sendOk))) && id in s.data && id !in s.stale
    requires t.incoming == Step(s, OfIncoming(Receive(TxData(id), sendOk))).incoming
    ensures Enabled(t, OfIncoming(TxsFetched(true)))
    ensures
      var r := Step(t, OfIncoming(TxsFetched(true)));
      r.out == t.out + [TxDataSuccess(id)] && r.incoming.Listening?
  {
  }

  // --------------------------------------------------- templates and the tip

  /** The template a segment stores. */
  ghost function Stores(s: State, e: Event): Option<Template>
    requires Enabled(s, e)
  {
    if TipChanges(s, e) then Some(NewTip(s, e))
    else if FeeChanges(s, e) then
      if e.me.announce.Sent? && !e.me.sleep then Some(FetchedTemplate(s, e)) else None
    else
      match e
      case OfMonitor(m, Awake(announce, _)) => if announce.Sent? then Some(s.monitors[m].template) else None
      case OfBoot(FirstFetched(Some(hash), Sent)) => Some(Template(s.boot.id, hash, s.boot.client))
      case _ => None
  }

  ghost function With(data: map<nat, Template>, t: Option<Template>): map<nat, Template> {
    if t.Some? then data[t.value.id := t.value] else data
  }

  lemma FetchedStores(s: State, m: nat, hash: Option<Hash>, sleep: bool, announce: Announce, requestOk: bool)
    requires m < |s.monitors| && s.monitors[m].Fetching?
    ensures
      var r, x := OnFetched(s, m, hash, sleep, announce, requestOk), OfMonitor(m, Fetched(hash, sleep, announce, requestOk));
      && r.data == With(s.data, Stores(s, x)) && r.inserted == With(s.inserted, Stores(s, x)) && r.stale == s.stale
      && r.prev == (if TipChanges(s, x) then hash else s.prev)
      && r.cleanups == s.cleanups + (if TipChanges(s, x) then [Delayed(s.data.Keys)] else [])
  {
    assert s.cleanups + [] == s.cleanups;
    hide TipChange, FeeChange, Quiet;
    if hash.Some? {
      var t := Template(s.monitors[m].id, hash.value, s.monitors[m].client);
      TipChangeFields(s, m, t, announce, requestOk);
      TipChangeIds(s, m, t, announce, requestOk);
      FeeChangeIds(s, m, t, announce, requestOk);
      FeeChangeKeepsPrev(s, m, t, announce, requestOk);
    }
  }

  lemma FeeChangeKeepsPrev(s: State, m: nat, t: Template, announce: Announce, requestOk: bool)
    requires m < |s.monitors|
    ensures FeeChange(s, m, t, announce, requestOk).prev == s.prev
  {
  }

  lemma MonitorStores(s: State, m: nat, e: MonitorEvent)
    requires MonitorEnabled(s, m, e)
    ensures
      var r, x := MonitorStep(s, m, e), OfMonitor(m, e);
      && r.data == With(s.data, Stores(s, x)) && r.inserted == With(s.inserted, Stores(s, x)) && r.stale == s.stale
      && r.prev == (if TipChanges(s, x) then e.hash else s.prev)
      && r.cleanups == s.cleanups + (if TipChanges(s, x) then [Delayed(s.data.Keys)] else [])
  {
    hide OnResponse, OnFetched;
    assert s.cleanups + [] == s.cleanups;
    match e
    case Thread(_, _) =>
    case Respond(response, requestOk) =>
      OnResponseLetsGo(s, m, response, requestOk);
      ResponseIsQuiet(s, m, response, requestOk);
    case Fetched(hash, sleep, announce, requestOk) => FetchedStores(s, m, hash, sleep, announce, requestOk);
    case Awake(_, _) =>
  }

  lemma BootStores(s: State, b: BootEvent)
    requires BootEnabled(s, b)
    ensures
      var r, x := BootStep(s, b), OfBoot(b);
      && r.data == With(s.data, Stores(s, x)) && r.inserted == With(s.inserted, Stores(s, x)) && r.stale == s.stale
      && r.prev == (if BootAnnounces(x) then b.hash else s.prev) && r.cleanups == s.cleanups
  {
  }

  /** Every segment stores exactly this template; a tip change and the bootstrap
      alone record a tip; a tip change alone schedules, and it schedules everything
      stored before; only the removal of a cleanup removes, and it overwrites the
      stale set. */
  lemma StoresExactly(s: State, e: Event)
    requires Enabled(s, e)
    ensures
      var r := Step(s, e);
      var removed := if e.OfCleanup? && e.c.Remove? then s.cleanups[e.k].ids else {};
      && r.data == With(s.data, Stores(s, e)) - removed
      && r.inserted == With(s.inserted, Stores(s, e))
      && r.stale == (if e.OfCleanup? && e.c.Remove? then removed else s.stale)
      && r.prev == (if TipChanges(s, e) then e.me.hash else if BootAnnounces(e) then e.b.hash else s.prev)
      && (!e.OfCleanup? ==> r.cleanups == s.cleanups + (if TipChanges(s, e) then [Delayed(s.data.Keys)] else []))
  {
    hide MonitorStep, IncomingStep, BootStep;
    var all := With(s.data, Stores(s, e));
    assert all - {} == all;
    assert s.cleanups + [] == s.cleanups;
    match e
    case OfMonitor(m, me) => MonitorStores(s, m, me);
    case OfBoot(b) => BootStores(s, b);
    case OfIncoming(i) => IncomingFrames(s, i);
    case OfCleanup(_, _) =>
    case Cancel =>
  }

  /** A cleanup removes, then gets a thread, then destroys the removed templates
      that were still stored, each once; it stops early on an error. */
  lemma CleanupGoes(s: State, k: nat, c: CleanupEvent)
    requires CleanupEnabled(s, k, c)
    ensures
      var r := Step(s, OfCleanup(k, c));
      && |r.cleanups| == |s.cleanups|
      && (forall l :: 0 <= l < |s.cleanups| && l != k ==> r.cleanups[l] == s.cleanups[l])
      && match c
         case Remove => r.cleanups[k] == AwaitCleanupThread(s.cleanups[k].ids * s.data.Keys) && r.destroyed == s.destroyed
         case ThreadCreated(ok) =>
           r.cleanups[k] == (if ok then Destroying(s.cleanups[k].ids) else Finished) && r.destroyed == s.destroyed
         case Destroy(id, ok) =>
           r.cleanups[k] == (if ok then Destroying(s.cleanups[k].ids - {id}) else Finished) && r.destroyed == s.destroyed + [id]
  {
  }

  // ------------------------------------------------------------------ counters

  ghost predicate NewClient(s: State, e: Event) {
    || (e.OfBoot? && e.b.FirstClient? && e.b.created.Some?)
    || (e.OfIncoming? && e.i.ClientCreated? && e.i.created.Some?)
  }

  ghost predicate StartsFetch(s: State, e: Event) {
    || (e.OfBoot? && e.b.FirstClient? && e.b.created.Some?)
    || (e.OfMonitor? && e.me.Respond? && e.me.response.Fresh? && Current(s, e.m))
  }

  /** The client a segment installs. */
  ghost function Installs(s: State, e: Event): Option<ClientId> {
    match e
    case OfBoot(FirstClient(created)) => created
    case OfIncoming(ClientCreated(created)) => created
    case OfMonitor(m, Respond(Fresh(c), _)) => if Current(s, m) then Some(c) else None
    case _ => None
  }

  lemma RespondCounts(s: State, m: nat, response: Response, requestOk: bool)
    requires MonitorEnabled(s, m, Respond(response, requestOk))
    ensures
      var r, x := OnResponse(s, m, response, requestOk), OfMonitor(m, Respond(response, requestOk));
      && r.epochs == s.epochs && r.issued == s.issued + (if StartsFetch(s, x) then 1 else 0)
      && r.client == (if Installs(s, x).Some? then Installs(s, x) else s.client)
      && r.failed == s.failed + (if response.Failed? then 1 else 0)
  {
  }

  ghost predicate SameCounts(s: State, r: State) {
    r.epochs == s.epochs && r.issued == s.issued && r.client == s.client && r.failed == s.failed
    && r.boot == s.boot && r.incoming == s.incoming
  }

  lemma TipChangeCountsNothing(s: State, m: nat, t: Template, announce: Announce, requestOk: bool)
    requires m < |s.monitors|
    ensures SameCounts(s, TipChange(s, m, t, announce, requestOk))
  {
  }

  lemma FeeChangeCountsNothing(s: State, m: nat, t: Template, announce: Announce, requestOk: bool)
    requires m < |s.monitors|
    ensures SameCounts(s, FeeChange(s, m, t, announce, requestOk))
  {
  }

  lemma FetchedCountsNothing(s: State, m: nat, hash: Option<Hash>, sleep: bool, announce: Announce, requestOk: bool)
    requires m < |s.monitors| && s.monitors[m].Fetching?
    ensures SameCounts(s, OnFetched(s, m, hash, sleep, announce, requestOk))
  {
    hide TipChange, FeeChange;
    if hash.Some? {
      var t := Template(s.monitors[m].id, hash.value, s.monitors[m].client);
      TipChangeCountsNothing(s, m, t, announce, requestOk);
      FeeChangeCountsNothing(s, m, t, announce, requestOk);
    }
  }

  lemma MonitorCounts(s: State, m: nat, e: MonitorEvent)
    requires MonitorEnabled(s, m, e)
    ensures
      var r, x := MonitorStep(s, m, e), OfMonitor(m, e);
      && r.epochs == s.epochs && r.issued == s.issued + (if StartsFetch(s, x) then 1 else 0)
      && r.client == (if Installs(s, x).Some? then Installs(s, x) else s.client)
      && r.failed == s.failed + (if e.Respond? && e.response.Failed? then 1 else 0)
  {
    hide OnResponse, OnFetched;
    match e
    case Thread(_, _) =>
    case Respond(response, requestOk) => RespondCounts(s, m, response, requestOk);
    case Fetched(hash, sleep, announce, requestOk) => FetchedCountsNothing(s, m, hash, sleep, announce, requestOk);
    case Awake(_, _) =>
  }

  /** Every client of a constraints change starts an epoch; every fetch takes an id;
      the current client is the last one installed; failed requests stay counted. */
  lemma CountsExactly(s: State, e: Event)
    requires Enabled(s, e)
    ensures
      var r := Step(s, e);
      && r.epochs == s.epochs + (if NewClient(s, e) then 1 else 0)
      && r.issued == s.issued + (if StartsFetch(s, e) then 1 else 0)
      && r.client == (if Installs(s, e).Some? then Installs(s, e) else s.client)
      && r.failed == s.failed + (if e.OfMonitor? && e.me.Respond? && e.me.response.Failed? then 1 else 0)
  {
    hide MonitorStep;
    match e
    case OfMonitor(m, me) => MonitorCounts(s, m, me);
    case OfBoot(_) =>
    case OfIncoming(_) =>
    case OfCleanup(_, _) =>
    case Cancel =>
  }

  // ------------------------------------------------- bootstrap and incoming task

  lemma ControlGoes(s: State, e: Event)
    requires Enabled(s, e)
    ensures
      var r := Step(s, e);
      && r.boot == (match e
                    case OfBoot(FirstConstraints) => AwaitClient
                    case OfBoot(FirstClient(Some(c))) => AwaitTemplate(s.issued % 0x1_0000_0000_0000_0000, c)
                    case OfBoot(FirstFetched(Some(_), Sent)) => Running
                    case OfBoot(_) => Stopped
                    case _ => s.boot)
      && r.incoming == (match e
                        case OfBoot(FirstFetched(Some(_), Sent)) => Listening
                        case OfIncoming(Receive(Constraints, _)) => CreatingClient
                        case OfIncoming(Receive(TxData(id), sendOk)) =>
                          if id in s.data && id !in s.stale then FetchingTxs(id) else if sendOk then Listening else Closed
                        case OfIncoming(ClientCreated(created)) => if created.Some? then Listening else Closed
                        case OfIncoming(TxsFetched(ok)) => if ok then Listening else Closed
                        case OfIncoming(Stop) => Closed
                        case _ => s.incoming)
  {
    hide MonitorStep;
    match e
    case OfMonitor(m, me) => MonitorKeepsControl(s, m, me);
    case OfBoot(_) =>
    case OfIncoming(_) =>
    case OfCleanup(_, _) =>
    case Cancel =>
  }

  lemma MonitorKeepsControl(s: State, m: nat, e: MonitorEvent)
    requires MonitorEnabled(s, m, e)
    ensures MonitorStep(s, m, e).boot == s.boot && MonitorStep(s, m, e).incoming == s.incoming
  {
    hide OnFetched, OnResponse, FeeChange;
    match e
    case Thread(_, _) =>
    case Respond(response, requestOk) => RespondKeepsControl(s, m, response, requestOk);
    case Fetched(hash, sleep, announce, requestOk) => FetchedCountsNothing(s, m, hash, sleep, announce, requestOk);
    case Awake(announce, requestOk) => FeeChangeCountsNothing(s, m, s.monitors[m].template, announce, requestOk);
  }

  lemma RespondKeepsControl(s: State, m: nat, response: Response, requestOk: bool)
    requires MonitorEnabled(s, m, Respond(response, requestOk))
    ensures OnResponse(s, m, response, requestOk).boot == s.boot && OnResponse(s, m, response, requestOk).incoming == s.incoming
  {
  }
}
