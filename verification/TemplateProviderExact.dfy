/** Properties that the template provider does not always keep, each with the
    exact condition: from any reachable state, a segment breaks the property if
    and only if it is of the named kind, and so for whole runs. */
module TemplateProviderExact {
  import opened Common
  import opened TemplateProvider
  import opened TemplateProviderSafety
  import opened TemplateProviderRuns

  // ------------------------------------------------------- steps to whole runs

  /** From live states where p holds, a segment breaks p exactly when q says so. */
  ghost predicate Exact(p: State -> bool, q: (State, Event) -> bool) {
    forall s, e :: Live(s) && Enabled(s, e) && p(s) ==> (q(s, e) <==> !p(Step(s, e)))
  }

  /** p holds at every point of the run. */
  ghost predicate Throughout(p: State -> bool, es: seq<Event>)
    requires ValidRun(es)
    decreases |es|
  {
    p(Exec(es)) && (es == [] || Throughout(p, es[..|es| - 1]))
  }

  /** Some segment of the run is of kind q. */
  ghost predicate Somewhere(q: (State, Event) -> bool, es: seq<Event>)
    requires ValidRun(es)
    decreases |es|
  {
    es != [] && (var n := |es| - 1; Somewhere(q, es[..n]) || q(Exec(es[..n]), es[n]))
  }

  lemma {:induction false} Lift(p: State -> bool, q: (State, Event) -> bool, es: seq<Event>)
    requires ValidRun(es) && Exec(es).issued <= ID_SPACE && p(Init) && Exact(p, q)
    ensures Throughout(p, es) <==> !Somewhere(q, es)
    decreases |es|
  {
    hide Step, Enabled;
    if es != [] {
      var n := |es| - 1;
      var s := Exec(es[..n]);
      IssuedGrows(s, es[n]);
      Lift(p, q, es[..n]);
      assert Live(s);
      if Throughout(p, es[..n]) {
        assert p(s);
        assert q(s, es[n]) <==> !p(Step(s, es[n]));
      }
    }
  }

  // ------------------------------------------------------------ kinds of segments

  /** Monitor m finds a previous hash other than the recorded one. */
  ghost predicate TipChanges(s: State, e: Event) {
    && e.OfMonitor? && e.m < |s.monitors| && s.monitors[e.m].Fetching? && e.me.Fetched? && e.me.hash.Some?
    && s.prev.Some? && e.me.hash.value != s.prev.value
  }

  ghost function NewTip(s: State, e: Event): Template
    requires TipChanges(s, e)
  {
    Template(s.monitors[e.m].id, e.me.hash.value, s.monitors[e.m].client)
  }

  lemma TipStep(s: State, e: Event)
    requires Enabled(s, e) && TipChanges(s, e)
    ensures Step(s, e) == TipChange(s, e.m, NewTip(s, e), e.me.announce, e.me.requestOk)
  {
  }

  ghost predicate BootAnnounces(e: Event) {
    e.OfBoot? && e.b.FirstFetched? && e.b.hash.Some? && e.b.announce.Sent?
  }

  /** What every other segment leaves alone. */
  ghost predicate Quiet(s: State, r: State) {
    && r.prev == s.prev && r.tip == s.tip && r.boot.Running? == s.boot.Running?
    && (r.out == s.out || exists x: Message :: !x.SetNewPrevHash? && r.out == s.out + [x])
    && (forall id :: id in r.data && Scheduled(s, id) ==> Scheduled(r, id))
    && (forall id :: Retired(r, id) ==> Retired(s, id))
  }

  lemma SameCleanups(s: State, r: State)
    requires r.cleanups == s.cleanups && r.destroyed == s.destroyed
    ensures forall id :: Scheduled(r, id) == Scheduled(s, id)
    ensures forall id :: Retired(r, id) == Retired(s, id)
  {
    forall id ensures Scheduled(r, id) == Scheduled(s, id) && Retired(r, id) == Retired(s, id) {
    }
  }

  lemma FeeChangeIsQuiet(s: State, m: nat, t: Template, announce: Announce, requestOk: bool)
    requires m < |s.monitors|
    ensures Quiet(s, FeeChange(s, m, t, announce, requestOk))
  {
    var r := FeeChange(s, m, t, announce, requestOk);
    assert r.out == s.out || r.out == s.out + [NewTemplate(t.id, false)];
    SameCleanups(s, r);
  }

  lemma ResponseIsQuiet(s: State, m: nat, response: Response, requestOk: bool)
    requires m < |s.monitors| && s.monitors[m].Waiting?
    ensures Quiet(s, OnResponse(s, m, response, requestOk))
  {
    var r := OnResponse(s, m, response, requestOk);
    assert r.out == s.out && r.prev == s.prev && r.tip == s.tip && r.boot == s.boot;
    SameCleanups(s, r);
  }

  lemma MonitorIsQuiet(s: State, m: nat, e: MonitorEvent)
    requires MonitorEnabled(s, m, e) && !TipChanges(s, OfMonitor(m, e))
    ensures Quiet(s, MonitorStep(s, m, e))
  {
    hide Scheduled, Retired, OnResponse, FeeChange, TipChange;
    match e
    case Thread(_, _) => SameCleanups(s, MonitorStep(s, m, e));
    case Respond(response, requestOk) => ResponseIsQuiet(s, m, response, requestOk);
    case Fetched(hash, sleep, announce, requestOk) =>
      if hash.None? || s.prev.None? {
        SameCleanups(s, FailMonitor(s, m));
      } else {
        var t := Template(s.monitors[m].id, hash.value, s.monitors[m].client);
        SameCleanups(s, s.(monitors := s.monitors[m := Sleeping(t)]));
        FeeChangeIsQuiet(s, m, t, announce, requestOk);
      }
    case Awake(announce, requestOk) => FeeChangeIsQuiet(s, m, s.monitors[m].template, announce, requestOk);
  }

  lemma CleanupIsQuiet(s: State, k: nat, c: CleanupEvent)
    requires CleanupEnabled(s, k, c)
    ensures Quiet(s, CleanupStep(s, k, c))
  {
    var r := CleanupStep(s, k, c);
    forall id | Retired(r, id) ensures Retired(s, id) {
      CleanupRetires(s, k, c, id);
    }
    forall id | id in r.data && Scheduled(s, id) ensures Scheduled(r, id) {
      var l :| 0 <= l < |s.cleanups| && s.cleanups[l].Delayed? && id in s.cleanups[l].ids;
      assert l != k;
      assert r.cleanups[l] == s.cleanups[l];
    }
  }

  lemma BootIsQuiet(s: State, b: BootEvent)
    requires BootEnabled(s, b) && !BootAnnounces(OfBoot(b))
    ensures Quiet(s, BootStep(s, b))
  {
    hide Scheduled, Retired;
    var r := BootStep(s, b);
    assert r.out == s.out || (s.boot.AwaitTemplate? && r.out == s.out + [NewTemplate(s.boot.id, true)]);
    SameCleanups(s, r);
  }

  lemma StepIsQuiet(s: State, e: Event)
    requires Enabled(s, e) && !TipChanges(s, e) && !BootAnnounces(e)
    ensures Quiet(s, Step(s, e))
  {
    hide Scheduled, Retired, MonitorStep, IncomingStep, CleanupStep, BootStep;
    match e
    case OfBoot(b) => BootIsQuiet(s, b);
    case OfMonitor(m, me) => MonitorIsQuiet(s, m, me);
    case OfIncoming(i) =>
      IncomingFrames(s, i);
      SameCleanups(s, IncomingStep(s, i));
    case OfCleanup(k, c) => CleanupIsQuiet(s, k, c);
    case Cancel => SameCleanups(s, s.(cancelled := true));
  }

  // ------------------------------------------------------ the latest tip is served

  ghost function LastTip(s: State): Message
    requires Tips(s.out) != []
  {
    Tips(s.out)[|Tips(s.out)| - 1]
  }

  /** The template of the latest SetNewPrevHash is stored and not up for removal. */
  ghost predicate LatestTipSafe(s: State) {
    Tips(s.out) != [] && LastTip(s).SetNewPrevHash? && LastTip(s).id in s.data && !Scheduled(s, LastTip(s).id)
  }

  /** The latest announced tip was stored once; after an unannounced tip change it
      is up for removal or gone. */
  ghost predicate TipKnown(s: State) {
    s.boot.Running? ==>
      && Tips(s.out) != [] && LastTip(s).SetNewPrevHash? && LastTip(s).id in s.inserted
      && (s.tip.Unannounced? ==> LastTip(s).id !in s.data || Scheduled(s, LastTip(s).id))
  }

  lemma QuietTips(s: State, r: State)
    requires Quiet(s, r)
    ensures Tips(r.out) == Tips(s.out)
  {
    if r.out != s.out {
      var x: Message :| !x.SetNewPrevHash? && r.out == s.out + [x];
      TipsAppend(s.out, x);
    }
  }

  /** The bootstrap announces the first tip. */
  lemma BootTip(s: State, e: Event)
    requires TraceOk(s) && Enabled(s, e) && BootAnnounces(e)
    ensures
      var r, tip := Step(s, e), SetNewPrevHash(s.boot.id, e.b.hash.value);
      && r.boot.Running? && r.prev == e.b.hash && r.tip == s.tip && s.boot.id in r.inserted
      && Tips(s.out) == [] && Tips(r.out) == [tip]
  {
    hide Announced;
    BootFields(s, e.b.hash, e.b.announce);
    AnnounceTip(s.out, s.boot.id, e.b.hash.value);
  }

  lemma QuietKeepsKnown(s: State, r: State)
    requires TipKnown(s) && Quiet(s, r) && StoresNew(s, r)
    ensures TipKnown(r)
  {
    hide Tips, Scheduled, Retired;
    QuietTips(s, r);
  }

  lemma TipChangeKeepsKnown(s: State, m: nat, t: Template, announce: Announce, requestOk: bool)
    requires TipKnown(s) && Announced(s.out) && s.boot.Running? && m < |s.monitors| && t.id !in s.inserted
    requires StoresNew(s, TipChange(s, m, t, announce, requestOk))
    ensures TipKnown(TipChange(s, m, t, announce, requestOk))
  {
    hide TipChange, Tips, Announced;
    var r := TipChange(s, m, t, announce, requestOk);
    TipChangeFields(s, m, t, announce, requestOk);
    TipChangeIds(s, m, t, announce, requestOk);
    if announce.Sent? {
      AnnounceTip(s.out, t.id, t.prevHash);
    } else {
      QuietKeepsOut(s.out, if announce.SecondSendFailed? then [NewTemplate(t.id, true)] else []);
      assert s.out + [] == s.out;
      assert r.cleanups[|s.cleanups|] == Delayed(s.data.Keys);
    }
  }

  lemma StepKeepsKnown(s: State, e: Event)
    requires TipKnown(s) && IdsOk(s) && TraceOk(s) && Enabled(s, e)
    ensures TipKnown(Step(s, e))
  {
    StoreIsNew(s, e);
    if TipChanges(s, e) {
      var t := NewTip(s, e);
      assert PendingId(s.monitors[e.m]) == Some(t.id);
      hide TipChange, Tips;
      assert Step(s, e) == TipChange(s, e.m, t, e.me.announce, e.me.requestOk);
      TipChangeKeepsKnown(s, e.m, t, e.me.announce, e.me.requestOk);
    } else if BootAnnounces(e) {
      hide Step, IdsOk, TraceOk, Tips, Scheduled;
      BootTip(s, e);
    } else {
      hide Step, Enabled, IdsOk, TraceOk, Tips, Scheduled;
      StepIsQuiet(s, e);
      QuietKeepsKnown(s, Step(s, e));
    }
  }

  lemma {:induction false} RunKeepsKnown(es: seq<Event>)
    requires ValidRun(es) && Exec(es).issued <= ID_SPACE
    ensures TipKnown(Exec(es))
  {
    if es != [] {
      var n := |es| - 1;
      IssuedGrows(Exec(es[..n]), es[n]);
      RunKeepsKnown(es[..n]);
      RunKeepsInv(es[..n]);
      StepKeepsKnown(Exec(es[..n]), es[n]);
    }
  }

  /** In every run: the template of the latest SetNewPrevHash is stored and in no
      scheduled stale set exactly when the latest tip change was announced. Then a
      request or a solution for it is served. */
  lemma LatestTipServedIff(s: State)
    requires Live(s) && s.boot.Running?
    ensures LatestTipSafe(s) <==> !s.tip.Unannounced?
    ensures LatestTipSafe(s) ==> Lookup(s, LastTip(s).id).None? && SolutionAccepted(s, LastTip(s).id)
  {
    LiveOk(s);
    var es :| ValidRun(es) && Exec(es) == s;
    RunKeepsKnown(es);
  }

  // ----------------------------------------------------------------- freshness

  /** A monitor that slept across a tip change announces its template. */
  ghost predicate StaleAwake(s: State, e: Event) {
    && e.OfMonitor? && e.m < |s.monitors| && s.monitors[e.m].Sleeping? && e.me.Awake? && e.me.announce.Sent?
    && Some(s.monitors[e.m].template.prevHash) != s.prev
  }

  ghost predicate Shrinks(s: State, r: State) {
    forall id <- r.data :: id in s.data && r.data[id] == s.data[id]
  }

  lemma ShrinkKeepsFresh(s: State, r: State)
    requires AllFresh(s) && Quiet(s, r) && Shrinks(s, r)
    ensures AllFresh(r)
  {
  }

  lemma FeeChangeFresh(s: State, m: nat, t: Template, announce: Announce, requestOk: bool)
    requires AllFresh(s) && m < |s.monitors| && !Scheduled(s, t.id)
    ensures AllFresh(FeeChange(s, m, t, announce, requestOk)) <==> (announce.Sent? ==> Some(t.prevHash) == s.prev)
  {
    var r := FeeChange(s, m, t, announce, requestOk);
    SameCleanups(s, r);
    assert r.prev == s.prev && r.data == if announce.Sent? then s.data[t.id := t] else s.data;
    assert announce.Sent? ==> t.id in r.data;
  }

  lemma TipChangeFresh(s: State, m: nat, t: Template, announce: Announce, requestOk: bool)
    requires m < |s.monitors|
    ensures AllFresh(TipChange(s, m, t, announce, requestOk))
  {
    hide TipChange;
    var r := TipChange(s, m, t, announce, requestOk);
    TipChangeFields(s, m, t, announce, requestOk);
    assert r.cleanups[|s.cleanups|] == Delayed(s.data.Keys);
    forall id <- r.data ensures Scheduled(r, id) || Some(r.data[id].prevHash) == r.prev {
      assert id == t.id || id in r.cleanups[|s.cleanups|].ids;
    }
  }

  lemma NotYetScheduled(s: State, m: nat, id: nat)
    requires IdsOk(s) && m < |s.monitors| && PendingId(s.monitors[m]) == Some(id)
    ensures !Scheduled(s, id)
  {
  }

  lemma MonitorFreshIff(s: State, m: nat, e: MonitorEvent)
    requires IdsOk(s) && AllFresh(s) && MonitorEnabled(s, m, e)
    ensures StaleAwake(s, OfMonitor(m, e)) <==> !AllFresh(MonitorStep(s, m, e))
  {
    hide IdsOk, AllFresh, OnResponse, FeeChange, TipChange, Quiet;
    match e
    case Thread(_, _) =>
      MonitorIsQuiet(s, m, e);
      ShrinkKeepsFresh(s, MonitorStep(s, m, e));
    case Respond(response, requestOk) =>
      ResponseIsQuiet(s, m, response, requestOk);
      OnResponseStores(s, m, response, requestOk);
      ShrinkKeepsFresh(s, MonitorStep(s, m, e));
    case Fetched(hash, sleep, announce, requestOk) =>
      if TipChanges(s, OfMonitor(m, e)) {
        TipChangeFresh(s, m, NewTip(s, OfMonitor(m, e)), announce, requestOk);
      } else if hash.None? || s.prev.None? || sleep {
        MonitorIsQuiet(s, m, e);
        ShrinkKeepsFresh(s, MonitorStep(s, m, e));
      } else {
        NotYetScheduled(s, m, s.monitors[m].id);
        FeeChangeFresh(s, m, Template(s.monitors[m].id, hash.value, s.monitors[m].client), announce, requestOk);
      }
    case Awake(announce, requestOk) =>
      NotYetScheduled(s, m, s.monitors[m].template.id);
      FeeChangeFresh(s, m, s.monitors[m].template, announce, requestOk);
  }

  lemma OnResponseStores(s: State, m: nat, response: Response, requestOk: bool)
    requires m < |s.monitors| && s.monitors[m].Waiting?
    ensures OnResponse(s, m, response, requestOk).data == s.data
  {
    OnResponseLetsGo(s, m, response, requestOk);
  }

  lemma BootFresh(s: State, b: BootEvent)
    requires IdsOk(s) && TraceOk(s) && AllFresh(s) && BootEnabled(s, b)
    ensures AllFresh(BootStep(s, b))
  {
    assert s.cleanups == [] && s.prev.None?;
    assert forall id :: !Scheduled(s, id);
    assert s.data == map[];
  }

  /** From any reachable state whose templates are fresh outside the scheduled
      stale sets, with any number of monitors: a segment ends that exactly when it
      announces the template of a monitor that slept across a tip change. */
  lemma FreshIff(s: State, e: Event)
    requires Live(s) && Enabled(s, e) && AllFresh(s)
    ensures StaleAwake(s, e) <==> !AllFresh(Step(s, e))
  {
    LiveOk(s);
    hide AllFresh, IdsOk, ClientsOk, TraceOk, MonitorStep, BootStep, IncomingStep, CleanupStep;
    match e
    case OfBoot(b) => BootFresh(s, b);
    case OfMonitor(m, me) => MonitorFreshIff(s, m, me);
    case OfIncoming(i) =>
      IncomingFrames(s, i);
      StepIsQuiet(s, e);
      ShrinkKeepsFresh(s, Step(s, e));
    case OfCleanup(k, c) => CleanupKeepsFresh(s, k, c);
    case Cancel =>
      StepIsQuiet(s, e);
      ShrinkKeepsFresh(s, Step(s, e));
  }

  /** All templates stay fresh throughout a run exactly when no monitor announces
      a template it slept on across a tip change. */
  lemma AlwaysFreshIff(es: seq<Event>)
    requires ValidRun(es) && Exec(es).issued <= ID_SPACE
    ensures Throughout(AllFresh, es) <==> !Somewhere(StaleAwake, es)
  {
    forall s, e | Live(s) && Enabled(s, e) && AllFresh(s) ensures StaleAwake(s, e) <==> !AllFresh(Step(s, e)) {
      FreshIff(s, e);
    }
    hide Step, Enabled, AllFresh, StaleAwake;
    Lift(AllFresh, StaleAwake, es);
  }

  // ------------------------------------------------------------- repeated tips

  ghost predicate TipsAlternate(s: State) {
    Alternating(Tips(s.out))
  }

  /** An announced tip change whose hash is the last announced one. */
  ghost predicate RepeatsTip(s: State, e: Event) {
    && TipChanges(s, e) && e.me.announce.Sent?
    && Tips(s.out) != [] && LastTip(s).SetNewPrevHash? && LastTip(s).prevHash == e.me.hash.value
  }

  lemma AlternatingAppend(tips: seq<Message>, x: Message)
    requires (forall t <- tips :: t.SetNewPrevHash?) && x.SetNewPrevHash? && Alternating(tips)
    ensures Alternating(tips + [x]) <==> tips == [] || tips[|tips| - 1].prevHash != x.prevHash
  {
    var more := tips + [x];
    if tips != [] {
      assert more[|tips|] == x && more[|tips| - 1] == tips[|tips| - 1];
    }
  }

  lemma TipChangeRepeats(s: State, m: nat, t: Template, announce: Announce, requestOk: bool)
    requires m < |s.monitors| && Announced(s.out) && TipsAlternate(s)
    ensures TipsAlternate(TipChange(s, m, t, announce, requestOk))
       <==> !announce.Sent? || Tips(s.out) == [] || LastTip(s).prevHash != t.prevHash
  {
    hide TipChange, Tips, Announced;
    TipChangeFields(s, m, t, announce, requestOk);
    if announce.Sent? {
      AnnounceTip(s.out, t.id, t.prevHash);
      AlternatingAppend(Tips(s.out), SetNewPrevHash(t.id, t.prevHash));
    } else {
      QuietKeepsOut(s.out, if announce.SecondSendFailed? then [NewTemplate(t.id, true)] else []);
      assert s.out + [] == s.out;
    }
  }

  /** From any reachable state, a segment sends a SetNewPrevHash equal to the one
      before exactly when it announces a tip change to the last announced hash;
      and that needs a recorded tip that was not announced. */
  lemma RepeatIff(s: State, e: Event)
    requires Live(s) && Enabled(s, e) && TipsAlternate(s)
    ensures RepeatsTip(s, e) <==> !TipsAlternate(Step(s, e))
    ensures RepeatsTip(s, e) ==> s.tip.Unannounced?
  {
    LiveOk(s);
    if TipChanges(s, e) {
      var t := NewTip(s, e);
      assert Step(s, e) == TipChange(s, e.m, t, e.me.announce, e.me.requestOk);
      hide TipChange, Tips, Alternating;
      TipChangeRepeats(s, e.m, t, e.me.announce, e.me.requestOk);
    } else if BootAnnounces(e) {
      hide Step, IdsOk, TraceOk, Tips, Scheduled;
      BootTip(s, e);
    } else {
      hide Step, Enabled, IdsOk, ClientsOk, TraceOk, Tips;
      StepIsQuiet(s, e);
      QuietTips(s, Step(s, e));
    }
  }

  /** Consecutive SetNewPrevHash differ throughout a run exactly when no tip change
      announces the last announced hash. */
  lemma AlwaysAlternateIff(es: seq<Event>)
    requires ValidRun(es) && Exec(es).issued <= ID_SPACE
    ensures Throughout(TipsAlternate, es) <==> !Somewhere(RepeatsTip, es)
  {
    forall s, e | Live(s) && Enabled(s, e) && TipsAlternate(s) ensures RepeatsTip(s, e) <==> !TipsAlternate(Step(s, e)) {
      RepeatIff(s, e);
    }
    assert TipsAlternate(Init);
    hide Step, Enabled, TipsAlternate, RepeatsTip;
    Lift(TipsAlternate, RepeatsTip, es);
  }

  // --------------------------------------------- recorded and announced tip

  /** While the provider is running, the recorded tip is the last announced one. */
  ghost predicate TipIsAnnounced(s: State) {
    s.boot.Running? ==> Tips(s.out) != [] && LastTip(s).SetNewPrevHash? && s.prev == Some(LastTip(s).prevHash)
  }

  /** A tip change that is recorded but not announced. */
  ghost predicate LosesTip(s: State, e: Event) {
    TipChanges(s, e) && !e.me.announce.Sent?
  }

  lemma TipChangeAnnouncedIff(s: State, m: nat, t: Template, announce: Announce, requestOk: bool)
    requires m < |s.monitors| && Announced(s.out) && s.boot.Running? && TipIsAnnounced(s) && s.prev != Some(t.prevHash)
    ensures TipIsAnnounced(TipChange(s, m, t, announce, requestOk)) <==> announce.Sent?
  {
    hide TipChange, Tips, Announced;
    TipChangeFields(s, m, t, announce, requestOk);
    if announce.Sent? {
      AnnounceTip(s.out, t.id, t.prevHash);
    } else {
      QuietKeepsOut(s.out, if announce.SecondSendFailed? then [NewTemplate(t.id, true)] else []);
      assert s.out + [] == s.out;
    }
  }

  /** From any reachable state whose recorded tip is the last announced one, a
      segment ends that exactly when it records a tip it does not announce. */
  lemma TipAnnouncedIff(s: State, e: Event)
    requires Live(s) && Enabled(s, e) && TipIsAnnounced(s)
    ensures LosesTip(s, e) <==> !TipIsAnnounced(Step(s, e))
  {
    hide Step, Enabled, IdsOk, ClientsOk, Tips, Announced;
    LiveOk(s);
    if TipChanges(s, e) {
      TipStep(s, e);
      TipChangeAnnouncedIff(s, e.m, NewTip(s, e), e.me.announce, e.me.requestOk);
    } else if BootAnnounces(e) {
      BootTip(s, e);
    } else {
      StepIsQuiet(s, e);
      QuietTips(s, Step(s, e));
    }
  }

  /** The recorded tip is the last announced one throughout a run exactly when every
      tip change of the run is announced. */
  lemma TipAlwaysAnnouncedIff(es: seq<Event>)
    requires ValidRun(es) && Exec(es).issued <= ID_SPACE
    ensures Throughout(TipIsAnnounced, es) <==> !Somewhere(LosesTip, es)
  {
    forall s, e | Live(s) && Enabled(s, e) && TipIsAnnounced(s) ensures LosesTip(s, e) <==> !TipIsAnnounced(Step(s, e)) {
      TipAnnouncedIff(s, e);
    }
    assert TipIsAnnounced(Init);
    hide Step, Enabled, TipIsAnnounced, LosesTip;
    Lift(TipIsAnnounced, LosesTip, es);
  }

  // ------------------------------------------------------- the current client

  /** The client that waitNext uses belongs to a template that is up for removal,
      removed or destroyed. */
  ghost predicate CurrentRetired(s: State) {
    exists id: nat :: id < |s.bound| && s.client == Some(s.bound[id]) && Retired(s, id)
  }

  ghost predicate CurrentKept(s: State) {
    !CurrentRetired(s)
  }

  /** A tip change while the current client is that of a stored template. */
  ghost predicate RetiresCurrent(s: State, e: Event) {
    TipChanges(s, e) && exists id :: id in s.data && Some(s.data[id].client) == s.client
  }

  /** The client stays, or is a new one, bound to the next id or to none yet. */
  ghost predicate ClientMoves(s: State, r: State) {
    || (r.client == s.client && r.bound == s.bound)
    || (r.client.Some? && r.client.value !in s.clients && (r.bound == s.bound || r.bound == s.bound + [r.client.value]))
  }

  lemma ResponseMovesClient(s: State, m: nat, response: Response, requestOk: bool)
    requires MonitorEnabled(s, m, Respond(response, requestOk))
    ensures ClientMoves(s, OnResponse(s, m, response, requestOk))
  {
  }

  lemma FeeChangeKeepsClient(s: State, m: nat, t: Template, announce: Announce, requestOk: bool)
    requires m < |s.monitors|
    ensures FeeChange(s, m, t, announce, requestOk).client == s.client
  {
  }

  lemma MonitorMovesClient(s: State, m: nat, e: MonitorEvent)
    requires MonitorEnabled(s, m, e)
    ensures ClientMoves(s, MonitorStep(s, m, e))
  {
    hide OnResponse, TipChange, FeeChange;
    match e
    case Thread(_, _) =>
    case Respond(response, requestOk) => ResponseMovesClient(s, m, response, requestOk);
    case Fetched(hash, _, announce, requestOk) =>
      if hash.Some? {
        var t := Template(s.monitors[m].id, hash.value, s.monitors[m].client);
        TipChangeFields(s, m, t, announce, requestOk);
        TipChangeReleases(s, m, t, announce, requestOk);
        FeeChangeKeepsClient(s, m, t, announce, requestOk);
        FeeChangeReleases(s, m, t, announce, requestOk);
      }
    case Awake(announce, requestOk) =>
      FeeChangeKeepsClient(s, m, s.monitors[m].template, announce, requestOk);
      FeeChangeReleases(s, m, s.monitors[m].template, announce, requestOk);
  }

  lemma StepMovesClient(s: State, e: Event)
    requires Enabled(s, e)
    ensures ClientMoves(s, Step(s, e))
  {
    hide MonitorStep;
    match e
    case OfMonitor(m, me) => MonitorMovesClient(s, m, me);
    case OfBoot(_) =>
    case OfIncoming(_) =>
    case OfCleanup(_, _) =>
    case Cancel =>
  }

  lemma UnissuedNotRetired(s: State, id: nat)
    requires IdsOk(s) && id >= s.issued
    ensures !Retired(s, id)
  {
    NewIdNotRetired(s, id);
  }

  lemma QuietKeepsCurrent(s: State, r: State)
    requires IdsOk(s) && ClientsOk(s) && CurrentKept(s) && ClientMoves(s, r)
    requires forall id :: Retired(r, id) ==> Retired(s, id)
    ensures CurrentKept(r)
  {
    hide Retired, IdsOk;
    forall id: nat | id < |r.bound| && r.client == Some(r.bound[id]) ensures !Retired(r, id) {
      if id < |s.bound| {
        assert r.bound[id] == s.bound[id] && s.bound[id] in s.bound;
      } else {
        UnissuedNotRetired(s, id);
      }
    }
  }

  lemma TipChangeRetires(s: State, m: nat, t: Template, announce: Announce, requestOk: bool, id: nat)
    requires m < |s.monitors|
    ensures Retired(TipChange(s, m, t, announce, requestOk), id) <==> Retired(s, id) || id in s.data
  {
    hide TipChange;
    var r := TipChange(s, m, t, announce, requestOk);
    TipChangeFields(s, m, t, announce, requestOk);
    TipChangeIds(s, m, t, announce, requestOk);
    assert r.destroyed == s.destroyed;
    var n := |s.cleanups|;
    assert r.cleanups[n] == Delayed(s.data.Keys);
    assert forall k :: 0 <= k < n ==> r.cleanups[k] == s.cleanups[k];
    assert |r.cleanups| == n + 1 && CleanupIds(r.cleanups[n]) == {};
    if Retired(r, id) && id !in s.data && id !in s.destroyed {
      assert id !in r.cleanups[n].ids;
      var k :| 0 <= k < |r.cleanups|
        && ((r.cleanups[k].Delayed? && id in r.cleanups[k].ids) || id in CleanupIds(r.cleanups[k]));
      assert k < n && r.cleanups[k] == s.cleanups[k];
    }
    if Scheduled(s, id) {
      var k :| 0 <= k < n && s.cleanups[k].Delayed? && id in s.cleanups[k].ids;
      assert r.cleanups[k] == s.cleanups[k];
    }
    if k :| 0 <= k < n && id in CleanupIds(s.cleanups[k]) {
      assert r.cleanups[k] == s.cleanups[k];
    }
  }

  lemma TipChangeCurrentIff(s: State, m: nat, t: Template, announce: Announce, requestOk: bool)
    requires m < |s.monitors| && IdsOk(s) && ClientsOk(s) && CurrentKept(s)
    ensures CurrentRetired(TipChange(s, m, t, announce, requestOk))
       <==> exists id :: id in s.data && Some(s.data[id].client) == s.client
  {
    var r := TipChange(s, m, t, announce, requestOk);
    assert r.client == s.client && r.bound == s.bound by {
      TipChangeFields(s, m, t, announce, requestOk);
      TipChangeReleases(s, m, t, announce, requestOk);
    }
    hide TipChange, Retired;
    if id :| id in s.data && Some(s.data[id].client) == s.client {
      assert Holds(s, id, s.inserted[id].client);
      TipChangeRetires(s, m, t, announce, requestOk, id);
    }
    if id: nat :| id < |r.bound| && r.client == Some(r.bound[id]) && Retired(r, id) {
      TipChangeRetires(s, m, t, announce, requestOk, id);
      assert id in s.data && Holds(s, id, s.inserted[id].client);
    }
  }

  /** From any reachable state, a segment retires the client that waitNext uses
      exactly when it is a tip change and that client is the one of a template
      stored by then. */
  lemma RetiresCurrentIff(s: State, e: Event)
    requires Live(s) && Enabled(s, e) && CurrentKept(s)
    ensures RetiresCurrent(s, e) <==> !CurrentKept(Step(s, e))
  {
    LiveOk(s);
    hide CurrentRetired;
    if TipChanges(s, e) {
      hide IdsOk, ClientsOk, TraceOk;
      var t := NewTip(s, e);
      assert Step(s, e) == TipChange(s, e.m, t, e.me.announce, e.me.requestOk);
      TipChangeCurrentIff(s, e.m, t, e.me.announce, e.me.requestOk);
    } else {
      StepRetiresNothing(s, e);
      StepMovesClient(s, e);
      hide Step, Enabled, IdsOk, ClientsOk, TraceOk, Retired;
      QuietKeepsCurrent(s, Step(s, e));
    }
  }

  lemma StepRetiresNothing(s: State, e: Event)
    requires Enabled(s, e) && !TipChanges(s, e)
    ensures forall id :: Retired(Step(s, e), id) ==> Retired(s, id)
  {
    if BootAnnounces(e) {
      SameCleanups(s, Step(s, e));
    } else {
      StepIsQuiet(s, e);
    }
  }

  /** The current client is never retired in a run exactly when no tip change
      meets it as the client of a stored template. */
  lemma CurrentAlwaysKeptIff(es: seq<Event>)
    requires ValidRun(es) && Exec(es).issued <= ID_SPACE
    ensures Throughout(CurrentKept, es) <==> !Somewhere(RetiresCurrent, es)
  {
    forall s, e | Live(s) && Enabled(s, e) && CurrentKept(s) ensures RetiresCurrent(s, e) <==> !CurrentKept(Step(s, e)) {
      RetiresCurrentIff(s, e);
    }
    assert CurrentKept(Init);
    hide Step, Enabled, CurrentKept, RetiresCurrent;
    Lift(CurrentKept, RetiresCurrent, es);
  }

  ghost predicate CurrentAlive(s: State) {
    !CurrentClientDestroyed(s)
  }

  /** A cleanup destroys the client that waitNext uses. */
  ghost predicate DestroysCurrent(s: State, e: Event) {
    && e.OfCleanup? && e.c.Destroy? && CleanupEnabled(s, e.k, e.c)
    && e.c.id in s.inserted && s.client == Some(s.inserted[e.c.id].client)
  }

  lemma DestroyedGrows(s: State, e: Event)
    requires Enabled(s, e)
    ensures Step(s, e).destroyed == if e.OfCleanup? && e.c.Destroy? then s.destroyed + [e.c.id] else s.destroyed
    ensures e.OfCleanup? ==> Step(s, e).client == s.client && Step(s, e).inserted == s.inserted
  {
    hide MonitorStep, IncomingStep;
    match e
    case OfMonitor(m, me) => MonitorDestroysNothing(s, m, me);
    case OfIncoming(i) => IncomingFrames(s, i);
    case OfBoot(_) =>
    case OfCleanup(_, _) =>
    case Cancel =>
  }

  lemma MonitorDestroysNothing(s: State, m: nat, e: MonitorEvent)
    requires MonitorEnabled(s, m, e)
    ensures MonitorStep(s, m, e).destroyed == s.destroyed
  {
    hide OnResponse, TipChange, FeeChange;
    match e
    case Thread(_, _) =>
    case Respond(response, requestOk) => OnResponseLetsGo(s, m, response, requestOk);
    case Fetched(hash, _, announce, requestOk) =>
      if hash.Some? {
        var t := Template(s.monitors[m].id, hash.value, s.monitors[m].client);
        TipChangeIds(s, m, t, announce, requestOk);
        FeeChangeIds(s, m, t, announce, requestOk);
      }
    case Awake(announce, requestOk) => FeeChangeIds(s, m, s.monitors[m].template, announce, requestOk);
  }

  lemma OldDestroyed(s: State, r: State, id: nat)
    requires IdsOk(s) && ClientsOk(s) && CurrentAlive(s) && ClientMoves(s, r) && StoresNew(s, r) && id in s.destroyed
    ensures id in r.inserted && r.client != Some(r.inserted[id].client)
  {
    assert id in s.inserted && Holds(s, id, s.inserted[id].client);
    assert s.inserted[id].client in s.bound;
  }

  /** From any reachable state, the client that waitNext uses becomes a destroyed
      one exactly when a cleanup destroys it: no segment installs a destroyed one. */
  lemma DestroysCurrentIff(s: State, e: Event)
    requires Live(s) && Enabled(s, e) && CurrentAlive(s)
    ensures DestroysCurrent(s, e) <==> !CurrentAlive(Step(s, e))
  {
    LiveOk(s);
    StepMovesClient(s, e);
    StoreIsNew(s, e);
    DestroyedGrows(s, e);
    var r := Step(s, e);
    hide Step, IdsOk, ClientsOk, TraceOk, ClientMoves, StoresNew;
    forall id <- s.destroyed ensures id in r.inserted && r.client != Some(r.inserted[id].client) {
      OldDestroyed(s, r, id);
    }
    if DestroysCurrent(s, e) {
      assert e.c.id in r.destroyed;
    }
  }

  lemma CurrentAlwaysAliveIff(es: seq<Event>)
    requires ValidRun(es) && Exec(es).issued <= ID_SPACE
    ensures Throughout(CurrentAlive, es) <==> !Somewhere(DestroysCurrent, es)
  {
    forall s, e | Live(s) && Enabled(s, e) && CurrentAlive(s) ensures DestroysCurrent(s, e) <==> !CurrentAlive(Step(s, e)) {
      DestroysCurrentIff(s, e);
    }
    hide Step, Enabled, CurrentAlive, DestroysCurrent;
    Lift(CurrentAlive, DestroysCurrent, es);
  }

  /** A destroyed client is a retired one, so a run that retires no current client
      destroys none. */
  lemma DestroyedIsRetired(s: State)
    requires Live(s) && CurrentClientDestroyed(s)
    ensures CurrentRetired(s)
  {
    LiveOk(s);
    var id :| id in s.destroyed && id in s.inserted && s.client == Some(s.inserted[id].client);
    assert Holds(s, id, s.inserted[id].client);
  }
}
