/** How the job declarator client opens its one upstream channel and what
    happens to the downstream open requests meanwhile.

    The channel manager task runs each handler without yielding (its channels
    are unbounded). The main task shares only the atomic upstream state and may
    set it at any moment, so a handler is cut where it reads or writes that
    state a second time: between queueing a request and claiming the channel,
    and between becoming connected and draining the queue. */
module JdcOpening {
  datatype UpstreamState = NoChannel | Pending | Connected | SoloMining

  /** A downstream request to open a channel, numbered by arrival. */
  datatype Request = Request(number: nat, downstream: nat, extended: bool)

  /** Where the manager task is inside a handler. */
  datatype Control = Idle | Claiming | Draining

  /** Shared state, control point and the history of a run. */
  datatype State = State(
    upstream: UpstreamState,
    pending: seq<Request>,
    control: Control,
    received: seq<Request>,
    handed: seq<Request>,
    discarded: seq<Request>,
    dropped: seq<Request>,
    opens: nat,
    noChannelSets: nat)

  const Init := State(SoloMining, [], Idle, [], [], [], [], 0, 0)

  datatype Event =
    | MainSets(upstream: UpstreamState)             // the main task, after (re)initialisation
    | Receive(downstream: nat, extended: bool)      // a downstream open request arrives
    | Claim(sent: bool)                             // NoChannel -> Pending, one upstream open
    | Opened(factoryOk: bool)                       // OpenExtendedMiningChannel.Success arrives
    | Drain(ready: bool, handlerOk: nat -> bool)    // the pending requests are handed over
    | Fallback                                      // solo mining and reset

  predicate Enabled(s: State, e: Event) {
    match e
    case MainSets(u) => u.NoChannel? || u.SoloMining?
    case Claim(_) => s.control.Claiming?
    case Drain(_, _) => s.control.Draining?
    case _ => s.control.Idle?
  }

  function SetUpstream(s: State, u: UpstreamState): State {
    s.(upstream := u, noChannelSets := s.noChannelSets + if u.NoChannel? then 1 else 0)
  }

  function OnReceive(s: State, r: Request): State {
    var s1 := s.(received := s.received + [r]);
    match s.upstream
    case NoChannel => s1.(pending := [r] + s.pending, control := Claiming)
    case Pending => s1.(pending := s.pending + [r])
    case _ => s1.(handed := s.handed + [r])
  }

  function OnClaim(s: State, sent: bool): State {
    if s.upstream.NoChannel? then
      s.(upstream := Pending, opens := s.opens + if sent then 1 else 0, control := Idle)
    else s.(control := Idle)
  }

  function OnOpened(s: State, factoryOk: bool): State {
    if s.pending == [] || !factoryOk then SetUpstream(s, NoChannel)
    else SetUpstream(s, Connected).(control := Draining)
  }

  /** How many of n requests reach the handler when the first failure ends the drain. */
  function HandedOver(n: nat, handlerOk: nat -> bool): (k: nat)
    ensures k <= n
    ensures forall i :: 0 <= i < k - 1 ==> handlerOk(i)
    ensures k < n ==> k > 0 && !handlerOk(k - 1)
  {
    if n == 0 then 0
    else
      var k := HandedOver(n - 1, handlerOk);
      if k == n - 1 && (n == 1 || handlerOk(n - 2)) then n else k
  }

  function OnDrain(s: State, ready: bool, handlerOk: nat -> bool): State {
    if s.upstream.Connected? && ready then
      var k := HandedOver(|s.pending|, handlerOk);
      s.(pending := [], handed := s.handed + s.pending[..k], dropped := s.dropped + s.pending[k..], control := Idle)
    else s.(control := Idle)
  }

  function OnFallback(s: State): State {
    s.(upstream := SoloMining, pending := [], discarded := s.discarded + s.pending)
  }

  function Step(s: State, e: Event): State
    requires Enabled(s, e)
  {
    match e
    case MainSets(u) => SetUpstream(s, u)
    case Receive(downstream, extended) => OnReceive(s, Request(|s.received|, downstream, extended))
    case Claim(sent) => OnClaim(s, sent)
    case Opened(factoryOk) => OnOpened(s, factoryOk)
    case Drain(ready, handlerOk) => OnDrain(s, ready, handlerOk)
    case Fallback => OnFallback(s)
  }

  ghost predicate ValidRun(es: seq<Event>)
    decreases |es|, 0
  {
    es == [] || (var n := |es| - 1; ValidRun(es[..n]) && Enabled(Exec(es[..n]), es[n]))
  }

  ghost function Exec(es: seq<Event>): State
    requires ValidRun(es)
    decreases |es|, 1
  {
    if es == [] then Init else Step(Exec(es[..|es| - 1]), es[|es| - 1])
  }

  // ------------------------------------------------------------- every run

  /** At most one open per time the state was set to NoChannel. */
  ghost predicate OpensOk(s: State) {
    s.opens + (if s.upstream.NoChannel? then 1 else 0) <= s.noChannelSets
  }

  /** Every request is handed over, waiting, discarded by a reset or dropped by a
      failed drain, and is so exactly once. */
  ghost predicate Conserved(s: State) {
    multiset(s.received) == multiset(s.handed) + multiset(s.pending) + multiset(s.discarded) + multiset(s.dropped)
  }

  lemma StepKeepsOpens(s: State, e: Event)
    requires OpensOk(s) && Enabled(s, e)
    ensures OpensOk(Step(s, e))
  {
  }

  lemma ReceiveConserves(s: State, r: Request)
    requires Conserved(s)
    ensures Conserved(OnReceive(s, r))
  {
    var t := OnReceive(s, r);
    assert multiset(t.received) == multiset(s.received) + multiset{r};
    match s.upstream
    case NoChannel => assert multiset(t.pending) == multiset{r} + multiset(s.pending);
    case Pending => assert multiset(t.pending) == multiset(s.pending) + multiset{r};
    case _ => assert multiset(t.handed) == multiset(s.handed) + multiset{r};
  }

  lemma DrainConserves(s: State, ready: bool, handlerOk: nat -> bool)
    requires Conserved(s)
    ensures Conserved(OnDrain(s, ready, handlerOk))
  {
    hide HandedOver;
    var t := OnDrain(s, ready, handlerOk);
    if s.upstream.Connected? && ready {
      var k := HandedOver(|s.pending|, handlerOk);
      assert s.pending == s.pending[..k] + s.pending[k..];
      assert multiset(t.handed) == multiset(s.handed) + multiset(s.pending[..k]);
      assert multiset(t.dropped) == multiset(s.dropped) + multiset(s.pending[k..]);
    }
  }

  lemma FallbackConserves(s: State)
    requires Conserved(s)
    ensures Conserved(OnFallback(s))
  {
    assert multiset(OnFallback(s).discarded) == multiset(s.discarded) + multiset(s.pending);
  }

  lemma StepConserves(s: State, e: Event)
    requires Conserved(s) && Enabled(s, e)
    ensures Conserved(Step(s, e))
  {
    hide OnReceive, OnDrain, OnFallback;
    match e
    case Receive(downstream, extended) => ReceiveConserves(s, Request(|s.received|, downstream, extended));
    case Drain(ready, handlerOk) => DrainConserves(s, ready, handlerOk);
    case Fallback => FallbackConserves(s);
    case _ =>
  }

  /** Over any run, with the main task setting the state at any moment, upstream
      opens never outnumber the times the state was set to NoChannel. */
  lemma {:induction false} OpensAreBounded(es: seq<Event>)
    requires ValidRun(es)
    ensures OpensOk(Exec(es))
  {
    if es != [] {
      OpensAreBounded(es[..|es| - 1]);
      StepKeepsOpens(Exec(es[..|es| - 1]), es[|es| - 1]);
    }
  }

  lemma {:induction false} RequestsAreConserved(es: seq<Event>)
    requires ValidRun(es)
    ensures Conserved(Exec(es))
  {
    if es != [] {
      RequestsAreConserved(es[..|es| - 1]);
      StepConserves(Exec(es[..|es| - 1]), es[|es| - 1]);
    }
  }

  /** A drain in which the handler fails on some request other than the last. */
  ghost predicate FailsEarly(s: State, e: Event) {
    e.Drain? && e.ready && s.upstream.Connected? && exists i :: 0 <= i < |s.pending| - 1 && !e.handlerOk(i)
  }

  /** A segment drops requests exactly when it is such a drain. */
  lemma DropsIff(s: State, e: Event)
    requires Enabled(s, e)
    ensures |s.dropped| <= |Step(s, e).dropped|
    ensures |s.dropped| < |Step(s, e).dropped| <==> FailsEarly(s, e)
  {
    if e.Drain? && e.ready && s.upstream.Connected? {
      var n := |s.pending|;
      var k := HandedOver(n, e.handlerOk);
      assert Step(s, e).dropped == s.dropped + s.pending[k..];
      if k < n {
        assert !e.handlerOk(k - 1);
      }
    }
  }

  ghost predicate SomeDrainFailsEarly(es: seq<Event>)
    requires ValidRun(es)
    decreases |es|
  {
    es != [] && (var n := |es| - 1; SomeDrainFailsEarly(es[..n]) || FailsEarly(Exec(es[..n]), es[n]))
  }

  /** Every request of a run is handed over, waiting or discarded by a reset,
      exactly when no drain of the run fails before its last request. */
  lemma {:induction false} NothingDroppedIff(es: seq<Event>)
    requires ValidRun(es)
    ensures Exec(es).dropped == [] <==> !SomeDrainFailsEarly(es)
  {
    if es != [] {
      NothingDroppedIff(es[..|es| - 1]);
      DropsIff(Exec(es[..|es| - 1]), es[|es| - 1]);
    }
  }

  // --------------------------------------------------------- what a segment does

  /** One upstream open exactly when a claim finds NoChannel and can send. */
  lemma OpensExactly(s: State, e: Event)
    requires Enabled(s, e)
    ensures Step(s, e).opens == s.opens + if e.Claim? && s.upstream.NoChannel? && e.sent then 1 else 0
  {
  }

  /** The upstream state moves by the main task, a claim, an upstream answer and a
      fallback; it is counted whenever it is set to NoChannel. */
  lemma UpstreamGoes(s: State, e: Event)
    requires Enabled(s, e)
    ensures
      var refused := e.Opened? && (s.pending == [] || !e.factoryOk);
      && Step(s, e).upstream == (match e
                                 case MainSets(u) => u
                                 case Claim(_) => if s.upstream.NoChannel? then Pending else s.upstream
                                 case Opened(_) => if refused then NoChannel else Connected
                                 case Fallback => SoloMining
                                 case _ => s.upstream)
      && Step(s, e).noChannelSets
         == s.noChannelSets + if refused || (e.MainSets? && e.upstream.NoChannel?) then 1 else 0
  {
  }

  /** A claim follows a request that found NoChannel, a drain an accepted channel. */
  lemma ControlGoes(s: State, e: Event)
    requires Enabled(s, e)
    ensures Step(s, e).control == (if e.MainSets? then s.control
                                   else if e.Receive? && s.upstream.NoChannel? then Claiming
                                   else if e.Opened? && s.pending != [] && e.factoryOk then Draining
                                   else Idle)
  {
  }

  /** A request goes to the front, the back or the handler by the state it finds. */
  lemma RequestGoes(s: State, downstream: nat, extended: bool)
    requires s.control.Idle?
    ensures
      var t, r := Step(s, Receive(downstream, extended)), Request(|s.received|, downstream, extended);
      && t.received == s.received + [r] && t.discarded == s.discarded && t.dropped == s.dropped
      && t.pending == (match s.upstream case NoChannel => [r] + s.pending case Pending => s.pending + [r] case _ => s.pending)
      && t.handed == s.handed + if s.upstream.Connected? || s.upstream.SoloMining? then [r] else []
  {
  }

  /** A drain takes the whole queue and hands over up to and including the first
      request the handler fails on; elsewhere nothing is handed over from the queue,
      and only a fallback discards it. */
  lemma QueueGoes(s: State, e: Event)
    requires Enabled(s, e) && !e.Receive?
    ensures
      var t, drains := Step(s, e), e.Drain? && e.ready && s.upstream.Connected?;
      && t.received == s.received
      && t.pending == (if drains || e.Fallback? then [] else s.pending)
      && t.discarded == s.discarded + (if e.Fallback? then s.pending else [])
      && |s.handed| <= |t.handed| <= |s.handed| + |s.pending|
      && (var k := |t.handed| - |s.handed|;
          && t.handed == s.handed + s.pending[..k]
          && t.dropped == s.dropped + (if drains then s.pending[k..] else [])
          && (!drains ==> k == 0)
          && (drains ==> (forall i :: 0 <= i < k - 1 ==> e.handlerOk(i)) && (k < |s.pending| ==> k > 0 && !e.handlerOk(k - 1))))
  {
    if e.Drain? && e.ready && s.upstream.Connected? {
      var k := HandedOver(|s.pending|, e.handlerOk);
      assert |s.pending[..k]| == k;
    } else {
      assert s.pending[..0] == [] && s.handed + [] == s.handed && s.dropped + [] == s.dropped && s.discarded + [] == s.discarded;
    }
  }

  // ----------------------------------------------------------- arrival order

  ghost predicate Ordered(q: seq<Request>) {
    forall i, j :: 0 <= i < j < |q| ==> q[i].number < q[j].number
  }

  ghost predicate Before(q: seq<Request>, n: nat) {
    forall i :: 0 <= i < |q| ==> q[i].number < n
  }

  lemma Extend(q: seq<Request>, r: Request)
    requires Ordered(q) && Before(q, r.number)
    ensures Ordered(q + [r]) && Before(q + [r], r.number + 1)
  {
  }

  lemma Shrink(a: seq<Request>, b: seq<Request>, k: nat, n: nat)
    requires Before(a + b, n) && k <= |b|
    ensures Before(a + b[..k], n) && (Ordered(a + b) ==> Ordered(a + b[..k]))
  {
    var p := a + b[..k];
    assert p == (a + b)[..|p|];
  }

  /** What was handed over, followed by what is pending, is in order of arrival. */
  ghost predicate InOrder(s: State) {
    Ordered(s.handed + s.pending)
  }

  ghost predicate Numbered(s: State) {
    Before(s.handed + s.pending, |s.received|)
  }

  /** A request passes one that waits: it goes to the front of the queue, or past
      the queue straight to the handler. */
  ghost predicate Overtakes(s: State, e: Event) {
    e.Receive? && s.pending != [] && !s.upstream.Pending?
  }

  /** The new request stands before those that waited. */
  lemma Disorders(a: seq<Request>, b: seq<Request>, r: Request)
    requires b != [] && Before(a + b, r.number)
    ensures !Ordered(a + ([r] + b)) && !Ordered((a + [r]) + b)
  {
    var q := a + ([r] + b);
    assert q == (a + [r]) + b;
    assert q[|a|] == r && q[|a| + 1] == b[0] && (a + b)[|a|] == b[0];
  }

  lemma ReceiveOrder(s: State, r: Request)
    requires Numbered(s) && InOrder(s) && r.number == |s.received|
    ensures InOrder(OnReceive(s, r)) <==> s.pending == [] || s.upstream.Pending?
    ensures Numbered(OnReceive(s, r))
  {
    var t, q := OnReceive(s, r), s.handed + s.pending;
    Extend(q, r);
    if s.pending == [] || s.upstream.Pending? {
      assert t.handed + t.pending == q + [r];
    } else {
      Disorders(s.handed, s.pending, r);
      InsertedBefore(s.handed, s.pending, r, |s.received| + 1);
      assert t.handed + t.pending == s.handed + [r] + s.pending;
    }
  }

  lemma InsertedBefore(a: seq<Request>, b: seq<Request>, r: Request, n: nat)
    requires Before(a + b, n) && r.number < n
    ensures Before(a + [r] + b, n)
  {
    var q := a + [r] + b;
    forall i | 0 <= i < |q| ensures q[i].number < n {
      if i < |a| {
        assert q[i] == (a + b)[i];
      } else if i > |a| {
        assert q[i] == (a + b)[i - 1];
      }
    }
  }

  lemma StepKeepsNumbered(s: State, e: Event)
    requires Numbered(s) && Enabled(s, e)
    ensures Numbered(Step(s, e))
  {
    var t := Step(s, e);
    match e
    case Receive(d, x) =>
      var r := Request(|s.received|, d, x);
      InsertedBefore(s.handed, s.pending, r, |s.received| + 1);
      assert s.handed + s.pending + [] == s.handed + s.pending;
      if s.upstream.Pending? {
        InsertedBefore(s.handed + s.pending, [], r, |s.received| + 1);
        assert t.handed + t.pending == s.handed + s.pending + [r] + [];
      } else {
        assert t.handed + t.pending == s.handed + [r] + s.pending;
      }
    case Drain(_, handlerOk) =>
      Shrink(s.handed, s.pending, HandedOver(|s.pending|, handlerOk), |s.received|);
      assert t.handed + [] == t.handed;
    case Fallback =>
      Shrink(s.handed, s.pending, 0, |s.received|);
      assert s.pending[..0] == [];
    case _ =>
      assert t.handed + t.pending == s.handed + s.pending;
  }

  /** Arrival order is lost in a segment exactly when a request overtakes. */
  lemma OrderLostIff(s: State, e: Event)
    requires InOrder(s) && Numbered(s) && Enabled(s, e)
    ensures Overtakes(s, e) <==> !InOrder(Step(s, e))
  {
    var t := Step(s, e);
    match e
    case Receive(d, x) => ReceiveOrder(s, Request(|s.received|, d, x));
    case Drain(_, handlerOk) =>
      Shrink(s.handed, s.pending, HandedOver(|s.pending|, handlerOk), |s.received|);
      assert t.handed + [] == t.handed;
    case Fallback =>
      Shrink(s.handed, s.pending, 0, |s.received|);
      assert s.pending[..0] == [];
    case _ =>
      assert t.handed + t.pending == s.handed + s.pending;
  }

  ghost predicate InOrderThroughout(es: seq<Event>)
    requires ValidRun(es)
    decreases |es|
  {
    InOrder(Exec(es)) && (es == [] || InOrderThroughout(es[..|es| - 1]))
  }

  ghost predicate OvertakesSomewhere(es: seq<Event>)
    requires ValidRun(es)
    decreases |es|
  {
    es != [] && (var n := |es| - 1; OvertakesSomewhere(es[..n]) || Overtakes(Exec(es[..n]), es[n]))
  }

  lemma {:induction false} RunKeepsNumbered(es: seq<Event>)
    requires ValidRun(es)
    ensures Numbered(Exec(es))
  {
    if es != [] {
      RunKeepsNumbered(es[..|es| - 1]);
      StepKeepsNumbered(Exec(es[..|es| - 1]), es[|es| - 1]);
    }
  }

  /** Requests reach the handler and the queue in order of arrival throughout a run
      exactly when none of them arrives while others wait and the upstream channel
      is not being opened. */
  lemma {:induction false} ArrivalOrderIff(es: seq<Event>)
    requires ValidRun(es)
    ensures InOrderThroughout(es) <==> !OvertakesSomewhere(es)
    decreases |es|
  {
    if es != [] {
      var n := |es| - 1;
      ArrivalOrderIff(es[..n]);
      RunKeepsNumbered(es[..n]);
      hide InOrder, Overtakes, Numbered;
      if InOrderThroughout(es[..n]) {
        OrderLostIff(Exec(es[..n]), es[n]);
      }
    }
  }

  // The queue alone: in order whenever NoChannel is entered with nothing queued.

  /** NoChannel is entered with requests queued. */
  ghost predicate EntersWithQueue(s: State, e: Event) {
    s.pending != [] && ((e.MainSets? && e.upstream.NoChannel?) || (e.Opened? && !e.factoryOk))
  }

  ghost predicate CleanEntries(es: seq<Event>)
    requires ValidRun(es)
    decreases |es|
  {
    es == [] || (var n := |es| - 1; CleanEntries(es[..n]) && !EntersWithQueue(Exec(es[..n]), es[n]))
  }

  ghost predicate QueueOk(s: State) {
    && Ordered(s.pending)
    && (s.upstream.NoChannel? && !s.control.Claiming? ==> s.pending == [])
    && (s.control.Claiming? ==> s.pending != [])
  }

  lemma PendingNumbered(s: State)
    requires Numbered(s)
    ensures Before(s.pending, |s.received|)
  {
    var q := s.handed + s.pending;
    assert forall i :: 0 <= i < |s.pending| ==> s.pending[i] == q[|s.handed| + i];
  }

  lemma StepKeepsQueue(s: State, e: Event)
    requires QueueOk(s) && Numbered(s) && Enabled(s, e) && !EntersWithQueue(s, e)
    ensures QueueOk(Step(s, e))
  {
    if e.Receive? {
      PendingNumbered(s);
      Extend(s.pending, Request(|s.received|, e.downstream, e.extended));
    }
  }

  /** Pending requests keep their order of arrival in every run in which NoChannel
      is entered only with an empty queue. */
  lemma {:induction false} PendingKeepsOrder(es: seq<Event>)
    requires ValidRun(es) && CleanEntries(es)
    ensures QueueOk(Exec(es))
  {
    if es != [] {
      PendingKeepsOrder(es[..|es| - 1]);
      RunKeepsNumbered(es[..|es| - 1]);
      StepKeepsQueue(Exec(es[..|es| - 1]), es[|es| - 1]);
    }
  }

  // ---------------------------------------------------------- counterexamples

  ghost predicate Reachable(s: State) {
    exists es :: ValidRun(es) && Exec(es) == s
  }

  lemma Reached(s: State, e: Event)
    requires Reachable(s) && Enabled(s, e)
    ensures Reachable(Step(s, e))
  {
    var es :| ValidRun(es) && Exec(es) == s;
    var fs := es + [e];
    assert fs[..|fs| - 1] == es;
    assert ValidRun(fs) && Exec(fs) == Step(s, e);
  }

  lemma InitReachable()
    ensures Reachable(Init)
  {
    assert ValidRun([]) && Exec([]) == Init;
  }

  const First := Request(0, 7, true)
  const Second := Request(1, 8, false)

  /** Two requests are queued; the handler fails on the first of them. */
  lemma SecondRequestIsLost()
    ensures exists s :: Reachable(s) && s.control.Idle? && s.dropped == [Second] && s.received == [First, Second]
  {
    InitReachable();
    Reached(Init, MainSets(NoChannel));
    var s1 := Step(Init, MainSets(NoChannel));
    Reached(s1, Receive(7, true));
    var s2 := Step(s1, Receive(7, true));
    Reached(s2, Claim(true));
    var s3 := Step(s2, Claim(true));
    Reached(s3, Receive(8, false));
    var s4 := Step(s3, Receive(8, false));
    assert s4.pending == [First, Second] && s4.received == [First, Second];
    Reached(s4, Opened(true));
    var s5 := Step(s4, Opened(true));
    var fails := (i: nat) => false;
    Reached(s5, Drain(true, fails));
    assert HandedOver(2, fails) == 1;
    assert s5.pending[1..] == [Second];
    assert Step(s5, Drain(true, fails)).dropped == [Second];
  }

  /** A refused upstream channel re-enters NoChannel with one request queued; the
      next one overtakes it. */
  lemma SecondRequestOvertakes()
    ensures exists s :: Reachable(s) && s.pending == [Second, First]
  {
    InitReachable();
    Reached(Init, MainSets(NoChannel));
    var s1 := Step(Init, MainSets(NoChannel));
    Reached(s1, Receive(7, true));
    var s2 := Step(s1, Receive(7, true));
    Reached(s2, Claim(true));
    var s3 := Step(s2, Claim(true));
    Reached(s3, Opened(false));
    var s4 := Step(s3, Opened(false));
    assert s4.pending == [First] && s4.received == [First];
    Reached(s4, Receive(8, false));
    assert Step(s4, Receive(8, false)).pending == [Second, First];
  }

  // --------------------------------------------------------------- the object

  /** `AtomicUpstreamState`. */
  class AtomicUpstreamState {
    var inner: nat     // AtomicU8

    static function Code(u: UpstreamState): nat {
      match u case NoChannel => 0 case Pending => 1 case Connected => 2 case SoloMining => 3
    }

    ghost predicate Holds(u: UpstreamState)
      reads this
    {
      inner == Code(u)
    }

    constructor (u: UpstreamState)
      ensures Holds(u)
    {
      inner := Code(u);
    }

    method Get(ghost now: UpstreamState) returns (u: UpstreamState)
      requires Holds(now)
      ensures u == now
    {
      u := if inner == 0 then NoChannel else if inner == 1 then Pending else if inner == 2 then Connected else SoloMining;
    }

    method Set(u: UpstreamState)
      modifies this
      ensures Holds(u)
    {
      inner := Code(u);
    }

    /** Sets `next` exactly when the state is `current`. */
    method CompareAndSet(current: UpstreamState, next: UpstreamState, ghost now: UpstreamState) returns (ok: bool)
      requires Holds(now)
      modifies this
      ensures ok == (now == current)
      ensures Holds(if ok then next else now)
    {
      ok := inner == Code(current);
      if ok {
        inner := Code(next);
      }
    }
  }

  /** The part of the channel manager that opens the upstream channel. Every
      method is one segment and moves the model by its step. */
  class OpeningMachine {
    const upstreamState: AtomicUpstreamState
    var pendingDownstreamRequests: seq<Request>
    ghost var model: State

    ghost predicate Valid()
      reads this, upstreamState
    {
      upstreamState.Holds(model.upstream) && pendingDownstreamRequests == model.pending
    }

    constructor ()
      ensures Valid() && model == Init && fresh(upstreamState)
    {
      upstreamState := new AtomicUpstreamState(SoloMining);
      pendingDownstreamRequests := [];
      model := Init;
    }

    /** `handle_downstream_message` for an open request, up to the claim;
        `forward` says that the request goes straight to the mining handler. */
    method HandleOpenRequest(r: Request) returns (forward: bool, claim: bool)
      requires Valid() && model.control.Idle?
      modifies this`pendingDownstreamRequests, this`model
      ensures Valid() && model == OnReceive(old(model), r)
      ensures claim == model.control.Claiming?
      ensures forward <==> model.handed == old(model).handed + [r]
    {
      forward, claim := false, false;
      var u := upstreamState.Get(model.upstream);
      model := OnReceive(model, r);
      match u
      case NoChannel =>
        pendingDownstreamRequests := [r] + pendingDownstreamRequests;
        claim := true;
      case Pending =>
        pendingDownstreamRequests := pendingDownstreamRequests + [r];
      case Connected =>
        forward := true;
      case SoloMining =>
        forward := true;
    }

    /** The compare-and-set and, when it succeeds, the one upstream open. */
    method ClaimChannel(sendOk: bool) returns (sent: nat)
      requires Valid() && model.control.Claiming?
      modifies upstreamState, this`model
      ensures Valid() && model == OnClaim(old(model), sendOk) && model.opens == old(model).opens + sent
      ensures sent == (if old(model).upstream.NoChannel? && sendOk then 1 else 0)
    {
      var won := upstreamState.CompareAndSet(NoChannel, Pending, model.upstream);
      sent := if won && sendOk then 1 else 0;
      model := OnClaim(model, sendOk);
    }

    /** `handle_open_extended_mining_channel_success` up to reading the state back. */
    method ChannelOpened(factoryOk: bool) returns (close: bool)
      requires Valid() && model.control.Idle?
      modifies upstreamState, this`model
      ensures Valid() && model == OnOpened(old(model), factoryOk)
      ensures close <==> model.upstream.NoChannel?
    {
      model := OnOpened(model, factoryOk);
      close := pendingDownstreamRequests == [] || !factoryOk;
      upstreamState.Set(if close then NoChannel else Connected);
    }

    /** Takes the queue and hands it over until the handler fails. */
    method DrainPending(ready: bool, handlerOk: nat -> bool) returns (handed: seq<Request>)
      requires Valid() && model.control.Draining?
      modifies this`pendingDownstreamRequests, this`model
      ensures Valid() && model == OnDrain(old(model), ready, handlerOk)
      ensures model.handed == old(model).handed + handed
    {
      handed := [];
      var u := upstreamState.Get(model.upstream);
      model := OnDrain(model, ready, handlerOk);
      if u != Connected || !ready {
        return;
      }
      var taken := pendingDownstreamRequests;
      pendingDownstreamRequests := [];
      var i := 0;
      while i < |taken|
        invariant 0 <= i <= |taken| && handed == taken[..i]
        invariant forall j :: 0 <= j < i ==> handlerOk(j)
      {
        handed := handed + [taken[i]];
        i := i + 1;
        if !handlerOk(i - 1) {
          break;
        }
      }
    }

    /** The fallback arm: solo mining and `reset`. */
    method FallBack()
      requires Valid() && model.control.Idle?
      modifies upstreamState, this`pendingDownstreamRequests, this`model
      ensures Valid() && model == OnFallback(old(model)) && pendingDownstreamRequests == []
    {
      upstreamState.Set(SoloMining);
      pendingDownstreamRequests := [];
      model := OnFallback(model);
    }
  }
}
