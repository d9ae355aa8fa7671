/** What every run of the channel manager keeps. */
module JdcChannelsSafety {
  import opened Common
  import opened Bytes
  import opened JdcChannels

  // ------------------------------------------------------- channels and vardiff

  ghost predicate Has(s: Data, k: Key) {
    HasChannel(s, k.downstream, k.channel, false) || HasChannel(s, k.downstream, k.channel, true)
  }

  /** Every open channel has a vardiff entry. */
  ghost predicate Covered(s: Data) {
    forall k :: Has(s, k) ==> k in s.vardiff
  }

  /** The vardiff entries are exactly those of the open channels. */
  ghost predicate Agrees(s: Data) {
    forall k :: Has(s, k) <==> k in s.vardiff
  }

  /** Ids are handed out once. */
  ghost predicate IdsOk(s: Data) {
    && (s.accepting.Some? ==> s.accepting.value < s.downstreamIdFactory && s.accepting.value !in s.downstreams)
    && (forall d <- s.downstreams :: d < s.downstreamIdFactory)
  }

  /** One step as seen by channels and vardiff entries. */
  ghost predicate Changes(s: Data, t: Data, added: set<Key>, removed: set<Key>) {
    && (forall k :: Has(t, k) ==> Has(s, k) || k in added)
    && (forall k :: Has(s, k) && k !in removed ==> Has(t, k))
    && (forall k <- removed :: !Has(t, k) || k in added)
    && (forall k <- added :: Has(t, k))
    && (forall k :: k in t.vardiff <==> k in added || (k in s.vardiff && k !in removed))
  }

  lemma ChangeKeepsCover(s: Data, t: Data, added: set<Key>, removed: set<Key>)
    requires Covered(s) && Changes(s, t, added, removed)
    ensures Covered(t)
  {
  }

  lemma ChangeKeepsAgreement(s: Data, t: Data, added: set<Key>, removed: set<Key>)
    requires Agrees(s) && Changes(s, t, added, removed)
    ensures Agrees(t)
  {
  }

  ghost predicate SameChannels(x: Downstream, y: Downstream) {
    x.standard == y.standard && x.extended == y.extended
  }

  /** What an open that does not succeed leaves alone: all channels, vardiff and jobs. */
  ghost predicate Untouched(s: Data, t: Data) {
    && t.downstreams.Keys == s.downstreams.Keys
    && (forall d <- s.downstreams :: SameChannels(s.downstreams[d], t.downstreams[d]))
    && t.vardiff == s.vardiff && t.jobs == s.jobs
  }

  lemma UntouchedChanges(s: Data, t: Data)
    requires Untouched(s, t)
    ensures Changes(s, t, {}, {})
  {
    assert forall d: nat, c: nat, x :: HasChannel(s, d, c, x) == HasChannel(t, d, c, x);
  }

  /** A successful open adds one channel of the requested kind under a key with a
      fresh vardiff entry and one job. */
  ghost predicate Added(s: Data, t: Data, k: Key, extended: bool, env: OpenEnv) {
    && HasChannel(t, k.downstream, k.channel, extended)
    && env.prefix.Some? && env.creation.Created?
    && ChannelOf(t, k.downstream, k.channel, extended)
       == Channel(env.prefix.value, env.creation.target, env.creation.hashrate)
    && (forall d: nat, c: nat, x :: (d, c, x) != (k.downstream, k.channel, extended) ==>
          (HasChannel(t, d, c, x) <==> HasChannel(s, d, c, x))
          && (HasChannel(t, d, c, x) ==> ChannelOf(t, d, c, x) == ChannelOf(s, d, c, x)))
    && t.vardiff == s.vardiff[k := 0]
    && env.template.Some? && t.jobs == s.jobs[JobKey(k.downstream, k.channel, env.job) := env.template.value]
  }

  lemma CommitAdds(s: Data, d: nat, x: Downstream, extended: bool, env: OpenEnv)
    requires d in s.downstreams && SameChannels(s.downstreams[d], x) && env.template.Some? && Works(env)
    ensures Added(s, Commit(s, d, x, extended, env), Key(d, x.channelIdFactory), extended, env)
  {
    var t := Commit(s, d, x, extended, env);
    forall e: nat, c: nat, y
      ensures (e, c, y) != (d, x.channelIdFactory, extended) ==> (HasChannel(t, e, c, y) <==> HasChannel(s, e, c, y))
      ensures (e, c, y) != (d, x.channelIdFactory, extended) && HasChannel(t, e, c, y) ==>
                ChannelOf(t, e, c, y) == ChannelOf(s, e, c, y)
    {
    }
  }

  /** An open either succeeds and adds exactly its channel, or leaves channels,
      vardiff and jobs as they were. */
  lemma OpenIsAtomic(s: Data, d: nat, extended: bool, env: OpenEnv)
    ensures
      var t, outcome := Open(s, d, extended, env), OpenOutcomeOf(s, d, extended, env);
      if outcome.Opened? then Added(s, t, Key(d, outcome.channel), extended, env) else Untouched(s, t)
  {
    hide Commit, Added;
    if OpenOutcomeOf(s, d, extended, env).Opened? {
      CommitAdds(s, d, Prepared(s.downstreams[d], extended, env.groupOk), extended, env);
    }
  }

  lemma OpenChanges(s: Data, d: nat, extended: bool, env: OpenEnv)
    ensures
      var outcome := OpenOutcomeOf(s, d, extended, env);
      Changes(s, Open(s, d, extended, env), if outcome.Opened? then {Key(d, outcome.channel)} else {}, {})
  {
    hide Open, OpenOutcomeOf, HasChannel;
    var t, outcome := Open(s, d, extended, env), OpenOutcomeOf(s, d, extended, env);
    OpenIsAtomic(s, d, extended, env);
    if outcome.Opened? {
      var key := Key(d, outcome.channel);
      forall k ensures k != key ==> (Has(t, k) <==> Has(s, k)) {
      }
    } else {
      UntouchedChanges(s, t);
    }
  }

  lemma CloseChanges(s: Data, d: nat, c: nat)
    ensures Changes(s, Close(s, d, c), {}, if d in s.downstreams then {Key(d, c)} else {})
  {
    var t := Close(s, d, c);
    forall e: nat, b: nat, x ensures HasChannel(t, e, b, x) <==> HasChannel(s, e, b, x) && (e, b) != (d, c) {
    }
  }

  lemma RemoveCovers(s: Data, d: nat)
    ensures Covered(s) ==> Covered(Remove(s, d))
    ensures Agrees(s) ==> Agrees(Remove(s, d))
  {
    var t := Remove(s, d);
    forall e: nat, b: nat, x ensures HasChannel(t, e, b, x) <==> HasChannel(s, e, b, x) && e != d {
    }
  }

  lemma RegisterCovers(s: Data, d: nat, r: bool)
    ensures Covered(s) ==> Covered(Register(s, d, r))
    ensures Agrees(s) && d !in s.downstreams ==> Agrees(Register(s, d, r))
  {
    var t := Register(s, d, r);
    forall e: nat, b: nat, x ensures HasChannel(t, e, b, x) <==> HasChannel(s, e, b, x) && e != d {
    }
  }

  lemma SubmitChanges(s: Data, e: Event)
    requires e.SubmitShare?
    ensures Changes(s, Step(s, e), {}, {})
  {
    var t := Step(s, e);
    assert t.downstreams == s.downstreams && t.vardiff.Keys == s.vardiff.Keys;
    forall d: nat, b: nat, x ensures HasChannel(t, d, b, x) <==> HasChannel(s, d, b, x) {
    }
  }

  lemma PrefixChanges(s: Data, prefix: seq<Byte>, factoryOk: bool, assign: Assignment)
    ensures Changes(s, SetPrefix(s, prefix, factoryOk, assign), {}, {})
  {
    var t := SetPrefix(s, prefix, factoryOk, assign);
    forall d: nat, b: nat, x ensures HasChannel(t, d, b, x) <==> HasChannel(s, d, b, x) {
    }
  }

  /** A step that is neither a connection, a removal nor a reset. */
  lemma PlainChanges(s: Data, e: Event) returns (added: set<Key>, removed: set<Key>)
    requires Enabled(s, e) && !(e.Registered? || e.RemoveDownstream? || e.ResetAll?)
    ensures Changes(s, Step(s, e), added, removed)
  {
    hide Changes, Open, Close, SetPrefix;
    added, removed := {}, {};
    match e
    case OpenChannel(d, extended, env) =>
      OpenChanges(s, d, extended, env);
      var outcome := OpenOutcomeOf(s, d, extended, env);
      added := if outcome.Opened? then {Key(d, outcome.channel)} else {};
    case CloseChannel(d, c) =>
      CloseChanges(s, d, c);
      removed := if d in s.downstreams then {Key(d, c)} else {};
    case SubmitShare(_, _, _, _, _, _, _) => SubmitChanges(s, e);
    case PrefixSet(prefix, factoryOk, assign) => PrefixChanges(s, prefix, factoryOk, assign);
    case Accept => SameDownstreams(s, Step(s, e));
    case UpstreamOpened(_) => SameDownstreams(s, Step(s, e));
    case UpstreamClosed => SameDownstreams(s, Step(s, e));
    case NewJobs(_, _) => SameDownstreams(s, Step(s, e));
  }

  lemma SameDownstreams(s: Data, t: Data)
    requires t.downstreams == s.downstreams && t.vardiff == s.vardiff
    ensures Changes(s, t, {}, {})
  {
    assert forall d: nat, c: nat, x :: HasChannel(s, d, c, x) == HasChannel(t, d, c, x);
  }

  lemma StepKeepsCover(s: Data, e: Event)
    requires Covered(s) && Enabled(s, e)
    ensures Covered(Step(s, e))
  {
    hide Covered, Register, Remove;
    match e
    case Registered(d, r) => RegisterCovers(s, d, r);
    case RemoveDownstream(d) => RemoveCovers(s, d);
    case ResetAll => ResetCovers(s);
    case _ =>
      var added, removed := PlainChanges(s, e);
      ChangeKeepsCover(s, Step(s, e), added, removed);
  }

  lemma ResetCovers(s: Data)
    ensures Covered(Reset(s))
  {
  }

  lemma StepKeepsIds(s: Data, e: Event)
    requires IdsOk(s) && Enabled(s, e) && !e.ResetAll?
    ensures IdsOk(Step(s, e))
  {
    hide SubmitOutcome, Commit;
    match e
    case OpenChannel(d, extended, env) =>
      hide Open;
      OpenKeepsIds(s, d, extended, env);
    case _ =>
  }

  lemma OpenKeepsIds(s: Data, d: nat, extended: bool, env: OpenEnv)
    ensures
      var t := Open(s, d, extended, env);
      && t.downstreams.Keys == s.downstreams.Keys && t.accepting == s.accepting
      && t.downstreamIdFactory == s.downstreamIdFactory
  {
    hide Prepared, Taken, Works, GroupFails;
  }

  lemma StepKeepsAgreement(s: Data, e: Event)
    requires Agrees(s) && IdsOk(s) && Enabled(s, e) && !e.ResetAll?
    ensures Agrees(Step(s, e))
  {
    hide Agrees, Register, Remove;
    if e.Registered? {
      RegisterCovers(s, e.d, e.requireStdJob);
    } else if e.RemoveDownstream? {
      RemoveCovers(s, e.d);
    } else {
      var added, removed := PlainChanges(s, e);
      ChangeKeepsAgreement(s, Step(s, e), added, removed);
    }
  }

  /** In every run, resets included, each open channel of each registered
      downstream has its vardiff entry. */
  lemma {:induction false} ChannelsAreCovered(es: seq<Event>)
    requires ValidRun(es)
    ensures Covered(Exec(es))
  {
    if es != [] {
      ChannelsAreCovered(es[..|es| - 1]);
      StepKeepsCover(Exec(es[..|es| - 1]), es[|es| - 1]);
    }
  }

  /** So no share submission ends in VardiffNotFound. */
  lemma VardiffIsFound(es: seq<Event>, e: Event)
    requires ValidRun(es) && e.SubmitShare?
    ensures SubmitOutcome(Exec(es), e.d, e.c, e.extended, e.share, e.hasPrevHash, e.validity, e.verdict) != VardiffNotFound
  {
    ChannelsAreCovered(es);
    var s := Exec(es);
    assert HasChannel(s, e.d, e.c, e.extended) ==> Has(s, Key(e.d, e.c));
  }

  /** Without a reset the vardiff entries are exactly those of the open channels. */
  lemma {:induction false} MapsAgree(es: seq<Event>)
    requires ValidRun(es) && forall e <- es :: !e.ResetAll?
    ensures Agrees(Exec(es)) && IdsOk(Exec(es))
  {
    if es == [] {
      assert forall k :: !Has(Init, k);
    } else {
      MapsAgree(es[..|es| - 1]);
      StepKeepsAgreement(Exec(es[..|es| - 1]), es[|es| - 1]);
      StepKeepsIds(Exec(es[..|es| - 1]), es[|es| - 1]);
    }
  }

  /** A step that leaves vardiff entries without their channels: a reset with
      channels open, or a connection registered over one with channels open. */
  ghost predicate Orphans(s: Data, e: Event) {
    || (e.ResetAll? && exists k :: Has(s, k))
    || (e.Registered? && exists c: nat :: Has(s, Key(e.d, c)))
  }

  lemma RegisterAgreesIff(s: Data, d: nat, r: bool)
    requires Agrees(s)
    ensures Agrees(Register(s, d, r)) <==> forall c: nat :: !Has(s, Key(d, c))
  {
    var t := Register(s, d, r);
    forall e: nat, b: nat, x ensures HasChannel(t, e, b, x) <==> HasChannel(s, e, b, x) && e != d {
    }
    assert t.vardiff == s.vardiff;
    if Agrees(t) {
      forall c: nat ensures !Has(s, Key(d, c)) {
        assert !Has(t, Key(d, c));
      }
    } else {
      var k :| !(Has(t, k) <==> k in t.vardiff);
      assert Has(s, k) && k == Key(d, k.channel);
    }
  }

  lemma ResetAgreesIff(s: Data)
    requires Agrees(s)
    ensures Agrees(Reset(s)) <==> forall k :: !Has(s, k)
  {
    assert forall k :: !Has(Reset(s), k);
  }

  /** The vardiff entries stop being exactly those of the open channels exactly
      when a step orphans some. */
  lemma AgreementIff(s: Data, e: Event)
    requires Agrees(s) && Enabled(s, e)
    ensures Orphans(s, e) <==> !Agrees(Step(s, e))
  {
    hide Agrees, Register, Remove, Reset, Has;
    if e.Registered? {
      RegisterAgreesIff(s, e.d, e.requireStdJob);
    } else if e.RemoveDownstream? {
      RemoveCovers(s, e.d);
    } else if e.ResetAll? {
      ResetAgreesIff(s);
    } else {
      var added, removed := PlainChanges(s, e);
      ChangeKeepsAgreement(s, Step(s, e), added, removed);
    }
  }

  ghost predicate AgreesThroughout(es: seq<Event>)
    requires ValidRun(es)
    decreases |es|
  {
    Agrees(Exec(es)) && (es == [] || AgreesThroughout(es[..|es| - 1]))
  }

  ghost predicate OrphansSomewhere(es: seq<Event>)
    requires ValidRun(es)
    decreases |es|
  {
    es != [] && (var n := |es| - 1; OrphansSomewhere(es[..n]) || Orphans(Exec(es[..n]), es[n]))
  }

  /** The two maps agree throughout a run exactly when no step of it orphans an
      entry; by MapsAgree none does without a reset. */
  lemma {:induction false} AlwaysAgreesIff(es: seq<Event>)
    requires ValidRun(es)
    ensures AgreesThroughout(es) <==> !OrphansSomewhere(es)
    decreases |es|
  {
    if es == [] {
      assert forall k :: !Has(Init, k);
    } else {
      var n := |es| - 1;
      hide Agrees, Orphans, Step, Enabled;
      AlwaysAgreesIff(es[..n]);
      if AgreesThroughout(es[..n]) {
        AgreementIff(Exec(es[..n]), es[n]);
      }
    }
  }

  // ------------------------------------------------------------- channel ids

  /** All ids a downstream has in use were taken from its factory. */
  ghost predicate IdsBelow(x: Downstream) {
    && (forall c <- x.standard :: c < x.channelIdFactory && c !in x.extended)
    && (forall c <- x.extended :: c < x.channelIdFactory)
    && (x.group.Some? ==> x.group.value < x.channelIdFactory && x.group.value !in x.standard && x.group.value !in x.extended)
  }

  ghost predicate AllBelow(s: Data) {
    forall d <- s.downstreams :: IdsBelow(s.downstreams[d])
  }

  /** The 32-bit factory of the downstream has ids left for this open. */
  ghost predicate Room(s: Data, e: Event) {
    e.OpenChannel? && e.d in s.downstreams ==> s.downstreams[e.d].channelIdFactory + 2 < U32
  }

  ghost predicate RoomyRun(es: seq<Event>)
    requires ValidRun(es)
    decreases |es|
  {
    es == [] || (var n := |es| - 1; RoomyRun(es[..n]) && Room(Exec(es[..n]), es[n]))
  }

  lemma OpenKeepsBelow(s: Data, d: nat, extended: bool, env: OpenEnv)
    requires AllBelow(s) && (d in s.downstreams ==> s.downstreams[d].channelIdFactory + 2 < U32)
    ensures AllBelow(Open(s, d, extended, env))
  {
    hide IdsBelow, Prepared, WithChannel, Taken, Works;
    var t := Open(s, d, extended, env);
    forall e <- t.downstreams ensures IdsBelow(t.downstreams[e]) {
      assert e in s.downstreams && (e != d ==> t.downstreams[e] == s.downstreams[e]);
      if e == d {
        OpenOneBelow(s, d, extended, env);
      }
    }
  }

  lemma OpenOneBelow(s: Data, d: nat, extended: bool, env: OpenEnv)
    requires d in s.downstreams && IdsBelow(s.downstreams[d]) && s.downstreams[d].channelIdFactory + 2 < U32
    ensures d in Open(s, d, extended, env).downstreams && IdsBelow(Open(s, d, extended, env).downstreams[d])
  {
    hide IdsBelow, Prepared, WithChannel, Taken, SameChannels;
    PreparedBelow(s.downstreams[d], extended, env.groupOk);
    var x := Prepared(s.downstreams[d], extended, env.groupOk);
    TakenBelow(x);
    if Works(env) {
      WithChannelBelow(x, extended, Channel(env.prefix.value, env.creation.target, env.creation.hashrate));
    }
  }

  lemma TakenBelow(x: Downstream)
    requires IdsBelow(x) && x.channelIdFactory + 1 < U32
    ensures IdsBelow(Taken(x))
  {
  }

  lemma WithChannelBelow(x: Downstream, extended: bool, channel: Channel)
    requires IdsBelow(x) && x.channelIdFactory + 1 < U32
    ensures IdsBelow(WithChannel(x, extended, channel))
  {
  }

  lemma PreparedBelow(x: Downstream, extended: bool, groupOk: bool)
    requires IdsBelow(x) && x.channelIdFactory + 2 < U32
    ensures
      var y := Prepared(x, extended, groupOk);
      IdsBelow(y) && SameChannels(x, y) && x.channelIdFactory <= y.channelIdFactory <= x.channelIdFactory + 1
  {
  }

  lemma StepKeepsBelow(s: Data, e: Event)
    requires AllBelow(s) && Enabled(s, e) && Room(s, e)
    ensures AllBelow(Step(s, e))
  {
    hide IdsBelow, Open;
    match e
    case OpenChannel(d, extended, env) => OpenKeepsBelow(s, d, extended, env);
    case CloseChannel(d, c) => if d in s.downstreams { CloseKeepsBelow(s.downstreams[d], c); }
    case Registered(_, r) => EmptyBelow(r);
    case PrefixSet(prefix, factoryOk, assign) => PrefixKeepsBelow(s, prefix, factoryOk, assign);
    case _ =>
  }

  lemma CloseKeepsBelow(x: Downstream, c: nat)
    requires IdsBelow(x)
    ensures IdsBelow(x.(standard := x.standard - {c}, extended := x.extended - {c}))
  {
  }

  lemma EmptyBelow(r: bool)
    ensures IdsBelow(Downstream(map[], map[], 0, None, r))
  {
  }

  lemma PrefixKeepsBelow(s: Data, prefix: seq<Byte>, factoryOk: bool, assign: Assignment)
    requires AllBelow(s)
    ensures AllBelow(SetPrefix(s, prefix, factoryOk, assign))
  {
    var t := SetPrefix(s, prefix, factoryOk, assign);
    forall d <- t.downstreams ensures IdsBelow(t.downstreams[d]) {
      var x, y := s.downstreams[d], t.downstreams[d];
      assert y.standard.Keys == x.standard.Keys && y.extended.Keys == x.extended.Keys;
    }
  }

  lemma {:induction false} RoomyRunBelow(es: seq<Event>)
    requires ValidRun(es) && RoomyRun(es)
    ensures AllBelow(Exec(es))
  {
    if es != [] {
      RoomyRunBelow(es[..|es| - 1]);
      StepKeepsBelow(Exec(es[..|es| - 1]), es[|es| - 1]);
    }
  }

  /** Until a downstream's 32-bit factory is used up, an open never replaces an
      open channel of either kind, nor takes the id of the group channel. */
  lemma OpenNeverReplaces(es: seq<Event>, d: nat, extended: bool, env: OpenEnv)
    requires ValidRun(es) && RoomyRun(es) && Room(Exec(es), OpenChannel(d, extended, env))
    ensures
      var s, outcome := Exec(es), OpenOutcomeOf(Exec(es), d, extended, env);
      outcome.Opened? ==> !Has(s, Key(d, outcome.channel)) && s.downstreams[d].group != Some(outcome.channel)
  {
    RoomyRunBelow(es);
    var s := Exec(es);
    if OpenOutcomeOf(s, d, extended, env).Opened? {
      PreparedBelow(s.downstreams[d], extended, env.groupOk);
    }
  }

  // -------------------------------------------------------------------- shares

  /** What can be said of one forwarded share: the upstream coinbase carries the
      downstream extranonce exactly when the upstream prefix is a prefix of it,
      and then PushSolution carries it too. */
  ghost predicate Translated(f: Forward) {
    && (f.up + f.extranonce == f.full <==> f.up <= f.full)
    && (f.solution.Some? && f.up <= f.full ==> f.solution.value == f.full)
    && (f.solution.Some? ==> |f.solution.value| == |f.full|)
    && (f.delivered <==> f.solution.None? || |f.full| <= MAX_EXTRANONCE)
  }

  lemma MakeForwardTranslates(s: Data, job: nat, up: seq<Byte>, prefix: seq<Byte>, extended: bool, share: Share, block: bool)
    requires |up| <= |prefix|
    ensures Translated(MakeForward(s, job, up, prefix, extended, share, block))
  {
    var f := MakeForward(s, job, up, prefix, extended, share, block);
    assert f.full == f.full[..|up|] + f.extranonce;
    assert f.full[..|up|] == prefix[..|up|];
  }

  /** Numbers are assigned consecutively modulo 2^32 from 0. */
  ghost predicate Numbered(s: Data) {
    && s.sequenceNumber == |s.forwarded| % U32
    && (forall i :: 0 <= i < |s.forwarded| ==> s.forwarded[i].number == i % U32)
    && (forall i :: 0 <= i < |s.forwarded| ==> Translated(s.forwarded[i]))
  }

  lemma SubmitKeepsNumbers(s: Data, e: Event)
    requires Numbered(s) && e.SubmitShare?
    ensures Numbered(Step(s, e))
  {
    hide Translated, MakeForward;
    if Step(s, e).forwarded != s.forwarded {
      var prefix, counted := ChannelOf(s, e.d, e.c, e.extended).prefix, CountShare(s, Key(e.d, e.c));
      var job := UpstreamJob(s, JobKey(e.d, e.c, e.share.job)).value;
      MakeForwardTranslates(counted, job, s.upstream.value, prefix, e.extended, e.share, e.verdict.UpstreamBlock?);
      MakeForwardNumber(counted, job, s.upstream.value, prefix, e.extended, e.share, e.verdict.UpstreamBlock?);
    }
  }

  lemma MakeForwardNumber(s: Data, job: nat, up: seq<Byte>, prefix: seq<Byte>, extended: bool, share: Share, block: bool)
    requires |up| <= |prefix|
    ensures
      var f := MakeForward(s, job, up, prefix, extended, share, block);
      f.number == s.sequenceNumber && f.up == up && f.full == FullExtranonce(prefix, extended, share)
  {
  }

  lemma StepKeepsNumbers(s: Data, e: Event)
    requires Numbered(s) && Enabled(s, e)
    ensures Numbered(Step(s, e))
  {
    match e
    case SubmitShare(_, _, _, _, _, _, _) => SubmitKeepsNumbers(s, e);
    case _ =>
      assert Step(s, e).forwarded == s.forwarded && Step(s, e).sequenceNumber == s.sequenceNumber;
  }

  /** In every run, resets included, the i-th upstream-valid share has sequence
      number i modulo 2^32 and is translated as Translated says. */
  lemma {:induction false} SharesAreNumbered(es: seq<Event>)
    requires ValidRun(es)
    ensures Numbered(Exec(es))
  {
    if es != [] {
      SharesAreNumbered(es[..|es| - 1]);
      StepKeepsNumbers(Exec(es[..|es| - 1]), es[|es| - 1]);
    }
  }

  // ---------------------------------------------------------- upstream prefixes

  ghost predicate AllExtend(s: Data, up: seq<Byte>) {
    forall d: nat, c: nat, x :: HasChannel(s, d, c, x) ==> up <= ChannelOf(s, d, c, x).prefix
  }

  /** With an upstream channel, all downstream prefixes extend its prefix, and so
      did the prefixes behind every share forwarded so far. */
  ghost predicate Aligned(s: Data) {
    && (s.upstream.Some? ==> s.factoryPrefix == s.upstream.value && AllExtend(s, s.upstream.value))
    && (forall i :: 0 <= i < |s.forwarded| ==> s.forwarded[i].up <= s.forwarded[i].full)
  }

  /** The upstream prefix changes only where the open channels follow it: a new
      upstream channel finds every open one extending its prefix; a new prefix
      reaches every channel that does not extend it anyway, and one for which the
      factories cannot be rebuilt is the old one. */
  ghost predicate Settled(s: Data, e: Event) {
    match e
    case UpstreamOpened(prefix) => AllExtend(s, prefix)
    case PrefixSet(prefix, factoryOk, assign) =>
      || s.upstream.None?
      || (if factoryOk then Follows(s, prefix, assign) else s.upstream.value == prefix)
    case _ => true
  }

  ghost predicate Follows(s: Data, prefix: seq<Byte>, assign: Assignment) {
    forall d: nat, c: nat, x ::
      HasChannel(s, d, c, x) && assign(Key(d, c), x).None? ==> prefix <= ChannelOf(s, d, c, x).prefix
  }

  ghost predicate SettledRun(es: seq<Event>)
    requires ValidRun(es)
    decreases |es|
  {
    es == [] || (var n := |es| - 1; SettledRun(es[..n]) && Settled(Exec(es[..n]), es[n]))
  }

  /** No channel of t is new against s, and none changed its prefix. */
  lemma SubsetExtends(s: Data, t: Data, up: seq<Byte>)
    requires AllExtend(s, up)
    requires forall d: nat, c: nat, x :: HasChannel(t, d, c, x) ==>
               HasChannel(s, d, c, x) && ChannelOf(t, d, c, x).prefix == ChannelOf(s, d, c, x).prefix
    ensures AllExtend(t, up)
  {
  }

  lemma OpenExtends(s: Data, d: nat, extended: bool, env: OpenEnv, up: seq<Byte>)
    requires AllExtend(s, up) && (env.prefix.Some? ==> up <= env.prefix.value)
    ensures AllExtend(Open(s, d, extended, env), up)
  {
    hide Open, OpenOutcomeOf;
    var t, outcome := Open(s, d, extended, env), OpenOutcomeOf(s, d, extended, env);
    OpenIsAtomic(s, d, extended, env);
    forall e: nat, c: nat, x | HasChannel(t, e, c, x) ensures up <= ChannelOf(t, e, c, x).prefix {
      if outcome.Opened? {
        assert (e, c, x) != (d, outcome.channel, extended) ==>
          HasChannel(s, e, c, x) && ChannelOf(t, e, c, x) == ChannelOf(s, e, c, x);
      } else {
        assert HasChannel(s, e, c, x) && ChannelOf(t, e, c, x) == ChannelOf(s, e, c, x);
      }
    }
  }

  lemma ReassignedPrefix(s: Data, prefix: seq<Byte>, assign: Assignment, d: nat, c: nat, x: bool)
    requires s.upstream.Some?
    ensures
      var t := SetPrefix(s, prefix, true, assign);
      && (HasChannel(t, d, c, x) <==> HasChannel(s, d, c, x))
      && (HasChannel(s, d, c, x) ==>
            ChannelOf(t, d, c, x) == ChannelOf(s, d, c, x).(prefix :=
              if assign(Key(d, c), x).Some? then assign(Key(d, c), x).value else ChannelOf(s, d, c, x).prefix))
  {
  }

  lemma PrefixExtendsIff(s: Data, prefix: seq<Byte>, assign: Assignment)
    requires s.upstream.Some? && Extending(prefix, assign)
    ensures AllExtend(SetPrefix(s, prefix, true, assign), prefix) <==> Follows(s, prefix, assign)
  {
    hide SetPrefix, HasChannel, ChannelOf;
    forall d: nat, c: nat, x
      ensures
        var t := SetPrefix(s, prefix, true, assign);
        && (HasChannel(t, d, c, x) <==> HasChannel(s, d, c, x))
        && (HasChannel(s, d, c, x) ==>
              ChannelOf(t, d, c, x).prefix
              == if assign(Key(d, c), x).Some? then assign(Key(d, c), x).value else ChannelOf(s, d, c, x).prefix)
    {
      ReassignedPrefix(s, prefix, assign, d, c, x);
    }
  }

  lemma PrefixAlignsIff(s: Data, prefix: seq<Byte>, factoryOk: bool, assign: Assignment)
    requires Aligned(s) && Extending(prefix, assign)
    ensures Aligned(SetPrefix(s, prefix, factoryOk, assign)) <==> Settled(s, PrefixSet(prefix, factoryOk, assign))
  {
    var t := SetPrefix(s, prefix, factoryOk, assign);
    assert t.forwarded == s.forwarded;
    if s.upstream.Some? {
      assert t.upstream == Some(prefix);
      if factoryOk {
        PrefixExtendsIff(s, prefix, assign);
      } else if prefix == s.upstream.value {
        SubsetExtends(s, t, prefix);
      }
    }
  }

  lemma SubmitKeepsAligned(s: Data, e: Event)
    requires Aligned(s) && e.SubmitShare?
    ensures Aligned(Step(s, e))
  {
    hide MakeForward;
    var t := Step(s, e);
    assert t.downstreams == s.downstreams && t.upstream == s.upstream && t.factoryPrefix == s.factoryPrefix;
    if s.upstream.Some? {
      SubsetExtends(s, t, s.upstream.value);
    }
    if t.forwarded != s.forwarded {
      var up, prefix := s.upstream.value, ChannelOf(s, e.d, e.c, e.extended).prefix;
      assert up <= prefix;
      MakeForwardNumber(CountShare(s, Key(e.d, e.c)), UpstreamJob(s, JobKey(e.d, e.c, e.share.job)).value, up, prefix, e.extended, e.share, e.verdict.UpstreamBlock?);
      assert prefix <= FullExtranonce(prefix, e.extended, e.share);
    }
  }

  lemma CloseKeepsAligned(s: Data, t: Data)
    requires Aligned(s) && t.forwarded == s.forwarded && t.factoryPrefix == s.factoryPrefix && t.upstream == s.upstream
    requires forall d: nat, c: nat, x :: HasChannel(t, d, c, x) ==>
               HasChannel(s, d, c, x) && ChannelOf(t, d, c, x).prefix == ChannelOf(s, d, c, x).prefix
    ensures Aligned(t)
  {
    if s.upstream.Some? {
      SubsetExtends(s, t, s.upstream.value);
    }
  }

  lemma OpenKeepsAligned(s: Data, d: nat, extended: bool, env: OpenEnv)
    requires Aligned(s) && (env.prefix.Some? ==> s.factoryPrefix <= env.prefix.value)
    ensures Aligned(Open(s, d, extended, env))
  {
    var t := Open(s, d, extended, env);
    assert t.forwarded == s.forwarded && t.upstream == s.upstream && t.factoryPrefix == s.factoryPrefix;
    if s.upstream.Some? {
      hide Open;
      OpenExtends(s, d, extended, env, s.upstream.value);
    }
  }

  /** A step keeps the prefixes aligned exactly when it is settled. */
  lemma AlignedIff(s: Data, e: Event)
    requires Aligned(s) && Enabled(s, e)
    ensures Aligned(Step(s, e)) <==> Settled(s, e)
  {
    hide Open, SetPrefix;
    match e
    case OpenChannel(d, extended, env) => OpenKeepsAligned(s, d, extended, env);
    case SubmitShare(_, _, _, _, _, _, _) => SubmitKeepsAligned(s, e);
    case UpstreamOpened(prefix) => ConnectAlignsIff(s, prefix);
    case UpstreamClosed =>
    case PrefixSet(prefix, factoryOk, assign) => PrefixAlignsIff(s, prefix, factoryOk, assign);
    case ResetAll =>
    case _ => CloseKeepsAligned(s, Step(s, e));
  }

  /** In settled runs every forwarded share preserves the coinbase: upstream
      prefix plus forwarded extranonce is the downstream channel's full
      extranonce, and PushSolution carries the same. */
  lemma {:induction false} SharesKeepCoinbase(es: seq<Event>)
    requires ValidRun(es) && SettledRun(es)
    ensures Aligned(Exec(es))
    ensures forall i :: 0 <= i < |Exec(es).forwarded| ==>
              var f := Exec(es).forwarded[i];
              f.up + f.extranonce == f.full && (f.solution.Some? ==> f.solution.value == f.full)
  {
    AlwaysAlignedIff(es);
    SharesAreNumbered(es);
  }

  ghost predicate AlignedThroughout(es: seq<Event>)
    requires ValidRun(es)
    decreases |es|
  {
    Aligned(Exec(es)) && (es == [] || AlignedThroughout(es[..|es| - 1]))
  }

  /** The prefixes stay aligned throughout a run exactly when it is settled. */
  lemma {:induction false} AlwaysAlignedIff(es: seq<Event>)
    requires ValidRun(es)
    ensures AlignedThroughout(es) <==> SettledRun(es)
    decreases |es|
  {
    if es != [] {
      var n := |es| - 1;
      AlwaysAlignedIff(es[..n]);
      hide Aligned, Settled, Step, Enabled;
      if AlignedThroughout(es[..n]) {
        AlignedIff(Exec(es[..n]), es[n]);
      }
    }
  }

  /** A new upstream channel leaves all channels aligned exactly when every open
      one already extends its prefix. */
  lemma ConnectAlignsIff(s: Data, prefix: seq<Byte>)
    requires Aligned(s)
    ensures Aligned(Connect(s, prefix)) <==> AllExtend(s, prefix)
  {
    var t := Connect(s, prefix);
    if Aligned(t) {
      SubsetExtends(t, s, prefix);
    } else if AllExtend(s, prefix) {
      SubsetExtends(s, t, prefix);
    }
  }

  /** Since the last reset no upstream channel was opened and no downstream channel
      was opened without one. */
  ghost predicate NoSoloChannel(es: seq<Event>)
    requires ValidRun(es)
    decreases |es|
  {
    es == [] ||
    (var n := |es| - 1;
     var s, e := Exec(es[..n]), es[n];
     || e.ResetAll?
     || (&& NoSoloChannel(es[..n]) && !e.UpstreamOpened?
         && !(e.OpenChannel? && s.upstream.None? && OpenOutcomeOf(s, e.d, e.extended, e.env).Opened?)))
  }

  ghost predicate NoChannels(s: Data) {
    s.upstream.None? && forall k :: !Has(s, k)
  }

  lemma StepKeepsNoChannels(s: Data, e: Event)
    requires NoChannels(s) && Enabled(s, e) && !e.UpstreamOpened?
    requires !(e.OpenChannel? && OpenOutcomeOf(s, e.d, e.extended, e.env).Opened?)
    ensures NoChannels(Step(s, e))
  {
    hide Open, OpenOutcomeOf;
    match e
    case OpenChannel(d, extended, env) =>
      OpenIsAtomic(s, d, extended, env);
      UntouchedChanges(s, Step(s, e));
      OpenKeepsUpstream(s, d, extended, env);
    case SubmitShare(_, _, _, _, _, _, _) => SubmitChanges(s, e);
    case CloseChannel(d, c) => CloseChanges(s, d, c);
    case Registered(d, r) =>
      var t := Register(s, d, r);
      forall k ensures !Has(t, k) {
        assert !Has(s, k);
      }
    case RemoveDownstream(d) =>
      var t := Remove(s, d);
      forall k ensures !Has(t, k) {
        assert !Has(s, k);
      }
    case ResetAll =>
    case Accept => SameDownstreams(s, Step(s, e));
    case UpstreamClosed => SameDownstreams(s, Step(s, e));
    case PrefixSet(_, _, _) =>
    case NewJobs(_, _) => SameDownstreams(s, Step(s, e));
  }

  lemma OpenKeepsUpstream(s: Data, d: nat, extended: bool, env: OpenEnv)
    ensures Open(s, d, extended, env).upstream == s.upstream
  {
  }

  lemma {:induction false} NoSoloNoChannels(es: seq<Event>)
    requires ValidRun(es) && NoSoloChannel(es)
    ensures NoChannels(Exec(es))
  {
    if es == [] {
      assert forall k :: !Has(Init, k);
    } else {
      var n := |es| - 1;
      var s, e := Exec(es[..n]), es[n];
      if e.ResetAll? {
        assert forall k :: !Has(Reset(s), k);
      } else {
        NoSoloNoChannels(es[..n]);
        StepKeepsNoChannels(s, e);
      }
    }
  }

  /** Why alignment is lost: an upstream channel can find a downstream channel that
      does not extend its prefix only if, since the last reset, a channel was opened
      without an upstream channel or there was an upstream channel before. */
  lemma MisalignmentHasCause(es: seq<Event>, prefix: seq<Byte>)
    requires ValidRun(es) && !AllExtend(Exec(es), prefix)
    ensures !NoSoloChannel(es)
  {
    if NoSoloChannel(es) {
      NoSoloNoChannels(es);
      var s := Exec(es);
      forall d: nat, c: nat, x ensures !HasChannel(s, d, c, x) {
        assert !Has(s, Key(d, c));
      }
    }
  }

  /** The share gets as far as translation: known channel and prev hash, counted,
      valid on the downstream channel, and an upstream channel to go to. */
  ghost predicate GetsTranslated(s: Data, e: Event) {
    && e.SubmitShare? && HasChannel(s, e.d, e.c, e.extended) && e.hasPrevHash && Key(e.d, e.c) in s.vardiff
    && e.validity != Invalid && e.validity != Block(false) && s.upstream.Some?
  }

  /** A share, block-finding or not, panics exactly when it gets as far as
      translation and the upstream prefix is longer than the channel's, or its
      upstream job is known and the translated extranonce exceeds 32 bytes. */
  lemma PanicsIff(s: Data, e: Event)
    requires e.SubmitShare?
    ensures SubmitOutcome(s, e.d, e.c, e.extended, e.share, e.hasPrevHash, e.validity, e.verdict).Panicked? <==>
      && GetsTranslated(s, e)
      && (var prefix := ChannelOf(s, e.d, e.c, e.extended).prefix;
          || |s.upstream.value| > |prefix|
          || (&& UpstreamJob(s, JobKey(e.d, e.c, e.share.job)).Some?
              && |FullExtranonce(prefix, e.extended, e.share)| > |s.upstream.value| + MAX_EXTRANONCE))
  {
  }

  // ---------------------------------------------------------- counterexamples

  ghost predicate Reachable(s: Data) {
    exists es :: ValidRun(es) && Exec(es) == s
  }

  lemma InitReachable()
    ensures Reachable(Init)
  {
    assert ValidRun([]) && Exec([]) == Init;
  }

  lemma Reached(s: Data, e: Event)
    requires Reachable(s) && Enabled(s, e)
    ensures Reachable(Step(s, e))
  {
    hide Step, Enabled;
    var es :| ValidRun(es) && Exec(es) == s;
    var fs := es + [e];
    assert fs[..|fs| - 1] == es;
    assert ValidRun(fs) && Exec(fs) == Step(s, e);
  }

  function SoloOpen(): OpenEnv {
    OpenEnv(Some(1), true, true, true, Some([0, 0, 0, 1]), Created(seq(32, _ => 255), 1.0), true, 5)
  }

  /** Registering the id in hand and opening an extended channel there. */
  lemma OpenedThere(s0: Data) returns (s: Data)
    requires Reachable(s0) && s0.accepting == Some(0) && s0.upstream.None? && s0.factoryPrefix == []
    ensures Reachable(s) && HasChannel(s, 0, 0, true) && ChannelOf(s, 0, 0, true).prefix == [0, 0, 0, 1]
    ensures Key(0, 0) in s.vardiff && JobKey(0, 0, 5) in s.jobs && s.jobs[JobKey(0, 0, 5)] == 1
    ensures s.upstream.None? && s.accepting.None? && s.forwarded == s0.forwarded
    ensures s.downstreamIdFactory == s0.downstreamIdFactory
  {
    Reached(s0, Registered(0, true));
    var s1 := Step(s0, Registered(0, true));
    assert s1.downstreams[0] == Downstream(map[], map[], 0, None, true);
    Reached(s1, OpenChannel(0, true, SoloOpen()));
    s := Step(s1, OpenChannel(0, true, SoloOpen()));
    assert Works(SoloOpen()) && Ready(s1, 0, SoloOpen());
  }

  /** After a fallback's reset, before there is an upstream channel, a connection
      that is still accepted opens a channel. */
  lemma SoloChannel() returns (s: Data)
    ensures Reachable(s) && HasChannel(s, 0, 0, true) && ChannelOf(s, 0, 0, true).prefix == [0, 0, 0, 1]
    ensures Key(0, 0) in s.vardiff && JobKey(0, 0, 5) in s.jobs && s.jobs[JobKey(0, 0, 5)] == 1
    ensures s.upstream.None? && s.forwarded == []
  {
    InitReachable();
    Reached(Init, ResetAll);
    var s1 := Step(Init, ResetAll);
    Reached(s1, Accept);
    s := OpenedThere(Step(s1, Accept));
  }

  /** After a reset a vardiff entry outlives its channel. */
  lemma StaleVardiff()
    ensures exists s :: Reachable(s) && !Agrees(s)
  {
    var s := SoloChannel();
    Reached(s, ResetAll);
    var t := Step(s, ResetAll);
    assert Key(0, 0) in t.vardiff && !Has(t, Key(0, 0));
  }

  /** A reset between handing out an id and registering it: the ids start again
      and the next connection replaces that one and its open channel. */
  lemma RegisteredOver()
    ensures exists s, e :: Reachable(s) && Enabled(s, e) && e.Registered? && Orphans(s, e)
  {
    InitReachable();
    Reached(Init, Accept);
    var s1 := Step(Init, Accept);
    Reached(s1, ResetAll);
    var s2 := OpenedThere(Step(s1, ResetAll));
    Reached(s2, Accept);
    var s3 := Step(s2, Accept);
    assert HasChannel(s3, 0, 0, true);
    assert Has(s3, Key(0, 0)) && Orphans(s3, Registered(0, true));
  }

  /** A channel opened in solo mode that is still open when the upstream channel
      arrives with a longer prefix: its next share panics on translation. */
  lemma SoloChannelPanics()
    ensures exists s :: Reachable(s) && SubmitOutcome(s, 0, 0, true, Share(5, [], Work(0, 0, 0)), true, Valid, UpstreamValid).Panicked?
  {
    var s := SoloChannel();
    Reached(s, UpstreamOpened([9, 9, 9, 9, 9]));
    var t := Step(s, UpstreamOpened([9, 9, 9, 9, 9]));
    assert t == Connect(s, [9, 9, 9, 9, 9]);
    assert HasChannel(t, 0, 0, true) && ChannelOf(t, 0, 0, true).prefix == [0, 0, 0, 1];
    assert SubmitOutcome(t, 0, 0, true, Share(5, [], Work(0, 0, 0)), true, Valid, UpstreamValid).Panicked?;
  }

  /** With a shorter upstream prefix that the channel does not extend, its share is
      forwarded with a coinbase that is not the one it was mined on. */
  lemma SoloChannelChangesCoinbase()
    ensures exists s :: Reachable(s) && s.forwarded != [] && s.forwarded[0].delivered
                        && s.forwarded[0].up + s.forwarded[0].extranonce != s.forwarded[0].full
  {
    var s := SoloChannel();
    var jobs := NewJobs(s.jobs, map[1 := 3]);
    Reached(s, jobs);
    var s1 := Step(s, jobs);
    Reached(s1, UpstreamOpened([9, 9]));
    var s2 := Step(s1, UpstreamOpened([9, 9]));
    assert HasChannel(s2, 0, 0, true) && ChannelOf(s2, 0, 0, true).prefix == [0, 0, 0, 1];
    assert UpstreamJob(s2, JobKey(0, 0, 5)) == Some(3);
    var e := SubmitShare(0, 0, true, Share(5, [], Work(0, 0, 0)), true, Valid, UpstreamValid);
    Reached(s2, e);
    var f := MakeForward(CountShare(s2, Key(0, 0)), 3, [9, 9], [0, 0, 0, 1], true, Share(5, [], Work(0, 0, 0)), false);
    assert Step(s2, e).forwarded == [f];
    assert (f.up + f.extranonce)[0] == 9 && f.full[0] == 0;
  }
}
