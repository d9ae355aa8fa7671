/** What a step of the channel manager does, observable by observable: which shares
    are forwarded and with what, which are counted, which opens succeed and with
    which ids, and what each step does to the upstream prefix and the connections. */
module JdcChannelsSteps {
  import opened Common
  import opened Bytes
  import opened JdcChannels
  import opened JdcChannelsSafety

  // -------------------------------------------------------------------- shares

  /** The share gets as far as translation, translates, has a known upstream job and
      passes upstream validation. */
  ghost predicate IsForwarded(s: Data, e: Event) {
    && GetsTranslated(s, e) && !e.verdict.UpstreamInvalid?
    && |s.upstream.value| <= |ChannelOf(s, e.d, e.c, e.extended).prefix|
    && JobKey(e.d, e.c, e.share.job) in s.jobs && s.jobs[JobKey(e.d, e.c, e.share.job)] in s.upstreamJobs
    && |FullExtranonce(ChannelOf(s, e.d, e.c, e.extended).prefix, e.extended, e.share)| <= |s.upstream.value| + 32
  }

  lemma SubmitForwardsIff(s: Data, e: Event)
    requires e.SubmitShare?
    ensures Step(s, e).forwarded != s.forwarded <==> IsForwarded(s, e)
    ensures IsForwarded(s, e) ==> |Step(s, e).forwarded| == |s.forwarded| + 1 && Step(s, e).forwarded[..|s.forwarded|] == s.forwarded
    ensures Step(s, e).sequenceNumber == (if IsForwarded(s, e) then (s.sequenceNumber + 1) % 0x1_0000_0000 else s.sequenceNumber)
  {
    hide MakeForward;
    assert forall f: Forward :: |s.forwarded + [f]| == |s.forwarded| + 1;
  }

  /** A share is forwarded, and a sequence number used, exactly then: never for a
      share that upstream validation refuses, and by no other event. */
  lemma ForwardedIff(s: Data, e: Event)
    requires Enabled(s, e)
    ensures |Step(s, e).forwarded| == |s.forwarded| + 1 <==> IsForwarded(s, e)
    ensures !IsForwarded(s, e) ==> Step(s, e).forwarded == s.forwarded && Step(s, e).sequenceNumber == s.sequenceNumber
    ensures IsForwarded(s, e) ==> Step(s, e).sequenceNumber == (s.sequenceNumber + 1) % 0x1_0000_0000
  {
    hide Submit, Open;
    match e
    case SubmitShare(_, _, _, _, _, _, _) => SubmitForwardsIff(s, e);
    case OpenChannel(d, extended, env) => OpenForwardsNothing(s, d, extended, env);
    case _ =>
  }

  lemma OpenForwardsNothing(s: Data, d: nat, extended: bool, env: OpenEnv)
    ensures
      var t := Open(s, d, extended, env);
      && t.forwarded == s.forwarded && t.sequenceNumber == s.sequenceNumber && t.upstreamJobs == s.upstreamJobs
      && t.upstream == s.upstream && t.factoryPrefix == s.factoryPrefix
      && t.accepting == s.accepting && t.downstreamIdFactory == s.downstreamIdFactory
  {
    hide WithChannel, WithGroup, Taken;
  }

  /** What is sent: the next number, the upstream job of the template behind the
      downstream job, the work as it came, the bytes of the channel's extranonce
      behind the upstream prefix; with a PushSolution exactly for a block. */
  lemma ForwardedIs(s: Data, e: Event)
    requires IsForwarded(s, e)
    ensures |Step(s, e).forwarded| > 0
    ensures
      var f := Step(s, e).forwarded[|Step(s, e).forwarded| - 1];
      var prefix := ChannelOf(s, e.d, e.c, e.extended).prefix;
      && f.number == s.sequenceNumber
      && f.job == s.upstreamJobs[s.jobs[JobKey(e.d, e.c, e.share.job)]]
      && f.work == e.share.work && f.up == s.upstream.value
      && f.full == (if e.extended then prefix + e.share.extranonce else prefix)
      && f.extranonce == f.full[|f.up|..]
      && (f.solution.Some? <==> e.verdict.UpstreamBlock?)
      && (f.solution.Some? ==> f.solution.value == (if e.extended then f.up + f.extranonce else prefix))
      && (f.delivered <==> !e.verdict.UpstreamBlock? || |f.full| <= 32)
  {
    var prefix := ChannelOf(s, e.d, e.c, e.extended).prefix;
    var full := if e.extended then prefix + e.share.extranonce else prefix;
    assert full[|s.upstream.value|..] == Translate(s.upstream.value, prefix, e.extended, e.share);
  }

  /** A share is counted for its channel's vardiff exactly when downstream, prev hash,
      channel and entry are there, and nothing else changes a count but a new
      channel, which starts at zero. */
  lemma CountedIff(s: Data, e: Event)
    requires e.SubmitShare?
    ensures
      var k := Key(e.d, e.c);
      Step(s, e).vardiff == (if e.hasPrevHash && HasChannel(s, e.d, e.c, e.extended) && k in s.vardiff
                             then s.vardiff[k := s.vardiff[k] + 1] else s.vardiff)
    ensures Step(s, e).downstreams == s.downstreams && Step(s, e).jobs == s.jobs && Step(s, e).upstream == s.upstream
  {
  }

  /** The answers, by the first check that fails. */
  lemma ShareAnswers(s: Data, e: Event)
    requires e.SubmitShare?
    ensures
      var o := SubmitOutcome(s, e.d, e.c, e.extended, e.share, e.hasPrevHash, e.validity, e.verdict);
      && (o.DownstreamNotFound? <==> e.d !in s.downstreams)
      && (o.NoPrevHash? <==> e.d in s.downstreams && !e.hasPrevHash)
      && (o.InvalidChannelId? <==> e.d in s.downstreams && e.hasPrevHash && !HasChannel(s, e.d, e.c, e.extended))
      && (o.ShareError? <==> e.hasPrevHash && HasChannel(s, e.d, e.c, e.extended) && Key(e.d, e.c) in s.vardiff && e.validity.Invalid?)
      && (o.BadCoinbase? <==>
            e.hasPrevHash && HasChannel(s, e.d, e.c, e.extended) && Key(e.d, e.c) in s.vardiff && e.validity == Block(false))
      && (o.Forwarded? <==> IsForwarded(s, e))
  {
    hide MakeForward;
  }

  // --------------------------------------------------------------------- opens

  /** Template, prev hash and downstream are there, and for a standard channel the
      outputs decode and the group channel it needs can be built. */
  ghost predicate GetsToChannel(s: Data, d: nat, extended: bool, env: OpenEnv) {
    && env.template.Some? && env.hasPrevHash && d in s.downstreams
    && (extended || (env.outputsOk && (s.downstreams[d].requireStdJob || s.downstreams[d].group.Some? || env.groupOk)))
  }

  /** When an open succeeds, when it is refused with an error message, and when it fails. */
  lemma OpenAnswers(s: Data, d: nat, extended: bool, env: OpenEnv)
    ensures
      var o := OpenOutcomeOf(s, d, extended, env);
      && (o.Opened? <==> && GetsToChannel(s, d, extended, env) && env.prefix.Some? && env.creation.Created?
                         && env.applyOk && env.outputsOk)
      && (o.OpenError? <==> GetsToChannel(s, d, extended, env) && env.prefix.Some? && env.creation.Refused?)
  {
  }

  ghost predicate Tries(env: OpenEnv, extended: bool) {
    env.template.Some? && env.hasPrevHash && (extended || env.outputsOk)
  }

  lemma OpenLeaves(s: Data, d: nat, extended: bool, env: OpenEnv)
    requires d in s.downstreams
    ensures
      var t, x := Open(s, d, extended, env), s.downstreams[d];
      var y := Prepared(x, extended, env.groupOk);
      && d in t.downstreams
      && t.downstreams[d] == (if !Tries(env, extended) then x
                              else if !GetsToChannel(s, d, extended, env) then y
                              else if Works(env) then
                                WithChannel(y, extended, Channel(env.prefix.value, env.creation.target, env.creation.hashrate))
                              else Taken(y))
  {
    hide Prepared, WithChannel, Taken;
  }

  lemma IdsTaken(y: Downstream, extended: bool, channel: Channel)
    ensures
      var a, b := Taken(y), WithChannel(y, extended, channel);
      && a.channelIdFactory == b.channelIdFactory == (y.channelIdFactory + 1) % 0x1_0000_0000
      && a.group == b.group == y.group && a.requireStdJob == b.requireStdJob == y.requireStdJob
  {
  }

  /** Ids: a standard channel that needs a group channel takes two, the first for the
      group; every open that gets to its channel uses one up, successful or not. */
  lemma OpenTakesIds(s: Data, d: nat, extended: bool, env: OpenEnv)
    requires d in s.downstreams
    ensures
      var t, x := Open(s, d, extended, env), s.downstreams[d];
      var groups := Tries(env, extended) && !extended && !x.requireStdJob && x.group.None?;
      var first := if groups then (x.channelIdFactory + 1) % 0x1_0000_0000 else x.channelIdFactory;
      && d in t.downstreams
      && t.downstreams[d].requireStdJob == x.requireStdJob
      && t.downstreams[d].group == (if groups && env.groupOk then Some(x.channelIdFactory) else x.group)
      && t.downstreams[d].channelIdFactory
         == (if GetsToChannel(s, d, extended, env) then (first + 1) % 0x1_0000_0000 else first)
      && (OpenOutcomeOf(s, d, extended, env).Opened? ==> OpenOutcomeOf(s, d, extended, env).channel == first)
  {
    hide Open, WithChannel, Taken;
    OpenLeaves(s, d, extended, env);
    var y := Prepared(s.downstreams[d], extended, env.groupOk);
    IdsTaken(y, extended, if Works(env) then Channel(env.prefix.value, env.creation.target, env.creation.hashrate)
                          else Channel([], seq(32, _ => 0), 0.0));
  }

  // ------------------------------------------- connections and upstream prefix

  /** A connection takes the next id and is registered empty under it; ids start
      again with a reset. */
  lemma ConnectionsGo(s: Data, e: Event)
    requires Enabled(s, e)
    ensures
      var t := Step(s, e);
      && t.downstreamIdFactory == (if e.ResetAll? then 0 else s.downstreamIdFactory + if e.Accept? then 1 else 0)
      && t.accepting == (if e.Accept? then Some(s.downstreamIdFactory) else if e.Registered? then None else s.accepting)
      && (e.Registered? ==> t.downstreams == s.downstreams[e.d := Downstream(map[], map[], 0, None, e.requireStdJob)])
      && (e.RemoveDownstream? ==> t.downstreams == s.downstreams - {e.d})
      && (e.ResetAll? ==> t.downstreams == map[] && t.jobs == map[] && t.upstreamJobs == map[] && t.vardiff == s.vardiff)
      && (e.NewJobs? ==> t.jobs == e.jobs && t.upstreamJobs == e.upstreamJobs && t.downstreams == s.downstreams)
  {
    hide Submit, Open;
    match e
    case SubmitShare(_, _, _, _, _, _, _) => SubmitKeepsConnections(s, e);
    case OpenChannel(d, extended, env) => OpenForwardsNothing(s, d, extended, env);
    case _ =>
  }

  lemma SubmitKeepsConnections(s: Data, e: Event)
    requires e.SubmitShare?
    ensures
      var t := Step(s, e);
      && t.downstreamIdFactory == s.downstreamIdFactory && t.accepting == s.accepting
      && t.factoryPrefix == s.factoryPrefix && t.upstream == s.upstream
  {
  }

  /** The upstream prefix and the factories': set together by a new channel and a
      rebuilt prefix, dropped together by a reset; a close drops the channel alone,
      a prefix the factories cannot follow sets the channel's alone. */
  lemma PrefixesGo(s: Data, e: Event)
    requires Enabled(s, e)
    ensures
      var t := Step(s, e);
      && t.upstream == (match e
                        case UpstreamOpened(p) => Some(p)
                        case UpstreamClosed => None
                        case ResetAll => None
                        case PrefixSet(p, _, _) => if s.upstream.Some? then Some(p) else None
                        case _ => s.upstream)
      && t.factoryPrefix == (match e
                             case UpstreamOpened(p) => p
                             case ResetAll => []
                             case PrefixSet(p, factoryOk, _) => if s.upstream.Some? && factoryOk then p else s.factoryPrefix
                             case _ => s.factoryPrefix)
  {
    hide Submit, Open;
    match e
    case SubmitShare(_, _, _, _, _, _, _) => SubmitKeepsConnections(s, e);
    case OpenChannel(d, extended, env) => OpenForwardsNothing(s, d, extended, env);
    case _ =>
  }

  /** Closing removes the channel of either kind with its vardiff entry, and no other. */
  lemma CloseExactly(s: Data, d: nat, c: nat)
    ensures
      var t := Step(s, CloseChannel(d, c));
      && t.downstreams.Keys == s.downstreams.Keys
      && (forall x <- s.downstreams :: x != d ==> t.downstreams[x] == s.downstreams[x])
      && (d in s.downstreams ==>
            && t.downstreams[d] == s.downstreams[d].(standard := s.downstreams[d].standard - {c},
                                                     extended := s.downstreams[d].extended - {c})
            && t.vardiff == s.vardiff - {Key(d, c)})
      && (d !in s.downstreams ==> t == s)
  {
  }
}
