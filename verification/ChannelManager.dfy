/** The locked data of the channel manager and its handlers, as methods that
    update the maps in place. `View` is the model state; each handler is proved
    to be the model's step, so the run theorems speak about these bodies. */
module ChannelManager {
  import opened Common
  import opened Bytes
  import opened JdcChannels

  class ChannelManagerData {
    var downstream: map<nat, Downstream>
    var vardiff: map<Key, nat>
    var downstreamJobToTemplate: map<JobKey, nat>
    var templateToUpstreamJob: map<nat, nat>
    var downstreamIdFactory: nat
    var upstreamPrefix: Option<seq<Byte>>
    var factoryPrefix: seq<Byte>
    var sequenceNumberFactory: nat
    ghost var accepting: Option<nat>
    ghost var forwarded: seq<Forward>

    ghost function View(): Data
      reads this
    {
      Data(downstream, vardiff, downstreamJobToTemplate, templateToUpstreamJob, downstreamIdFactory, accepting,
           upstreamPrefix, factoryPrefix, sequenceNumberFactory, forwarded)
    }

    constructor ()
      ensures View() == Init
    {
      downstream, vardiff, downstreamJobToTemplate, templateToUpstreamJob := map[], map[], map[], map[];
      downstreamIdFactory, sequenceNumberFactory, upstreamPrefix, factoryPrefix := 0, 0, None, [];
      accepting, forwarded := None, [];
    }

    /** `reset`: vardiff and the sequence numbers survive. */
    method ResetData()
      modifies this
      ensures View() == Reset(old(View()))
      ensures downstream == map[] && downstreamJobToTemplate == map[] && templateToUpstreamJob == map[]
      ensures downstreamIdFactory == 0 && upstreamPrefix.None? && factoryPrefix == []
      ensures vardiff == old(vardiff) && sequenceNumberFactory == old(sequenceNumberFactory)
    {
      downstream := map[];
      templateToUpstreamJob := map[];
      downstreamJobToTemplate := map[];
      downstreamIdFactory := 0;
      factoryPrefix := [];
      upstreamPrefix := None;
    }

    /** `handle_close_channel` of the upstream side. */
    method HandleUpstreamClose()
      modifies this
      ensures View() == Disconnect(old(View()))
      ensures upstreamPrefix.None? && downstream == old(downstream) && factoryPrefix == old(factoryPrefix)
    {
      upstreamPrefix := None;
    }

    method RemoveDownstreamData(d: nat)
      modifies this
      ensures View() == Remove(old(View()), d)
      ensures d !in downstream && forall x :: x != d ==> (x in downstream <==> x in old(downstream))
      ensures forall x <- downstream :: downstream[x] == old(downstream)[x]
      ensures forall k :: k in vardiff <==> k in old(vardiff) && k.downstream != d
      ensures forall k :: k in downstreamJobToTemplate <==> k in old(downstreamJobToTemplate) && k.downstream != d
    {
      downstream := downstream - {d};
      downstreamJobToTemplate := map k | k in downstreamJobToTemplate && k.downstream != d :: downstreamJobToTemplate[k];
      vardiff := map k | k in vardiff && k.downstream != d :: vardiff[k];
    }

    method HandleCloseChannel(d: nat, c: nat) returns (found: bool)
      modifies this
      ensures View() == Close(old(View()), d, c) && found == (d in old(downstream))
    {
      found := d in downstream;
      if found {
        var x := downstream[d];
        x := x.(extended := x.extended - {c});
        x := x.(standard := x.standard - {c});
        downstream := downstream[d := x];
        vardiff := vardiff - {Key(d, c)};
      }
    }

    method HandleOpenStandardMiningChannel(d: nat, env: OpenEnv) returns (outcome: OpenOutcome)
      modifies this
      ensures View() == Open(old(View()), d, false, env)
      ensures outcome == OpenOutcomeOf(old(View()), d, false, env)
    {
      if !env.outputsOk || env.template.None? || !env.hasPrevHash || d !in downstream {
        return Failed;
      }
      var data := downstream[d];
      if !data.requireStdJob && data.group.None? {
        var groupId := data.channelIdFactory;
        data := data.(channelIdFactory := (data.channelIdFactory + 1) % U32);
        downstream := downstream[d := data];
        if !env.groupOk {
          return Failed;
        }
        data := data.(group := Some(groupId));
      }
      PutTwice(old(View()), d, downstream[d], data, env);
      outcome := OpenPrepared(d, data, false, env);
    }

    method HandleOpenExtendedMiningChannel(d: nat, env: OpenEnv) returns (outcome: OpenOutcome)
      modifies this
      ensures View() == Open(old(View()), d, true, env)
      ensures outcome == OpenOutcomeOf(old(View()), d, true, env)
    {
      if env.template.None? || !env.hasPrevHash || d !in downstream {
        return Failed;
      }
      outcome := OpenPrepared(d, downstream[d], true, env);
    }

    /** The part both open handlers share: take an id, build the channel, let it
        take the template, then commit to all three maps. */
    method OpenPrepared(d: nat, x: Downstream, isExtended: bool, env: OpenEnv) returns (outcome: OpenOutcome)
      requires env.template.Some?
      modifies this`downstream, this`vardiff, this`downstreamJobToTemplate
      ensures View() == if Works(env) then Commit(old(View()), d, x, isExtended, env) else Put(old(View()), d, Taken(x))
      ensures outcome == (if Works(env) then Opened(x.channelIdFactory)
                          else if env.prefix.Some? && env.creation.Refused? then OpenError else Failed)
    {
      var id := x.channelIdFactory;
      var data := x.(channelIdFactory := (id + 1) % U32);
      downstream := downstream[d := data];
      if env.prefix.None? {
        return Failed;
      }
      if !env.creation.Created? {
        return if env.creation.Refused? then OpenError else Failed;
      }
      if !env.outputsOk || !env.applyOk {
        return Failed;
      }
      var channel := Channel(env.prefix.value, env.creation.target, env.creation.hashrate);
      vardiff := vardiff[Key(d, id) := 0];
      data := if isExtended then data.(extended := data.extended[id := channel])
              else data.(standard := data.standard[id := channel]);
      downstream := downstream[d := data];
      assert downstream == old(downstream)[d := data];
      downstreamJobToTemplate := downstreamJobToTemplate[JobKey(d, id, env.job) := env.template.value];
      outcome := Opened(id);
    }

    /** `handle_submit_shares_standard` and `handle_submit_shares_extended`. */
    method HandleSubmitShares(d: nat, c: nat, isExtended: bool, share: Share, hasPrevHash: bool,
                              validity: Validity, verdict: UpstreamVerdict)
      returns (outcome: ShareOutcome, message: Option<Forward>)
      modifies this
      ensures View() == Submit(old(View()), d, c, isExtended, share, hasPrevHash, validity, verdict)
      ensures outcome == SubmitOutcome(old(View()), d, c, isExtended, share, hasPrevHash, validity, verdict)
      ensures forwarded == old(forwarded) + if message.Some? then [message.value] else []
    {
      hide ForwardShare, ForwardOutcome;
      message := None;
      if d !in downstream {
        return DownstreamNotFound, None;
      }
      if !hasPrevHash {
        return NoPrevHash, None;
      }
      var channels := if isExtended then downstream[d].extended else downstream[d].standard;
      if c !in channels {
        return InvalidChannelId, None;
      }
      if Key(d, c) !in vardiff {
        return VardiffNotFound, None;
      }
      vardiff := vardiff[Key(d, c) := vardiff[Key(d, c)] + 1];
      if validity.Invalid? {
        return ShareError, None;
      }
      if validity.Block? && !validity.coinbaseFits {
        return BadCoinbase, None;
      }
      if upstreamPrefix.None? {
        return NotForwarded, None;
      }
      CountingKeepsOutcome(old(View()), JobKey(d, c, share.job), isExtended, share, verdict);
      outcome, message := ForwardUpstream(JobKey(d, c, share.job), isExtended, share, verdict);
    }

    /** Translates a valid share, validates it against the upstream channel,
        numbers it and hands it on. */
    method ForwardUpstream(key: JobKey, isExtended: bool, share: Share, verdict: UpstreamVerdict)
      returns (outcome: ShareOutcome, message: Option<Forward>)
      requires upstreamPrefix.Some? && HasChannel(View(), key.downstream, key.channel, isExtended)
      modifies this`sequenceNumberFactory, this`forwarded
      ensures View() == ForwardShare(old(View()), key, isExtended, share, verdict)
      ensures outcome == ForwardOutcome(old(View()), key, isExtended, share, verdict)
      ensures forwarded == old(forwarded) + if message.Some? then [message.value] else []
    {
      var x := downstream[key.downstream];
      var prefix := if isExtended then x.extended[key.channel].prefix else x.standard[key.channel].prefix;
      var up := upstreamPrefix.value;
      if |up| > |prefix| {
        return Panicked, None;
      }
      var extranonce := prefix[|up|..];
      if key !in downstreamJobToTemplate || downstreamJobToTemplate[key] !in templateToUpstreamJob {
        return NotForwarded, None;
      }
      var job := templateToUpstreamJob[downstreamJobToTemplate[key]];
      if isExtended {
        extranonce := extranonce + share.extranonce;
      }
      if |extranonce| > MAX_EXTRANONCE {
        return Panicked, None;
      }
      if verdict.UpstreamInvalid? {
        return NotForwarded, None;
      }
      var number := sequenceNumberFactory;
      sequenceNumberFactory := (sequenceNumberFactory + 1) % U32;
      var solution := if isExtended then up + extranonce else prefix;
      var f := Forward(number, job, up, share.work, extranonce, if verdict.UpstreamBlock? then Some(solution) else None,
                       FullExtranonce(prefix, isExtended, share),
                       !verdict.UpstreamBlock? || |solution| <= MAX_EXTRANONCE);
      forwarded := forwarded + [f];
      return Forwarded, Some(f);
    }
  }

  /** Counting a share changes nothing that forwarding looks at. */
  lemma CountingKeepsOutcome(s: Data, key: JobKey, extended: bool, share: Share, verdict: UpstreamVerdict)
    requires s.upstream.Some? && HasChannel(s, key.downstream, key.channel, extended)
    requires Key(key.downstream, key.channel) in s.vardiff
    ensures ForwardOutcome(CountShare(s, Key(key.downstream, key.channel)), key, extended, share, verdict)
         == ForwardOutcome(s, key, extended, share, verdict)
  {
  }

  lemma PutTwice(s: Data, d: nat, y: Downstream, x: Downstream, env: OpenEnv)
    ensures Put(Put(s, d, y), d, x) == Put(s, d, x) && Put(Put(s, d, y), d, Taken(x)) == Put(s, d, Taken(x))
    ensures env.template.Some? && Works(env) ==> Commit(Put(s, d, y), d, x, false, env) == Commit(s, d, x, false, env)
  {
  }
}
