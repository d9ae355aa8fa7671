/** The coupled maps of the job declarator client's channel manager: downstream
    channels, vardiff entries, jobs, the upstream extranonce prefix and the
    sequence numbers of forwarded shares. Every handler runs under the manager's
    lock, so each is one step. Foreign calls (channel construction, share
    validation, the extranonce factory) are parameters of the step. */
module JdcChannels {
  import opened Common
  import opened Bytes

  const U32: nat := 0x1_0000_0000
  const MAX_EXTRANONCE: nat := 32

  datatype Channel = Channel(prefix: seq<Byte>, target: Hash32, hashrate: real)

  datatype Downstream = Downstream(
    standard: map<nat, Channel>,
    extended: map<nat, Channel>,
    channelIdFactory: nat,
    group: Option<nat>,
    requireStdJob: bool)

  datatype Key = Key(downstream: nat, channel: nat)

  datatype JobKey = JobKey(downstream: nat, channel: nat, job: nat)

  /** The part of a share that is passed on as it is. */
  datatype Work = Work(nonce: Word, time: Word, version: Word)

  /** A share that passed upstream validation: its number, the upstream job and
      prefix it was made for, the work, the extranonce and the PushSolution
      extranonce sent, and, for reference, the full extranonce of the downstream
      channel. */
  datatype Forward = Forward(number: nat, job: nat, up: seq<Byte>, work: Work, extranonce: seq<Byte>,
                             solution: Option<seq<Byte>>, full: seq<Byte>, delivered: bool)

  /** `accepting` is the id handed to a connection that is not registered yet: there
      is one sequential accept loop at a time, but it takes the lock twice, so a
      reset can fall in between;
      `forwarded` is history. */
  datatype Data = Data(
    downstreams: map<nat, Downstream>,
    vardiff: map<Key, nat>,              // shares since the last update
    jobs: map<JobKey, nat>,              // template of a downstream job
    upstreamJobs: map<nat, nat>,         // upstream job of a template
    downstreamIdFactory: nat,
    accepting: Option<nat>,
    upstream: Option<seq<Byte>>,         // extranonce prefix of the upstream channel
    factoryPrefix: seq<Byte>,            // what every new downstream prefix extends
    sequenceNumber: nat,
    forwarded: seq<Forward>)

  const Init := Data(map[], map[], map[], map[], 0, None, None, [], 0, [])

  // ---------------------------------------------------------------- connections

  function TakeId(s: Data): Data {
    s.(downstreamIdFactory := s.downstreamIdFactory + 1, accepting := Some(s.downstreamIdFactory))
  }

  function Register(s: Data, d: nat, requireStdJob: bool): Data {
    s.(accepting := None,
       downstreams := s.downstreams[d := Downstream(map[], map[], 0, None, requireStdJob)])
  }

  function Remove(s: Data, d: nat): Data {
    s.(downstreams := s.downstreams - {d},
       jobs := map k | k in s.jobs && k.downstream != d :: s.jobs[k],
       vardiff := map k | k in s.vardiff && k.downstream != d :: s.vardiff[k])
  }

  function Reset(s: Data): Data {
    s.(downstreams := map[], jobs := map[], upstreamJobs := map[], downstreamIdFactory := 0,
       upstream := None, factoryPrefix := [])
  }

  // ---------------------------------------------------------- opening and closing

  datatype Creation = Created(target: Hash32, hashrate: real) | Refused | Broken

  /** What an open request meets: the last future template, the last prev hash,
      decodable outputs, a group channel that can be built, a free prefix, the
      channel constructor, and a new channel that takes template and prev hash. */
  datatype OpenEnv = OpenEnv(template: Option<nat>, hasPrevHash: bool, outputsOk: bool, groupOk: bool,
                             prefix: Option<seq<Byte>>, creation: Creation, applyOk: bool, job: nat)

  datatype OpenOutcome = Opened(channel: nat) | OpenError | Failed

  function Bump(n: nat): nat {
    (n + 1) % U32
  }

  /** The group channel a standard channel may need first. */
  function WithGroup(x: Downstream, groupOk: bool): Downstream {
    if x.requireStdJob || x.group.Some? then x
    else x.(channelIdFactory := Bump(x.channelIdFactory), group := if groupOk then Some(x.channelIdFactory) else None)
  }

  predicate GroupFails(x: Downstream, groupOk: bool) {
    !x.requireStdJob && x.group.None? && !groupOk
  }

  predicate Ready(s: Data, d: nat, env: OpenEnv) {
    env.template.Some? && env.hasPrevHash && d in s.downstreams
  }

  predicate Works(env: OpenEnv) {
    env.prefix.Some? && env.creation.Created? && env.applyOk && env.outputsOk
  }

  /** What is left of a downstream when the open stops after taking an id. */
  function Taken(x: Downstream): Downstream {
    x.(channelIdFactory := Bump(x.channelIdFactory))
  }

  function Put(s: Data, d: nat, x: Downstream): Data {
    s.(downstreams := s.downstreams[d := x])
  }

  function WithChannel(x: Downstream, extended: bool, channel: Channel): Downstream {
    if extended then Taken(x).(extended := x.extended[x.channelIdFactory := channel])
    else Taken(x).(standard := x.standard[x.channelIdFactory := channel])
  }

  function Commit(s: Data, d: nat, x: Downstream, extended: bool, env: OpenEnv): Data
    requires env.template.Some? && Works(env)
  {
    var id := x.channelIdFactory;
    var channel := Channel(env.prefix.value, env.creation.target, env.creation.hashrate);
    Put(s, d, WithChannel(x, extended, channel)).(
      vardiff := s.vardiff[Key(d, id) := 0], jobs := s.jobs[JobKey(d, id, env.job) := env.template.value])
  }

  /** The downstream as the channel part of the open finds it. */
  function Prepared(x: Downstream, extended: bool, groupOk: bool): Downstream {
    if extended then x else WithGroup(x, groupOk)
  }

  function OpenOutcomeOf(s: Data, d: nat, extended: bool, env: OpenEnv): OpenOutcome {
    if !Ready(s, d, env) || (!extended && (!env.outputsOk || GroupFails(s.downstreams[d], env.groupOk))) then Failed
    else if env.prefix.None? then Failed
    else if env.creation.Refused? then OpenError
    else if !Works(env) then Failed
    else Opened(Prepared(s.downstreams[d], extended, env.groupOk).channelIdFactory)
  }

  function Open(s: Data, d: nat, extended: bool, env: OpenEnv): Data {
    if !Ready(s, d, env) || (!extended && !env.outputsOk) then s
    else
      var x := Prepared(s.downstreams[d], extended, env.groupOk);
      if !extended && GroupFails(s.downstreams[d], env.groupOk) then Put(s, d, x)
      else if Works(env) then Commit(s, d, x, extended, env)
      else Put(s, d, Taken(x))
  }

  function Close(s: Data, d: nat, c: nat): Data {
    if d !in s.downstreams then s
    else
      var x := s.downstreams[d];
      Put(s, d, x.(standard := x.standard - {c}, extended := x.extended - {c})).(vardiff := s.vardiff - {Key(d, c)})
  }

  // --------------------------------------------------------------------- shares

  datatype Validity = Valid | Block(coinbaseFits: bool) | Invalid

  datatype UpstreamVerdict = UpstreamValid | UpstreamBlock | UpstreamInvalid

  datatype Share = Share(job: nat, extranonce: seq<Byte>, work: Work)

  datatype ShareOutcome = DownstreamNotFound | NoPrevHash | InvalidChannelId | VardiffNotFound | ShareError
                        | BadCoinbase | NotForwarded | Panicked | Forwarded

  predicate HasChannel(s: Data, d: nat, c: nat, extended: bool) {
    d in s.downstreams && c in if extended then s.downstreams[d].extended else s.downstreams[d].standard
  }

  function ChannelOf(s: Data, d: nat, c: nat, extended: bool): Channel
    requires HasChannel(s, d, c, extended)
  {
    if extended then s.downstreams[d].extended[c] else s.downstreams[d].standard[c]
  }

  /** A standard channel has no rollable part: its prefix is its extranonce. */
  function FullExtranonce(prefix: seq<Byte>, extended: bool, share: Share): seq<Byte> {
    if extended then prefix + share.extranonce else prefix
  }

  function UpstreamJob(s: Data, key: JobKey): Option<nat> {
    if key in s.jobs && s.jobs[key] in s.upstreamJobs then Some(s.upstreamJobs[s.jobs[key]]) else None
  }

  /** The translated extranonce: the downstream prefix without the bytes the
      upstream prefix takes, followed by what the share rolls. */
  function Translate(up: seq<Byte>, prefix: seq<Byte>, extended: bool, share: Share): seq<Byte>
    requires |up| <= |prefix|
  {
    if extended then prefix[|up|..] + share.extranonce else prefix[|up|..]
  }

  function MakeForward(s: Data, job: nat, up: seq<Byte>, prefix: seq<Byte>, extended: bool, share: Share, block: bool): Forward
    requires |up| <= |prefix|
  {
    var extranonce := Translate(up, prefix, extended, share);
    var solution := if extended then up + extranonce else prefix;
    Forward(s.sequenceNumber, job, up, share.work, extranonce, if block then Some(solution) else None,
            FullExtranonce(prefix, extended, share), !block || |solution| <= MAX_EXTRANONCE)
  }

  /** What becomes of a valid share when there is an upstream channel. */
  function ForwardOutcome(s: Data, key: JobKey, extended: bool, share: Share, verdict: UpstreamVerdict): ShareOutcome
    requires s.upstream.Some? && HasChannel(s, key.downstream, key.channel, extended)
  {
    var up, prefix := s.upstream.value, ChannelOf(s, key.downstream, key.channel, extended).prefix;
    if |up| > |prefix| then Panicked
    else if UpstreamJob(s, key).None? then NotForwarded
    else if |Translate(up, prefix, extended, share)| > MAX_EXTRANONCE then Panicked
    else if verdict.UpstreamInvalid? then NotForwarded
    else Forwarded
  }

  function ForwardShare(s: Data, key: JobKey, extended: bool, share: Share, verdict: UpstreamVerdict): Data
    requires s.upstream.Some? && HasChannel(s, key.downstream, key.channel, extended)
  {
    if ForwardOutcome(s, key, extended, share, verdict).Forwarded? then
      var prefix := ChannelOf(s, key.downstream, key.channel, extended).prefix;
      var f := MakeForward(s, UpstreamJob(s, key).value, s.upstream.value, prefix, extended, share, verdict.UpstreamBlock?);
      s.(sequenceNumber := Bump(s.sequenceNumber), forwarded := s.forwarded + [f])
    else s
  }

  function SubmitOutcome(s: Data, d: nat, c: nat, extended: bool, share: Share, hasPrevHash: bool,
                         validity: Validity, verdict: UpstreamVerdict): ShareOutcome
  {
    if d !in s.downstreams then DownstreamNotFound
    else if !hasPrevHash then NoPrevHash
    else if !HasChannel(s, d, c, extended) then InvalidChannelId
    else if Key(d, c) !in s.vardiff then VardiffNotFound
    else if validity.Invalid? then ShareError
    else if validity.Block? && !validity.coinbaseFits then BadCoinbase
    else if s.upstream.None? then NotForwarded
    else ForwardOutcome(s, JobKey(d, c, share.job), extended, share, verdict)
  }

  function CountShare(s: Data, k: Key): Data
    requires k in s.vardiff
  {
    s.(vardiff := s.vardiff[k := s.vardiff[k] + 1])
  }

  function Submit(s: Data, d: nat, c: nat, extended: bool, share: Share, hasPrevHash: bool,
                  validity: Validity, verdict: UpstreamVerdict): Data
  {
    if d !in s.downstreams || !hasPrevHash || !HasChannel(s, d, c, extended) || Key(d, c) !in s.vardiff then s
    else if validity.Invalid? || (validity.Block? && !validity.coinbaseFits) || s.upstream.None? then
      CountShare(s, Key(d, c))
    else
      ForwardShare(CountShare(s, Key(d, c)), JobKey(d, c, share.job), extended, share, verdict)
  }

  // ------------------------------------------------------------ upstream prefix

  /** OpenExtendedMiningChannel.Success: new upstream channel, new factories. */
  function Connect(s: Data, prefix: seq<Byte>): Data {
    s.(upstream := Some(prefix), factoryPrefix := prefix)
  }

  /** CloseChannel from upstream: the channel goes, the factories stay. */
  function Disconnect(s: Data): Data {
    s.(upstream := None)
  }

  type Assignment = (Key, bool) -> Option<seq<Byte>>

  function Reassign(channels: map<nat, Channel>, d: nat, extended: bool, assign: Assignment): (r: map<nat, Channel>)
    ensures r.Keys == channels.Keys
  {
    map c | c in channels ::
      var p := assign(Key(d, c), extended);
      if p.Some? then channels[c].(prefix := p.value) else channels[c]
  }

  /** SetExtranoncePrefix from upstream: the upstream channel takes the prefix
      first; only when the factories can be rebuilt do the channels follow, each
      as far as it gets and accepts a new prefix. */
  function SetPrefix(s: Data, prefix: seq<Byte>, factoryOk: bool, assign: Assignment): Data {
    if s.upstream.None? then s
    else if !factoryOk then s.(upstream := Some(prefix))
    else
      Connect(s, prefix).(downstreams := map d | d in s.downstreams ::
        s.downstreams[d].(standard := Reassign(s.downstreams[d].standard, d, false, assign),
                          extended := Reassign(s.downstreams[d].extended, d, true, assign)))
  }

  // ----------------------------------------------------------------------- runs

  datatype Event =
    | Accept
    | Registered(d: nat, requireStdJob: bool)
    | OpenChannel(d: nat, extended: bool, env: OpenEnv)
    | CloseChannel(d: nat, c: nat)
    | RemoveDownstream(d: nat)
    | ResetAll
    | SubmitShare(d: nat, c: nat, extended: bool, share: Share, hasPrevHash: bool, validity: Validity, verdict: UpstreamVerdict)
    | UpstreamOpened(prefix: seq<Byte>)
    | UpstreamClosed
    | PrefixSet(prefix: seq<Byte>, factoryOk: bool, assign: Assignment)
    | NewJobs(jobs: map<JobKey, nat>, upstreamJobs: map<nat, nat>)     // the template handlers

  /** A factory hands out prefixes that extend the one it was built from. */
  ghost predicate Enabled(s: Data, e: Event) {
    match e
    case Accept => s.accepting.None?
    case Registered(d, _) => s.accepting == Some(d)
    case OpenChannel(_, _, env) => env.prefix.Some? ==> s.factoryPrefix <= env.prefix.value
    case PrefixSet(prefix, _, assign) => Extending(prefix, assign)
    case _ => true
  }

  ghost predicate Extending(prefix: seq<Byte>, assign: Assignment) {
    forall k, extended :: assign(k, extended).Some? ==> prefix <= assign(k, extended).value
  }

  ghost function Step(s: Data, e: Event): Data
    requires Enabled(s, e)
  {
    match e
    case Accept => TakeId(s)
    case Registered(d, requireStdJob) => Register(s, d, requireStdJob)
    case OpenChannel(d, extended, env) => Open(s, d, extended, env)
    case CloseChannel(d, c) => Close(s, d, c)
    case RemoveDownstream(d) => Remove(s, d)
    case ResetAll => Reset(s)
    case SubmitShare(d, c, extended, share, hasPrevHash, validity, verdict) =>
      Submit(s, d, c, extended, share, hasPrevHash, validity, verdict)
    case UpstreamOpened(prefix) => Connect(s, prefix)
    case UpstreamClosed => Disconnect(s)
    case PrefixSet(prefix, factoryOk, assign) => SetPrefix(s, prefix, factoryOk, assign)
    case NewJobs(jobs, upstreamJobs) => s.(jobs := jobs, upstreamJobs := upstreamJobs)
  }

  ghost predicate ValidRun(es: seq<Event>)
    decreases |es|, 0
  {
    es == [] || (var n := |es| - 1; ValidRun(es[..n]) && Enabled(Exec(es[..n]), es[n]))
  }

  ghost function Exec(es: seq<Event>): Data
    requires ValidRun(es)
    decreases |es|, 1
  {
    if es == [] then Init else Step(Exec(es[..|es| - 1]), es[|es| - 1])
  }
}
