# Verified models of the Stratum V2 applications

This project models the parts of the Stratum V2 pool and miner applications that
keep state across steps, and proves what those parts are for. Every file is
plain Dafny; `dafny verify dfyconfig.toml` checks the whole project.

## The models

**Template provider** (`TemplateProvider`, `TemplateProviderSafety`,
`TemplateProviderRuns`, `TemplateProviderExact`, `TemplateProviderSteps`,
`TemplateProviderCounterexamples`, `BitcoinCore`). It
implements the template provider of sections 7.1 to 7.7 of the Stratum V2
Template Distribution Protocol. All
tasks of `bitcoin-core-sv2` run on one thread and give it away only at an
`await`. The model is a labelled transition system whose events are the atomic
segments between awaits: the bootstrap, any number of `waitNext` monitors, the
incoming-message task and any number of delayed cleanups. An event carries what
the environment decides (answers of Bitcoin Core, messages that cannot be built
or sent, a forced sleep). `BitcoinCore.BitcoinCoreSv2` holds the fields the
program holds, with its wrapping counters; each of its methods is one segment and
is proved to be the corresponding step of the transition system.

**Mining device** (`Bytes`, `Sha256Spec`, `MiningHash`, `NonceSearch`,
`Mining`). SHA-256 is the definition of FIPS 180-4 (padding of section 5.1.1,
initial value of section 5.3.3, hash loop of section 6.2.2) over an arbitrary
compression function. The midstate hasher with its reused buffers, the word-wise
comparison, the micro-batched search and the split of the nonce space are proved
against it.

**Job declarator client** (`JdcOpening`, `JdcChannels`, `JdcChannelsSafety`,
`JdcChannelsSteps`, `ChannelManager`, `Targets`, `Aggregation`). The opening of the one upstream
channel is a transition system in which the main task may set the atomic upstream
state at any moment. The coupled maps of the channel manager are a second one,
whose steps are the handlers under the manager's lock. Target aggregation is
proved for every iteration order of the maps.

**Merkle fold** (`Merkle`, `TemplateSolution`), **Noise reader**
(`NoiseReader`), **persistence** (`Composite`, `PersistenceConfig`,
`FileWorker`) and **failover** (`Failover`).

## What turned out false, and when it holds

Where the code does not meet a property, the code is modelled as it is, a
concrete run shows the failure, and a condition that can be checked beforehand
says exactly when the property holds.

- The recorded tip can be ahead of the announced one, because it is recorded
  before it is announced (bitcoin-core-sv2/src/monitors.rs:167 and 205; `LostTip`).
  A segment ends the equality exactly when it records a tip that it does not
  announce (`TipAnnouncedIff`), and so for runs (`TipAlwaysAnnouncedIff`).
- Consecutive SetNewPrevHash messages can carry the same hash: a monitor that got
  past its checks still announces after the global cancellation (`RepeatedTip`).
  `RepeatIff` names the one kind of segment that repeats a tip, which needs an
  unannounced one before it, and `AlwaysAlternateIff` lifts it to runs.
- The template of the latest SetNewPrevHash can be refused as stale
  (`LatestTipRefused`). It is stored and in no stale set exactly when the latest
  tip change was announced (`LatestTipServedIff`).
- With two monitors alive after a constraints change, a fee-change template whose
  monitor slept across a tip change is announced and stored with an outdated
  previous hash (`StaleTemplateAnnounced`); no other segment ends freshness
  (`FreshIff`, `AlwaysFreshIff`).
- The client that `waitNext` uses can be one that a cleanup destroys
  (`ClientDestroyedWhileCurrent`). The cause is exact: it is retired by a tip
  change that finds it as the client of a stored template and by nothing else
  (`RetiresCurrentIff`, `CurrentAlwaysKeptIff`), and only a retired one is
  destroyed (`DestroyedIsRetired`); `DestroysCurrentIff` adds that no segment
  installs a client that was destroyed before. With one monitor neither this nor a
  stale template happens (`SingleMonitorStaysFresh`).
- A clean exit of the shutdown loop means that nothing is in flight and nothing
  has ever failed, because a failed request is never subtracted
  (`CleanExitIff`, `AwaitRequests`).
- Pending open requests can be lost without a reset: the drain stops at the first
  handler error and the rest of the taken queue is dropped
  (`SecondRequestIsLost`, `NothingDroppedIff`).
- Open requests can overtake each other: a request that finds NoChannel goes to
  the front even when the queue is not empty, as after a refused upstream channel,
  and one that finds Connected or SoloMining goes past a queue that was left over
  (`SecondRequestOvertakes`, `OrderLostIff`, `ArrivalOrderIff`).
- After a reset, vardiff entries outlive their channels, and since ids restart a
  connection can be registered over another one (`StaleVardiff`,
  `RegisteredOver`, `AgreementIff`, `AlwaysAgreesIff`).
- A downstream channel opened in solo mode, by a connection that is still accepted
  between the reset of a fallback
  (miner-apps/jd-client/src/lib/channel_manager/mod.rs:502-510) and the next
  NoChannel (miner-apps/jd-client/src/lib/mod.rs:349), survives the arrival of an
  upstream channel and keeps its prefix. Its shares are then forwarded with a
  different coinbase (`SoloChannelChangesCoinbase`), or translation panics on the
  slice (`SoloChannelPanics`). `AlignedIff`, `AlwaysAlignedIff` and `PanicsIff` are
  the conditions, `MisalignmentHasCause` the history behind them.
- `run_vardiff` compares little-endian byte arrays lexicographically and may
  announce a target larger than the minimum (`LexicographicPicksLarger`,
  `FoldsAgreeIff`).
- Accepted Writes can be lost after a single Shutdown: the receiver is still alive
  while the final flush is awaited, takes Writes, and is dropped
  (`WriteDuringFinalFlush`). Writes behind a second Shutdown are lost too
  (`WriteBehindSecondShutdown`). Lost are exactly the Writes queued when the
  receiver is dropped (`LostWrites`), and a run loses one exactly when one of its
  steps is such a Write or such a second Shutdown, or a failed open or an aborted
  task (pool-apps/pool/src/lib/mod.rs:245) with Writes queued (`LosesIff`). The composite backend sends one
  Shutdown per mention of a backend (`BroadcastIsCounted`), so two for a file
  backend that is both a primary and a fallback.
- The comments in `hash_with_nonce_time` place time and bits at the wrong offsets
  and announce a byte reversal that does not happen; the code is modelled.
- The documentation of `read_frame` calls it not cancellation-safe. At the socket
  await it is: a cancelled read leaves the bytes in the buffer and the next call
  goes on from there (`ReadFrame`, `ChunkingIndependence`).

## Assumptions about the environment

- A template client handed over by Bitcoin Core is a new capability.
- Sends on the unbounded channels do not yield, and locks are not poisoned.
- A prefix factory hands out prefixes that extend the prefix it was built from.
- The frame decoder wants at least one byte, and how many changes only in a
  decode step.
- A sleep of one second takes at least one second of the monotone clock.
- The clock, the network, the disk, share validation, channel construction and
  the answers of Bitcoin Core are parameters of the steps.

## Model

| member | source | states |
|---|---|---|
| TemplateProviderRuns.TipsAnnouncedInOrder | bitcoin-core-sv2/src/monitors.rs:153-226 | in every reachable state each SetNewPrevHash directly follows its future NewTemplate; until a recorded tip cannot be announced, consecutive ones differ; whenever the latest tip change was announced, the last one is the recorded tip; a loss cancels the provider |
| TemplateProviderRuns.CleanupIsExclusive | bitcoin-core-sv2/src/lib.rs:712-789 | with any overlapping cleanups, stale ids are not stored, no template is destroyed twice or before its removal, and no two destroyed templates share a client |
| TemplateProviderRuns.StoredOnce | bitcoin-core-sv2/src/lib.rs:501-521 | no segment of any run overwrites a stored template or stores under an id that was stored before |
| TemplateProviderExact.LatestTipServedIff | bitcoin-core-sv2/src/handlers.rs:72-157 | in every reachable running state the template of the latest SetNewPrevHash is stored and in no scheduled stale set exactly when the latest tip change was announced, and then a request or solution for it is served |
| TemplateProviderCounterexamples.LatestTipRefused | bitcoin-core-sv2/src/monitors.rs:164-200 | a run in which the latest announced template is refused as stale after an unannounced tip |
| TemplateProviderRuns.CleanupAnswers | bitcoin-core-sv2/src/handlers.rs:72-157 | after a cleanup its templates are answered stale, unnamed stored ones are served, and those of earlier cleanups are unknown |
| TemplateProviderRuns.SingleMonitorStaysFresh | bitcoin-core-sv2/src/monitors.rs:227-278 | without a later constraints change every template outside the scheduled stale sets extends the recorded tip, and the current client is not destroyed |
| TemplateProviderExact.FreshIff | bitcoin-core-sv2/src/monitors.rs:227-278 | from every reachable state, with any number of monitors, a segment ends the freshness of the templates outside the stale sets exactly when a monitor announces a template it slept on across a tip change |
| TemplateProviderExact.AlwaysFreshIff | bitcoin-core-sv2/src/monitors.rs:227-278 | a run keeps freshness throughout exactly when it has no such segment |
| TemplateProviderExact.TipAnnouncedIff | bitcoin-core-sv2/src/monitors.rs:164-226 | from every reachable state whose recorded tip is the last announced one, a segment ends that exactly when it records a tip it does not announce |
| TemplateProviderExact.TipAlwaysAnnouncedIff | bitcoin-core-sv2/src/monitors.rs:164-226 | the recorded tip is the last announced one throughout a run exactly when every tip change of the run is announced |
| TemplateProviderCounterexamples.LostTip | bitcoin-core-sv2/src/monitors.rs:164-200 | a run after which the recorded tip is ahead of the announced one |
| TemplateProviderExact.RepeatIff | bitcoin-core-sv2/src/monitors.rs:153-226 | from every reachable state a segment repeats a tip exactly when it announces a tip change to the last announced hash, which needs an unannounced tip before it |
| TemplateProviderExact.AlwaysAlternateIff | bitcoin-core-sv2/src/monitors.rs:153-226 | consecutive tips differ throughout a run exactly when it has no such segment |
| TemplateProviderExact.RetiresCurrentIff | bitcoin-core-sv2/src/monitors.rs:164-191 | from every reachable state a segment retires the client waitNext uses exactly when it is a tip change that finds it as the client of a stored template |
| TemplateProviderExact.CurrentAlwaysKeptIff | bitcoin-core-sv2/src/monitors.rs:164-191 | the current client is never retired in a run exactly when it has no such tip change |
| TemplateProviderExact.DestroysCurrentIff | bitcoin-core-sv2/src/lib.rs:774-787 | from every reachable state the current client becomes a destroyed one only by a cleanup that destroys it: no segment installs one destroyed before |
| TemplateProviderExact.CurrentAlwaysAliveIff | bitcoin-core-sv2/src/lib.rs:774-787 | the current client is never a destroyed one in a run exactly when no cleanup of it destroys it |
| TemplateProviderExact.DestroyedIsRetired | bitcoin-core-sv2/src/lib.rs:712-789 | a destroyed current client is a retired one, so a run that retires none destroys none |
| TemplateProviderRuns.RequestsAreCounted | bitcoin-core-sv2/src/lib.rs:660-707 | in every run the 8-bit counter is the requests in flight plus the failed ones, modulo 256 |
| TemplateProviderRuns.OldEpochIsIgnored | bitcoin-core-sv2/src/monitors.rs:84-102 | an answer to a request of another constraints epoch ends its monitor and changes nothing but the counter |
| TemplateProviderRuns.AwaitRequests | bitcoin-core-sv2/src/lib.rs:458-497 | the shutdown loop over the states of a run ends within 51 iterations, at the first zero counter or timeout; below 256 outstanding requests it reports clean exactly when nothing is in flight and nothing has failed |
| TemplateProviderRuns.CleanExitIff | bitcoin-core-sv2/src/lib.rs:461-497 | below 256 outstanding requests the counter is zero exactly when none is in flight and none has failed |
| TemplateProviderRuns.RunKeepsInv | bitcoin-core-sv2/src/lib.rs:286-451 | the invariants on ids, clients and sent messages hold after every run until the 64-bit id factory wraps |
| TemplateProviderSafety.StepKeepsIds | bitcoin-core-sv2/src/lib.rs:501-521 | every segment keeps ids unique, pending ids unstored, stale and stored ids apart and cleanup sets disjoint |
| TemplateProviderSafety.StepKeepsClients | bitcoin-core-sv2/src/monitors.rs:129-143 | every segment keeps each template bound to the client its id was issued with, no two ids sharing one |
| TemplateProviderSafety.StepKeepsTrace | bitcoin-core-sv2/src/monitors.rs:153-278 | every segment keeps the order of announcements and the last tip stored and unscheduled |
| TemplateProviderSafety.StepKeepsRequests | bitcoin-core-sv2/src/monitors.rs:43-102 | every segment keeps the waitNext counter equal to in flight plus failed |
| TemplateProviderSteps.CancelsIff | bitcoin-core-sv2/src/monitors.rs:84-300 | over every event: the provider is cancelled from outside or by a failed or malformed answer, a client, fetch, message, send or request that fails, and by nothing else; a waitNext timeout goes on |
| TemplateProviderSteps.MonitorGoes | bitcoin-core-sv2/src/monitors.rs:104-278 | a monitor fetches exactly for a fresh answer of its epoch, sleeps exactly when told to with a fee change, and asks again exactly after a start, a timeout or an announced template |
| TemplateProviderSteps.MonitorsStartIff | bitcoin-core-sv2/src/handlers.rs:38-58 | a monitor starts exactly with the first announced tip and with every later client |
| TemplateProviderSteps.SendsExactly | bitcoin-core-sv2/src/monitors.rs:194-278 | over every event, exactly which messages are sent, with which template id, hash and flag |
| TemplateProviderSteps.FoundIsAnswered | bitcoin-core-sv2/src/handlers.rs:119-140 | a request for a stored template is answered with success under its own id once its transactions are there |
| TemplateProviderSteps.StoresExactly | bitcoin-core-sv2/src/monitors.rs:164-191 | over every event, exactly which template is stored, which tip recorded, what is scheduled, removed and stale |
| TemplateProviderSteps.CleanupGoes | bitcoin-core-sv2/src/lib.rs:712-789 | a cleanup removes, gets a thread and destroys the removed templates once each, stopping at an error |
| TemplateProviderSteps.CountsExactly | bitcoin-core-sv2/src/handlers.rs:38-58 | over every event, exactly when an epoch starts, an id is issued, a client installed and a failure counted |
| TemplateProviderSteps.ControlGoes | bitcoin-core-sv2/src/lib.rs:286-451 | over every event, where the bootstrap and the incoming task go |
| TemplateProviderCounterexamples.StaleTemplateAnnounced | bitcoin-core-sv2/src/monitors.rs:227-278 | a run with two monitors stores a template with an outdated previous hash outside every stale set |
| TemplateProviderCounterexamples.RepeatedTip | bitcoin-core-sv2/src/monitors.rs:153-226 | a run with two monitors sends the same SetNewPrevHash twice in a row |
| TemplateProviderCounterexamples.ClientDestroyedWhileCurrent | bitcoin-core-sv2/src/lib.rs:712-789 | a run with two monitors destroys the client that waitNext uses |
| BitcoinCore.BitcoinCoreSv2.HandleResponse | bitcoin-core-sv2/src/monitors.rs:80-143 | from a waitNext answer to the next await, the fields move by the model's step, with the captured count wrapping at 32 bits |
| BitcoinCore.BitcoinCoreSv2.ChangeTip | bitcoin-core-sv2/src/monitors.rs:153-226 | the tip branch records, schedules all stored templates, stores and announces as the model's step does |
| BitcoinCore.BitcoinCoreSv2.ChangeFees | bitcoin-core-sv2/src/monitors.rs:245-278 | the fee branch announces before it stores, as the model's step does |
| BitcoinCore.BitcoinCoreSv2.HandleFetched | bitcoin-core-sv2/src/monitors.rs:133-245 | fetched data goes to the tip branch, the sleep, the fee branch or termination |
| BitcoinCore.BitcoinCoreSv2.NewWaitNextRequest | bitcoin-core-sv2/src/lib.rs:660-707 | counts the request, or cancels when it cannot be built, and captures the constraints count |
| BitcoinCore.BitcoinCoreSv2.ProcessStaleTemplateData | bitcoin-core-sv2/src/lib.rs:712-760 | overwrites the stale set, removes the stale templates and lists each stored one once |
| BitcoinCore.RemoveAll | bitcoin-core-sv2/src/lib.rs:754-758 | the removal loop, in any iteration order of the set, removes exactly the stale ids and lists the removed templates once each |
| BitcoinCore.BitcoinCoreSv2.HandleRequestTransactionData | bitcoin-core-sv2/src/handlers.rs:63-157 | stale, found and not found are answered as the model's step does, the found template handed back |
| BitcoinCore.BitcoinCoreSv2.HandleSubmitSolution | bitcoin-core-sv2/src/handlers.rs:167-193 | a solution is accepted exactly when its template is stored |
| BitcoinCore.BitcoinCoreSv2.HandleCoinbaseOutputConstraints | bitcoin-core-sv2/src/handlers.rs:15-61 | replaces the client, starts a new epoch and a new monitor, or cancels |
| BitcoinCore.BitcoinCoreSv2.StartBootstrap | bitcoin-core-sv2/src/lib.rs:305-327 | first client, first epoch, first id |
| BitcoinCore.BitcoinCoreSv2.FinishBootstrap | bitcoin-core-sv2/src/lib.rs:338-451 | the first template is announced as a future one with its tip, then stored, then the tasks start |
| MiningHash.FastSha256d.FromHeaderStatic | miner-apps/mining-device/src/lib/mod.rs:728-767 | midstate and both buffers describe the header |
| MiningHash.FastSha256d.HashWithNonceTime | miner-apps/mining-device/src/lib/mod.rs:771-800 | any number of calls on one object: each result is plain double SHA-256 of the header with that time and nonce, and the buffers stay reusable |
| MiningHash.ShaHeader | miner-apps/mining-device/src/lib/mod.rs:728-767 | SHA-256 of an 80-byte header is two compressions, the first free of time and nonce |
| MiningHash.ShaDigest | miner-apps/mining-device/src/lib/mod.rs:784-800 | SHA-256 of a digest is one compression of the prepared second block |
| MiningHash.HeaderLayout | miner-apps/mining-device/src/lib/mod.rs:728-732 | the six header fields in consensus order, numbers little-endian |
| Bytes.BeIsReversed | miner-apps/mining-device/src/lib/mod.rs:784-798 | big-endian is little-endian backwards |
| Bytes.LeValueUnit | miner-apps/mining-device/src/lib/mod.rs:824-852 | byte i weighs 256 to the i-th |
| Sha256Spec.InitialValue | miner-apps/mining-device/src/lib/mod.rs:803-808 | the initial hash value of section 5.3.3 of FIPS 180-4: fractional bits of the square roots of the first eight primes |
| Sha256Spec.PaddedMessage | miner-apps/mining-device/src/lib/mod.rs:747-761 | the padding of section 5.1.1 of FIPS 180-4 |
| Sha256Spec.HashAppend | miner-apps/mining-device/src/lib/mod.rs:738-745 | the block order of section 6.2.2 of FIPS 180-4 |
| Sha256Spec.DigestBytes | miner-apps/mining-device/src/lib/mod.rs:784-798 | the digest is the words in order, most significant byte first |
| Sha256Spec.DoubleHash | miner-apps/mining-device/src/lib/mod.rs:779-798 | the second hash is one compression of the padded first digest |
| MiningHash.RetargetTail | miner-apps/mining-device/src/lib/mod.rs:771-782 | rewriting time and nonce in place gives the tail block of the changed header, whatever was left there |
| MiningHash.HashMeetsTarget | miner-apps/mining-device/src/lib/mod.rs:824-852 | the word-wise comparison is the numeric order of the little-endian values |
| Mining.Miner.NewTarget | miner-apps/mining-device/src/lib/mod.rs:600-608 | the target is the little-endian value |
| Mining.Miner.NewHeader | miner-apps/mining-device/src/lib/mod.rs:615-644 | header fields and a hasher that matches them |
| Mining.Miner.NextShare | miner-apps/mining-device/src/lib/mod.rs:645-709 | a valid share exactly when plain double SHA-256 of the header is at most the target |
| Mining.Miner.SearchBatch | miner-apps/mining-device/src/lib/mod.rs:1024-1039 | finds the first hit of the batch, or none, after exactly the attempts up to it |
| Mining.Miner.MineBatch | miner-apps/mining-device/src/lib/mod.rs:1017-1053 | at most one share per batch, for its first hit; the nonce window advances with wrap-around |
| Mining.Miner.Mine | miner-apps/mining-device/src/lib/mod.rs:1008-1053 | the shares sent and nonces tried by any sequence of batches are those of the plain header search |
| Mining.SentSharesMeetTarget | miner-apps/mining-device/src/lib/mod.rs:1017-1053 | every share sent carries the job's id and version and the header's time and has double SHA-256 of its header numerically at most the target, at most one per batch |
| Mining.TriedNoncesAreDecided | miner-apps/mining-device/src/lib/mod.rs:1024-1053 | every nonce tried is shared exactly when its header meets the target |
| NonceSearch.SharesAreFirstHits | miner-apps/mining-device/src/lib/mod.rs:1024-1053 | shares hit, lie in the searched window and come in increasing offsets, at most one per batch |
| NonceSearch.BatchShare | miner-apps/mining-device/src/lib/mod.rs:1024-1053 | in the window of a batch exactly its first hit is shared |
| NonceSearch.TriedGrows | miner-apps/mining-device/src/lib/mod.rs:1024-1053 | the offsets tried grow strictly and stay in the window |
| NonceSearch.TriedAreDecided | miner-apps/mining-device/src/lib/mod.rs:1024-1053 | what is tried and hits is what is shared |
| NonceSearch.HitlessTriesAll | miner-apps/mining-device/src/lib/mod.rs:1024-1039 | hitless batches try every nonce of their window once |
| NonceSearch.StartNonces | miner-apps/mining-device/src/lib/mod.rs:936-955 | start nonces i * (u32::MAX / p) never overflow |
| NonceSearch.UnitIsQuotient | miner-apps/mining-device/src/lib/mod.rs:939 | the unit is the largest of which p fit below u32::MAX |
| NonceSearch.WorkerStaysInSlice | miner-apps/mining-device/src/lib/mod.rs:929-958 | while its batches cover at most u32::MAX / p nonces a worker stays in its slice and repeats none |
| NonceSearch.WorkersAreDisjoint | miner-apps/mining-device/src/lib/mod.rs:929-958 | then no nonce is tried by two workers |
| NonceSearch.OverrunCollides | miner-apps/mining-device/src/lib/mod.rs:929-958 | one nonce more without a hit, and a worker repeats the first nonce of the next |
| Merkle.FoldIsRoot | bitcoin-core-sv2/src/template_data.rs:155-166 | folding any coinbase id through the index-0 branch is the full Merkle root, odd levels duplicated, of the list with that coinbase |
| Merkle.BranchIgnoresLeaf | bitcoin-core-sv2/src/template_data.rs:155-166 | the branch of the template is also that of the list with the coinbase replaced |
| Merkle.LevelIs | bitcoin-core-sv2/src/template_data.rs:155-166 | one level up is the hash of left then right neighbour, an odd last entry with itself |
| Merkle.SmallTrees | bitcoin-core-sv2/src/template_data.rs:155-166 | the roots of one to four leaves, naming the hash function alone |
| Merkle.FoldAppend | bitcoin-core-sv2/src/template_data.rs:160-166 | the current hash is hashed before the sibling, bottom up |
| TemplateSolution.CongruentIff | bitcoin-core-sv2/src/template_data.rs:139-147 | the fields of a solution coinbase that must be the template's |
| TemplateSolution.TemplateData.FoldPath | bitcoin-core-sv2/src/template_data.rs:155-166 | the loop is the fold |
| TemplateSolution.TemplateData.DumpSolution | bitcoin-core-sv2/src/template_data.rs:138-220 | a block is dumped exactly when the coinbase is congruent, the hash of the header with the folded root is at most the target and the fetched block has a transaction; it is that header on the fetched transactions with the coinbase swapped, and its root is the Merkle root of its own transactions; exactly when it panics instead |
| JdcOpening.OpensAreBounded | miner-apps/jd-client/src/lib/channel_manager/mod.rs:689-720 | over any run upstream opens never outnumber the times the state was set to NoChannel |
| JdcOpening.RequestsAreConserved | miner-apps/jd-client/src/lib/channel_manager/mod.rs:678-812 | every request is handed over, pending, discarded by a reset or dropped by a drain, exactly once |
| JdcOpening.OpensExactly | miner-apps/jd-client/src/lib/channel_manager/mod.rs:695-720 | over every event, one upstream open exactly when a claim finds NoChannel and can send |
| JdcOpening.UpstreamGoes | miner-apps/jd-client/src/lib/channel_manager/upstream_message_handler.rs:103-211 | over every event, where the upstream state goes, and that every setting to NoChannel is counted |
| JdcOpening.RequestGoes | miner-apps/jd-client/src/lib/channel_manager/mod.rs:689-741 | front, back or handler by the state a request finds |
| JdcOpening.QueueGoes | miner-apps/jd-client/src/lib/channel_manager/upstream_message_handler.rs:249-260 | a drain hands over up to and including the first failure, and only a fallback discards |
| JdcOpening.DropsIff | miner-apps/jd-client/src/lib/channel_manager/upstream_message_handler.rs:249-260 | a segment drops requests exactly when a drain fails on a request other than its last |
| JdcOpening.NothingDroppedIff | miner-apps/jd-client/src/lib/channel_manager/upstream_message_handler.rs:249-260 | a run drops nothing exactly when none of its drains fails early |
| JdcOpening.OrderLostIff | miner-apps/jd-client/src/lib/channel_manager/mod.rs:678-812 | what was handed over followed by what is pending leaves the order of arrival in a segment exactly when a request arrives while others wait and the channel is not being opened |
| JdcOpening.ArrivalOrderIff | miner-apps/jd-client/src/lib/channel_manager/mod.rs:678-812 | requests reach handler and queue in order of arrival throughout a run exactly when none overtakes so |
| JdcOpening.PendingKeepsOrder | miner-apps/jd-client/src/lib/channel_manager/mod.rs:689-723 | pending requests keep the order of arrival in every run that enters NoChannel only with an empty queue |
| JdcOpening.SecondRequestIsLost | miner-apps/jd-client/src/lib/channel_manager/upstream_message_handler.rs:249-260 | a run in which a pending request is dropped without a reset |
| JdcOpening.SecondRequestOvertakes | miner-apps/jd-client/src/lib/channel_manager/upstream_message_handler.rs:130-142 | a run in which a refused upstream channel lets a later request overtake |
| JdcOpening.AtomicUpstreamState.CompareAndSet | miner-apps/jd-client/src/lib/utils.rs:178-193 | sets the new state exactly when the current one is the expected one |
| JdcOpening.OpeningMachine.HandleOpenRequest | miner-apps/jd-client/src/lib/channel_manager/mod.rs:678-741 | queues in front, queues behind or forwards by the state read, as the model's step does |
| JdcOpening.OpeningMachine.ClaimChannel | miner-apps/jd-client/src/lib/channel_manager/mod.rs:695-720 | sends exactly one upstream open when it finds NoChannel and can send, else none |
| JdcOpening.OpeningMachine.ChannelOpened | miner-apps/jd-client/src/lib/channel_manager/upstream_message_handler.rs:103-211 | back to NoChannel without a pending request or a factory, else Connected |
| JdcOpening.OpeningMachine.DrainPending | miner-apps/jd-client/src/lib/channel_manager/upstream_message_handler.rs:222-260 | takes the queue and hands over in order up to and including the first failure |
| JdcOpening.OpeningMachine.FallBack | miner-apps/jd-client/src/lib/channel_manager/mod.rs:500-511 | solo mining with an empty queue |
| JdcChannelsSafety.ChannelsAreCovered | miner-apps/jd-client/src/lib/channel_manager/mod.rs:164-194 | in every run, resets included, each open channel of each registered downstream has a vardiff entry |
| JdcChannelsSafety.VardiffIsFound | miner-apps/jd-client/src/lib/channel_manager/downstream_message_handler.rs:943-951 | so no share submission ends in VardiffNotFound |
| JdcChannelsSafety.MapsAgree | miner-apps/jd-client/src/lib/channel_manager/mod.rs:571-582 | without a reset the vardiff keys are exactly the open channels, and downstream ids are handed out once |
| JdcChannelsSafety.AgreementIff | miner-apps/jd-client/src/lib/channel_manager/mod.rs:164-194 | a step ends the agreement exactly when it is a reset with channels open or registers a connection over one with channels open |
| JdcChannelsSafety.AlwaysAgreesIff | miner-apps/jd-client/src/lib/channel_manager/mod.rs:164-194 | the maps agree throughout a run exactly when it has no such step |
| JdcChannelsSafety.StaleVardiff | miner-apps/jd-client/src/lib/channel_manager/mod.rs:164-194 | a run after which a vardiff entry has no channel |
| JdcChannelsSafety.RegisteredOver | miner-apps/jd-client/src/lib/channel_manager/mod.rs:422-440 | a run in which a reset between taking and registering an id lets the next connection replace that one with a channel open |
| JdcChannelsSafety.OpenIsAtomic | miner-apps/jd-client/src/lib/channel_manager/downstream_message_handler.rs:469-486 | an open adds exactly its channel, a fresh vardiff entry and one job, or leaves channels, vardiff and jobs unchanged |
| JdcChannelsSafety.OpenNeverReplaces | miner-apps/jd-client/src/lib/channel_manager/downstream_message_handler.rs:336-337 | until a downstream's 32-bit id factory is used up, an open replaces no open channel of either kind and does not take the group channel's id |
| JdcChannelsSafety.SharesAreNumbered | miner-apps/jd-client/src/lib/channel_manager/downstream_message_handler.rs:1046-1070 | in every run, resets included, the i-th upstream-valid share has sequence number i modulo 2^32 |
| JdcChannelsSteps.ForwardedIff | miner-apps/jd-client/src/lib/channel_manager/downstream_message_handler.rs:1019-1077 | over every event, a share is forwarded and numbered exactly when it gets as far as translation, translates within 32 bytes, has a known upstream job and passes upstream validation |
| JdcChannelsSteps.ForwardedIs | miner-apps/jd-client/src/lib/channel_manager/downstream_message_handler.rs:1229-1283 | what is sent: number, upstream job, work, extranonce, and a PushSolution exactly for a block |
| JdcChannelsSteps.CountedIff | miner-apps/jd-client/src/lib/channel_manager/downstream_message_handler.rs:943-951 | a share is counted for its channel exactly when downstream, prev hash, channel and entry are there |
| JdcChannelsSteps.ShareAnswers | miner-apps/jd-client/src/lib/channel_manager/downstream_message_handler.rs:931-1017 | which check answers a share |
| JdcChannelsSteps.OpenAnswers | miner-apps/jd-client/src/lib/channel_manager/downstream_message_handler.rs:514-706 | when an open succeeds and when it is refused with an error message |
| JdcChannelsSteps.OpenTakesIds | miner-apps/jd-client/src/lib/channel_manager/downstream_message_handler.rs:270-340 | which ids an open takes, for a group channel first, successful or not |
| JdcChannelsSteps.ConnectionsGo | miner-apps/jd-client/src/lib/channel_manager/mod.rs:422-440 | over every event, which id a connection takes and what a registration, removal and reset leave |
| JdcChannelsSteps.PrefixesGo | miner-apps/jd-client/src/lib/channel_manager/upstream_message_handler.rs:344-486 | over every event, where the upstream prefix and the factories' go |
| JdcChannelsSteps.CloseExactly | miner-apps/jd-client/src/lib/channel_manager/downstream_message_handler.rs:178-205 | closing removes the channel of either kind with its vardiff entry, and no other |
| JdcChannelsSafety.MakeForwardTranslates | miner-apps/jd-client/src/lib/channel_manager/downstream_message_handler.rs:1019-1067 | upstream prefix plus forwarded extranonce is the full downstream extranonce exactly when the former is a prefix of the latter, and then PushSolution carries it too |
| JdcChannelsSafety.SharesKeepCoinbase | miner-apps/jd-client/src/lib/channel_manager/downstream_message_handler.rs:1229-1283 | in settled runs every forwarded share and every PushSolution preserves the coinbase extranonce |
| JdcChannelsSafety.AlignedIff | miner-apps/jd-client/src/lib/channel_manager/upstream_message_handler.rs:344-486 | a step keeps all downstream prefixes extending the upstream one exactly when it is settled |
| JdcChannelsSafety.AlwaysAlignedIff | miner-apps/jd-client/src/lib/channel_manager/upstream_message_handler.rs:206-210 | the prefixes stay aligned throughout a run exactly when it is settled |
| JdcChannelsSafety.ConnectAlignsIff | miner-apps/jd-client/src/lib/channel_manager/upstream_message_handler.rs:206-210 | a new upstream channel aligns exactly when every open channel already extends its prefix |
| JdcChannelsSafety.PrefixAlignsIff | miner-apps/jd-client/src/lib/channel_manager/upstream_message_handler.rs:352-470 | a new upstream prefix aligns exactly when it reaches every channel that does not extend it, or is the old one where the factories fail |
| JdcChannelsSafety.PanicsIff | miner-apps/jd-client/src/lib/channel_manager/downstream_message_handler.rs:1019-1043 | a share, block-finding or not, panics exactly when it gets as far as translation and the upstream prefix is longer than the channel's, or its upstream job is known and the translated extranonce exceeds 32 bytes |
| JdcChannelsSafety.MisalignmentHasCause | miner-apps/jd-client/src/lib/channel_manager/upstream_message_handler.rs:206-210 | an upstream channel finds a channel that does not extend its prefix only if, since the last reset, a channel was opened without an upstream channel or there was an upstream channel before |
| JdcChannelsSafety.SoloChannelPanics | miner-apps/jd-client/src/lib/channel_manager/downstream_message_handler.rs:1229-1235 | a run in which a channel opened without upstream makes translation panic |
| JdcChannelsSafety.SoloChannelChangesCoinbase | miner-apps/jd-client/src/lib/channel_manager/downstream_message_handler.rs:1229-1260 | a run in which the share of such a channel is forwarded with a coinbase other than the one it was mined on |
| ChannelManager.ChannelManagerData.ResetData | miner-apps/jd-client/src/lib/channel_manager/mod.rs:164-194 | vardiff and sequence numbers survive, everything else modelled is cleared |
| ChannelManager.ChannelManagerData.HandleUpstreamClose | miner-apps/jd-client/src/lib/channel_manager/upstream_message_handler.rs:317-336 | the upstream channel goes, everything else stays |
| ChannelManager.ChannelManagerData.RemoveDownstreamData | miner-apps/jd-client/src/lib/channel_manager/mod.rs:571-582 | removes the downstream with its jobs and vardiff entries and nothing else |
| ChannelManager.ChannelManagerData.HandleCloseChannel | miner-apps/jd-client/src/lib/channel_manager/downstream_message_handler.rs:178-205 | removes the channel of either kind and its vardiff entry, or reports an unknown downstream |
| ChannelManager.ChannelManagerData.HandleOpenStandardMiningChannel | miner-apps/jd-client/src/lib/channel_manager/downstream_message_handler.rs:225-496 | group channel, id, prefix, channel and commit, with every failure point, as the model's step |
| ChannelManager.ChannelManagerData.HandleOpenExtendedMiningChannel | miner-apps/jd-client/src/lib/channel_manager/downstream_message_handler.rs:514-706 | id, prefix, channel and commit, with every failure point, as the model's step |
| ChannelManager.ChannelManagerData.HandleSubmitShares | miner-apps/jd-client/src/lib/channel_manager/downstream_message_handler.rs:910-1017 | the checks in order, the counted share and the outcome |
| ChannelManager.ChannelManagerData.ForwardUpstream | miner-apps/jd-client/src/lib/channel_manager/downstream_message_handler.rs:1229-1283 | translation, upstream job lookup, validation and numbering of a share, as ForwardedIff and ForwardedIs pin them |
| Aggregation.Aggregate | miner-apps/jd-client/src/lib/channel_manager/downstream_message_handler.rs:844-868 | the loops visit every channel of every downstream once and accumulate the hashrate sum and the least target |
| Aggregation.AggregateIsDeterministic | miner-apps/jd-client/src/lib/channel_manager/downstream_message_handler.rs:844-887 | whatever order the maps are visited in, the same hashrate and target are sent |
| Aggregation.TotalRateAdds | miner-apps/jd-client/src/lib/channel_manager/downstream_message_handler.rs:844-868 | the hashrate sent is a plain sum |
| Aggregation.UpdateSendsMinimum | miner-apps/jd-client/src/lib/channel_manager/downstream_message_handler.rs:844-887 | the target sent is numerically at most every channel's and is one of them, or 2^256 - 1 |
| Targets.FoldIsLeast | miner-apps/jd-client/src/lib/channel_manager/mod.rs:1015-1038 | the fold over a strict total order is its least element |
| Targets.FoldIgnoresOrder | miner-apps/jd-client/src/lib/channel_manager/mod.rs:1015-1038 | any permutation of the targets folds to the same |
| Targets.OrdersAgreeIff | miner-apps/jd-client/src/lib/channel_manager/mod.rs:1021 | byte order and numeric order agree on two targets exactly when their lowest and highest differing bytes point the same way |
| Targets.FoldsAgreeIff | miner-apps/jd-client/src/lib/channel_manager/mod.rs:1013-1057 | `run_vardiff` announces the numeric minimum exactly when one target is below all others at both the lowest and the highest differing byte |
| Targets.LexicographicPicksLarger | miner-apps/jd-client/src/lib/channel_manager/mod.rs:1013-1057 | of the targets 1 and 256 the byte order announces 256 |
| NoiseReader.ParseAppend | stratum-apps/src/network_helpers/noise_stream.rs:224-262 | parsing a first part and then its rest with the second part is parsing the whole, so cuts do not matter |
| NoiseReader.ParseFeeds | stratum-apps/src/network_helpers/noise_stream.rs:224-262 | bytes fed and bytes left are the bytes of the stream, in order |
| NoiseReader.NoiseTcpReadHalf.ReadFrame | stratum-apps/src/network_helpers/noise_stream.rs:224-262 | for any chunks, cancellations and errors: decoder, answers and buffer are a function of the bytes consumed and no byte is lost; the call returns the decoder's next frame or error, and gives up only where the socket does, with everything before that consumed |
| NoiseReader.NoiseTcpReadHalf.TryReadFrame | stratum-apps/src/network_helpers/noise_stream.rs:270-303 | the same for one non-blocking read, with the result decided by the socket and the decoder's answer |
| NoiseReader.ChunkingIndependence | stratum-apps/src/network_helpers/noise_stream.rs:224-303 | two readers of one stream agree where they consumed the same bytes, and otherwise the frames of one are a prefix of the other's |
| Composite.CallsTrace | stratum-apps/src/persistence/composite.rs:141-199 | the calls are those of the matching routes in order, each answered by the world as it was then: the primary, and directly after a primary that answered an error the route's fallback, if any |
| Composite.RouteCalls | stratum-apps/src/persistence/composite.rs:152-190 | what one route calls, naming the answers of the backends alone |
| Composite.DeliveriesAreCounted | stratum-apps/src/persistence/composite.rs:141-199 | whatever the backends answer and however they are shared, each gets the event once per matching route where it is primary plus once per matching route where it is fallback and the primary call in the trace failed |
| Composite.CompositeBackend.PersistEvent | stratum-apps/src/persistence/composite.rs:141-199 | an honest trace of the routes; an error exactly when some fallback called after a failed primary answered one too, namely the last |
| Composite.CompositeBackend.CallAll | stratum-apps/src/persistence/composite.rs:201-245 | flush and shutdown call every primary and fallback and report the last error |
| Composite.BroadcastTrace | stratum-apps/src/persistence/composite.rs:201-245 | flush and shutdown call every primary and fallback in the order of the routes |
| Composite.BroadcastIsCounted | stratum-apps/src/persistence/composite.rs:201-245 | a shared backend is called once per mention in the routes |
| PersistenceConfig.IntoPersistence | pool-apps/pool/src/lib/config.rs:145-238 | the exact outcome: backend failure, no backend, missing fallback, or one route for every section with its fallback wired and exactly the entities the sections name enabled, each with a route |
| PersistenceConfig.BuildRoutes | pool-apps/pool/src/lib/config.rs:213-232 | in any iteration order, routes are built exactly when every named fallback exists |
| PersistenceConfig.SectionsAre | pool-apps/pool/src/lib/config.rs:166-203 | the sections that are there, each with its own backend, and the entities whose names parse |
| PersistenceConfig.EnabledIffDelivered | stratum-apps/src/persistence/mod.rs:330-350 | where every enabled entity has a route an event reaches a backend exactly when its entity is enabled |
| PersistenceConfig.ConfiguredIffDelivered | stratum-apps/src/persistence/mod.rs:330-350 | with routes from a configuration an event reaches a backend exactly when some section names its entity |
| FileWorker.NothingReordered | stratum-apps/src/persistence/file.rs:79-135 | for any interleaving the accepted texts are the lines issued followed by the Writes still queued |
| FileWorker.AcceptedIff | stratum-apps/src/persistence/file.rs:143-165 | a command is accepted exactly when there is room and the receiver is there |
| FileWorker.PhaseGoes | stratum-apps/src/persistence/file.rs:79-135 | over every event, where the worker goes |
| FileWorker.IssuesExactly | stratum-apps/src/persistence/file.rs:95-126 | a line is issued exactly for a Write received; a flush covers every line on a Flush and at the end, and on nothing else |
| FileWorker.ShutdownIssuesDue | stratum-apps/src/persistence/file.rs:109-127 | when the worker has finished after a Shutdown, every Write queued before the next one has been issued and flushed |
| FileWorker.SecondShutdownEndsDrain | stratum-apps/src/persistence/file.rs:109-127 | with a second Shutdown queued, exactly the Writes before it are issued and flushed, whatever is sent meanwhile |
| FileWorker.LostWrites | stratum-apps/src/persistence/file.rs:79-135 | in every run the accepted Writes an exited worker has not issued are exactly those queued when the receiver was dropped; after a regular end those behind the Shutdown that ended the drain and those accepted during the final flush |
| FileWorker.LosesIff | stratum-apps/src/persistence/file.rs:79-135 | for any interleaving an exited worker has lost an accepted Write exactly when some step of the run was a failed open or an abort with Writes queued, a second Shutdown met by the drain with Writes behind it, or a Write accepted during the final flush |
| FileWorker.ClosedLosesNothing | stratum-apps/src/persistence/file.rs:127-132 | a worker that ends because all senders are gone loses nothing |
| FileWorker.WriteDuringFinalFlush | stratum-apps/src/persistence/file.rs:109-126 | a run with one Shutdown that loses a Write accepted during the final flush |
| FileWorker.WriteBehindSecondShutdown | stratum-apps/src/persistence/file.rs:109-127 | a run that loses a Write behind a second Shutdown |
| FileWorker.FileBackend.TrySend | stratum-apps/src/persistence/file.rs:143-165 | refused exactly when the queue is full or the receiver is gone, so accepted during the final flush |
| FileWorker.FileBackend.HandleCommand | stratum-apps/src/persistence/file.rs:95-127 | one command of the main loop, as the model's step |
| FileWorker.FileBackend.DrainOne | stratum-apps/src/persistence/file.rs:111-122 | one turn of the drain loop, as the model's step |
| FileWorker.FileBackend.FinishShutdown | stratum-apps/src/persistence/file.rs:123-126 | the final flush ends and the receiver goes with the queue as it is |
| FileWorker.FileBackend.Drain | stratum-apps/src/persistence/file.rs:109-126 | the whole drain with sends falling into any of its awaits: the Writes before the next Shutdown are issued, nothing else when that one is queued already, and what is queued at the end is lost |
| Failover.Upstreams.TryUpstream | miner-apps/jd-client/src/lib/mod.rs:432-470 | attempts up to the first that connects, three at most, fewer only on success |
| Failover.Upstreams.Initialize | miner-apps/jd-client/src/lib/mod.rs:413-477 | flags, attempts and outcome are those of the in-order scan; flags only rise, a success flags one more, failure of all flags all after exactly three attempts each |
| Failover.ScanTries | miner-apps/jd-client/src/lib/mod.rs:427-471 | the attempts are on unflagged upstreams in order, all fail but the last, and it connects to the first that answers unless the server behind it cannot start |
| Failover.RunAppend | miner-apps/jd-client/src/lib/mod.rs:298-359 | every fallback is one more initialisation on what the ones before left |
| Failover.Upstreams.RunJobDeclaratorClient | miner-apps/jd-client/src/lib/mod.rs:298-359 | over any number of fallbacks n upstreams give at most 3n attempts, at most three on each, and at most n successes |
| Failover.Upstreams.RunTranslator | miner-apps/translator/src/lib/mod.rs:170-195 | the same for the translator, which ends when an initialisation fails, the SV1 server failure included |

## Left out

- The clock behind the minimum interval between templates: whether a monitor sleeps is a choice of the environment.
- TemplateProviderRuns.OldEpochIsIgnored: holds for fewer than 2^32 constraint changes in between, because the captured count wraps.
- TemplateProviderRuns.RunKeepsInv: says nothing after 2^64 template ids, when the factory wraps.
- Fetching transaction data and submitting a solution to Bitcoin Core: foreign calls, present only as steps that succeed or fail.
- TemplateSolution.TemplateData.DumpSolution: that the stored path is the coinbase branch of the block Bitcoin Core returns is a hypothesis of its third clause; serialization and the file are not modelled.
- FileWorker.FileBackend.Drain: a line is issued when it is handed to the file; a write that fails or is cut off by an abort is not told apart.
- JdcChannels.SetPrefix: the loop over the channels is modelled on values, not as an in-place update.
- Downstream ids are unbounded in the model; the 64-bit factory is not wrapped.
- Failover.Upstreams.Initialize: sleeps and the notification that clears half-open connections are not modelled.
- NoiseReader.NoiseTcpReadHalf.ReadFrame: a cancellation while yielding between two decode steps is not a separate outcome; the state there is that of a fresh call.
- Handshake, sockets, Cap'n Proto, RPC and HTTP: foreign calls.
- Share validation, vardiff arithmetic, job and extranonce factories, the frame codec: parameters.
- The per-nonce path of `mine` beyond one `NextShare`, the job and prev-hash handlers of `Device`, extension negotiation, declared-job bookkeeping and the translator's and pool's channel managers: they would add members, not harder claims.
- Hashrates are reals; floating-point rounding is not modelled.
