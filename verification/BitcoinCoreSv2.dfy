/** The shared object of bitcoin-core-sv2 and its atomic segments, in the form
    the program has them: methods that update the fields in place. The ghost
    field `model` is the state of the transition system; every segment moves it
    by the step of that system and `Valid` says that the fields agree with it,
    so the run theorems speak about these bodies. What a task holds in local
    variables is passed in and handed back. */
module BitcoinCore {
  import opened Common
  import opened TemplateProvider

  class BitcoinCoreSv2 {
    var currentTemplateIpcClient: Option<ClientId>
    var currentPrevHash: Option<Hash>
    var waitNextRequestCounter: nat              // AtomicU8
    var coinbaseOutputConstraintsCounter: nat    // AtomicU32
    var templateData: map<nat, Template>
    var staleTemplateIds: set<nat>
    var templateIdFactory: nat                   // AtomicU64
    var outgoingMessages: seq<Message>
    var globalCancellation: bool
    ghost var model: State

    ghost predicate Valid()
      reads this
    {
      && currentTemplateIpcClient == model.client
      && currentPrevHash == model.prev
      && waitNextRequestCounter == model.requests
      && coinbaseOutputConstraintsCounter == model.epochs % EPOCH_SPACE
      && templateData == model.data
      && staleTemplateIds == model.stale
      && templateIdFactory == model.issued % ID_SPACE
      && outgoingMessages == model.out
      && globalCancellation == model.cancelled
    }

    constructor ()
      ensures Valid() && model == Init
    {
      currentTemplateIpcClient, currentPrevHash := None, None;
      waitNextRequestCounter, coinbaseOutputConstraintsCounter, templateIdFactory := 0, 0, 0;
      templateData, staleTemplateIds, outgoingMessages, globalCancellation := map[], {}, [], false;
      model := Init;
    }

    /** `template_id_factory.fetch_add(1)`, a wrapping add. */
    method NextTemplateId(ghost count: nat) returns (id: nat)
      requires templateIdFactory == count % ID_SPACE
      modifies this`templateIdFactory
      ensures id == count % ID_SPACE && templateIdFactory == (count + 1) % ID_SPACE
    {
      id := templateIdFactory;
      templateIdFactory := (templateIdFactory + 1) % ID_SPACE;
    }

    method CountConstraints(ghost count: nat)
      requires coinbaseOutputConstraintsCounter == count % EPOCH_SPACE
      modifies this`coinbaseOutputConstraintsCounter
      ensures coinbaseOutputConstraintsCounter == (count + 1) % EPOCH_SPACE
    {
      coinbaseOutputConstraintsCounter := (coinbaseOutputConstraintsCounter + 1) % EPOCH_SPACE;
    }

    /** Top of the monitor loop, reached in model state `s`; hands back the
        captured constraints count. */
    method NewWaitNextRequest(ghost s: State, ghost m: nat, requestOk: bool) returns (captured: nat)
      requires m < |s.monitors| && s.client == currentTemplateIpcClient && s.requests == waitNextRequestCounter
      requires s.cancelled == globalCancellation && coinbaseOutputConstraintsCounter == s.epochs % EPOCH_SPACE
      modifies this`waitNextRequestCounter, this`globalCancellation
      ensures waitNextRequestCounter == StartWait(s, m, requestOk).requests
      ensures globalCancellation == StartWait(s, m, requestOk).cancelled
      ensures captured == s.epochs % EPOCH_SPACE
    {
      captured := coinbaseOutputConstraintsCounter;
      if currentTemplateIpcClient.None? || !requestOk {
        globalCancellation := true;
      } else {
        waitNextRequestCounter := (waitNextRequestCounter + 1) % REQUEST_SPACE;
      }
    }

    /** From the answer to a waitNext request to the next await of the monitor. */
    method HandleResponse(ghost m: nat, captured: nat, response: Response, requestOk: bool)
      returns (next: nat, fetch: Option<nat>)
      requires Valid() && m < |model.monitors| && model.monitors[m].Waiting?
      requires captured == model.monitors[m].epoch % EPOCH_SPACE
      modifies this
      ensures Valid() && model == OnResponse(old(model), m, response, requestOk)
      ensures fetch.Some? ==> response.Fresh? && model.monitors[m] == Fetching(fetch.value, response.client)
      ensures model.monitors[m].Waiting? ==> next == model.monitors[m].epoch % EPOCH_SPACE
    {
      next, fetch := captured, None;
      ghost var s := model;
      model := OnResponse(s, m, response, requestOk);
      if response.Failed? {
        globalCancellation := true;
        return;
      }
      waitNextRequestCounter := (waitNextRequestCounter + REQUEST_SPACE - 1) % REQUEST_SPACE;
      if globalCancellation || coinbaseOutputConstraintsCounter != captured {
        return;
      }
      match response
      case Malformed =>
        globalCancellation := true;
      case TimedOut =>
        next := NewWaitNextRequest(s.(requests := waitNextRequestCounter), m, requestOk);
      case Fresh(c) =>
        currentTemplateIpcClient := Some(c);
        var id := NextTemplateId(s.issued);
        fetch := Some(id);
    }

    /** The chain-tip branch: record the tip, schedule the old templates for
        removal, store the new one, announce it. */
    method ChangeTip(ghost m: nat, t: Template, announce: Announce, requestOk: bool)
      returns (next: nat, stale: set<nat>)
      requires Valid() && m < |model.monitors|
      modifies this
      ensures Valid() && model == TipChange(old(model), m, t, announce, requestOk)
      ensures stale == old(templateData).Keys && model.cleanups == old(model).cleanups + [Delayed(stale)]
      ensures model.monitors[m].Waiting? ==> next == model.monitors[m].epoch % EPOCH_SPACE
    {
      next := coinbaseOutputConstraintsCounter;
      ghost var s := model;
      model := TipChange(s, m, t, announce, requestOk);
      currentPrevHash := Some(t.prevHash);
      stale := templateData.Keys;
      templateData := templateData[t.id := t];
      if announce.BuildFailed? || announce.FirstSendFailed? {
        globalCancellation := true;
        return;
      }
      outgoingMessages := outgoingMessages + [NewTemplate(t.id, true)];
      if announce.SecondSendFailed? {
        globalCancellation := true;
        return;
      }
      outgoingMessages := outgoingMessages + [SetNewPrevHash(t.id, t.prevHash)];
      next := NewWaitNextRequest(s, m, requestOk);
    }

    /** The mempool branch after its optional sleep: announce, then store. */
    method ChangeFees(ghost m: nat, t: Template, announce: Announce, requestOk: bool) returns (next: nat)
      requires Valid() && m < |model.monitors|
      modifies this
      ensures Valid() && model == FeeChange(old(model), m, t, announce, requestOk)
      ensures model.monitors[m].Waiting? ==> next == model.monitors[m].epoch % EPOCH_SPACE
    {
      next := coinbaseOutputConstraintsCounter;
      ghost var s := model;
      model := FeeChange(s, m, t, announce, requestOk);
      if !announce.Sent? {
        globalCancellation := true;
        return;
      }
      outgoingMessages := outgoingMessages + [NewTemplate(t.id, false)];
      templateData := templateData[t.id := t];
      next := NewWaitNextRequest(s, m, requestOk);
    }

    /** What a monitor does with the template data it has fetched. */
    method HandleFetched(ghost m: nat, id: nat, c: ClientId, hash: Option<Hash>, sleep: bool, announce: Announce, requestOk: bool)
      returns (next: nat, asleep: bool)
      requires Valid() && m < |model.monitors| && model.monitors[m] == Fetching(id, c)
      modifies this
      ensures Valid() && model == OnFetched(old(model), m, hash, sleep, announce, requestOk)
      ensures asleep == model.monitors[m].Sleeping?
      ensures model.monitors[m].Waiting? ==> next == model.monitors[m].epoch % EPOCH_SPACE
    {
      next, asleep := coinbaseOutputConstraintsCounter, false;
      if hash.None? || currentPrevHash.None? {
        model := FailMonitor(model, m);
        globalCancellation := true;
        return;
      }
      var t := Template(id, hash.value, c);
      if t.prevHash != currentPrevHash.value {
        var stale;
        next, stale := ChangeTip(m, t, announce, requestOk);
      } else if sleep {
        asleep := true;
        model := model.(monitors := model.monitors[m := Sleeping(t)]);
      } else {
        next := ChangeFees(m, t, announce, requestOk);
      }
    }

    /** The cleanup task when its delay is over: overwrite the stale set and move
        the stale templates that are still stored into a list. */
    method ProcessStaleTemplateData(ghost k: nat, stale: set<nat>) returns (removed: seq<Template>, ghost order: seq<nat>)
      requires Valid() && k < |model.cleanups| && model.cleanups[k] == Delayed(stale)
      modifies this
      ensures Valid() && model == RemoveStale(old(model), k)
      ensures Lists(order, removed, old(templateData), stale)
    {
      staleTemplateIds := stale;
      removed, templateData, order := RemoveAll(templateData, stale);
      model := RemoveStale(model, k);
    }

    /** `handle_request_transaction_data` up to its first await. */
    method HandleRequestTransactionData(id: nat, sendOk: bool) returns (found: Option<Template>)
      requires Valid() && model.incoming.Listening?
      modifies this
      ensures Valid() && model == OnRequest(old(model), TxData(id), sendOk)
      ensures found.Some? <==> Lookup(old(model), id).None?
      ensures found.Some? ==> id in templateData && found.value == templateData[id]
    {
      found := None;
      model := OnRequest(model, TxData(id), sendOk);
      var answer;
      if id in staleTemplateIds {
        answer := TxDataStale(id);
      } else if id in templateData {
        found := Some(templateData[id]);
        return;
      } else {
        answer := TxDataNotFound(id);
      }
      if sendOk {
        outgoingMessages := outgoingMessages + [answer];
      } else {
        globalCancellation := true;
      }
    }

    /** `handle_submit_solution` up to its first await. */
    method HandleSubmitSolution(id: nat) returns (found: Option<Template>)
      requires Valid()
      ensures found.Some? <==> id in templateData
      ensures found.Some? <==> SolutionAccepted(model, id)
      ensures found.Some? ==> id in templateData && found.value == templateData[id]
    {
      found := if id in templateData then Some(templateData[id]) else None;
    }

    /** `handle_coinbase_output_constraints` once Bitcoin Core has answered. */
    method HandleCoinbaseOutputConstraints(created: Option<ClientId>)
      requires Valid()
      modifies this
      ensures Valid() && model == OnIncomingClient(old(model), created)
    {
      ghost var s := model;
      model := OnIncomingClient(s, created);
      if created.None? {
        globalCancellation := true;
        return;
      }
      currentTemplateIpcClient := Some(created.value);
      CountConstraints(s.epochs);
    }

    /** `run` from the first client to its first await. */
    method StartBootstrap(created: Option<ClientId>) returns (id: nat)
      requires Valid()
      modifies this
      ensures Valid() && model == OnBootClient(old(model), created)
      ensures created.Some? ==> model.boot == AwaitTemplate(id, created.value)
    {
      id := 0;
      ghost var s := model;
      model := OnBootClient(s, created);
      if created.None? {
        globalCancellation := true;
        return;
      }
      currentTemplateIpcClient := Some(created.value);
      CountConstraints(s.epochs);
      id := NextTemplateId(s.issued);
    }

    /** `run` from the first template data to spawning the tasks. */
    method FinishBootstrap(id: nat, c: ClientId, hash: Option<Hash>, announce: Announce)
      requires Valid() && model.boot == AwaitTemplate(id, c)
      modifies this
      ensures Valid() && model == OnBootFetched(old(model), hash, announce)
    {
      model := OnBootFetched(model, hash, announce);
      if hash.None? || announce.BuildFailed? || announce.FirstSendFailed? {
        globalCancellation := true;
        return;
      }
      var t := Template(id, hash.value, c);
      outgoingMessages := outgoingMessages + [NewTemplate(t.id, true)];
      if announce.SecondSendFailed? {
        globalCancellation := true;
        return;
      }
      outgoingMessages := outgoingMessages + [SetNewPrevHash(t.id, t.prevHash)];
      templateData := templateData[t.id := t];
      currentPrevHash := Some(t.prevHash);
    }
  }

  /** `removed` lists, each once, the templates stored under the given ids;
      `order` is the order in which the set yields them. */
  ghost predicate Lists(order: seq<nat>, removed: seq<Template>, data: map<nat, Template>, ids: set<nat>) {
    && |order| == |removed|
    && (forall i :: 0 <= i < |order| ==> order[i] in data && removed[i] == data[order[i]])
    && (forall i, j :: 0 <= i < j < |order| ==> order[i] != order[j])
    && (forall id :: id in order <==> id in ids && id in data)
  }

  /** The removal loop over the stale ids, in whatever order the set yields them. */
  method RemoveAll(data: map<nat, Template>, stale: set<nat>)
    returns (removed: seq<Template>, rest: map<nat, Template>, ghost order: seq<nat>)
    ensures rest == data - stale
    ensures Lists(order, removed, data, stale)
  {
    removed, rest, order := [], data, [];
    var todo := stale;
    while todo != {}
      invariant todo <= stale
      invariant forall id <- data :: id in rest <==> id !in stale || id in todo
      invariant forall id <- rest :: id in data && rest[id] == data[id]
      invariant Lists(order, removed, data, stale - todo)
      decreases |todo|
    {
      var id :| id in todo;
      if id in rest {
        removed := removed + [rest[id]];
        order := order + [id];
        rest := rest - {id};
      }
      todo := todo - {id};
    }
    assert rest == data - stale;
    assert stale - todo == stale;
  }
}
