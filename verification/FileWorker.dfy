/** The file backend: senders that never block, a bounded queue, and one worker
    task that writes. Each step is one send or one stretch of the worker up to
    its next await; sends fall anywhere between the worker's steps, the await of
    the final flush included. */
module FileWorker {
  datatype Command = Write(text: string) | Flush | Shutdown

  datatype Ending = OpenFailed | Finished | Aborted

  /** Flushing is the await of the final flush: nothing is received any more but
      the receiver is still there. */
  datatype Phase = Opening | Running | Draining | Flushing | Exited(how: Ending)

  /** `issued` are the lines given to the file, `flushed` how many of them a flush
      has followed; `senders` says that some sender is left. The rest is history:
      the texts of the accepted Writes, what must have been issued once the
      shutdown under way is over, the Writes left behind the Shutdown that ended
      the drain, and those accepted during the final flush. */
  datatype State = State(capacity: nat, queue: seq<Command>, phase: Phase, issued: seq<string>, flushed: nat, senders: bool,
                         accepted: seq<string>, due: seq<string>, behind: seq<string>, late: seq<string>)

  datatype Event =
    | Send(c: Command)
    | SendersGone
    | Open(ok: bool)
    | Receive               // the worker takes the next command
    | ReceiveClosed         // all senders are gone and the queue is empty
    | TryReceiveEmpty       // the drain finds the queue empty
    | Finish                // the final flush is done and the receiver is dropped
    | Abort                 // the task is aborted at an await

  function Init(capacity: nat): State {
    State(capacity, [], Opening, [], 0, true, [], [], [], [])
  }

  /** `try_send` on the bounded channel. */
  predicate Accepts(s: State) {
    |s.queue| < s.capacity && !s.phase.Exited?
  }

  function Texts(q: seq<Command>): seq<string> {
    if q == [] then [] else (if q[0].Write? then [q[0].text] else []) + Texts(q[1..])
  }

  /** The Writes that come before the next Shutdown. */
  function TextsBeforeShutdown(q: seq<Command>): seq<string> {
    if q == [] || q[0].Shutdown? then []
    else (if q[0].Write? then [q[0].text] else []) + TextsBeforeShutdown(q[1..])
  }

  predicate Enabled(s: State, e: Event) {
    match e
    case Send(_) => s.senders
    case SendersGone => s.senders
    case Open(_) => s.phase.Opening?
    case Receive => (s.phase.Running? || s.phase.Draining?) && s.queue != []
    case ReceiveClosed => s.phase.Running? && s.queue == [] && !s.senders
    case TryReceiveEmpty => s.phase.Draining? && s.queue == []
    case Finish => s.phase.Flushing?
    case Abort => !s.phase.Exited?
  }

  function TextOf(c: Command): seq<string> {
    if c.Write? then [c.text] else []
  }

  function OnSend(s: State, c: Command): State {
    if !Accepts(s) then s
    else s.(queue := s.queue + [c], accepted := s.accepted + TextOf(c),
            late := if s.phase.Flushing? then s.late + TextOf(c) else s.late)
  }

  function OnReceive(s: State): State
    requires s.queue != []
  {
    var s1 := s.(queue := s.queue[1..]);
    match s.queue[0]
    case Write(text) => s1.(issued := s.issued + [text])
    case Flush => s1.(flushed := |s.issued|)
    case Shutdown =>
      if s.phase.Draining? then s1.(phase := Flushing, behind := Texts(s.queue[1..]))
      else s1.(phase := Draining, due := s.issued + TextsBeforeShutdown(s.queue[1..]))
  }

  function OnFinish(s: State): State {
    s.(phase := Exited(Finished), flushed := |s.issued|)
  }

  function Step(s: State, e: Event): State
    requires Enabled(s, e)
  {
    match e
    case Send(c) => OnSend(s, c)
    case SendersGone => s.(senders := false)
    case Open(ok) => s.(phase := if ok then Running else Exited(OpenFailed))
    case Receive => OnReceive(s)
    case ReceiveClosed => s.(phase := Flushing)
    case TryReceiveEmpty => s.(phase := Flushing)
    case Finish => OnFinish(s)
    case Abort => s.(phase := Exited(Aborted))
  }

  ghost predicate ValidRun(capacity: nat, es: seq<Event>)
    decreases |es|, 0
  {
    es == [] || (var n := |es| - 1; ValidRun(capacity, es[..n]) && Enabled(Exec(capacity, es[..n]), es[n]))
  }

  ghost function Exec(capacity: nat, es: seq<Event>): State
    requires ValidRun(capacity, es)
    decreases |es|, 1
  {
    if es == [] then Init(capacity) else Step(Exec(capacity, es[..|es| - 1]), es[|es| - 1])
  }

  // ------------------------------------------------------------ what runs keep

  lemma {:induction false} TextsAppend(q: seq<Command>, c: Command)
    ensures Texts(q + [c]) == Texts(q) + TextOf(c)
  {
    if q == [] {
      assert (q + [c])[1..] == [];
    } else {
      TextsAppend(q[1..], c);
      assert (q + [c])[1..] == q[1..] + [c];
    }
  }

  /** A later command never shortens what comes before the next Shutdown. */
  lemma {:induction false} BeforeShutdownGrows(q: seq<Command>, c: Command)
    ensures TextsBeforeShutdown(q) <= TextsBeforeShutdown(q + [c])
    ensures Shutdown in q ==> TextsBeforeShutdown(q + [c]) == TextsBeforeShutdown(q)
  {
    if q != [] && !q[0].Shutdown? {
      BeforeShutdownGrows(q[1..], c);
      assert (q + [c])[1..] == q[1..] + [c];
    }
  }

  /** The accepted texts, in order, are the lines issued and the Writes queued. */
  ghost predicate FifoOk(s: State) {
    s.accepted == s.issued + Texts(s.queue)
  }

  /** What the queue holds once nothing is received any more. */
  ghost predicate LeftOk(s: State) {
    && (s.phase.Flushing? || s.phase == Exited(Finished) ==> Texts(s.queue) == s.behind + s.late)
    && (s.phase.Opening? || s.phase.Running? || s.phase.Draining? ==> s.behind == [] && s.late == [])
  }

  /** During the drain `base` is issued or comes before the next Shutdown; once the
      drain is over it is issued. */
  ghost predicate Owes(s: State, base: seq<string>) {
    && (s.phase.Draining? ==> base <= s.issued + TextsBeforeShutdown(s.queue))
    && (s.phase.Flushing? || s.phase == Exited(Finished) ==> base <= s.issued)
  }

  ghost predicate Inv(s: State) {
    && |s.queue| <= s.capacity && s.flushed <= |s.issued|
    && FifoOk(s) && LeftOk(s) && Owes(s, s.due)
    && (s.phase.Opening? || s.phase.Running? ==> s.due == [])
    && (s.phase.Opening? || s.phase == Exited(OpenFailed) ==> s.issued == [])
    && (s.phase == Exited(Finished) ==> s.flushed == |s.issued|)
  }

  lemma Assoc(a: seq<string>, b: seq<string>, c: seq<string>)
    ensures a + (b + c) == a + b + c && [] + a == a && a + [] == a
  {
  }

  lemma StepKeepsFifo(s: State, e: Event)
    requires FifoOk(s) && Enabled(s, e)
    ensures FifoOk(Step(s, e))
  {
    match e
    case Send(c) =>
      TextsAppend(s.queue, c);
      Assoc(s.issued, Texts(s.queue), TextOf(c));
    case Receive => Assoc(s.issued, TextOf(s.queue[0]), Texts(s.queue[1..]));
    case _ =>
  }

  lemma StepKeepsLeft(s: State, e: Event)
    requires LeftOk(s) && Enabled(s, e)
    ensures LeftOk(Step(s, e))
  {
    match e
    case Send(c) =>
      TextsAppend(s.queue, c);
      Assoc(s.behind, s.late, TextOf(c));
    case _ =>
  }

  lemma StepKeepsOwes(s: State, e: Event, base: seq<string>)
    requires Owes(s, base) && Enabled(s, e) && !s.phase.Opening? && !s.phase.Running?
    ensures Owes(Step(s, e), base)
  {
    match e
    case Send(c) =>
      BeforeShutdownGrows(s.queue, c);
      assert s.issued + TextsBeforeShutdown(s.queue) <= s.issued + TextsBeforeShutdown(s.queue + [c]);
    case Receive => Assoc(s.issued, TextOf(s.queue[0]), TextsBeforeShutdown(s.queue[1..]));
    case _ =>
  }

  /** What a first Shutdown finds is due, and before it nothing is. */
  lemma StartOwes(s: State, e: Event)
    requires Enabled(s, e) && (s.phase.Opening? || s.phase.Running? ==> s.due == [])
    ensures s.phase.Opening? || s.phase.Running? ==> Owes(Step(s, e), Step(s, e).due)
    ensures !s.phase.Opening? && !s.phase.Running? ==> Step(s, e).due == s.due
  {
  }

  lemma StepKeepsInv(s: State, e: Event)
    requires Inv(s) && Enabled(s, e)
    ensures Inv(Step(s, e))
  {
    hide Owes, LeftOk, FifoOk, Texts, TextsBeforeShutdown;
    StepKeepsFifo(s, e);
    StepKeepsLeft(s, e);
    StartOwes(s, e);
    if !s.phase.Opening? && !s.phase.Running? {
      StepKeepsOwes(s, e, s.due);
    }
  }

  lemma {:induction false} RunKeepsInv(capacity: nat, es: seq<Event>)
    requires ValidRun(capacity, es)
    ensures Inv(Exec(capacity, es))
  {
    if es != [] {
      RunKeepsInv(capacity, es[..|es| - 1]);
      StepKeepsInv(Exec(capacity, es[..|es| - 1]), es[|es| - 1]);
    }
  }

  /** For any interleaving of senders and worker, the accepted texts in order are
      the lines issued followed by the Writes still queued. */
  lemma NothingReordered(capacity: nat, es: seq<Event>)
    requires ValidRun(capacity, es)
    ensures Exec(capacity, es).accepted == Exec(capacity, es).issued + Texts(Exec(capacity, es).queue)
  {
    RunKeepsInv(capacity, es);
  }

  /** In every run, once the worker has finished after a Shutdown, every Write that
      was queued before the next Shutdown when it was handled has been issued and
      flushed. */
  lemma ShutdownIssuesDue(capacity: nat, es: seq<Event>)
    requires ValidRun(capacity, es) && Exec(capacity, es).phase == Exited(Finished)
    ensures Exec(capacity, es).due <= Exec(capacity, es).issued
    ensures Exec(capacity, es).flushed == |Exec(capacity, es).issued|
  {
    RunKeepsInv(capacity, es);
  }

  // -------------------------------------------------------------- what is lost

  /** In every run, the accepted Writes that an exited worker has not issued are
      exactly those in the queue when the receiver was dropped; after a regular
      end they are the Writes left behind the Shutdown that ended the drain and
      those accepted while the final flush was awaited. */
  lemma LostWrites(capacity: nat, es: seq<Event>)
    requires ValidRun(capacity, es) && Exec(capacity, es).phase.Exited?
    ensures
      var s := Exec(capacity, es);
      && s.accepted == s.issued + Texts(s.queue)
      && (s.phase.how.Finished? ==> s.accepted == s.issued + s.behind + s.late)
      && (s.accepted == s.issued <==> Texts(s.queue) == [])
  {
    RunKeepsInv(capacity, es);
    var s := Exec(capacity, es);
    Assoc(s.issued, s.behind, s.late);
    assert |s.accepted| == |s.issued| + |Texts(s.queue)|;
  }

  /** A step after which some accepted Write is never issued: the file cannot be
      opened, or the task is aborted, with Writes queued; the drain meets a second
      Shutdown with Writes behind it; a Write is accepted during the final flush. */
  ghost predicate Loses(s: State, e: Event) {
    match e
    case Open(ok) => !ok && Texts(s.queue) != []
    case Abort => Texts(s.queue) != []
    case Receive => s.phase.Draining? && s.queue != [] && s.queue[0].Shutdown? && Texts(s.queue[1..]) != []
    case Send(c) => c.Write? && s.phase.Flushing? && |s.queue| < s.capacity
    case _ => false
  }

  ghost predicate LosesSomewhere(capacity: nat, es: seq<Event>)
    requires ValidRun(capacity, es)
    decreases |es|
  {
    es != [] && (var n := |es| - 1; LosesSomewhere(capacity, es[..n]) || Loses(Exec(capacity, es[..n]), es[n]))
  }

  /** Once nothing is received any more, the queue tells whether a Write is lost. */
  ghost predicate Tells(s: State, lost: bool) {
    if s.phase.Flushing? || s.phase.Exited? then lost <==> Texts(s.queue) != [] else !lost
  }

  lemma StepTells(s: State, e: Event, lost: bool)
    requires Tells(s, lost) && Enabled(s, e)
    ensures Tells(Step(s, e), lost || Loses(s, e))
  {
    if e.Send? {
      TextsAppend(s.queue, e.c);
      assert |Texts(s.queue + [e.c])| == |Texts(s.queue)| + |TextOf(e.c)|;
    }
  }

  lemma {:induction false} RunTells(capacity: nat, es: seq<Event>)
    requires ValidRun(capacity, es)
    ensures Tells(Exec(capacity, es), LosesSomewhere(capacity, es))
    decreases |es|
  {
    if es != [] {
      RunTells(capacity, es[..|es| - 1]);
      StepTells(Exec(capacity, es[..|es| - 1]), es[|es| - 1], LosesSomewhere(capacity, es[..|es| - 1]));
    }
  }

  /** For any interleaving: a worker that has exited has issued every accepted Write
      exactly when no step of the run loses one. */
  lemma LosesIff(capacity: nat, es: seq<Event>)
    requires ValidRun(capacity, es) && Exec(capacity, es).phase.Exited?
    ensures Exec(capacity, es).accepted != Exec(capacity, es).issued <==> LosesSomewhere(capacity, es)
  {
    RunTells(capacity, es);
    LostWrites(capacity, es);
  }

  // ------------------------------------------------------------ what a step does

  /** A command is accepted exactly when there is room and the receiver is there. */
  lemma AcceptedIff(s: State, c: Command)
    requires s.senders
    ensures
      var t, room := Step(s, Send(c)), |s.queue| < s.capacity && !s.phase.Exited?;
      && t.queue == (if room then s.queue + [c] else s.queue)
      && t.accepted == (if room && c.Write? then s.accepted + [c.text] else s.accepted)
      && t.phase == s.phase && t.issued == s.issued && t.flushed == s.flushed
  {
  }

  /** The worker opens, runs, drains after the first Shutdown until a second one or an
      empty queue, flushes and exits. */
  lemma PhaseGoes(s: State, e: Event)
    requires Enabled(s, e)
    ensures Step(s, e).phase == (match e
                                 case Open(ok) => if ok then Running else Exited(OpenFailed)
                                 case Receive =>
                                   if s.queue[0].Shutdown? then (if s.phase.Draining? then Flushing else Draining) else s.phase
                                 case ReceiveClosed => Flushing
                                 case TryReceiveEmpty => Flushing
                                 case Finish => Exited(Finished)
                                 case Abort => Exited(Aborted)
                                 case _ => s.phase)
  {
  }

  /** A line is issued exactly for a Write that is received; a flush covers every line
      issued, on a Flush command and at the end, and on nothing else. */
  lemma IssuesExactly(s: State, e: Event)
    requires Enabled(s, e)
    ensures
      var t, takes := Step(s, e), e.Receive?;
      && t.issued == s.issued + (if takes && s.queue[0].Write? then [s.queue[0].text] else [])
      && t.flushed == (if (takes && s.queue[0].Flush?) || e.Finish? then |s.issued| else s.flushed)
      && (takes ==> t.queue == s.queue[1..])
  {
    assert s.issued + [] == s.issued;
  }

  // --------------------------------------------------- what follows a given state

  ghost function After(s: State, es: seq<Event>): State
    requires Continues(s, es)
    decreases |es|, 1
  {
    if es == [] then s else After(Step(s, es[0]), es[1..])
  }

  ghost predicate Continues(s: State, es: seq<Event>)
    decreases |es|, 0
  {
    es == [] || (Enabled(s, es[0]) && Continues(Step(s, es[0]), es[1..]))
  }

  /** With a Shutdown queued the drain issues `base` and nothing else. */
  ghost predicate Exactly(s: State, base: seq<string>) {
    || s.phase == Exited(Aborted)
    || (s.phase.Draining? && Shutdown in s.queue && s.issued + TextsBeforeShutdown(s.queue) == base)
    || ((s.phase.Flushing? || s.phase == Exited(Finished)) && s.issued == base)
  }

  lemma StepKeepsExactly(s: State, e: Event, base: seq<string>)
    requires Exactly(s, base) && Enabled(s, e)
    ensures Exactly(Step(s, e), base)
  {
    match e
    case Send(c) => BeforeShutdownGrows(s.queue, c);
    case Receive =>
      Assoc(s.issued, TextOf(s.queue[0]), TextsBeforeShutdown(s.queue[1..]));
      assert !s.queue[0].Shutdown? ==> Shutdown in s.queue[1..];
    case _ =>
  }

  lemma {:induction false} AfterKeepsExactly(s: State, es: seq<Event>, base: seq<string>)
    requires Inv(s) && Exactly(s, base) && Continues(s, es)
    ensures Exactly(After(s, es), base) && Inv(After(s, es))
    decreases |es|
  {
    if es != [] {
      StepKeepsInv(s, es[0]);
      StepKeepsExactly(s, es[0], base);
      AfterKeepsExactly(Step(s, es[0]), es[1..], base);
    }
  }

  /** When the worker handles a Shutdown with a second one queued, whatever is
      sent meanwhile, it finishes having issued exactly the Writes queued before
      the second one, in order, with a flush behind the last. */
  lemma SecondShutdownEndsDrain(s: State, es: seq<Event>)
    requires Inv(s) && s.phase.Running? && s.queue != [] && s.queue[0].Shutdown? && Shutdown in s.queue[1..]
    requires Continues(OnReceive(s), es)
    ensures
      var t := After(OnReceive(s), es);
      t.phase == Exited(Finished) ==>
        t.issued == s.issued + TextsBeforeShutdown(s.queue[1..]) && t.flushed == |t.issued|
  {
    StepKeepsInv(s, Receive);
    AfterKeepsExactly(OnReceive(s), es, s.issued + TextsBeforeShutdown(s.queue[1..]));
  }

  /** A worker that ends because all senders are gone loses nothing. */
  lemma {:induction false} ClosedLosesNothing(s: State, es: seq<Event>)
    requires Inv(s) && !s.senders && s.queue == [] && (s.phase.Flushing? || s.phase.Exited?) && Continues(s, es)
    ensures After(s, es).accepted == After(s, es).issued
    decreases |es|
  {
    if es == [] {
      Assoc(s.issued, [], []);
    } else {
      StepKeepsInv(s, es[0]);
      ClosedLosesNothing(Step(s, es[0]), es[1..]);
    }
  }

  // ---------------------------------------------------------- losing runs

  lemma Extend(capacity: nat, es: seq<Event>, e: Event)
    requires ValidRun(capacity, es) && Enabled(Exec(capacity, es), e)
    ensures ValidRun(capacity, es + [e]) && Exec(capacity, es + [e]) == Step(Exec(capacity, es), e)
  {
    assert (es + [e])[..|es + [e]| - 1] == es;
  }

  /** One Shutdown, an empty queue, a file that opens: a Write accepted while the
      final flush is awaited is lost. */
  lemma WriteDuringFinalFlush() returns (es: seq<Event>)
    ensures ValidRun(8, es) && Exec(8, es).phase == Exited(Finished)
    ensures Exec(8, es).accepted == ["a"] && Exec(8, es).issued == [] && Exec(8, es).behind == []
  {
    Extend(8, [], Open(true));
    es := [] + [Open(true)];
    Extend(8, es, Send(Shutdown));
    es := es + [Send(Shutdown)];
    Extend(8, es, Receive);
    es := es + [Receive];
    assert Exec(8, es).queue == [] && Exec(8, es).phase.Draining?;
    Extend(8, es, TryReceiveEmpty);
    es := es + [TryReceiveEmpty];
    Extend(8, es, Send(Write("a")));
    es := es + [Send(Write("a"))];
    Extend(8, es, Finish);
    es := es + [Finish];
  }

  lemma FourQueued() returns (es: seq<Event>)
    ensures ValidRun(8, es)
    ensures Exec(8, es) == Init(8).(phase := Running, accepted := ["a", "b"],
                                    queue := [Shutdown, Write("a"), Shutdown, Write("b")])
  {
    Extend(8, [], Open(true));
    es := [] + [Open(true)];
    Extend(8, es, Send(Shutdown));
    es := es + [Send(Shutdown)];
    Extend(8, es, Send(Write("a")));
    es := es + [Send(Write("a"))];
    Extend(8, es, Send(Shutdown));
    es := es + [Send(Shutdown)];
    Extend(8, es, Send(Write("b")));
    es := es + [Send(Write("b"))];
  }

  /** Two Shutdowns with a Write between and one behind: the second Write is lost. */
  lemma WriteBehindSecondShutdown() returns (es: seq<Event>)
    ensures ValidRun(8, es) && Exec(8, es).phase == Exited(Finished)
    ensures Exec(8, es).accepted == ["a", "b"] && Exec(8, es).issued == ["a"] && Exec(8, es).late == []
  {
    es := FourQueued();
    Extend(8, es, Receive);
    es := es + [Receive];
    assert Exec(8, es).queue == [Write("a"), Shutdown, Write("b")];
    Extend(8, es, Receive);
    es := es + [Receive];
    assert Exec(8, es).queue == [Shutdown, Write("b")];
    Extend(8, es, Receive);
    es := es + [Receive];
    Extend(8, es, Finish);
    es := es + [Finish];
  }

  // ---------------------------------------------------------------- the object

  class FileBackend {
    const channelSize: nat
    var channel: seq<Command>
    var closed: bool              // the worker has dropped its receiver
    var file: seq<string>
    ghost var model: State

    ghost predicate Valid()
      reads this
    {
      && channel == model.queue && channelSize == model.capacity && file == model.issued
      && closed == model.phase.Exited? && Inv(model)
    }

    constructor (size: nat)
      ensures Valid() && model == Init(size)
    {
      channelSize, channel, closed, file := size, [], false, [];
      model := Init(size);
    }

    /** `try_send`, behind persist_event, flush and shutdown: refused only when the
        queue is full or the receiver is gone. */
    method TrySend(c: Command) returns (ok: bool)
      requires Valid() && model.senders
      modifies this
      ensures Valid() && model == Step(old(model), Send(c))
      ensures ok <==> |old(channel)| < channelSize && !old(closed)
    {
      hide Inv;
      StepKeepsInv(model, Send(c));
      ok := |channel| < channelSize && !closed;
      model := OnSend(model, c);
      if ok {
        channel := channel + [c];
      }
    }

    /** One turn of the main loop; true when the drain has to follow. */
    method HandleCommand() returns (drain: bool)
      requires Valid() && model.phase.Running? && channel != []
      modifies this
      ensures Valid() && model == Step(old(model), Receive) && drain == model.phase.Draining?
    {
      hide Inv;
      StepKeepsInv(model, Receive);
      model := OnReceive(model);
      var command := channel[0];
      channel := channel[1..];
      drain := command.Shutdown?;
      if command.Write? {
        file := file + [command.text];
      }
    }

    /** One turn of the drain loop; true when the loop goes on. */
    method DrainOne() returns (more: bool)
      requires Valid() && model.phase.Draining?
      modifies this
      ensures Valid() && model == Step(old(model), if old(channel) == [] then TryReceiveEmpty else Receive)
      ensures if more then model.phase.Draining? && |channel| < |old(channel)| else model.phase.Flushing?
    {
      hide Inv;
      if channel == [] {
        StepKeepsInv(model, TryReceiveEmpty);
        model := Step(model, TryReceiveEmpty);
        return false;
      }
      StepKeepsInv(model, Receive);
      model := OnReceive(model);
      var command := channel[0];
      channel := channel[1..];
      match command
      case Write(text) =>
        file := file + [text];
        more := true;
      case Flush =>
        more := true;
      case Shutdown =>
        more := false;
    }

    /** The end of the final flush, with which the receiver goes. */
    method FinishShutdown()
      requires Valid() && model.phase.Flushing?
      modifies this
      ensures Valid() && model == Step(old(model), Finish) && channel == old(channel)
    {
      hide Inv;
      StepKeepsInv(model, Finish);
      model := OnFinish(model);
      closed := true;
    }

    /** The sends that fall into one await. */
    method SendAll(commands: seq<Command>, ghost base: seq<string>, ghost exact: bool)
      requires Valid() && model.senders && (model.phase.Draining? || model.phase.Flushing?)
      requires Owes(model, base) && (exact ==> Exactly(model, base))
      modifies this
      ensures Valid() && model.senders && model.phase == old(model.phase) && file == old(file)
      ensures Owes(model, base) && (exact ==> Exactly(model, base))
    {
      hide Inv, Owes, Exactly;
      for i := 0 to |commands|
        invariant Valid() && model.senders && model.phase == old(model.phase) && file == old(file)
        invariant Owes(model, base) && (exact ==> Exactly(model, base))
      {
        StepKeepsOwes(model, Send(commands[i]), base);
        if exact {
          StepKeepsExactly(model, Send(commands[i]), base);
        }
        var ok := TrySend(commands[i]);
      }
    }

    /** The whole drain and the final flush, with any sends falling into its
        awaits (`arrivals`, one entry per await) and into that of the final flush
        (`late`): the Writes queued before the next Shutdown are issued, nothing
        else when that Shutdown is queued already, and what is still queued is lost. */
    method Drain(arrivals: seq<seq<Command>>, late: seq<Command>)
      requires Valid() && model.phase.Draining? && model.senders
      modifies this
      ensures Valid() && model.phase == Exited(Finished)
      ensures old(file) + TextsBeforeShutdown(old(channel)) <= file
      ensures Shutdown in old(channel) ==> file == old(file) + TextsBeforeShutdown(old(channel))
      ensures model.accepted == file + Texts(channel)
    {
      ghost var base := file + TextsBeforeShutdown(channel);
      ghost var exact := Shutdown in channel;
      assert Owes(model, base) && (exact ==> Exactly(model, base));
      var k := 0;
      while true
        invariant Valid() && model.phase.Draining? && model.senders && k <= |arrivals|
        invariant Owes(model, base) && (exact ==> Exactly(model, base))
        decreases |arrivals| - k, |channel|
      {
        ghost var e := if channel == [] then TryReceiveEmpty else Receive;
        StepKeepsOwes(model, e, base);
        if exact {
          StepKeepsExactly(model, e, base);
        }
        var more := DrainOne();
        if !more {
          break;
        }
        if k < |arrivals| {
          SendAll(arrivals[k], base, exact);
          k := k + 1;
        }
      }
      SendAll(late, base, exact);
      FinishShutdown();
    }
  }
}
