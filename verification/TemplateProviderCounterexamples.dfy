/** Concrete runs with two monitors alive: a constraints change does not end a
    monitor that has passed its epoch check. */
module TemplateProviderCounterexamples {
  import opened Common
  import opened TemplateProvider
  import opened TemplateProviderSafety
  import opened TemplateProviderRuns
  import opened TemplateProviderExact

  lemma Extend(s: State, e: Event) returns (r: State)
    requires Reachable(s) && Enabled(s, e)
    ensures r == Step(s, e) && Reachable(r)
  {
    var es :| ValidRun(es) && Exec(es) == s;
    var fs := es + [e];
    assert fs[..|fs| - 1] == es;
    assert ValidRun(fs) && Exec(fs) == Step(s, e);
    r := Step(s, e);
  }

  lemma Booted() returns (s: State)
    ensures Reachable(s)
    ensures s == Init.(boot := Running, data := map[0 := Template(0, 10, 0)], prev := Some(10), client := Some(0), issued := 1,
                       epochs := 1, monitors := [AwaitThread], incoming := Listening,
                       out := [NewTemplate(0, true), SetNewPrevHash(0, 10)], inserted := map[0 := Template(0, 10, 0)],
                       clients := {0}, bound := [0])
  {
    s := Init;
    assert ValidRun([]) && Exec([]) == s;
    s := Extend(s, OfBoot(FirstConstraints));
    s := Extend(s, OfBoot(FirstClient(Some(0))));
    s := Extend(s, OfBoot(FirstFetched(Some(10), Sent)));
  }

  /** Monitor 0 is fetching template 1 when a constraints change starts monitor 1. */
  lemma TwoMonitors() returns (s: State)
    ensures Reachable(s)
    ensures s == Init.(boot := Running, data := map[0 := Template(0, 10, 0)], prev := Some(10), client := Some(2), issued := 2,
                       epochs := 2, requests := 1, monitors := [Fetching(1, 1), Waiting(2)], incoming := Listening,
                       out := [NewTemplate(0, true), SetNewPrevHash(0, 10)], inserted := map[0 := Template(0, 10, 0)],
                       clients := {0, 1, 2}, bound := [0, 1])
  {
    s := Booted();
    s := Extend(s, OfMonitor(0, Thread(true, true)));
    s := Extend(s, OfMonitor(0, Respond(Fresh(1), true)));
    assert s.monitors == [Fetching(1, 1)];
    s := Extend(s, OfIncoming(Receive(Constraints, true)));
    s := Extend(s, OfIncoming(ClientCreated(Some(2))));
    assert s.monitors == [Fetching(1, 1), AwaitThread];
    s := Extend(s, OfMonitor(1, Thread(true, true)));
  }

  /** Monitor 1 announces a new tip, or fails to, while monitor 0 holds template 1. */
  lemma SecondTip(s0: State, announce: Announce) returns (s: State)
    requires Reachable(s0) && s0.boot.Running? && |s0.monitors| == 2 && s0.monitors[1] == Waiting(2) && s0.epochs == 2
    requires !s0.cancelled && !Lost(s0) && 3 !in s0.clients && s0.issued == 2 && s0.prev == Some(10) && s0.data.Keys == {0} && s0.client.Some?
    ensures Reachable(s) && |s.monitors| == 2 && s.monitors[0] == s0.monitors[0] && s.prev == Some(11)
    ensures s.data == s0.data[2 := Template(2, 11, 3)] && s.cleanups == s0.cleanups + [Delayed({0})]
    ensures announce.Sent? ==> s.out == s0.out + [NewTemplate(2, true), SetNewPrevHash(2, 11)]
    ensures announce.BuildFailed? ==> s.out == s0.out
    ensures s.boot.Running? && s.issued == 3
    ensures s.client == Some(3) && s.epochs == 2 && s.cancelled == !announce.Sent? && s.tip == (if announce.Sent? then AlwaysAnnounced else Unannounced)
    ensures announce.Sent? ==> s.monitors[1] == Waiting(2)
  {
    s := Extend(s0, OfMonitor(1, Respond(Fresh(3), true)));
    assert s.monitors[1] == Fetching(2, 3);
    s := Extend(s, OfMonitor(1, Fetched(Some(11), false, announce, true)));
  }

  /** Monitor 0 sleeps on template 1 while monitor 1 announces the next tip. */
  lemma SleepingAcrossTip() returns (s: State)
    ensures Reachable(s) && s.monitors == [Sleeping(Template(1, 10, 1)), Waiting(2)] && s.prev == Some(11)
    ensures s.cleanups == [Delayed({0})] && s.client.Some? && s.epochs == 2 && !s.cancelled
    ensures |s.out| == 4 && s.out[3] == SetNewPrevHash(2, 11)
  {
    s := TwoMonitors();
    s := Extend(s, OfMonitor(0, Fetched(Some(10), true, Sent, true)));
    assert s.monitors == [Sleeping(Template(1, 10, 1)), Waiting(2)];
    s := SecondTip(s, Sent);
  }

  /** A template of the old tip is announced as current and stored after the tip
      has moved on, and two monitors wait for the current epoch. */
  lemma StaleTemplateAnnounced() returns (s: State)
    ensures Reachable(s) && !AllFresh(s) && !s.cancelled
    ensures |s.out| == 5 && s.out[4] == NewTemplate(1, false) && s.out[3] == SetNewPrevHash(2, 11)
    ensures 1 in s.data && s.data[1].prevHash == 10 && s.prev == Some(11)
    ensures s.monitors == [Waiting(2), Waiting(2)] && s.epochs == 2
  {
    var s0 := SleepingAcrossTip();
    s := Extend(s0, OfMonitor(0, Awake(Sent, true)));
    StillSleeping(s0);
    assert s == FeeChange(s0, 0, Template(1, 10, 1), Sent, true);
  }

  lemma StillSleeping(s: State)
    requires |s.monitors| == 2 && s.monitors[1] == Waiting(2) && s.prev == Some(11) && s.cleanups == [Delayed({0})]
    requires s.client.Some? && s.epochs == 2
    ensures
      var r := FeeChange(s, 0, Template(1, 10, 1), Sent, true);
      !AllFresh(r) && r.monitors == [Waiting(2), Waiting(2)]
  {
    var r := FeeChange(s, 0, Template(1, 10, 1), Sent, true);
    assert 1 in r.data && r.data[1].prevHash == 10;
    assert r.cleanups == [Delayed({0})];
    assert !Scheduled(r, 1);
  }

  /** After a tip that was recorded but not announced, the other monitor repeats
      the hash of the last SetNewPrevHash. */
  lemma RepeatedTip() returns (s: State)
    ensures Reachable(s) && !TipsAlternate(s)
  {
    var s0 := LostTip();
    var e := OfMonitor(0, Fetched(Some(10), false, Sent, true));
    s := Extend(s0, e);
    FirstTipOnly();
    assert RepeatsTip(s0, e);
    RepeatIff(s0, e);
  }

  /** After a tip that was recorded but not announced, the template of the latest
      SetNewPrevHash is removed and a request for it is refused as stale. */
  lemma LatestTipRefused() returns (s: State)
    ensures Live(s) && s.boot.Running? && Tips(s.out) == [SetNewPrevHash(0, 10)]
    ensures !LatestTipSafe(s) && Lookup(s, 0) == Some(TxDataStale(0)) && !SolutionAccepted(s, 0)
  {
    var s0 := LostTip();
    FirstTipOnly();
    s := Extend(s0, OfCleanup(0, Remove));
    CleanupAnswers(s0, 0, 0);
  }

  /** A tip recorded but not announced: the recorded one is ahead. */
  lemma LostTip() returns (s: State)
    ensures Reachable(s) && |s.monitors| == 2 && s.monitors[0] == Fetching(1, 1) && s.prev == Some(11) && s.tip.Unannounced?
    ensures s.boot.Running? && s.issued <= ID_SPACE && s.cleanups == [Delayed({0})]
    ensures s.out == [NewTemplate(0, true), SetNewPrevHash(0, 10)]
    ensures Live(s) && !TipIsAnnounced(s)
  {
    s := TwoMonitors();
    s := SecondTip(s, BuildFailed);
    FirstTipOnly();
  }

  lemma FirstTipOnly()
    ensures
      var out := [NewTemplate(0, true), SetNewPrevHash(0, 10)];
      Announced(out) && Tips(out) == [SetNewPrevHash(0, 10)] && Alternating(Tips(out))
  {
    AnnounceTip([], 0, 10);
    assert [] + [NewTemplate(0, true), SetNewPrevHash(0, 10)] == [NewTemplate(0, true), SetNewPrevHash(0, 10)];
  }

  /** Template 2 carries the current client, is scheduled by monitor 0's tip
      change and destroyed while both monitors still wait on it. */
  lemma ClientDestroyedWhileCurrent() returns (s: State)
    ensures Reachable(s) && CurrentClientDestroyed(s) && InFlight(s.monitors) == 2 && !s.cancelled
  {
    s := ScheduledWhileCurrent();
    s := Extend(s, OfCleanup(0, Remove));
    s := Extend(s, OfCleanup(0, ThreadCreated(true)));
    s := Extend(s, OfCleanup(0, Destroy(2, true)));
    assert 2 in s.destroyed && s.inserted[2].client == 3;
    InFlightSpawn([], Waiting(2));
    InFlightSpawn([Waiting(2)], Waiting(2));
    assert [] + [Waiting(2)] + [Waiting(2)] == s.monitors;
  }

  lemma ScheduledWhileCurrent() returns (s: State)
    ensures Reachable(s) && s.client == Some(3) && s.cleanups == [Delayed({0, 2})] && !s.cancelled
    ensures 2 in s.data && 2 in s.inserted && s.inserted[2].client == 3 && s.destroyed == []
    ensures s.monitors == [Waiting(2), Waiting(2)]
  {
    s := TwoMonitors();
    s := Extend(s, OfMonitor(1, Respond(Fresh(3), true)));
    assert s.monitors == [Fetching(1, 1), Fetching(2, 3)];
    s := Extend(s, OfMonitor(1, Fetched(Some(10), false, Sent, true)));
    assert s.monitors == [Fetching(1, 1), Waiting(2)];
    assert s.data.Keys == {0, 2};
    s := Extend(s, OfMonitor(0, Fetched(Some(11), false, Sent, true)));
  }
}
