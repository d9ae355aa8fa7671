/** Upstream failover of the job declarator client and the translator: nested
    retry loops that flag upstreams, and the event loops that start them again. */
module Failover {
  const MAX_RETRIES: nat := 3

  datatype Outcome = Connected(upstream: nat) | AllFailed | ServerFailed(upstream: nat)

  /** Whether the given attempt, counted over the whole program, connects. */
  type Network = (nat, nat) -> bool

  function Unflagged(flags: seq<bool>): nat {
    if flags == [] then 0 else Unflagged(flags[..|flags| - 1]) + if flags[|flags| - 1] then 0 else 1
  }

  function Count(log: seq<nat>, u: nat): nat {
    if log == [] then 0 else Count(log[..|log| - 1], u) + if log[|log| - 1] == u then 1 else 0
  }

  lemma {:induction false} FlagOne(flags: seq<bool>, i: nat)
    requires i < |flags| && !flags[i]
    ensures Unflagged(flags[i := true]) == Unflagged(flags) - 1
  {
    var n := |flags| - 1;
    var after := flags[i := true];
    if i == n {
      assert after[..n] == flags[..n];
    } else {
      FlagOne(flags[..n], i);
      assert after[..n] == flags[..n][i := true];
    }
  }

  lemma {:induction false} AllFlagged(flags: seq<bool>)
    ensures Unflagged(flags) == 0 <==> forall i :: 0 <= i < |flags| ==> flags[i]
  {
    if flags != [] {
      var n := |flags| - 1;
      AllFlagged(flags[..n]);
      assert forall i :: 0 <= i < n ==> flags[..n][i] == flags[i];
      if forall i :: 0 <= i < n ==> flags[i] {
        assert Unflagged(flags[..n]) == 0;
      }
    }
  }

  lemma {:induction false} UnflaggedBound(flags: seq<bool>)
    ensures Unflagged(flags) <= |flags|
  {
    if flags != [] {
      UnflaggedBound(flags[..|flags| - 1]);
    }
  }

  lemma CountAppend(log: seq<nat>, v: nat, u: nat)
    ensures Count(log + [v], u) == Count(log, u) + if v == u then 1 else 0
  {
    assert (log + [v])[..|log|] == log;
  }

  /** The attempts on one upstream: up to the first that connects, `left` at most. */
  function Retry(connect: Network, log: seq<nat>, u: nat, left: nat): (more: seq<nat>)
    requires left > 0
    ensures |log| < |more| <= |log| + left
    decreases left
  {
    if connect(u, |log|) || left == 1 then log + [u] else Retry(connect, log + [u], u, left - 1)
  }

  datatype Scanned = Scanned(flags: seq<bool>, log: seq<nat>, outcome: Outcome)

  /** One initialisation from upstream i on, as a function of flags and attempts so far. */
  function Scan(connect: Network, serverOk: nat -> bool, flags: seq<bool>, log: seq<nat>, i: nat): Scanned
    requires i <= |flags|
    decreases |flags| - i
  {
    if i == |flags| then Scanned(flags, log, AllFailed)
    else if flags[i] then Scan(connect, serverOk, flags, log, i + 1)
    else
      var tried := Retry(connect, log, i, MAX_RETRIES);
      if !connect(i, |tried| - 1) then Scan(connect, serverOk, flags[i := true], tried, i + 1)
      else if serverOk(|tried|) then Scanned(flags[i := true], tried, Connected(i))
      else Scanned(flags, tried, ServerFailed(i))
  }

  /** The attempts are on upstreams from i on that were not flagged, in their order,
      and all fail but the one that ends the scan. */
  ghost predicate Tries(connect: Network, flags: seq<bool>, log: seq<nat>, i: nat, r: Scanned) {
    && log <= r.log
    && (forall k :: |log| <= k < |r.log| ==> i <= r.log[k] < |flags| && !flags[r.log[k]])
    && (forall a, b :: |log| <= a < b < |r.log| ==> r.log[a] <= r.log[b])
    && (forall k :: |log| <= k < |r.log| - 1 ==> !connect(r.log[k], k))
    && (if r.outcome.AllFailed? then |r.log| > |log| ==> !connect(r.log[|r.log| - 1], |r.log| - 1)
        else |r.log| > |log| && r.log[|r.log| - 1] == r.outcome.upstream && connect(r.outcome.upstream, |r.log| - 1))
  }

  lemma TriesSkip(connect: Network, flags: seq<bool>, log: seq<nat>, i: nat, r: Scanned)
    requires Tries(connect, flags, log, i + 1, r)
    ensures Tries(connect, flags, log, i, r)
  {
  }

  lemma TriesMore(connect: Network, flags: seq<bool>, log: seq<nat>, tried: seq<nat>, i: nat, r: Scanned)
    requires i < |flags| && !flags[i] && log <= tried && |tried| > |log|
    requires forall k :: |log| <= k < |tried| ==> tried[k] == i && !connect(i, k)
    requires Tries(connect, flags[i := true], tried, i + 1, r)
    ensures Tries(connect, flags, log, i, r)
  {
    assert forall k :: |log| <= k < |tried| ==> r.log[k] == tried[k];
  }

  lemma TriesLast(connect: Network, flags: seq<bool>, log: seq<nat>, tried: seq<nat>, i: nat, r: Scanned)
    requires i < |flags| && !flags[i] && log <= tried && |tried| > |log|
    requires forall k :: |log| <= k < |tried| ==> tried[k] == i
    requires forall k :: |log| <= k < |tried| - 1 ==> !connect(i, k)
    requires r.log == tried && !r.outcome.AllFailed? && r.outcome.upstream == i && connect(i, |tried| - 1)
    ensures Tries(connect, flags, log, i, r)
  {
  }

  lemma UnfoldScan(connect: Network, serverOk: nat -> bool, flags: seq<bool>, log: seq<nat>, i: nat)
    requires i <= |flags|
    ensures
      var r := Scan(connect, serverOk, flags, log, i);
      && (i == |flags| ==> r == Scanned(flags, log, AllFailed))
      && (i < |flags| && flags[i] ==> r == Scan(connect, serverOk, flags, log, i + 1))
      && (i < |flags| && !flags[i] ==>
            var tried := Retry(connect, log, i, MAX_RETRIES);
            if !connect(i, |tried| - 1) then r == Scan(connect, serverOk, flags[i := true], tried, i + 1)
            else r.log == tried && r.outcome == if serverOk(|tried|) then Connected(i) else ServerFailed(i))
  {
  }

  /** One initialisation tries so, and connects to the first upstream that answers,
      unless the server behind it cannot start. */
  lemma {:induction false} ScanTries(connect: Network, serverOk: nat -> bool, flags: seq<bool>, log: seq<nat>, i: nat)
    requires i <= |flags|
    ensures
      var r := Scan(connect, serverOk, flags, log, i);
      && Tries(connect, flags, log, i, r)
      && (r.outcome.Connected? ==> serverOk(|r.log|)) && (r.outcome.ServerFailed? ==> !serverOk(|r.log|))
    decreases |flags| - i
  {
    hide Scan, Retry, Tries;
    var r := Scan(connect, serverOk, flags, log, i);
    UnfoldScan(connect, serverOk, flags, log, i);
    if i == |flags| {
      TriesNone(connect, flags, log, i);
    } else if flags[i] {
      ScanTries(connect, serverOk, flags, log, i + 1);
      TriesSkip(connect, flags, log, i, r);
    } else {
      var tried := Retry(connect, log, i, MAX_RETRIES);
      RetryTries(connect, log, i, MAX_RETRIES);
      if connect(i, |tried| - 1) {
        TriesLast(connect, flags, log, tried, i, r);
      } else {
        ScanTries(connect, serverOk, flags[i := true], tried, i + 1);
        TriesMore(connect, flags, log, tried, i, r);
      }
    }
  }

  lemma TriesNone(connect: Network, flags: seq<bool>, log: seq<nat>, i: nat)
    ensures Tries(connect, flags, log, i, Scanned(flags, log, AllFailed))
  {
  }

  lemma {:induction false} RetryTries(connect: Network, log: seq<nat>, u: nat, left: nat)
    requires left > 0
    ensures
      var more := Retry(connect, log, u, left);
      && log <= more && (forall k :: |log| <= k < |more| ==> more[k] == u)
      && (forall k :: |log| <= k < |more| - 1 ==> !connect(u, k))
    decreases left
  {
    if !connect(u, |log|) && left > 1 {
      RetryTries(connect, log + [u], u, left - 1);
    }
  }

  datatype Run = Run(flags: seq<bool>, log: seq<nat>, connected: nat)

  /** One initialisation per network; `stops` when one that fails ends the program. */
  function RunAll(connects: seq<Network>, serverOk: nat -> bool, stops: bool, r: Run): Run
    decreases |connects|
  {
    if connects == [] then r
    else
      var scan := Scan(connects[0], serverOk, r.flags, r.log, 0);
      var next := Run(scan.flags, scan.log, r.connected + if scan.outcome.Connected? then 1 else 0);
      if stops && !scan.outcome.Connected? then next else RunAll(connects[1..], serverOk, stops, next)
  }

  /** Every network of a run that does not stop is one more initialisation on what
      the ones before it left. */
  lemma {:induction false} RunAppend(connects: seq<Network>, connect: Network, serverOk: nat -> bool, r: Run)
    ensures
      var before := RunAll(connects, serverOk, false, r);
      var scan := Scan(connect, serverOk, before.flags, before.log, 0);
      RunAll(connects + [connect], serverOk, false, r)
      == Run(scan.flags, scan.log, before.connected + if scan.outcome.Connected? then 1 else 0)
    decreases |connects|
  {
    hide Scan;
    if connects == [] {
      assert ([] + [connect])[1..] == [];
      var scan := Scan(connect, serverOk, r.flags, r.log, 0);
      var next := Run(scan.flags, scan.log, r.connected + if scan.outcome.Connected? then 1 else 0);
      assert RunAll([], serverOk, false, next) == next;
    } else {
      assert (connects + [connect])[1..] == connects[1..] + [connect];
      var scan := Scan(connects[0], serverOk, r.flags, r.log, 0);
      RunAppend(connects[1..], connect, serverOk,
                Run(scan.flags, scan.log, r.connected + if scan.outcome.Connected? then 1 else 0));
    }
  }

  /** Attempts are paid for by flags: three per flagged upstream, none per
      unflagged one; and so are successes. */
  ghost predicate Paid(flags: seq<bool>, log: seq<nat>, successes: nat) {
    && |log| + 3 * Unflagged(flags) <= 3 * |flags|
    && successes + Unflagged(flags) <= |flags|
    && forall u :: 0 <= u < |flags| ==> Count(log, u) <= if flags[u] then 3 else 0
  }

  lemma PaidAtStart(flags: seq<bool>)
    requires forall i :: 0 <= i < |flags| ==> !flags[i]
    ensures Paid(flags, [], 0)
  {
    UnflaggedBound(flags);
  }

  /** In the middle of upstream i: `tries` attempts are not paid for yet. */
  ghost predicate Owing(flags: seq<bool>, log: seq<nat>, successes: nat, i: nat, tries: nat)
    requires i < |flags|
  {
    && !flags[i]
    && |log| + 3 * Unflagged(flags) <= 3 * |flags| + tries
    && successes + Unflagged(flags) <= |flags|
    && forall u :: 0 <= u < |flags| ==> Count(log, u) <= if u == i then tries else if flags[u] then 3 else 0
  }

  lemma Try(flags: seq<bool>, log: seq<nat>, successes: nat, i: nat, tries: nat)
    requires i < |flags| && Owing(flags, log, successes, i, tries)
    ensures Owing(flags, log + [i], successes, i, tries + 1)
  {
    forall u | 0 <= u < |flags| ensures Count(log + [i], u) <= if u == i then tries + 1 else if flags[u] then 3 else 0 {
      CountAppend(log, i, u);
    }
  }

  lemma Pay(flags: seq<bool>, log: seq<nat>, successes: nat, i: nat, tries: nat)
    requires i < |flags| && Owing(flags, log, successes, i, tries) && tries <= 3
    ensures Paid(flags[i := true], log, successes) && Paid(flags[i := true], log, successes + 1)
  {
    FlagOne(flags, i);
  }

  class Upstreams {
    const flags: array<bool>      // tried_or_flagged, never cleared
    ghost var log: seq<nat>       // the upstream of every connection attempt
    ghost var successes: nat
    var attempts: nat

    ghost predicate Valid()
      reads this, flags
    {
      Paid(flags[..], log, successes) && attempts == |log|
    }

    constructor (n: nat)
      ensures Valid() && fresh(flags) && flags.Length == n && log == [] && successes == 0
      ensures forall i :: 0 <= i < n ==> !flags[i]
    {
      flags := new bool[n](_ => false);
      log, successes, attempts := [], 0, 0;
      new;
      PaidAtStart(flags[..]);
    }

    /** The retry loop of one upstream. */
    method TryUpstream(i: nat, connect: Network) returns (ok: bool)
      requires Valid() && i < flags.Length && !flags[i]
      modifies this`log, this`attempts
      ensures attempts == |log| && 1 <= |log| - |old(log)| <= MAX_RETRIES
      ensures Owing(flags[..], log, successes, i, |log| - |old(log)|)
      ensures ok <==> connect(i, |log| - 1)
      ensures log == Retry(connect, old(log), i, MAX_RETRIES)
      ensures !ok ==> |log| == |old(log)| + MAX_RETRIES
    {
      hide Owing;
      assert Owing(flags[..], log, successes, i, 0) by {
        StartOwing(flags[..], log, successes, i);
      }
      var attempt := 0;
      ok := false;
      while attempt < MAX_RETRIES
        invariant 0 <= attempt <= MAX_RETRIES && attempts == |log| == |old(log)| + attempt
        invariant Owing(flags[..], log, successes, i, attempt)
        invariant !ok && (attempt > 0 ==> !connect(i, |log| - 1))
        invariant Retry(connect, old(log), i, MAX_RETRIES)
               == if attempt < MAX_RETRIES then Retry(connect, log, i, MAX_RETRIES - attempt) else log
      {
        Try(flags[..], log, successes, i, attempt);
        ok := connect(i, attempts);
        attempts := attempts + 1;
        log := log + [i];
        attempt := attempt + 1;
        if ok {
          return;
        }
      }
    }

    /** `initialize_jd` and `initialize_upstream`: flags only go from false to
        true, upstreams are tried in order, a success flags one more upstream, and
        failure on all leaves none unflagged. */
    method Initialize(connect: Network, serverOk: nat -> bool) returns (outcome: Outcome)
      requires Valid()
      modifies this, flags
      ensures Scanned(flags[..], log, outcome) == Scan(connect, serverOk, old(flags[..]), old(log), 0)
      ensures !outcome.ServerFailed? ==> Valid()
      ensures attempts == |log| <= 3 * flags.Length && successes <= flags.Length
      ensures forall u :: 0 <= u < flags.Length ==> Count(log, u) <= 3
      ensures forall i :: 0 <= i < flags.Length && old(flags[i]) ==> flags[i]
      ensures outcome.Connected? ==>
        && outcome.upstream < flags.Length && !old(flags[outcome.upstream]) && |log| > 0 && connect(outcome.upstream, |log| - 1)
        && (forall i :: 0 <= i <= outcome.upstream ==> flags[i])
        && (forall i :: outcome.upstream < i < flags.Length ==> flags[i] == old(flags[i]))
        && successes == old(successes) + 1 && Unflagged(flags[..]) < Unflagged(old(flags[..]))
      ensures outcome.AllFailed? ==>
        && successes == old(successes) && (forall i :: 0 <= i < flags.Length ==> flags[i])
        && |log| == |old(log)| + 3 * Unflagged(old(flags[..]))
      ensures outcome.ServerFailed? ==> successes == old(successes) && exists a :: !serverOk(a)
    {
      hide Owing, Paid, Unflagged, Count, Retry;
      ghost var before := flags[..];
      var i := 0;
      while i < flags.Length
        invariant 0 <= i <= flags.Length && Valid() && successes == old(successes)
        invariant forall j :: 0 <= j < flags.Length && before[j] ==> flags[j]
        invariant forall j :: 0 <= j < i ==> flags[j]
        invariant forall j :: i <= j < flags.Length ==> flags[j] == before[j]
        invariant |log| + 3 * Unflagged(flags[..]) == |old(log)| + 3 * Unflagged(before)
        invariant Unflagged(flags[..]) <= Unflagged(before)
        invariant Scan(connect, serverOk, before, old(log), 0) == Scan(connect, serverOk, flags[..], log, i)
      {
        if !flags[i] {
          ghost var now, start := flags[..], |log|;
          var ok := TryUpstream(i, connect);
          OwingBound(now, log, successes, i, |log| - start);
          FlagOne(now, i);
          Pay(now, log, successes, i, |log| - start);
          if ok && !serverOk(attempts) {
            return ServerFailed(i);
          }
          flags[i] := true;
          assert flags[..] == now[i := true];
          if ok {
            successes := successes + 1;
            PaidBound(flags[..], log, successes);
            return Connected(i);
          }
        }
        i := i + 1;
      }
      PaidBound(flags[..], log, successes);
      AllFlagged(flags[..]);
      outcome := AllFailed;
    }

    /** The job declarator client: started once, restarted on every fallback, and
        running on in solo mode when no upstream is left. */
    method RunJobDeclaratorClient(connects: seq<Network>) returns (connected: nat)
      requires Valid() && log == [] && successes == 0
      modifies this, flags
      ensures Run(flags[..], log, connected) == RunAll(connects, _ => true, false, Run(old(flags[..]), [], 0))
      ensures attempts == |log| <= 3 * flags.Length && connected == successes <= flags.Length
      ensures forall u :: 0 <= u < flags.Length ==> Count(log, u) <= 3
    {
      connected := 0;
      var k := 0;
      var serverOk: nat -> bool := _ => true;
      ghost var all := RunAll(connects, serverOk, false, Run(flags[..], [], 0));
      assert connects[0..] == connects;
      while k < |connects|
        invariant 0 <= k <= |connects| && Valid() && connected == successes
        invariant RunAll(connects[k..], serverOk, false, Run(flags[..], log, connected)) == all
      {
        assert connects[k..][1..] == connects[k + 1..];
        var outcome := Initialize(connects[k], serverOk);
        if outcome.Connected? {
          connected := connected + 1;
        }
        k := k + 1;
      }
      PaidBound(flags[..], log, successes);
    }

    /** The translator: an initialisation that fails ends the program. */
    method RunTranslator(connects: seq<Network>, serverOk: nat -> bool) returns (connected: nat)
      requires Valid() && log == [] && successes == 0
      modifies this, flags
      ensures Run(flags[..], log, connected) == RunAll(connects, serverOk, true, Run(old(flags[..]), [], 0))
      ensures attempts == |log| <= 3 * flags.Length && connected == successes <= flags.Length
      ensures forall u :: 0 <= u < flags.Length ==> Count(log, u) <= 3
    {
      connected := 0;
      var k := 0;
      ghost var all := RunAll(connects, serverOk, true, Run(flags[..], [], 0));
      assert connects[0..] == connects;
      while k < |connects|
        invariant 0 <= k <= |connects| && Valid() && connected == successes
        invariant RunAll(connects[k..], serverOk, true, Run(flags[..], log, connected)) == all
      {
        assert connects[k..][1..] == connects[k + 1..];
        var outcome := Initialize(connects[k], serverOk);
        if !outcome.Connected? {
          return;
        }
        connected := connected + 1;
        k := k + 1;
      }
      PaidBound(flags[..], log, successes);
    }
  }

  lemma StartOwing(flags: seq<bool>, log: seq<nat>, successes: nat, i: nat)
    requires i < |flags| && !flags[i] && Paid(flags, log, successes)
    ensures Owing(flags, log, successes, i, 0)
  {
  }

  lemma OwingBound(flags: seq<bool>, log: seq<nat>, successes: nat, i: nat, tries: nat)
    requires i < |flags| && Owing(flags, log, successes, i, tries) && tries <= 3
    ensures |log| <= 3 * |flags| && successes < |flags| && forall u :: 0 <= u < |flags| ==> Count(log, u) <= 3
  {
    FlagOne(flags, i);
  }

  lemma PaidBound(flags: seq<bool>, log: seq<nat>, successes: nat)
    requires Paid(flags, log, successes)
    ensures |log| <= 3 * |flags| && successes <= |flags| && forall u :: 0 <= u < |flags| ==> Count(log, u) <= 3
  {
  }
}
