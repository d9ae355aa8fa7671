/** Aggregation of the downstream targets and hashrates into one upstream
    UpdateChannel: `handle_update_channel` takes the numeric minimum of the
    targets, `run_vardiff` the lexicographic minimum of their little-endian
    byte arrays. Hashrates are reals. */
module Targets {
  import opened Bytes

  function MaxTarget(): (m: Hash32)
    ensures forall i :: 0 <= i < 32 ==> m[i] == 255
  {
    seq(32, _ => 255)
  }

  // -------------------------------------------------------------- both orders

  /** The lowest index from i on where the two differ, else 32. */
  function LowestFrom(a: Hash32, b: Hash32, i: nat): (k: nat)
    requires i <= 32
    ensures i <= k <= 32 && (forall j :: i <= j < k ==> a[j] == b[j])
    ensures k < 32 ==> a[k] != b[k]
    decreases 32 - i
  {
    if i == 32 || a[i] != b[i] then i else LowestFrom(a, b, i + 1)
  }

  /** One more than the highest index below n where the two differ, else 0. */
  function HighestBelow(a: Hash32, b: Hash32, n: nat): (k: nat)
    requires n <= 32
    ensures k <= n && (forall j :: k <= j < n ==> a[j] == b[j])
    ensures k > 0 ==> a[k - 1] != b[k - 1]
  {
    if n == 0 || a[n - 1] != b[n - 1] then n else HighestBelow(a, b, n - 1)
  }

  function Lowest(a: Hash32, b: Hash32): (k: nat)
    requires a != b
    ensures k < 32 && a[k] != b[k] && (forall j :: 0 <= j < k ==> a[j] == b[j])
  {
    var k := LowestFrom(a, b, 0);
    assert k == 32 ==> a == b;
    k
  }

  function Highest(a: Hash32, b: Hash32): (k: nat)
    requires a != b
    ensures k < 32 && a[k] != b[k] && (forall j :: k < j < 32 ==> a[j] == b[j])
  {
    var k := HighestBelow(a, b, 32);
    assert k == 0 ==> a == b;
    k - 1
  }

  /** `Ord` on byte arrays. */
  predicate LexLess(a: Hash32, b: Hash32) {
    a != b && a[Lowest(a, b)] < b[Lowest(a, b)]
  }

  /** `Ord` on targets. */
  predicate NumLess(a: Hash32, b: Hash32) {
    LeValue(a) < LeValue(b)
  }

  lemma OneByte(x: Byte)
    ensures LeValue([x]) == x
  {
  }

  lemma HigherByteDecides(a: Hash32, b: Hash32, k: nat)
    requires k < 32 && a[k] < b[k] && forall j :: k < j < 32 ==> a[j] == b[j]
    ensures LeValue(a) < LeValue(b)
  {
    hide LeValue;
    assert a[k..k + 1] == [a[k]] && b[k..k + 1] == [b[k]] && a[k + 1..] == b[k + 1..];
    OneByte(a[k]);
    OneByte(b[k]);
    LeGroupDecides(a, b, k, k + 1);
  }

  /** The numeric order is decided at the highest differing byte. */
  lemma NumLessIff(a: Hash32, b: Hash32)
    requires a != b
    ensures NumLess(a, b) <==> a[Highest(a, b)] < b[Highest(a, b)]
    ensures NumLess(b, a) <==> !NumLess(a, b)
  {
    var k := Highest(a, b);
    if a[k] < b[k] {
      HigherByteDecides(a, b, k);
    } else {
      HigherByteDecides(b, a, k);
    }
  }

  lemma LexTotal(a: Hash32, b: Hash32)
    requires a != b
    ensures LexLess(a, b) != LexLess(b, a)
  {
    assert Lowest(a, b) == Lowest(b, a);
  }

  lemma LexTransitive(a: Hash32, b: Hash32, c: Hash32)
    requires LexLess(a, b) && LexLess(b, c)
    ensures LexLess(a, c)
  {
    var i, j := Lowest(a, b), Lowest(b, c);
    var m := if i < j then i else j;
    assert a[m] < c[m];
    assert Lowest(a, c) == m;
  }

  /** The two orders agree on a pair exactly when the lowest and the highest
      differing byte point the same way. */
  lemma OrdersAgreeIff(a: Hash32, b: Hash32)
    requires a != b
    ensures (LexLess(a, b) <==> NumLess(a, b))
      <==> (a[Lowest(a, b)] < b[Lowest(a, b)] <==> a[Highest(a, b)] < b[Highest(a, b)])
  {
    NumLessIff(a, b);
  }

  // ------------------------------------------------------------------- folding

  type Order = (Hash32, Hash32) -> bool

  function Fold(less: Order, targets: seq<Hash32>, least: Hash32): Hash32
    decreases |targets|
  {
    if targets == [] then least
    else Fold(less, targets[1..], if less(least, targets[0]) then least else targets[0])
  }

  ghost predicate IsLeast(less: Order, m: Hash32, targets: seq<Hash32>, least: Hash32) {
    && (m == least || m in targets)
    && !less(least, m)
    && forall t <- targets :: !less(t, m)
  }

  ghost predicate StrictTotal(less: Order) {
    && (forall a, b :: a != b ==> less(a, b) != less(b, a))
    && (forall a :: !less(a, a))
    && (forall a, b, c :: less(a, b) && less(b, c) ==> less(a, c))
  }

  lemma {:induction false} FoldIsLeast(less: Order, targets: seq<Hash32>, least: Hash32)
    requires StrictTotal(less)
    ensures IsLeast(less, Fold(less, targets, least), targets, least)
    decreases |targets|
  {
    if targets != [] {
      var next := if less(least, targets[0]) then least else targets[0];
      FoldIsLeast(less, targets[1..], next);
      var m := Fold(less, targets, least);
      assert !less(next, m);
      forall t <- targets ensures !less(t, m) {
        if t == targets[0] {
          assert !less(targets[0], m);
        } else {
          assert t in targets[1..];
        }
      }
    }
  }

  lemma LeastIsUnique(less: Order, m: Hash32, n: Hash32, a: seq<Hash32>, b: seq<Hash32>, least: Hash32)
    requires StrictTotal(less) && IsLeast(less, m, a, least) && IsLeast(less, n, b, least)
    requires forall t :: t in a <==> t in b
    ensures m == n
  {
  }

  /** Whatever order the maps yield the channels in, the fold is the same. */
  lemma FoldIgnoresOrder(less: Order, a: seq<Hash32>, b: seq<Hash32>, least: Hash32)
    requires StrictTotal(less) && multiset(a) == multiset(b)
    ensures Fold(less, a, least) == Fold(less, b, least)
  {
    FoldIsLeast(less, a, least);
    FoldIsLeast(less, b, least);
    assert forall t :: t in a <==> t in multiset(a);
    assert forall t :: t in b <==> t in multiset(b);
    LeastIsUnique(less, Fold(less, a, least), Fold(less, b, least), a, b, least);
  }

  lemma NumericIsStrict()
    ensures StrictTotal(NumLess)
  {
    forall a: Hash32, b: Hash32 | a != b ensures NumLess(a, b) != NumLess(b, a) {
      NumLessIff(a, b);
    }
  }

  lemma LexicographicIsStrict()
    ensures StrictTotal(LexLess)
  {
    forall a: Hash32, b: Hash32 | a != b ensures LexLess(a, b) != LexLess(b, a) {
      LexTotal(a, b);
    }
    forall a: Hash32, b: Hash32, c: Hash32 | LexLess(a, b) && LexLess(b, c) ensures LexLess(a, c) {
      LexTransitive(a, b, c);
    }
  }

  /** Below another target at the lowest and at the highest byte where they differ. */
  predicate BelowAtBothEnds(a: Hash32, b: Hash32) {
    a != b ==> a[Lowest(a, b)] < b[Lowest(a, b)] && a[Highest(a, b)] < b[Highest(a, b)]
  }

  ghost predicate Dominates(m: Hash32, targets: seq<Hash32>) {
    (m == MaxTarget() || m in targets) && BelowAtBothEnds(m, MaxTarget()) && forall t <- targets :: BelowAtBothEnds(m, t)
  }

  lemma BelowIff(a: Hash32, b: Hash32)
    ensures BelowAtBothEnds(a, b) <==> !LexLess(b, a) && !NumLess(b, a)
  {
    if a != b {
      LexTotal(a, b);
      NumLessIff(a, b);
    }
  }

  /** `run_vardiff` announces the numeric minimum exactly when one target lies
      below all others at both the lowest and the highest differing byte. */
  lemma FoldsAgreeIff(targets: seq<Hash32>)
    ensures Fold(LexLess, targets, MaxTarget()) == Fold(NumLess, targets, MaxTarget())
      <==> exists m :: Dominates(m, targets)
  {
    var l, n := Fold(LexLess, targets, MaxTarget()), Fold(NumLess, targets, MaxTarget());
    LexicographicIsStrict();
    NumericIsStrict();
    FoldIsLeast(LexLess, targets, MaxTarget());
    FoldIsLeast(NumLess, targets, MaxTarget());
    if l == n {
      BelowIff(l, MaxTarget());
      forall t <- targets ensures BelowAtBothEnds(l, t) {
        BelowIff(l, t);
      }
      assert Dominates(l, targets);
    }
    if m :| Dominates(m, targets) {
      BelowIff(m, MaxTarget());
      forall t <- targets ensures !LexLess(t, m) && !NumLess(t, m) {
        BelowIff(m, t);
      }
      assert IsLeast(LexLess, m, targets, MaxTarget()) && IsLeast(NumLess, m, targets, MaxTarget());
      LeastIsUnique(LexLess, l, m, targets, targets, MaxTarget());
      LeastIsUnique(NumLess, n, m, targets, targets, MaxTarget());
    }
  }

  lemma FoldTwo(less: Order, a: Hash32, b: Hash32, least: Hash32)
    requires !less(least, a)
    ensures Fold(less, [a, b], least) == if less(a, b) then a else b
  {
    assert [a, b][1..] == [b] && [b][1..] == [];
    assert Fold(less, [b], a) == Fold(less, [], if less(a, b) then a else b);
    assert Fold(less, [a, b], least) == Fold(less, [b], a);
  }

  lemma FirstByte(n: nat)
    ensures Le(n, 32)[0] == n % 256
  {
  }

  /** The targets 1 and 256: the byte order picks the larger. */
  lemma LexicographicPicksLarger()
    ensures
      var targets := [Le(1, 32), Le(256, 32)];
      Fold(LexLess, targets, MaxTarget()) == Le(256, 32) && Fold(NumLess, targets, MaxTarget()) == Le(1, 32)
  {
    hide LowestFrom, Fold, Le, LeValue;
    var a, b, top: Hash32 := Le(1, 32), Le(256, 32), MaxTarget();
    FirstByte(1);
    FirstByte(256);
    assert Lowest(a, b) == 0 && Lowest(top, a) == 0;
    SmallValues();
    MaxIsLargest(a);
    FoldTwo(LexLess, a, b, top);
    FoldTwo(NumLess, a, b, top);
  }

  lemma SmallValues()
    ensures LeValue(Le(1, 32)) == 1 && LeValue(Le(256, 32)) == 256
  {
    PowAtLeast(32);
    LeRoundTrip(1, 32);
    LeRoundTrip(256, 32);
  }

  lemma PowAtLeast(k: nat)
    requires k >= 2
    ensures Pow256(k) > 256
  {
    if k > 2 {
      PowAtLeast(k - 1);
    } else {
      assert Pow256(1) == 256 * Pow256(0);
    }
  }

  lemma MaxIsLargest(a: Hash32)
    ensures !NumLess(MaxTarget(), a)
  {
    if a != MaxTarget() {
      NumLessIff(a, MaxTarget());
    }
  }
}

/** The loops over all channels of all downstreams, in whatever order the maps
    yield them. */
module Aggregation {
  import opened Bytes
  import opened JdcChannels
  import opened Targets

  datatype Ref = Ref(downstream: nat, channel: nat, extended: bool)

  function ChannelsOf(s: Data, d: nat, extended: bool): map<nat, Channel>
    requires d in s.downstreams
  {
    if extended then s.downstreams[d].extended else s.downstreams[d].standard
  }

  function Refs(s: Data, d: nat, extended: bool): set<Ref>
    requires d in s.downstreams
  {
    set c | c in ChannelsOf(s, d, extended) :: Ref(d, c, extended)
  }

  ghost function AllRefs(s: Data): set<Ref> {
    (set d, c | d in s.downstreams && c in s.downstreams[d].standard :: Ref(d, c, false))
    + (set d, c | d in s.downstreams && c in s.downstreams[d].extended :: Ref(d, c, true))
  }

  ghost predicate Known(s: Data, r: Ref) {
    HasChannel(s, r.downstream, r.channel, r.extended)
  }

  ghost function At(s: Data, r: Ref): Channel
    requires Known(s, r)
  {
    ChannelOf(s, r.downstream, r.channel, r.extended)
  }

  ghost predicate AllKnown(s: Data, refs: seq<Ref>) {
    forall i :: 0 <= i < |refs| ==> Known(s, refs[i])
  }

  ghost function TotalRate(s: Data, refs: seq<Ref>): real
    requires AllKnown(s, refs)
  {
    if refs == [] then 0.0 else TotalRate(s, refs[..|refs| - 1]) + At(s, refs[|refs| - 1]).hashrate
  }

  ghost function TargetsOf(s: Data, refs: seq<Ref>): (ts: seq<Hash32>)
    requires AllKnown(s, refs)
    ensures |ts| == |refs|
  {
    seq(|refs|, i requires 0 <= i < |refs| => At(s, refs[i]).target)
  }

  /** The refs list every member of the set once. */
  ghost predicate Lists(refs: seq<Ref>, all: set<Ref>) {
    multiset(refs) == multiset(all)
  }

  lemma ListsMore(refs: seq<Ref>, all: set<Ref>, r: Ref)
    requires Lists(refs, all) && r !in all
    ensures Lists(refs + [r], all + {r})
  {
  }

  lemma {:induction false} FoldAppend(less: Order, ts: seq<Hash32>, t: Hash32, least: Hash32)
    ensures
      var m := Fold(less, ts, least);
      Fold(less, ts + [t], least) == if less(m, t) then m else t
    decreases |ts|
  {
    if ts == [] {
      assert ([] + [t])[1..] == [];
      assert Fold(less, [], if less(least, t) then least else t) == if less(least, t) then least else t;
    } else {
      assert (ts + [t])[1..] == ts[1..] + [t];
      FoldAppend(less, ts[1..], t, if less(least, ts[0]) then least else ts[0]);
    }
  }

  /** What the loops have accumulated after visiting `refs`. */
  ghost predicate Accumulated(less: Order, s: Data, refs: seq<Ref>, hashrate: real, least: Hash32) {
    && AllKnown(s, refs)
    && hashrate == TotalRate(s, refs)
    && least == Fold(less, TargetsOf(s, refs), MaxTarget())
  }

  lemma AccumulateOne(less: Order, s: Data, refs: seq<Ref>, r: Ref, hashrate: real, least: Hash32)
    requires Accumulated(less, s, refs, hashrate, least) && Known(s, r)
    ensures Accumulated(less, s, refs + [r], hashrate + At(s, r).hashrate,
                        if less(least, At(s, r).target) then least else At(s, r).target)
  {
    var next := refs + [r];
    assert next[..|next| - 1] == refs;
    assert TargetsOf(s, next) == TargetsOf(s, refs) + [At(s, r).target];
    FoldAppend(less, TargetsOf(s, refs), At(s, r).target, MaxTarget());
  }

  ghost function Done(s: Data, d: nat, extended: bool, todo: set<nat>): set<Ref>
    requires d in s.downstreams
  {
    set c | c in ChannelsOf(s, d, extended) && c !in todo :: Ref(d, c, extended)
  }

  lemma DoneMore(s: Data, d: nat, extended: bool, todo: set<nat>, c: nat)
    requires d in s.downstreams && c in todo && c in ChannelsOf(s, d, extended)
    ensures
      var r := Ref(d, c, extended);
      && Done(s, d, extended, todo - {c}) == Done(s, d, extended, todo) + {r}
      && r !in Done(s, d, extended, todo) && r in Refs(s, d, extended)
      && Known(s, r) && At(s, r) == ChannelsOf(s, d, extended)[c]
  {
  }

  lemma DoneEnds(s: Data, d: nat, extended: bool)
    requires d in s.downstreams
    ensures Done(s, d, extended, ChannelsOf(s, d, extended).Keys) == {}
    ensures Done(s, d, extended, {}) == Refs(s, d, extended)
  {
  }

  /** The loop over one channel map. */
  method VisitChannels(less: Order, s: Data, d: nat, extended: bool, hashrate: real, least: Hash32,
                       ghost refs: seq<Ref>, ghost seen: set<Ref>)
    returns (rate: real, target: Hash32, ghost visited: seq<Ref>)
    requires d in s.downstreams && Accumulated(less, s, refs, hashrate, least)
    requires Lists(refs, seen) && seen !! Refs(s, d, extended)
    ensures Accumulated(less, s, visited, rate, target) && Lists(visited, seen + Refs(s, d, extended))
  {
    hide Accumulated, Lists, Done, Refs, ChannelsOf, Known, At;
    rate, target, visited := hashrate, least, refs;
    var channels := ChannelsOf(s, d, extended);
    var todo := channels.Keys;
    DoneEnds(s, d, extended);
    assert seen + {} == seen;
    while todo != {}
      invariant todo <= channels.Keys
      invariant Accumulated(less, s, visited, rate, target) && Lists(visited, seen + Done(s, d, extended, todo))
      decreases |todo|
    {
      var c :| c in todo;
      ghost var r := Ref(d, c, extended);
      DoneMore(s, d, extended, todo, c);
      AccumulateOne(less, s, visited, r, rate, target);
      ListsMore(visited, seen + Done(s, d, extended, todo), r);
      assert seen + Done(s, d, extended, todo) + {r} == seen + Done(s, d, extended, todo - {c});
      rate := rate + channels[c].hashrate;
      target := if less(target, channels[c].target) then target else channels[c].target;
      visited := visited + [r];
      todo := todo - {c};
    }
  }

  ghost function Seen(s: Data, todo: set<nat>): set<Ref> {
    set r | r in AllRefs(s) && r.downstream !in todo
  }

  lemma InAllRefs(s: Data, r: Ref)
    ensures r in AllRefs(s) <==> Known(s, r)
  {
    assert r == Ref(r.downstream, r.channel, r.extended);
  }

  lemma InRefs(s: Data, d: nat, extended: bool, r: Ref)
    requires d in s.downstreams
    ensures r in Refs(s, d, extended) <==> Known(s, r) && r.downstream == d && r.extended == extended
  {
    assert r == Ref(r.downstream, r.channel, r.extended);
  }

  lemma SeenMore(s: Data, todo: set<nat>, d: nat)
    requires d in todo && d in s.downstreams
    ensures Seen(s, todo - {d}) == Seen(s, todo) + Refs(s, d, false) + Refs(s, d, true)
    ensures Seen(s, todo) !! Refs(s, d, false) && (Seen(s, todo) + Refs(s, d, false)) !! Refs(s, d, true)
  {
    hide AllRefs, Refs, Known;
    forall r ensures r in AllRefs(s) <==> Known(s, r) {
      InAllRefs(s, r);
    }
    forall r, x ensures r in Refs(s, d, x) <==> Known(s, r) && r.downstream == d && r.extended == x {
      InRefs(s, d, x, r);
    }
  }

  lemma SeenEnds(s: Data)
    ensures Seen(s, s.downstreams.Keys) == {} && Seen(s, {}) == AllRefs(s)
  {
  }

  /** `downstream_hashrate` and `min_target`: with the numeric order the loop of
      `handle_update_channel`, with the byte order that of `run_vardiff`. */
  method Aggregate(less: Order, s: Data) returns (rate: real, target: Hash32, ghost visited: seq<Ref>)
    ensures Lists(visited, AllRefs(s)) && Accumulated(less, s, visited, rate, target)
  {
    hide AllRefs, Seen, Refs;
    rate, target, visited := 0.0, MaxTarget(), [];
    var todo := s.downstreams.Keys;
    SeenEnds(s);
    assert Accumulated(less, s, visited, rate, target) && Lists(visited, {});
    hide Accumulated, Lists;
    while todo != {}
      invariant todo <= s.downstreams.Keys
      invariant Accumulated(less, s, visited, rate, target) && Lists(visited, Seen(s, todo))
      decreases |todo|
    {
      var d :| d in todo;
      SeenMore(s, todo, d);
      rate, target, visited := VisitChannels(less, s, d, false, rate, target, visited, Seen(s, todo));
      rate, target, visited := VisitChannels(less, s, d, true, rate, target, visited, Seen(s, todo) + Refs(s, d, false));
      todo := todo - {d};
    }
  }

  // ------------------------------------------------------- order independence

  lemma {:induction false} TotalRateRemove(s: Data, refs: seq<Ref>, i: nat)
    requires AllKnown(s, refs) && i < |refs|
    ensures AllKnown(s, refs[..i] + refs[i + 1..])
    ensures TotalRate(s, refs) == TotalRate(s, refs[..i] + refs[i + 1..]) + At(s, refs[i]).hashrate
    decreases |refs|
  {
    var n := |refs| - 1;
    var rest := refs[..i] + refs[i + 1..];
    if i == n {
      assert rest == refs[..n];
    } else {
      TotalRateRemove(s, refs[..n], i);
      assert rest[..n - 1] == refs[..n][..i] + refs[..n][i + 1..] && rest[n - 1] == refs[n];
    }
  }

  lemma RemoveAt(a: seq<Ref>, i: nat)
    requires i < |a|
    ensures multiset(a[..i] + a[i + 1..]) == multiset(a) - multiset{a[i]}
  {
    assert a == a[..i] + [a[i]] + a[i + 1..];
  }

  /** The first of one list has its place in the other. */
  lemma IndexOf(a: seq<Ref>, b: seq<Ref>) returns (i: nat)
    requires a != [] && multiset(a) == multiset(b)
    ensures i < |b| && b[i] == a[0] && multiset(a[..0] + a[1..]) == multiset(b[..i] + b[i + 1..])
  {
    assert a[0] in multiset(b);
    i :| 0 <= i < |b| && b[i] == a[0];
    RemoveAt(a, 0);
    RemoveAt(b, i);
  }

  lemma {:induction false} TotalRatePermutes(s: Data, a: seq<Ref>, b: seq<Ref>)
    requires AllKnown(s, a) && AllKnown(s, b) && multiset(a) == multiset(b)
    ensures TotalRate(s, a) == TotalRate(s, b)
    decreases |a|
  {
    assert |a| == |multiset(a)| == |multiset(b)| == |b|;
    if a == [] {
      assert b == [];
    } else {
      hide TotalRate, Known, AllKnown;
      var i := IndexOf(a, b);
      TotalRateRemove(s, a, 0);
      TotalRateRemove(s, b, i);
      TotalRatePermutes(s, a[..0] + a[1..], b[..i] + b[i + 1..]);
    }
  }

  /** The hashrate sent is a plain sum. */
  lemma {:induction false} TotalRateAdds(s: Data, a: seq<Ref>, b: seq<Ref>)
    requires AllKnown(s, a + b) && AllKnown(s, a) && AllKnown(s, b)
    ensures TotalRate(s, a + b) == TotalRate(s, a) + TotalRate(s, b)
    ensures |a| == 1 ==> TotalRate(s, a) == At(s, a[0]).hashrate
    decreases |b|
  {
    if b == [] {
      assert a + b == a;
    } else {
      var n := |b| - 1;
      assert (a + b)[..|a + b| - 1] == a + b[..n] && (a + b)[|a + b| - 1] == b[n];
      TotalRateAdds(s, a, b[..n]);
    }
  }

  lemma TargetsPermute(s: Data, a: seq<Ref>, b: seq<Ref>)
    requires AllKnown(s, a) && AllKnown(s, b) && multiset(a) == multiset(b)
    ensures forall t :: t in TargetsOf(s, a) <==> t in TargetsOf(s, b)
  {
    forall t ensures t in TargetsOf(s, a) <==> t in TargetsOf(s, b) {
      SameTargets(s, a, b, t);
      SameTargets(s, b, a, t);
    }
  }

  lemma SameTargets(s: Data, a: seq<Ref>, b: seq<Ref>, t: Hash32)
    requires AllKnown(s, a) && AllKnown(s, b) && multiset(a) == multiset(b)
    ensures t in TargetsOf(s, a) ==> t in TargetsOf(s, b)
  {
    if t in TargetsOf(s, a) {
      var i :| 0 <= i < |a| && TargetsOf(s, a)[i] == t;
      assert a[i] in multiset(b);
      var j :| 0 <= j < |b| && b[j] == a[i];
      assert TargetsOf(s, b)[j] == t;
    }
  }

  /** Two executions of the loops over the same channels send the same hashrate
      and the same target, whatever order the maps are visited in. */
  lemma AggregateIsDeterministic(less: Order, s: Data, a: seq<Ref>, b: seq<Ref>, ra: real, rb: real, ta: Hash32, tb: Hash32)
    requires StrictTotal(less) && Lists(a, AllRefs(s)) && Lists(b, AllRefs(s))
    requires Accumulated(less, s, a, ra, ta) && Accumulated(less, s, b, rb, tb)
    ensures ra == rb && ta == tb
  {
    hide AllRefs;
    TotalRatePermutes(s, a, b);
    TargetsPermute(s, a, b);
    FoldIsLeast(less, TargetsOf(s, a), MaxTarget());
    FoldIsLeast(less, TargetsOf(s, b), MaxTarget());
    LeastIsUnique(less, ta, tb, TargetsOf(s, a), TargetsOf(s, b), MaxTarget());
  }

  lemma NotLess(a: Hash32, b: Hash32)
    requires !NumLess(a, b)
    ensures LeValue(b) <= LeValue(a)
  {
  }

  /** `handle_update_channel` sends the numeric minimum of all channel targets,
      2^256 - 1 when there is none. */
  lemma UpdateSendsMinimum(s: Data, refs: seq<Ref>, rate: real, target: Hash32)
    requires Lists(refs, AllRefs(s)) && Accumulated(NumLess, s, refs, rate, target)
    ensures target == MaxTarget() || exists r :: Known(s, r) && At(s, r).target == target
    ensures forall r :: Known(s, r) ==> LeValue(target) <= LeValue(At(s, r).target)
  {
    hide AllRefs, Fold, NumLess;
    NumericIsStrict();
    var ts := TargetsOf(s, refs);
    FoldIsLeast(NumLess, ts, MaxTarget());
    forall r | Known(s, r) ensures LeValue(target) <= LeValue(At(s, r).target) {
      InAllRefs(s, r);
      assert r in multiset(refs);
      var i :| 0 <= i < |refs| && refs[i] == r;
      assert ts[i] == At(s, r).target && ts[i] in ts;
      NotLess(ts[i], target);
    }
    if target != MaxTarget() {
      var i :| 0 <= i < |ts| && ts[i] == target;
      assert Known(s, refs[i]) && At(s, refs[i]).target == target;
    }
  }
}
