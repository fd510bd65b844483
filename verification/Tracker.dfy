/** Tracker failover: bittorrent/tracker.go:16-98. Which URLs parse and are supported, and which trackers answer, are
    parameters. */
module Trackers {
  import opened Types

  datatype Position = Position(tier: int, index: int)

  /** What a torrent says about trackers: the single URL, and the list of tiers. */
  datatype Announce = Announce(url: string, list: seq<seq<string>>)

  /** Where the single URL is said to be. */
  const FALLBACK := Position(-1, -1)

  /** Lexicographic order of (tier, index). */
  predicate Before(p: Position, q: Position) {
    p.tier < q.tier || (p.tier == q.tier && p.index < q.index)
  }

  predicate InList(list: seq<seq<string>>, p: Position) {
    0 <= p.tier < |list| && 0 <= p.index < |list[p.tier]|
  }

  predicate IsSupported(list: seq<seq<string>>, supported: string -> bool, p: Position) {
    InList(list, p) && supported(list[p.tier][p.index])
  }

  /** Where the scan begins: after `position` in the starting tier. */
  predicate AtOrAfter(p: Position, tier: int, position: int) {
    p.tier > tier || (p.tier == tier && p.index > position)
  }

  /** `getFirstSupportedTracker`: without a list, the single URL if it parses; otherwise the first supported position
      after the given one. */
  method FirstSupported(a: Announce,
                        parses: string -> bool, supported: string -> bool, startTier: int, startPosition: int)
    returns (r: Option<Position>)
    requires startPosition >= -1 && (a.list != [] ==> startTier >= 0)
    ensures a.list == [] ==> r == if parses(a.url) then Some(FALLBACK) else None
    ensures a.list != [] && r.Some? ==>
      IsSupported(a.list, supported, r.value) && AtOrAfter(r.value, startTier, startPosition)
    ensures a.list != [] && r.Some? ==>
      forall p :: IsSupported(a.list, supported, p) && AtOrAfter(p, startTier, startPosition) ==> !Before(p, r.value)
    ensures a.list != [] && r.None? ==>
      forall p :: IsSupported(a.list, supported, p) ==> !AtOrAfter(p, startTier, startPosition)
  {
    if |a.list| == 0 {
      return if parses(a.url) then Some(FALLBACK) else None;
    }
    var i := startTier;
    while i < |a.list|
      invariant i >= startTier
      invariant forall p :: IsSupported(a.list, supported, p) && AtOrAfter(p, startTier, startPosition) ==> p.tier >= i
    {
      var start: nat := if i == startTier then startPosition + 1 else 0;
      var k := start;
      while k < |a.list[i]|
        invariant k >= start
        invariant forall p :: IsSupported(a.list, supported, p) && p.tier == i && p.index >= start ==> p.index >= k
      {
        if supported(a.list[i][k]) {
          return Some(Position(i, k));
        }
        k := k + 1;
      }
      i := i + 1;
    }
    return None;
  }

  // ---------- The retry loop ----------

  /** The supported positions of one tier from index `k` on. */
  function InTier(list: seq<seq<string>>, supported: string -> bool, tier: nat, k: nat): seq<Position>
    requires tier < |list|
    decreases |list[tier]| - k
  {
    if k >= |list[tier]| then []
    else (if supported(list[tier][k]) then [Position(tier, k)] else []) + InTier(list, supported, tier, k + 1)
  }

  /** The supported positions after (tier, position), in order. */
  function Remaining(list: seq<seq<string>>, supported: string -> bool, tier: nat, position: int): seq<Position>
    requires position >= -1
    decreases |list| - tier
  {
    if tier >= |list| then []
    else InTier(list, supported, tier, position + 1) + Remaining(list, supported, tier + 1, -1)
  }

  ghost predicate Increasing(ps: seq<Position>) {
    forall i, j :: 0 <= i < j < |ps| ==> Before(ps[i], ps[j])
  }

  lemma {:induction false} IncreasingConcat(a: seq<Position>, b: seq<Position>)
    requires Increasing(a) && Increasing(b)
    requires forall p, q :: p in a && q in b ==> Before(p, q)
    ensures Increasing(a + b)
  {
    forall i, j | 0 <= i < j < |a + b|
      ensures Before((a + b)[i], (a + b)[j])
    {
      if i < |a| <= j {
        assert a[i] in a && b[j - |a|] in b;
      }
    }
  }

  lemma {:induction false} InTierIsExact(list: seq<seq<string>>, supported: string -> bool, tier: nat, k: nat)
    requires tier < |list|
    ensures Increasing(InTier(list, supported, tier, k))
    ensures forall p :: p in InTier(list, supported, tier, k) <==>
      IsSupported(list, supported, p) && p.tier == tier && p.index >= k
    decreases |list[tier]| - k
  {
    if k < |list[tier]| {
      InTierIsExact(list, supported, tier, k + 1);
      var later := InTier(list, supported, tier, k + 1);
      forall p | IsSupported(list, supported, p) && p.tier == tier && p.index == k
        ensures p == Position(tier, k)
      {
      }
    }
  }

  lemma {:induction false} RemainingIsExact(list: seq<seq<string>>, supported: string -> bool, tier: nat, position: int)
    requires position >= -1
    ensures Increasing(Remaining(list, supported, tier, position))
    ensures forall p :: p in Remaining(list, supported, tier, position) <==>
      IsSupported(list, supported, p) && AtOrAfter(p, tier, position)
    decreases |list| - tier
  {
    if tier < |list| {
      InTierIsExact(list, supported, tier, position + 1);
      RemainingIsExact(list, supported, tier + 1, -1);
      IncreasingConcat(InTier(list, supported, tier, position + 1), Remaining(list, supported, tier + 1, -1));
    }
  }

  lemma {:induction false} TailIsIncreasing(ps: seq<Position>)
    requires Increasing(ps) && ps != []
    ensures Increasing(ps[1..])
    ensures forall p :: p in ps[1..] <==> p in ps && Before(ps[0], p)
  {
    forall i, j | 0 <= i < j < |ps| - 1
      ensures Before(ps[1..][i], ps[1..][j])
    {
      assert Before(ps[i + 1], ps[j + 1]);
    }
    forall p | p in ps && Before(ps[0], p)
      ensures p in ps[1..]
    {
      assert ps == [ps[0]] + ps[1..];
    }
  }

  /** An increasing list is determined by its members. */
  lemma {:induction false} SameMembersSame(a: seq<Position>, b: seq<Position>)
    requires Increasing(a) && Increasing(b) && forall p :: p in a <==> p in b
    ensures a == b
    decreases |a|
  {
    HeadIsMember(a);
    HeadIsMember(b);
    if a != [] {
      TailIsIncreasing(a);
      TailIsIncreasing(b);
      SameMembersSame(a[1..], b[1..]);
      assert a == [a[0]] + a[1..] && b == [b[0]] + b[1..];
    }
  }

  lemma {:induction false} HeadIsMember(ps: seq<Position>)
    ensures ps != [] ==> ps[0] in ps
    ensures Increasing(ps) ==> forall p :: p in ps ==> p == ps[0] || Before(ps[0], p)
  {
    forall p | Increasing(ps) && p in ps
      ensures p == ps[0] || Before(ps[0], p)
    {
      var k :| 0 <= k < |ps| && ps[k] == p;
    }
  }

  /** The list without its first positions up to (tier, next). */
  function Jump(ps: seq<Position>, tier: int, next: int): (r: seq<Position>)
    ensures |r| <= |ps|
  {
    if ps == [] || AtOrAfter(ps[0], tier, next) then ps else Jump(ps[1..], tier, next)
  }

  lemma {:induction false} JumpIsExact(ps: seq<Position>, tier: int, next: int)
    requires Increasing(ps)
    ensures Increasing(Jump(ps, tier, next))
    ensures forall p :: p in Jump(ps, tier, next) <==> p in ps && AtOrAfter(p, tier, next)
  {
    HeadIsMember(ps);
    if ps != [] && !AtOrAfter(ps[0], tier, next) {
      TailIsIncreasing(ps);
      JumpIsExact(ps[1..], tier, next);
    }
  }

  /** The trackers tried when none of `rest` answers. After a failure at (i, t) the scan goes on in tier i, with the
      position moved on by t + 1 from where it was (lines 36-37), not set to t. */
  function Tried(rest: seq<Position>, position: int): seq<Position>
    decreases |rest|
  {
    if rest == [] then []
    else
      var next := position + rest[0].index + 1;
      [rest[0]] + Tried(Jump(rest[1..], rest[0].tier, next), next)
  }

  lemma {:induction false} HeadThenSome(rest: seq<Position>, some: seq<Position>)
    requires rest != [] && Increasing(rest) && Increasing(some) && forall p :: p in some ==> p in rest[1..]
    ensures Increasing([rest[0]] + some) && forall p :: p in [rest[0]] + some ==> p in rest
  {
    TailIsIncreasing(rest);
    forall p, q | p in [rest[0]] && q in some
      ensures Before(p, q)
    {
    }
    IncreasingConcat([rest[0]], some);
  }

  /** Each tracker is tried at most once, in strictly increasing order, and only those that remain. */
  lemma {:induction false} TriedIsIncreasing(rest: seq<Position>, position: int)
    requires Increasing(rest)
    ensures Increasing(Tried(rest, position))
    ensures forall p :: p in Tried(rest, position) ==> p in rest
    decreases |rest|
  {
    if rest != [] {
      var next := position + rest[0].index + 1;
      var later := Jump(rest[1..], rest[0].tier, next);
      TailIsIncreasing(rest);
      JumpIsExact(rest[1..], rest[0].tier, next);
      TriedIsIncreasing(later, next);
      HeadThenSome(rest, Tried(later, next));
    }
  }

  /** How far the position has moved on after the first `k` of these trackers failed. */
  function Offset(ps: seq<Position>, k: nat): int
    requires k <= |ps|
  {
    if k == 0 then 0 else ps[0].index + 1 + Offset(ps[1..], k - 1)
  }

  /** If this tracker and the next are in one tier, the next is beyond all that the position has moved on by, in this
      tier and in those before it. */
  predicate NextIsBeyond(rest: seq<Position>, position: int, i: nat)
    requires i + 1 < |rest|
  {
    rest[i].tier == rest[i + 1].tier ==> rest[i + 1].index > position + Offset(rest, i + 1)
  }

  ghost predicate NothingSkipped(rest: seq<Position>, position: int) {
    forall i: nat :: i < |rest| - 1 ==> NextIsBeyond(rest, position, i)
  }

  lemma {:induction false} BeyondInTail(rest: seq<Position>, position: int, i: nat)
    requires i + 2 < |rest|
    ensures NextIsBeyond(rest, position, i + 1) <==> NextIsBeyond(rest[1..], position + rest[0].index + 1, i)
  {
  }

  lemma {:induction false} NothingSkippedStep(rest: seq<Position>, position: int)
    requires |rest| >= 2 && Increasing(rest)
    ensures var next := position + rest[0].index + 1;
      NothingSkipped(rest, position) <==> AtOrAfter(rest[1], rest[0].tier, next) && NothingSkipped(rest[1..], next)
  {
    var next := position + rest[0].index + 1;
    assert Before(rest[0], rest[1]);
    assert Offset(rest[1..], 0) == 0;
    assert NextIsBeyond(rest, position, 0) <==> AtOrAfter(rest[1], rest[0].tier, next);
    if NothingSkipped(rest, position) {
      forall i: nat | i < |rest[1..]| - 1
        ensures NextIsBeyond(rest[1..], next, i)
      {
        BeyondInTail(rest, position, i);
      }
    }
    if NextIsBeyond(rest, position, 0) && NothingSkipped(rest[1..], next) {
      forall i: nat | i < |rest| - 1
        ensures NextIsBeyond(rest, position, i)
      {
        if i > 0 {
          BeyondInTail(rest, position, i - 1);
        }
      }
    }
  }

  lemma {:induction false} TriedIsNoLonger(rest: seq<Position>, position: int)
    ensures |Tried(rest, position)| <= |rest|
    decreases |rest|
  {
    if rest != [] {
      var next := position + rest[0].index + 1;
      TriedIsNoLonger(Jump(rest[1..], rest[0].tier, next), next);
    }
  }

  /** After the first failure nothing is jumped over, now and later. */
  lemma {:induction false} TriesAllStep(rest: seq<Position>, position: int)
    requires Increasing(rest) && rest != []
    ensures var next := position + rest[0].index + 1;
      Tried(rest, position) == rest <==>
        (|rest| >= 2 ==> AtOrAfter(rest[1], rest[0].tier, next)) && Tried(rest[1..], next) == rest[1..]
  {
    var next := position + rest[0].index + 1;
    var later := Jump(rest[1..], rest[0].tier, next);
    TriedIsNoLonger(later, next);
    assert rest == [rest[0]] + rest[1..];
    assert ([rest[0]] + Tried(later, next))[1..] == Tried(later, next);
  }

  /** All remaining trackers are tried before giving up if and only if no jump passes over one. */
  lemma {:induction false} TriesAllIff(rest: seq<Position>, position: int)
    requires Increasing(rest)
    ensures Tried(rest, position) == rest <==> NothingSkipped(rest, position)
    decreases |rest|
  {
    if rest != [] {
      TailIsIncreasing(rest);
      TriesAllStep(rest, position);
      TriesAllIff(rest[1..], position + rest[0].index + 1);
      if |rest| >= 2 {
        NothingSkippedStep(rest, position);
      }
    }
  }

  /** A tracker that would answer can be passed over: of four supported trackers in one tier the third is never
      tried. */
  lemma {:induction false} SkipsATracker()
    ensures var all := Remaining([["a", "b", "c", "d"]], _ => true, 0, -1);
      && all == [Position(0, 0), Position(0, 1), Position(0, 2), Position(0, 3)]
      && Tried(all, -1) == [Position(0, 0), Position(0, 1), Position(0, 3)]
  {
    var list, every: string -> bool := [["a", "b", "c", "d"]], _ => true;
    assert InTier(list, every, 0, 4) == [];
    assert InTier(list, every, 0, 3) == [Position(0, 3)];
    assert InTier(list, every, 0, 2) == [Position(0, 2), Position(0, 3)];
    assert InTier(list, every, 0, 1) == [Position(0, 1), Position(0, 2), Position(0, 3)];
    var all := Remaining(list, _ => true, 0, -1);
    assert all[1..] == [Position(0, 1), Position(0, 2), Position(0, 3)];
    assert all[1..][1..] == [Position(0, 2), Position(0, 3)];
    assert [Position(0, 2), Position(0, 3)][1..] == [Position(0, 3)];
    assert [Position(0, 3)][1..] == [];
    assert Tried([Position(0, 3)], 1) == [Position(0, 3)];
    assert Tried(all[1..], 0) == [Position(0, 1), Position(0, 3)];
  }

  /** The position is not reset in the next tier: there the second tracker is passed over because of the first tier. */
  lemma {:induction false} SkipsAcrossTiers()
    ensures var all := Remaining([["a"], ["b", "c"]], _ => true, 0, -1);
      && all == [Position(0, 0), Position(1, 0), Position(1, 1)]
      && Tried(all, -1) == [Position(0, 0), Position(1, 0)]
  {
    var list, every: string -> bool := [["a"], ["b", "c"]], _ => true;
    assert InTier(list, every, 0, 1) == [] && InTier(list, every, 1, 2) == [];
    assert InTier(list, every, 1, 1) == [Position(1, 1)];
    assert InTier(list, every, 1, 0) == [Position(1, 0), Position(1, 1)];
    assert Remaining(list, every, 1, -1) == [Position(1, 0), Position(1, 1)];
    var all := Remaining(list, _ => true, 0, -1);
    assert all[1..] == [Position(1, 0), Position(1, 1)] && all[1..][1..] == [Position(1, 1)];
    assert Jump([Position(1, 1)], 1, 1) == [];
    assert Tried(all[1..], 0) == [Position(1, 0)];
  }

  /** `rest` is what remains after (tier, position). */
  ghost predicate IsRemaining(rest: seq<Position>, list: seq<seq<string>>,
                              supported: string -> bool, tier: int, position: int) {
    Increasing(rest) && forall p :: p in rest <==> IsSupported(list, supported, p) && AtOrAfter(p, tier, position)
  }

  function Head(ps: seq<Position>): Option<Position> {
    if ps == [] then None else Some(ps[0])
  }

  /** The scan finds the head of what remains. */
  lemma {:induction false} FirstIsHead(rest: seq<Position>, list: seq<seq<string>>, supported: string -> bool,
                                       tier: int, position: int, r: Option<Position>)
    requires IsRemaining(rest, list, supported, tier, position)
    requires r.Some? ==> IsSupported(list, supported, r.value) && AtOrAfter(r.value, tier, position)
    requires r.Some? ==>
      forall p :: IsSupported(list, supported, p) && AtOrAfter(p, tier, position) ==> !Before(p, r.value)
    requires r.None? ==> forall p :: IsSupported(list, supported, p) ==> !AtOrAfter(p, tier, position)
    ensures r == Head(rest)
  {
    HeadIsMember(rest);
  }

  /** What remains after the failure of the first. */
  lemma {:induction false} RemainingAfterFailure(rest: seq<Position>, list: seq<seq<string>>, supported: string -> bool,
                                                 tier: int, position: int)
    requires position >= -1 && tier >= 0 && rest != [] && IsRemaining(rest, list, supported, tier, position)
    ensures var next := position + rest[0].index + 1;
      && next >= -1 && rest[0].tier >= 0
      && IsRemaining(Jump(rest[1..], rest[0].tier, next), list, supported, rest[0].tier, next)
  {
    HeadIsMember(rest);
    TailIsIncreasing(rest);
    JumpIsExact(rest[1..], rest[0].tier, position + rest[0].index + 1);
  }

  /** One failure, in the plan: the first is tried, and what remains is planned from the new position. */
  lemma {:induction false} TryFirst(plan: seq<Position>, tried: seq<Position>, rest: seq<Position>, first: Position,
                                    list: seq<seq<string>>, supported: string -> bool, tier: int, position: int)
    returns (later: seq<Position>)
    requires position >= -1 && tier >= 0 && Head(rest) == Some(first)
    requires IsRemaining(rest, list, supported, tier, position)
    requires plan == tried + Tried(rest, position)
    ensures |later| < |rest| && first.tier >= 0 && first.index >= 0
    ensures IsRemaining(later, list, supported, first.tier, position + first.index + 1)
    ensures plan == (tried + [first]) + Tried(later, position + first.index + 1)
  {
    later := Jump(rest[1..], first.tier, position + first.index + 1);
    HeadIsMember(rest);
    RemainingAfterFailure(rest, list, supported, tier, position);
  }

  // ---------- When the retry loop ends ----------

  /** The loop between two attempts, or after the last one. */
  datatype Retry = Retrying(tier: int, position: int) | Contacted(tracker: Position) | GaveUp

  function Scan(a: Announce,
                parses: string -> bool, supported: string -> bool, tier: int, position: int): Option<Position>
    requires position >= -1 && (a.list != [] ==> tier >= 0)
  {
    if a.list == [] then (if parses(a.url) then Some(FALLBACK) else None)
    else Head(Remaining(a.list, supported, tier, position))
  }

  predicate InRange(a: Announce, r: Retry) {
    r.Retrying? ==> r.position >= -1 && (a.list != [] ==> r.tier >= 0)
  }

  /** One turn of the loop (lines 25-46). */
  function Attempt(a: Announce,
                   parses: string -> bool, supported: string -> bool, r: Retry, answered: bool): (next: Retry)
    requires InRange(a, r)
    ensures InRange(a, next)
  {
    if !r.Retrying? then r
    else match Scan(a, parses, supported, r.tier, r.position)
      case None => GaveUp
      case Some(p) =>
        if answered then Contacted(p)
        else
          ScanInRange(a, parses, supported, r.tier, r.position);
          Retrying(p.tier, r.position + p.index + 1)
  }

  lemma {:induction false} ScanInRange(a: Announce,
                                       parses: string -> bool, supported: string -> bool, tier: int, position: int)
    requires position >= -1 && (a.list != [] ==> tier >= 0)
    ensures var r := Scan(a, parses, supported, tier, position);
      r.Some? ==> r.value == FALLBACK || (a.list != [] && InList(a.list, r.value))
    ensures a.list != [] && Scan(a, parses, supported, tier, position).Some? ==>
      InList(a.list, Scan(a, parses, supported, tier, position).value)
  {
    if a.list != [] {
      RemainingIsExact(a.list, supported, tier, position);
      HeadIsMember(Remaining(a.list, supported, tier, position));
    }
  }

  function StateAfter(a: Announce,
                      parses: string -> bool, supported: string -> bool, answers: nat -> bool,
                      k: nat): (r: Retry)
    ensures InRange(a, r)
  {
    if k == 0 then Retrying(0, -1)
    else Attempt(a, parses, supported, StateAfter(a, parses, supported, answers, k - 1), answers(k - 1))
  }

  /** Without a list, a failure leaves the position where it is. */
  lemma {:induction false} FallbackStays(a: Announce,
                                         parses: string -> bool, supported: string -> bool, answers: nat -> bool,
                                         k: nat)
    requires a.list == [] && parses(a.url) && forall i :: 0 <= i < k ==> !answers(i)
    ensures StateAfter(a, parses, supported, answers, k) == Retrying(if k == 0 then 0 else -1, -1)
  {
    if k > 0 {
      FallbackStays(a, parses, supported, answers, k - 1);
    }
  }

  /** With a list, each failure leaves less. */
  lemma {:induction false} LessRemains(a: Announce,
                                       parses: string -> bool, supported: string -> bool, answers: nat -> bool,
                                       k: nat)
    requires a.list != []
    ensures var r := StateAfter(a, parses, supported, answers, k);
      r.Retrying? ==> k + |Remaining(a.list, supported, r.tier, r.position)| <= |Remaining(a.list, supported, 0, -1)|
  {
    if k > 0 && StateAfter(a, parses, supported, answers, k).Retrying? {
      var r := StateAfter(a, parses, supported, answers, k - 1);
      LessRemains(a, parses, supported, answers, k - 1);
      RemainingShrinks(a.list, supported, r.tier, r.position);
    }
  }

  lemma {:induction false} RemainingShrinks(list: seq<seq<string>>, supported: string -> bool, tier: nat, position: int)
    requires position >= -1 && Remaining(list, supported, tier, position) != []
    ensures var first := Remaining(list, supported, tier, position)[0];
      && first.tier >= 0 && first.index >= 0
      && |Remaining(list, supported, first.tier, position + first.index + 1)| <
           |Remaining(list, supported, tier, position)|
  {
    var rest := Remaining(list, supported, tier, position);
    RemainingIsExact(list, supported, tier, position);
    HeadIsMember(rest);
    RemainingAfterFailure(rest, list, supported, tier, position);
    RemainingIsExact(list, supported, rest[0].tier, position + rest[0].index + 1);
    SameMembersSame(Remaining(list, supported, rest[0].tier, position + rest[0].index + 1),
                    Jump(rest[1..], rest[0].tier, position + rest[0].index + 1));
  }

  /** The retry loop ends if and only if there is a list, or the single URL does not parse, or some attempt is
      answered. */
  lemma {:induction false} RetryEndsIff(a: Announce,
                                        parses: string -> bool, supported: string -> bool, answers: nat -> bool)
    ensures (exists k: nat :: !StateAfter(a, parses, supported, answers, k).Retrying?) <==>
      a.list != [] || !parses(a.url) || exists k: nat :: answers(k)
  {
    if a.list != [] {
      var k := |Remaining(a.list, supported, 0, -1)| + 1;
      LessRemains(a, parses, supported, answers, k);
      assert !StateAfter(a, parses, supported, answers, k).Retrying?;
    } else if !parses(a.url) {
      assert !StateAfter(a, parses, supported, answers, 1).Retrying?;
    } else if exists k: nat :: answers(k) {
      var k: nat :| answers(k);
      var j := FirstAnswer(answers, k);
      FallbackStays(a, parses, supported, answers, j);
      var end := j + 1;
      assert StateAfter(a, parses, supported, answers, end) == Contacted(FALLBACK);
      assert !StateAfter(a, parses, supported, answers, end).Retrying?;
    } else {
      forall k: nat
        ensures StateAfter(a, parses, supported, answers, k).Retrying?
      {
        FallbackStays(a, parses, supported, answers, k);
      }
    }
  }

  lemma {:induction false} FirstAnswer(answers: nat -> bool, k: nat) returns (j: nat)
    requires answers(k)
    ensures answers(j) && forall i: nat :: i < j ==> !answers(i)
  {
    if i: nat :| i < k && answers(i) {
      j := FirstAnswer(answers, i);
    } else {
      j := k;
    }
  }

  // ---------- The loop itself ----------

  method NextTracker(a: Announce, parses: string -> bool, supported: string -> bool, tier: int, position: int,
                     ghost rest: seq<Position>)
    returns (r: Option<Position>)
    requires position >= -1 && (a.list != [] ==> tier >= 0 && IsRemaining(rest, a.list, supported, tier, position))
    ensures r == if a.list != [] then Head(rest) else if parses(a.url) then Some(FALLBACK) else None
  {
    r := FirstSupported(a, parses, supported, tier, position);
    if a.list != [] {
      FirstIsHead(rest, a.list, supported, tier, position, r);
    }
  }

  /** `GetTrackerFromFile`, whenever its loop ends: `answers(k)` says whether the k-th tracker contacted answers. */
  method GetTracker(a: Announce, parses: string -> bool, supported: string -> bool, answers: nat -> bool)
    returns (chosen: Option<Position>, tried: seq<Position>)
    requires a.list != [] || !parses(a.url) || exists k: nat :: answers(k)
    ensures forall k :: 0 <= k < |tried| - 1 ==> !answers(k)
    ensures chosen.Some? ==> tried != [] && chosen.value == tried[|tried| - 1] && answers(|tried| - 1)
    ensures chosen.None? ==> tried != [] ==> !answers(|tried| - 1)
    ensures a.list != [] ==> tried <= Tried(Remaining(a.list, supported, 0, -1), -1)
    ensures a.list != [] && chosen.None? ==> tried == Tried(Remaining(a.list, supported, 0, -1), -1)
    ensures a.list == [] ==> (chosen.Some? <==> parses(a.url)) && forall p :: p in tried ==> p == FALLBACK
  {
    RemainingIsExact(a.list, supported, 0, -1);
    chosen, tried := RetryLoop(a, parses, supported, answers, Remaining(a.list, supported, 0, -1));
  }

  method RetryLoop(a: Announce,
                   parses: string -> bool, supported: string -> bool, answers: nat -> bool, ghost all: seq<Position>)
    returns (chosen: Option<Position>, tried: seq<Position>)
    requires a.list != [] || !parses(a.url) || exists k: nat :: answers(k)
    requires IsRemaining(all, a.list, supported, 0, -1)
    ensures forall k :: 0 <= k < |tried| - 1 ==> !answers(k)
    ensures chosen.Some? ==> tried != [] && chosen.value == tried[|tried| - 1] && answers(|tried| - 1)
    ensures chosen.None? ==> tried != [] ==> !answers(|tried| - 1)
    ensures a.list != [] ==> tried <= Tried(all, -1)
    ensures a.list != [] && chosen.None? ==> tried == Tried(all, -1)
    ensures a.list == [] ==> (chosen.Some? <==> parses(a.url)) && forall p :: p in tried ==> p == FALLBACK
  {
    var tier, tierPos := 0, -1;
    ghost var rest, plan := all, Tried(all, -1);
    ghost var last: nat := 0;
    if a.list == [] && parses(a.url) {
      last :| answers(last);
    }
    tried := [];
    while true
      invariant tierPos >= -1
      invariant a.list != [] ==> tier >= 0 && IsRemaining(rest, a.list, supported, tier, tierPos)
      invariant a.list != [] ==> plan == tried + Tried(rest, tierPos)
      invariant a.list == [] ==> tierPos == -1 && |tried| <= last && forall p :: p in tried ==> p == FALLBACK
      invariant forall k :: 0 <= k < |tried| ==> !answers(k)
      invariant a.list == [] && tried != [] ==> parses(a.url)
      decreases if a.list != [] then |rest| else last - |tried|
    {
      var tracker := NextTracker(a, parses, supported, tier, tierPos, rest);
      if tracker.None? {
        return None, tried;
      }
      if a.list != [] {
        rest := TryFirst(plan, tried, rest, tracker.value, a.list, supported, tier, tierPos);
      }
      var answered := answers(|tried|);
      tried := tried + [tracker.value];
      if answered {
        return tracker, tried;
      }
      tier := tracker.value.tier;
      tierPos := tierPos + tracker.value.index + 1;
    }
  }
}
