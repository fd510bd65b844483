/** The choke algorithm of client/client.go:547-595. Maps are visited in any order, and the random draw is a
    parameter. */
module Choke {
  import opened Types
  import opened Sums
  import PeerLoop

  datatype Candidate = Candidate(id: string, downloaded: int)

  /** Interested peers that have uploaded to us. */
  ghost function Eligible(generosity: map<string, int>, interest: map<string, bool>): set<string> {
    set id | id in generosity && id in interest && interest[id]
  }

  ghost function InterestedIn(interest: map<string, bool>): set<string> {
    set id | id in interest && interest[id]
  }

  ghost predicate Distinct<T>(s: seq<T>) {
    forall i, j :: 0 <= i < j < |s| ==> s[i] != s[j]
  }

  ghost function Members<T>(s: seq<T>): set<T> {
    set x | x in s
  }

  lemma {:induction false} MembersAppend<T>(s: seq<T>, x: T)
    ensures Members(s + [x]) == Members(s) + {x}
  {
  }

  lemma {:induction false} LastIsNew<T>(s: seq<T>)
    requires Distinct(s) && s != []
    ensures s[|s| - 1] !in Members(s[..|s| - 1])
  {
    var last := |s| - 1;
    forall i | 0 <= i < last
      ensures s[..last][i] != s[last]
    {
      assert s[i] != s[last];
    }
  }

  lemma {:induction false} DistinctSize<T>(s: seq<T>)
    requires Distinct(s)
    ensures |Members(s)| == |s|
  {
    if s != [] {
      var rest := s[..|s| - 1];
      DistinctSize(rest);
      assert s == rest + [s[|s| - 1]];
      MembersAppend(rest, s[|s| - 1]);
      LastIsNew(s);
    }
  }

  /** The five places: the ids of the most generous, then a random one of the others; an empty id is an empty place. */
  ghost predicate FairlyPicked(picked: seq<string>, generosity: map<string, int>, interest: map<string, bool>) {
    var eligible := Eligible(generosity, interest);
    var best := Min(4, |eligible|);
    && |picked| == 5
    && Distinct(picked[..best])
    && (forall i :: 0 <= i < best ==> picked[i] in eligible)
    && (forall i :: best <= i < 4 ==> picked[i] == "")
    && (forall i, id :: 0 <= i < best && id in eligible && id !in picked[..best] ==>
          generosity[id] <= generosity[picked[i]])
    && (if |eligible| >= 5 then picked[4] in eligible && picked[4] !in picked[..best] else picked[4] == "")
  }

  /** The ids of the first four in rank order, and of the one that is `draw` places after them. */
  ghost predicate PickedFrom(ranked: seq<Candidate>, picked: seq<string>, draw: nat -> nat) {
    var best := Min(4, |ranked|);
    && |picked| == 5
    && (forall i :: 0 <= i < best ==> picked[i] == ranked[i].id)
    && (forall i :: best <= i < 4 ==> picked[i] == "")
    && (if |ranked| >= 5 then
          4 + draw(|ranked| - 4) < |ranked| && picked[4] == ranked[4 + draw(|ranked| - 4)].id
        else picked[4] == "")
  }

  /** What `ChokeAlgorithm` promises of its choice. */
  ghost predicate IsChoice(picked: seq<string>, generosity: map<string, int>, interest: map<string, bool>) {
    if |InterestedIn(interest)| < 5 then Distinct(picked) && Members(picked) == InterestedIn(interest)
    else FairlyPicked(picked, generosity, interest)
  }

  /** The keys of a map, in the order in which it happens to be visited. */
  method Visit<V>(m: map<string, V>) returns (keys: seq<string>)
    ensures Distinct(keys) && Members(keys) == m.Keys
  {
    keys := [];
    var left := m.Keys;
    while left != {}
      invariant Distinct(keys) && Members(keys) !! left && Members(keys) + left == m.Keys
      decreases left
    {
      var id :| id in left;
      assert id !in Members(keys);
      assert Members(keys + [id]) == Members(keys) + {id};
      keys, left := keys + [id], left - {id};
    }
  }

  ghost predicate Ranked(cs: seq<Candidate>) {
    forall i, j :: 0 <= i < j < |cs| ==> cs[i].downloaded >= cs[j].downloaded
  }

  /** `sort.Slice`, most generous first. */
  method Rank(cs: seq<Candidate>) returns (ranked: seq<Candidate>)
    ensures multiset(ranked) == multiset(cs) && Ranked(ranked)
  {
    ranked := [];
    for i := 0 to |cs|
      invariant multiset(ranked) == multiset(cs[..i]) && Ranked(ranked)
    {
      assert cs[..i + 1] == cs[..i] + [cs[i]];
      ranked := Insert(ranked, cs[i]);
    }
    assert cs[..|cs|] == cs;
  }

  method Insert(ranked: seq<Candidate>, c: Candidate) returns (r: seq<Candidate>)
    requires Ranked(ranked)
    ensures multiset(r) == multiset(ranked) + multiset{c} && Ranked(r)
  {
    var k := 0;
    while k < |ranked| && ranked[k].downloaded >= c.downloaded
      invariant k <= |ranked|
      invariant forall i :: 0 <= i < k ==> ranked[i].downloaded >= c.downloaded
    {
      k := k + 1;
    }
    var better, worse := ranked[..k], ranked[k..];
    assert ranked == better + worse;
    InsertedIsRanked(better, c, worse);
    r := better + [c] + worse;
  }

  ghost predicate AtLeast(better: seq<Candidate>, worse: seq<Candidate>) {
    forall i, j :: 0 <= i < |better| && 0 <= j < |worse| ==> better[i].downloaded >= worse[j].downloaded
  }

  lemma {:induction false} RankedConcat(better: seq<Candidate>, worse: seq<Candidate>)
    ensures Ranked(better + worse) <==> Ranked(better) && Ranked(worse) && AtLeast(better, worse)
  {
    var all := better + worse;
    if Ranked(all) {
      forall i, j | 0 <= i < |better| && 0 <= j < |worse|
        ensures better[i].downloaded >= worse[j].downloaded
      {
        assert all[i].downloaded >= all[|better| + j].downloaded;
      }
      forall i, j | 0 <= i < j < |worse|
        ensures worse[i].downloaded >= worse[j].downloaded
      {
        assert all[|better| + i].downloaded >= all[|better| + j].downloaded;
      }
      assert forall i :: 0 <= i < |better| ==> all[i] == better[i];
    }
  }

  lemma {:induction false} InsertedIsRanked(better: seq<Candidate>, c: Candidate, worse: seq<Candidate>)
    requires Ranked(better + worse)
    requires forall i :: 0 <= i < |better| ==> better[i].downloaded >= c.downloaded
    requires worse != [] ==> worse[0].downloaded < c.downloaded
    ensures Ranked(better + [c] + worse)
    ensures multiset(better + [c] + worse) == multiset(better + worse) + multiset{c}
  {
    RankedConcat(better, worse);
    RankedConcat(better, [c]);
    RankedConcat(better + [c], worse);
    assert AtLeast(better + [c], worse) by {
      forall i, j | 0 <= i < |better + [c]| && 0 <= j < |worse|
        ensures (better + [c])[i].downloaded >= worse[j].downloaded
      {
        assert j > 0 ==> worse[0].downloaded >= worse[j].downloaded;
      }
    }
  }

  /** Each candidate is an eligible peer with its own generosity, each of them once. */
  ghost predicate AreCandidates(cs: seq<Candidate>, generosity: map<string, int>, eligible: set<string>) {
    && (forall c :: c in cs ==> c.id in eligible && c.id in generosity && c.downloaded == generosity[c.id])
    && (forall id :: id in eligible ==> exists c :: c in cs && c.id == id)
    && |cs| == |eligible|
  }

  function Ids(cs: seq<Candidate>): (ids: seq<string>)
    ensures |ids| == |cs|
    ensures forall i :: 0 <= i < |cs| ==> ids[i] == cs[i].id
  {
    seq(|cs|, i requires 0 <= i < |cs| => cs[i].id)
  }

  lemma {:induction false} CandidatesAreDistinct(cs: seq<Candidate>, generosity: map<string, int>,
                                                 eligible: set<string>)
    requires AreCandidates(cs, generosity, eligible)
    ensures Distinct(Ids(cs)) && Members(Ids(cs)) == eligible
  {
    assert forall i :: 0 <= i < |cs| ==> cs[i] in cs;
    assert Members(Ids(cs)) == eligible by {
      forall id | id in eligible
        ensures id in Members(Ids(cs))
      {
        var c :| c in cs && c.id == id;
        var i :| 0 <= i < |cs| && cs[i] == c;
        assert Ids(cs)[i] == id;
      }
    }
    FullSizeIsDistinct(Ids(cs));
  }

  lemma {:induction false} MembersSize<T>(s: seq<T>)
    ensures |Members(s)| <= |s|
  {
    if s != [] {
      var rest := s[..|s| - 1];
      MembersSize(rest);
      assert Members(s) == Members(rest) + {s[|s| - 1]};
    }
  }

  lemma {:induction false} FullSizeIsDistinct<T>(s: seq<T>)
    requires |Members(s)| == |s|
    ensures Distinct(s)
  {
    if s != [] {
      var rest, last := s[..|s| - 1], s[|s| - 1];
      assert Members(s) == Members(rest) + {last};
      MembersSize(rest);
      FullSizeIsDistinct(rest);
      assert last !in Members(rest);
    }
  }

  /** The candidates, in the order in which the generosity map is visited. */
  method CollectCandidates(generosity: map<string, int>, interest: map<string, bool>) returns (cs: seq<Candidate>)
    ensures AreCandidates(cs, generosity, Eligible(generosity, interest))
  {
    cs := [];
    var keys := Visit(generosity);
    for i := 0 to |keys|
      invariant forall c :: c in cs ==> c.id in Eligible(generosity, interest) && c.downloaded == generosity[c.id]
      invariant Distinct(Ids(cs)) && Members(Ids(cs)) <= Members(keys[..i])
      invariant forall id :: id in keys[..i] && id in Eligible(generosity, interest) ==>
        exists c :: c in cs && c.id == id
    {
      assert keys[..i + 1] == keys[..i] + [keys[i]];
      MembersAppend(keys[..i], keys[i]);
      assert keys[i] in Members(keys);
      if keys[i] in interest && interest[keys[i]] {
        var c := Candidate(keys[i], generosity[keys[i]]);
        assert keys[i] !in Members(keys[..i]);
        assert Ids(cs + [c]) == Ids(cs) + [c.id];
        MembersAppend(Ids(cs), c.id);
        assert c in cs + [c];
        cs := cs + [c];
      }
    }
    assert keys[..|keys|] == keys;
    var eligible := Eligible(generosity, interest);
    assert Members(Ids(cs)) == eligible by {
      forall id | id in eligible
        ensures id in Members(Ids(cs))
      {
        assert id in Members(keys);
        var c :| c in cs && c.id == id;
        var i :| 0 <= i < |cs| && cs[i] == c;
        assert Ids(cs)[i] == id;
      }
      forall id | id in Members(Ids(cs))
        ensures id in eligible
      {
        var i :| 0 <= i < |cs| && Ids(cs)[i] == id;
        assert cs[i] in cs;
      }
    }
    DistinctSize(Ids(cs));
  }

  lemma {:induction false} PermutedCandidates(cs: seq<Candidate>, ranked: seq<Candidate>,
                                              generosity: map<string, int>, eligible: set<string>)
    requires AreCandidates(cs, generosity, eligible) && multiset(ranked) == multiset(cs)
    ensures AreCandidates(ranked, generosity, eligible)
  {
    assert forall c :: c in ranked <==> c in multiset(ranked);
    assert forall c :: c in cs <==> c in multiset(cs);
    assert |multiset(ranked)| == |multiset(cs)|;
  }

  /** Below five interested peers all of them are unchoked; otherwise five places are filled fairly. `draw` is the
      value of `rand.Intn`. */
  method ChokeAlgorithm(generosity: map<string, int>, interest: map<string, bool>,
                        draw: nat -> nat)
    returns (picked: seq<string>, ghost ranking: seq<Candidate>)
    requires forall n: nat :: n > 0 ==> draw(n) < n
    ensures IsChoice(picked, generosity, interest) && |picked| <= 5
    ensures |InterestedIn(interest)| >= 5 ==>
      && AreCandidates(ranking, generosity, Eligible(generosity, interest)) && Ranked(ranking)
      && PickedFrom(ranking, picked, draw)
  {
    ranking := [];
    var interestedPeers := CollectInterested(interest);
    DistinctSize(interestedPeers);
    if |interestedPeers| < 5 {
      return interestedPeers, [];
    }
    var candidates := CollectCandidates(generosity, interest);
    var ranked := Rank(candidates);
    ghost var eligible := Eligible(generosity, interest);
    PermutedCandidates(candidates, ranked, generosity, eligible);
    picked := Pick(ranked, draw);
    PickedFairly(ranked, picked, draw, generosity, interest);
    ranking := ranked;
  }

  method CollectInterested(interest: map<string, bool>) returns (ids: seq<string>)
    ensures Distinct(ids) && Members(ids) == InterestedIn(interest)
  {
    ids := [];
    var keys := Visit(interest);
    for i := 0 to |keys|
      invariant Distinct(ids) && Members(ids) == set id | id in keys[..i] && id in interest && interest[id]
    {
      assert keys[..i + 1] == keys[..i] + [keys[i]];
      assert keys[i] in Members(keys);
      if interest[keys[i]] {
        assert keys[i] !in Members(ids);
        assert Members(ids + [keys[i]]) == Members(ids) + {keys[i]};
        ids := ids + [keys[i]];
      }
    }
    assert keys[..|keys|] == keys;
    assert Members(ids) == InterestedIn(interest) by {
      assert forall id :: id in interest ==> id in Members(keys);
    }
  }


  method Pick(ranked: seq<Candidate>, draw: nat -> nat)
    returns (picked: seq<string>)
    requires forall n: nat :: n > 0 ==> draw(n) < n
    ensures PickedFrom(ranked, picked, draw)
  {
    picked := ["", "", "", "", ""];
    for i := 0 to Min(4, |ranked|)
      invariant |picked| == 5
      invariant forall k :: 0 <= k < i ==> picked[k] == ranked[k].id
      invariant forall k :: i <= k < 5 ==> picked[k] == ""
    {
      picked := picked[i := ranked[i].id];
    }
    if |ranked| < 5 {
      return;
    }
    var fifthRandom := draw(|ranked| - 4);
    picked := picked[4 := ranked[4 + fifthRandom].id];
  }

  lemma {:induction false} RankDecides(ranked: seq<Candidate>, best: nat, i: nat, id: string,
                                       generosity: map<string, int>, eligible: set<string>)
    requires Ranked(ranked) && AreCandidates(ranked, generosity, eligible)
    requires i < best <= |ranked| && id in eligible && id !in Ids(ranked)[..best]
    ensures ranked[i] in ranked && generosity[id] <= generosity[ranked[i].id]
  {
    forall j | 0 <= j < best
      ensures ranked[j].id != id
    {
      assert Ids(ranked)[..best][j] == ranked[j].id;
    }
    var c :| c in ranked && c.id == id;
    var k :| 0 <= k < |ranked| && ranked[k] == c;
    assert ranked[i] in ranked;
  }

  lemma {:induction false} DistinctSplit<T>(s: seq<T>, n: nat)
    requires Distinct(s) && n <= |s|
    ensures Distinct(s[..n])
    ensures forall k :: n <= k < |s| ==> s[k] !in s[..n]
  {
    forall k | n <= k < |s|
      ensures s[k] !in s[..n]
    {
      assert forall i :: 0 <= i < n ==> s[i] != s[k];
    }
  }

  lemma {:induction false} PickedFairly(ranked: seq<Candidate>, picked: seq<string>, draw: nat -> nat,
                                        generosity: map<string, int>, interest: map<string, bool>)
    requires Ranked(ranked) && AreCandidates(ranked, generosity, Eligible(generosity, interest))
    requires PickedFrom(ranked, picked, draw)
    ensures FairlyPicked(picked, generosity, interest)
  {
    var eligible := Eligible(generosity, interest);
    var best := Min(4, |eligible|);
    var ids := Ids(ranked);
    CandidatesAreDistinct(ranked, generosity, eligible);
    assert picked[..best] == ids[..best];
    DistinctSplit(ids, best);
    assert forall i :: 0 <= i < |ids| ==> ids[i] in Members(ids);
    forall i, id | 0 <= i < best && id in eligible && id !in picked[..best]
      ensures generosity[id] <= generosity[picked[i]]
    {
      RankDecides(ranked, best, i, id, generosity, eligible);
    }
    if |eligible| >= 5 {
      assert ids[4 + draw(|ranked| - 4)] == picked[4];
    }
  }

  /** From five interested peers on, only those that have uploaded to us can be picked: if none of them has, nobody is.
      (An id, being 20 bytes long, is never that of an empty place.) */
  lemma {:induction false} SomebodyIsPickedIff(picked: seq<string>, generosity: map<string, int>,
                                               interest: map<string, bool>)
    requires IsChoice(picked, generosity, interest) && "" !in interest
    ensures Members(picked) * InterestedIn(interest) != {} <==>
      InterestedIn(interest) != {} && (|InterestedIn(interest)| < 5 || Eligible(generosity, interest) != {})
    ensures |InterestedIn(interest)| >= 5 && Eligible(generosity, interest) == {} ==> Members(picked) == {""}
  {
    var eligible := Eligible(generosity, interest);
    if |InterestedIn(interest)| >= 5 {
      assert InterestedIn(interest) != {};
      if eligible == {} {
        assert forall i :: 0 <= i < 5 ==> picked[i] == "";
        assert picked[0] in Members(picked);
      } else {
        assert picked[0] in eligible;
        assert picked[0] in Members(picked) * InterestedIn(interest);
      }
    }
  }

  /** Each eligible peer that is not among the best four is the fifth for exactly one value of the draw: the number of
      places that it stands after the first four. */
  lemma {:induction false} DrawnOnce(ranked: seq<Candidate>, picked: seq<string>, draw: nat -> nat, id: string,
                                     generosity: map<string, int>, eligible: set<string>) returns (d: nat)
    requires AreCandidates(ranked, generosity, eligible) && |ranked| >= 5
    requires PickedFrom(ranked, picked, draw)
    requires id in eligible && forall i :: 0 <= i < 4 ==> ranked[i].id != id
    ensures d < |ranked| - 4 && ranked[4 + d].id == id
    ensures picked[4] == id <==> draw(|ranked| - 4) == d
  {
    var c :| c in ranked && c.id == id;
    var k :| 0 <= k < |ranked| && ranked[k] == c;
    d := k - 4;
    CandidatesAreDistinct(ranked, generosity, eligible);
    var ids := Ids(ranked);
    var drawn := draw(|ranked| - 4);
    assert ids[4 + drawn] == picked[4] && ids[4 + d] == id;
  }

  // ---------- What the selection does to the connections ----------

  /** The connections that take the tick, after it. */
  function Ticked(loops: seq<PeerLoop.Loop>, picked: seq<string>, c: PeerLoop.Config): seq<PeerLoop.Loop> {
    seq(|loops|, i requires 0 <= i < |loops| => PeerLoop.SetChoking(loops[i], loops[i].peer.id !in picked, c.net))
  }

  ghost function PeerIds(loops: seq<PeerLoop.Loop>): set<string> {
    set l | l in loops :: l.peer.id
  }

  ghost function Unchoked(loops: seq<PeerLoop.Loop>): set<string> {
    set l | l in loops && !l.peer.choking :: l.peer.id
  }

  /** After the tick exactly the picked peers are unchoked, so at most five, whatever was unchoked before and whichever
      writes fail. */
  lemma {:induction false} TickUnchokesThePicked(loops: seq<PeerLoop.Loop>, picked: seq<string>, c: PeerLoop.Config)
    requires |picked| <= 5
    ensures forall i :: 0 <= i < |loops| ==>
      PeerLoop.HandleEvent(loops[i], PeerLoop.UnchokeTick(picked), c) == Types.Ok(Ticked(loops, picked, c)[i])
    ensures Unchoked(Ticked(loops, picked, c)) == PeerIds(loops) * Members(picked)
    ensures |Unchoked(Ticked(loops, picked, c))| <= 5
  {
    var after := Ticked(loops, picked, c);
    forall id | id in Unchoked(after)
      ensures id in PeerIds(loops) * Members(picked)
    {
      var i :| 0 <= i < |after| && !after[i].peer.choking && after[i].peer.id == id;
      assert loops[i] in loops;
    }
    forall id | id in PeerIds(loops) * Members(picked)
      ensures id in Unchoked(after)
    {
      var i :| 0 <= i < |loops| && loops[i].peer.id == id;
      assert after[i] in after;
    }
    MembersSize(picked);
    SubsetSize(Unchoked(after), Members(picked));
  }
}
