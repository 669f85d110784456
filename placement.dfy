/**
 * The deque strategy of process_cluster, stated on values: how one partition's replica list is
 * drawn from leader_deque and todeque, and how a topic's partitions are drawn one after another.
 */
module Placement {
  import opened Wrappers
  import opened Sequences

  /** The two deques of one topic: leader_deque and todeque. */
  datatype Deques = Deques(leaderDeque: seq<int>, toDeque: seq<int>)

  /** Progress through one partition's follower slots: todeque, followers chosen, the lent broker. */
  datatype Fill = Fill(toDeque: seq<int>, chosen: seq<int>, lender: Option<int>)

  /**
   * One follower slot: pop the front of todeque; if it is the leader, lend it and pop the next one;
   * append the broker chosen. None when a pop finds todeque empty.
   */
  function FollowerStep(st: Fill, leader: int): Option<Fill>
  {
    if st.toDeque == [] then None
    else if st.toDeque[0] != leader then
      Some(Fill(st.toDeque[1..] + [st.toDeque[0]], st.chosen + [st.toDeque[0]], st.lender))
    else if |st.toDeque| == 1 then None
    else Some(Fill(st.toDeque[2..] + [st.toDeque[1]], st.chosen + [st.toDeque[1]], Some(st.toDeque[0])))
  }

  /** `slots` follower slots in turn; on a failed pop, the state before it and false. */
  function FillFollowers(st: Fill, leader: int, slots: nat): (Fill, bool)
    decreases slots
  {
    if slots == 0 then (st, true)
    else match FollowerStep(st, leader)
      case None => (st, false)
      case Some(next) => FillFollowers(next, leader, slots - 1)
  }

  /**
   * One partition rebuilt: the deques afterwards, the new replica list, and whether every pop
   * succeeded. On a failed pop the deques are the ones the partition started from; the exception
   * discards the source's deques, so they carry no meaning there.
   */
  datatype Placed = Placed(deques: Deques, replicas: seq<int>, ok: bool)

  /**
   * A partition that had `count` replicas: the leader is popped from leader_deque and pushed back,
   * `count - 1` follower slots are filled from todeque, and the lent broker, if any, is pushed back
   * onto the front of todeque. A partition without replicas touches neither deque.
   */
  function PlacePartition(dq: Deques, count: nat): (p: Placed)
    requires dq.leaderDeque != []
    ensures |p.deques.leaderDeque| == |dq.leaderDeque|
  {
    if count == 0 then Placed(dq, [], true)
    else
      var leader := dq.leaderDeque[0];
      var filled := FillFollowers(Fill(dq.toDeque, [], None), leader, count - 1);
      var fill := filled.0;
      if !filled.1 then Placed(dq, [leader] + fill.chosen, false)
      else
        var toDeque := if fill.lender.Some? then [fill.lender.value] + fill.toDeque else fill.toDeque;
        Placed(Deques(dq.leaderDeque[1..] + [leader], toDeque), [leader] + fill.chosen, true)
  }

  /** A topic's run: the deques at the end, the replica lists in processing order, and success. */
  datatype Run = Run(deques: Deques, lists: seq<seq<int>>, ok: bool)

  /**
   * The partitions, with these replica counts, in processing order. A failing partition ends the run;
   * its partial list is the last one.
   */
  function PlaceAll(dq: Deques, counts: seq<nat>): (r: Run)
    requires dq.leaderDeque != []
    ensures |r.lists| <= |counts|
    decreases |counts|
  {
    if counts == [] then Run(dq, [], true)
    else
      var p := PlacePartition(dq, counts[0]);
      if !p.ok then Run(p.deques, [p.replicas], false)
      else
        var rest := PlaceAll(p.deques, counts[1..]);
        Run(rest.deques, [p.replicas] + rest.lists, rest.ok)
  }

  /** How many of the counts are non-zero: the partitions that take a leader. */
  function CountNonEmpty(counts: seq<nat>): nat
  {
    if counts == [] then 0 else (if counts[0] > 0 then 1 else 0) + CountNonEmpty(counts[1..])
  }

  // ---------------------------------------------------------------------------------------------
  // One partition's follower slots

  /** The ids used by a fill are all targets. */
  ghost predicate Within(st: Fill, targets: seq<int>)
  {
    (forall x :: x in st.toDeque ==> x in targets) &&
    (st.lender.Some? ==> st.lender.value in targets) &&
    (forall x :: x in st.chosen ==> x in targets)
  }

  lemma {:induction false} FillWithin(st: Fill, leader: int, slots: nat, targets: seq<int>)
    requires Within(st, targets)
    ensures Within(FillFollowers(st, leader, slots).0, targets)
    decreases slots
  {
    if slots > 0 {
      match FollowerStep(st, leader)
      case None =>
      case Some(next) =>
        var d := st.toDeque;
        assert d[0] in d;
        if d[0] == leader { assert d[1] in d; }
        FillWithin(next, leader, slots - 1, targets);
    }
  }

  lemma {:induction false} FillLength(st: Fill, leader: int, slots: nat)
    ensures FillFollowers(st, leader, slots).1 ==> |FillFollowers(st, leader, slots).0.chosen| == |st.chosen| + slots
    ensures !FillFollowers(st, leader, slots).1 ==> |FillFollowers(st, leader, slots).0.chosen| < |st.chosen| + slots
    ensures st.chosen <= FillFollowers(st, leader, slots).0.chosen
    decreases slots
  {
    if slots > 0 {
      match FollowerStep(st, leader)
      case None =>
      case Some(next) => FillLength(next, leader, slots - 1);
    }
  }

  /**
   * While a partition is being filled from a duplicate-free target multiset M: todeque holds M, or M
   * less the lent leader; no chosen follower is the leader.
   */
  ghost predicate Lent(st: Fill, leader: int, M: multiset<int>)
  {
    (st.lender.None? ==> multiset(st.toDeque) == M) &&
    (st.lender.Some? ==> st.lender.value == leader && multiset(st.toDeque) + multiset{leader} == M) &&
    (forall x :: x in st.chosen ==> x != leader && x in M)
  }

  lemma StepKeepsLent(st: Fill, leader: int, M: multiset<int>)
    requires SetLike(M) && leader in M && Lent(st, leader, M)
    ensures FollowerStep(st, leader).None? <==> |M| == 1
    ensures FollowerStep(st, leader).Some? ==> Lent(FollowerStep(st, leader).value, leader, M)
  {
    var d := st.toDeque;
    if d != [] {
      assert d == [d[0]] + d[1..];
      assert multiset(d) == multiset{d[0]} + multiset(d[1..]);
      assert multiset(d[1..] + [d[0]]) == multiset(d);
    }
    if st.lender.None? {
      assert |d| == |M|;
      if d != [] && d[0] == leader && |d| > 1 {
        assert multiset(d[1..])[leader] == 0;
        assert d[1..] == [d[1]] + d[2..];
        assert multiset(d[2..] + [d[1]]) == multiset(d[1..]);
        assert d[1] in multiset(d[1..]);
      }
      if |d| == 1 {
        assert d == [d[0]];
        assert M == multiset{d[0]};
      }
    } else {
      assert |d| + 1 == |M|;
      assert multiset(d)[leader] == 0;
      if d != [] {
        assert d[0] in multiset(d);
      }
    }
  }

  lemma {:induction false} FillKeepsLent(st: Fill, leader: int, M: multiset<int>, slots: nat)
    requires SetLike(M) && leader in M && Lent(st, leader, M)
    ensures Lent(FillFollowers(st, leader, slots).0, leader, M)
    ensures FillFollowers(st, leader, slots).1 <==> slots == 0 || |M| != 1
    decreases slots
  {
    if slots > 0 {
      StepKeepsLent(st, leader, M);
      match FollowerStep(st, leader)
      case None =>
      case Some(next) => FillKeepsLent(next, leader, M, slots - 1);
    }
  }

  /**
   * Before todeque wraps around: the followers chosen so far are the last entries of todeque, and
   * while nothing is lent the leader is still among the entries not yet visited.
   */
  ghost predicate Unwrapped(st: Fill, leader: int)
  {
    var u := |st.toDeque| - |st.chosen|;
    0 <= u && st.toDeque[u..] == st.chosen && (st.lender.None? ==> leader in st.toDeque[..u])
  }

  lemma PopAppendSuffix(d: seq<int>, chosen: seq<int>, u: nat)
    requires 1 <= u <= |d| && d[u..] == chosen
    ensures (d[1..] + [d[0]])[u - 1..] == chosen + [d[0]]
    ensures (d[1..] + [d[0]])[..u - 1] == d[1..u]
  {
  }

  lemma PopTwiceAppendSuffix(d: seq<int>, chosen: seq<int>, u: nat)
    requires 2 <= u <= |d| && d[u..] == chosen
    ensures (d[2..] + [d[1]])[u - 2..] == chosen + [d[1]]
  {
  }

  lemma StepKeepsUnwrapped(st: Fill, leader: int, M: multiset<int>)
    requires SetLike(M) && leader in M && Lent(st, leader, M) && Unwrapped(st, leader)
    requires |st.chosen| + 2 <= |M|
    ensures FollowerStep(st, leader).Some?
    ensures Unwrapped(FollowerStep(st, leader).value, leader)
  {
    var d := st.toDeque;
    var u := |d| - |st.chosen|;
    if st.lender.None? {
      assert |d| == |M|;
      if d[0] == leader {
        PopTwiceAppendSuffix(d, st.chosen, u);
      } else {
        PopAppendSuffix(d, st.chosen, u);
        assert d[..u] == [d[0]] + d[1..u];
        assert leader in d[1..u];
      }
    } else {
      assert |d| + 1 == |M|;
      assert multiset(d)[leader] == 0;
      assert d[0] in multiset(d);
      PopAppendSuffix(d, st.chosen, u);
    }
  }

  lemma {:induction false} FillKeepsUnwrapped(st: Fill, leader: int, M: multiset<int>, slots: nat)
    requires SetLike(M) && leader in M && Lent(st, leader, M) && Unwrapped(st, leader)
    requires |st.chosen| + slots + 1 <= |M|
    ensures FillFollowers(st, leader, slots).1
    ensures Unwrapped(FillFollowers(st, leader, slots).0, leader)
    decreases slots
  {
    if slots > 0 {
      StepKeepsUnwrapped(st, leader, M);
      StepKeepsLent(st, leader, M);
      var next := FollowerStep(st, leader).value;
      FillKeepsUnwrapped(next, leader, M, slots - 1);
    }
  }

  // ---------------------------------------------------------------------------------------------
  // One partition

  lemma PlacePartitionCount(dq: Deques, count: nat)
    requires dq.leaderDeque != []
    ensures var p := PlacePartition(dq, count);
      (count == 0 ==> p == Placed(dq, [], true)) &&
      (count > 0 ==> |p.replicas| >= 1 && p.replicas[0] == dq.leaderDeque[0]) &&
      (p.ok ==> |p.replicas| == count) &&
      (!p.ok ==> |p.replicas| < count)
  {
    if count > 0 {
      FillLength(Fill(dq.toDeque, [], None), dq.leaderDeque[0], count - 1);
    }
  }

  lemma PlacePartitionLeader(targets: seq<int>, s: nat, dq: Deques, count: nat)
    requires |targets| > 0 && dq.leaderDeque == Rotate(targets, s)
    ensures var p := PlacePartition(dq, count);
      (count > 0 ==> |p.replicas| >= 1 && p.replicas[0] == targets[s % |targets|]) &&
      (p.ok ==> p.deques.leaderDeque == Rotate(targets, if count > 0 then s + 1 else s))
  {
    PlacePartitionCount(dq, count);
    RotateStep(targets, s);
  }

  lemma PlacePartitionWithin(targets: seq<int>, dq: Deques, count: nat)
    requires dq.leaderDeque != []
    requires forall x :: x in dq.leaderDeque ==> x in targets
    requires forall x :: x in dq.toDeque ==> x in targets
    ensures var p := PlacePartition(dq, count);
      (forall x :: x in p.replicas ==> x in targets) &&
      (forall x :: x in p.deques.leaderDeque ==> x in targets) &&
      (forall x :: x in p.deques.toDeque ==> x in targets)
  {
    if count > 0 {
      assert dq.leaderDeque[0] in dq.leaderDeque;
      FillWithin(Fill(dq.toDeque, [], None), dq.leaderDeque[0], count - 1, targets);
    }
  }

  /** The follower fill of a partition whose leader deque and todeque hold the same duplicate-free targets. */
  lemma FillFromTargets(targets: seq<int>, dq: Deques, count: nat)
    requires |targets| > 0 && Distinct(targets) && count > 0
    requires dq.leaderDeque != [] && dq.leaderDeque[0] in targets
    requires multiset(dq.toDeque) == multiset(targets)
    ensures var filled := FillFollowers(Fill(dq.toDeque, [], None), dq.leaderDeque[0], count - 1);
      Lent(filled.0, dq.leaderDeque[0], multiset(targets)) &&
      (filled.1 <==> count <= 1 || |targets| >= 2) &&
      (count <= |targets| ==> Distinct(filled.0.chosen))
  {
    var M := multiset(targets);
    DistinctSetLike(targets);
    var leader := dq.leaderDeque[0];
    assert leader in M;
    var st := Fill(dq.toDeque, [], None);
    FillKeepsLent(st, leader, M, count - 1);
    if count <= |targets| {
      assert dq.toDeque[..|dq.toDeque|] == dq.toDeque;
      FillKeepsUnwrapped(st, leader, M, count - 1);
      var fill := FillFollowers(st, leader, count - 1).0;
      var u := |fill.toDeque| - |fill.chosen|;
      assert multiset(fill.toDeque) <= M;
      SetLikeDistinct(fill.toDeque, M);
      assert fill.chosen == fill.toDeque[u..];
    }
  }

  /** With a duplicate-free target list, one partition's rebuild keeps todeque a permutation of it. */
  lemma PlacePartitionDistinct(targets: seq<int>, dq: Deques, count: nat)
    requires |targets| > 0 && Distinct(targets)
    requires dq.leaderDeque != [] && (forall x :: x in dq.leaderDeque ==> x in targets)
    requires multiset(dq.toDeque) == multiset(targets)
    ensures var p := PlacePartition(dq, count);
      (p.ok <==> count <= 1 || |targets| >= 2) &&
      (p.ok ==> multiset(p.deques.toDeque) == multiset(targets)) &&
      (forall i :: 1 <= i < |p.replicas| ==> p.replicas[i] != p.replicas[0]) &&
      (count <= |targets| ==> Distinct(p.replicas)) &&
      (forall x :: x in p.deques.leaderDeque ==> x in targets)
  {
    if count > 0 {
      forall x | x in dq.toDeque ensures x in targets {
        assert x in multiset(dq.toDeque);
      }
      PlacePartitionWithin(targets, dq, count);
      var leader := dq.leaderDeque[0];
      assert leader in dq.leaderDeque;
      FillFromTargets(targets, dq, count);
      var filled := FillFollowers(Fill(dq.toDeque, [], None), leader, count - 1);
      var fill := filled.0;
      var p := PlacePartition(dq, count);
      assert p.replicas == [leader] + fill.chosen;
      forall i | 1 <= i < |p.replicas| ensures p.replicas[i] != p.replicas[0] {
        assert p.replicas[i] == fill.chosen[i - 1];
        assert fill.chosen[i - 1] in fill.chosen;
      }
      if fill.lender.Some? {
        assert multiset([fill.lender.value] + fill.toDeque) == multiset{leader} + multiset(fill.toDeque);
      }
    }
  }

  // ---------------------------------------------------------------------------------------------
  // A topic's partitions in processing order

  /** The target that is k steps round the list from its start. */
  function RoundRobin(targets: seq<int>, k: nat): int
    requires |targets| > 0
  {
    targets[k % |targets|]
  }

  lemma CountNonEmptyPrefix(counts: seq<nat>, t: nat)
    requires 0 < t <= |counts|
    ensures CountNonEmpty(counts[..t]) == (if counts[0] > 0 then 1 else 0) + CountNonEmpty(counts[1..][..t - 1])
  {
    assert counts[..t][1..] == counts[1..][..t - 1];
  }

  /** leader_deque stays a rotation of the targets, advanced once per partition that has replicas. */
  lemma {:induction false} LeaderDequeRotates(targets: seq<int>, s: nat, dq: Deques, counts: seq<nat>)
    requires |targets| > 0 && dq.leaderDeque == Rotate(targets, s)
    ensures PlaceAll(dq, counts).ok ==> PlaceAll(dq, counts).deques.leaderDeque == Rotate(targets, s + CountNonEmpty(counts))
    decreases |counts|
  {
    if counts != [] {
      var p := PlacePartition(dq, counts[0]);
      PlacePartitionLeader(targets, s, dq, counts[0]);
      if p.ok {
        LeaderDequeRotates(targets, if counts[0] > 0 then s + 1 else s, p.deques, counts[1..]);
      }
    }
  }

  /**
   * The lists drawn for partitions with these counts, starting s steps round the targets, are led
   * in round robin: list t, if its partition has replicas, starts with the target s + (the number
   * of earlier partitions with replicas) steps round.
   */
  ghost predicate LeadersInTurn(targets: seq<int>, s: nat, counts: seq<nat>, lists: seq<seq<int>>)
    requires |targets| > 0
  {
    forall t :: 0 <= t < |lists| && t < |counts| && counts[t] > 0 ==>
      |lists[t]| > 0 && lists[t][0] == RoundRobin(targets, s + CountNonEmpty(counts[..t]))
  }

  lemma LeadersInTurnCons(targets: seq<int>, s: nat, counts: seq<nat>, first: seq<int>, lists: seq<seq<int>>)
    requires |targets| > 0 && counts != []
    requires counts[0] > 0 ==> |first| > 0 && first[0] == RoundRobin(targets, s)
    requires LeadersInTurn(targets, s + (if counts[0] > 0 then 1 else 0), counts[1..], lists)
    ensures LeadersInTurn(targets, s, counts, [first] + lists)
  {
    var all := [first] + lists;
    var s' := s + (if counts[0] > 0 then 1 else 0);
    forall t | 0 <= t < |all| && t < |counts| && counts[t] > 0
      ensures |all[t]| > 0 && all[t][0] == RoundRobin(targets, s + CountNonEmpty(counts[..t]))
    {
      if t == 0 {
        assert counts[..0] == [];
      } else {
        assert all[t] == lists[t - 1];
        assert counts[1..][t - 1] == counts[t];
        CountNonEmptyPrefix(counts, t);
        assert s + CountNonEmpty(counts[..t]) == s' + CountNonEmpty(counts[1..][..t - 1]);
      }
    }
  }

  /** Round robin over a topic's partitions: see LeadersInTurn. */
  lemma {:induction false} LeaderRoundRobin(targets: seq<int>, s: nat, dq: Deques, counts: seq<nat>)
    requires |targets| > 0 && dq.leaderDeque == Rotate(targets, s)
    ensures LeadersInTurn(targets, s, counts, PlaceAll(dq, counts).lists)
    decreases |counts|
  {
    if counts != [] {
      var p := PlacePartition(dq, counts[0]);
      PlacePartitionLeader(targets, s, dq, counts[0]);
      var r := PlaceAll(dq, counts);
      if p.ok {
        var s' := if counts[0] > 0 then s + 1 else s;
        LeaderRoundRobin(targets, s', p.deques, counts[1..]);
        LeadersInTurnCons(targets, s, counts, p.replicas, PlaceAll(p.deques, counts[1..]).lists);
      } else {
        LeadersInTurnCons(targets, s, counts, p.replicas, []);
      }
    }
  }

  /** Every partition that completes has exactly its old replica count; a failing one has fewer. */
  lemma {:induction false} ReplicaCountsKept(dq: Deques, counts: seq<nat>)
    requires dq.leaderDeque != []
    ensures var r := PlaceAll(dq, counts);
      (r.ok ==> |r.lists| == |counts|) &&
      (forall t :: 0 <= t < |r.lists| - 1 ==> |r.lists[t]| == counts[t]) &&
      (r.ok && r.lists != [] ==> |r.lists[|r.lists| - 1]| == counts[|r.lists| - 1]) &&
      (!r.ok ==> r.lists != [] && |r.lists[|r.lists| - 1]| < counts[|r.lists| - 1])
    decreases |counts|
  {
    if counts != [] {
      PlacePartitionCount(dq, counts[0]);
      var p := PlacePartition(dq, counts[0]);
      if p.ok {
        ReplicaCountsKept(p.deques, counts[1..]);
      }
    }
  }

  /** Every id in every one of the lists is a target. */
  ghost predicate ListsWithin(lists: seq<seq<int>>, targets: seq<int>)
  {
    forall t :: 0 <= t < |lists| ==> forall x :: x in lists[t] ==> x in targets
  }

  /** Every replica placed is a target broker. */
  lemma {:induction false} ReplicasAreTargets(targets: seq<int>, dq: Deques, counts: seq<nat>)
    requires dq.leaderDeque != []
    requires forall x :: x in dq.leaderDeque ==> x in targets
    requires forall x :: x in dq.toDeque ==> x in targets
    ensures ListsWithin(PlaceAll(dq, counts).lists, targets)
    decreases |counts|
  {
    if counts != [] {
      PlacePartitionWithin(targets, dq, counts[0]);
      var p := PlacePartition(dq, counts[0]);
      var r := PlaceAll(dq, counts);
      if p.ok {
        var rest := PlaceAll(p.deques, counts[1..]);
        ReplicasAreTargets(targets, p.deques, counts[1..]);
        assert r.lists == [p.replicas] + rest.lists;
        forall t | 0 < t < |r.lists| ensures forall x :: x in r.lists[t] ==> x in targets {
          assert r.lists[t] == rest.lists[t - 1];
        }
      }
    }
  }

  /**
   * With a duplicate-free target list: the run fails exactly when there is one target and some
   * partition has two or more replicas, and after every partition todeque is again a permutation
   * of the targets.
   */
  lemma {:induction false} ToDequeStaysPermutation(targets: seq<int>, dq: Deques, counts: seq<nat>)
    requires |targets| > 0 && Distinct(targets)
    requires dq.leaderDeque != [] && (forall x :: x in dq.leaderDeque ==> x in targets)
    requires multiset(dq.toDeque) == multiset(targets)
    ensures var r := PlaceAll(dq, counts);
      (r.ok <==> |targets| >= 2 || forall t :: 0 <= t < |counts| ==> counts[t] <= 1) &&
      (r.ok ==> multiset(r.deques.toDeque) == multiset(targets))
    decreases |counts|
  {
    if counts != [] {
      PlacePartitionDistinct(targets, dq, counts[0]);
      var p := PlacePartition(dq, counts[0]);
      if p.ok {
        ToDequeStaysPermutation(targets, p.deques, counts[1..]);
        assert (forall t :: 0 <= t < |counts| ==> counts[t] <= 1) <==>
               counts[0] <= 1 && forall t :: 0 <= t < |counts[1..]| ==> counts[1..][t] <= 1 by {
          if counts[0] <= 1 && forall t :: 0 <= t < |counts[1..]| ==> counts[1..][t] <= 1 {
            forall t | 0 <= t < |counts| ensures counts[t] <= 1 {
              if t > 0 { assert counts[t] == counts[1..][t - 1]; }
            }
          }
        }
      }
    }
  }

  /**
   * With a duplicate-free target list: no follower is its partition's leader, and a partition with
   * no more replicas than there are targets gets pairwise distinct replicas.
   */
  lemma {:induction false} FollowersAvoidLeader(targets: seq<int>, dq: Deques, counts: seq<nat>)
    requires |targets| > 0 && Distinct(targets)
    requires dq.leaderDeque != [] && (forall x :: x in dq.leaderDeque ==> x in targets)
    requires multiset(dq.toDeque) == multiset(targets)
    ensures var r := PlaceAll(dq, counts);
      (forall t, i :: 0 <= t < |r.lists| && 1 <= i < |r.lists[t]| ==> r.lists[t][i] != r.lists[t][0]) &&
      (forall t :: 0 <= t < |r.lists| && counts[t] <= |targets| ==> Distinct(r.lists[t]))
    decreases |counts|
  {
    if counts != [] {
      PlacePartitionDistinct(targets, dq, counts[0]);
      var p := PlacePartition(dq, counts[0]);
      var r := PlaceAll(dq, counts);
      if p.ok {
        var rest := PlaceAll(p.deques, counts[1..]);
        FollowersAvoidLeader(targets, p.deques, counts[1..]);
        assert r.lists == [p.replicas] + rest.lists;
        forall t | 1 <= t < |r.lists| ensures r.lists[t] == rest.lists[t - 1] && counts[t] == counts[1..][t - 1] { }
      } else {
        assert r.lists == [p.replicas];
      }
    }
  }

  /** More replicas than targets: with two targets a, b and three replicas the list is [a, b, b]. */
  lemma FollowersRepeatWhenShort(a: int, b: int)
    requires a != b
    ensures PlacePartition(Deques([a, b], [b, a]), 3) == Placed(Deques([b, a], [a, b]), [a, b, b], true)
  {
    assert [] + [b] == [b];
    var st0 := Fill([b, a], [], None);
    var st1 := Fill([a, b], [b], None);
    var st2 := Fill([b], [b, b], Some(a));
    assert [b, a][1..] + [b] == [a, b];
    assert FollowerStep(st0, a) == Some(st1);
    assert [a, b][2..] + [b] == [b];
    assert [b] + [b] == [b, b];
    assert FollowerStep(st1, a) == Some(st2);
    assert FillFollowers(st0, a, 2) == FillFollowers(st2, a, 0);
    assert [a] + [b] == [a, b];
    assert [a] + [b, b] == [a, b, b];
  }

  /** A target id listed twice defeats the leader check: the leader comes back as its own follower. */
  lemma RepeatedTargetFollowsItself(b: int)
    ensures PlacePartition(Deques([b, b], [b, b]), 2).replicas == [b, b]
  {
    assert [b, b][2..] + [b] == [b];
    assert [] + [b] == [b];
    assert FollowerStep(Fill([b, b], [], None), b) == Some(Fill([b], [b], Some(b)));
  }

  /**
   * The same repeated id with three replicas: the second follower slot lends b again and its
   * second pop finds todeque empty, although the list has two entries.
   */
  lemma RepeatedTargetRunsDry(b: int)
    ensures PlacePartition(Deques([b, b], [b, b]), 3) == Placed(Deques([b, b], [b, b]), [b, b], false)
  {
    assert [b, b][2..] + [b] == [b];
    assert [] + [b] == [b];
    var st1 := Fill([b], [b], Some(b));
    assert FollowerStep(Fill([b, b], [], None), b) == Some(st1);
    assert FollowerStep(st1, b) == None;
    assert FillFollowers(Fill([b, b], [], None), b, 2) == (st1, false);
    assert [b] + [b] == [b, b];
  }
}
