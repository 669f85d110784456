/**
 * process_cluster: for every selected topic, both deques are built from the target list and
 * rotated by the topic's hash, and the topic's partitions are rebuilt in ascending `num` order.
 * The methods follow the source's loops; each is proved equal to a function of its inputs, about
 * which the lemmas at the end state what the plan guarantees.
 */
module Planner {
  import opened Wrappers
  import opened Sequences
  import opened Hashing
  import opened MigrateConfig
  import opened Topology
  import opened Placement

  /** How process_cluster can fail: hashval with no targets, or a pop from an empty todeque. */
  datatype PlanError = ZeroDivision | PopFromEmptyDeque

  /** A topic is processed unless an allow-list is given without it, or it is excluded. */
  predicate Selected(m: Migrate, name: string)
  {
    (m.topics.None? || name in m.topics.value) && name !in m.exclude
  }

  // ---------------------------------------------------------------------------------------------
  // sorted(partitions, key=lambda k: k.num), as an order of indices

  /** Partition a comes before partition b in a stable sort by `num`. */
  predicate Precedes(parts: seq<Partition>, a: nat, b: nat)
    requires a < |parts| && b < |parts|
  {
    parts[a].num < parts[b].num || (parts[a].num == parts[b].num && a < b)
  }

  ghost predicate SortedBy(parts: seq<Partition>, order: seq<nat>)
  {
    (forall i :: 0 <= i < |order| ==> order[i] < |parts|) &&
    (forall i, j :: 0 <= i < j < |order| ==> Precedes(parts, order[i], order[j]))
  }

  function InsertIndex(parts: seq<Partition>, order: seq<nat>, k: nat): (r: seq<nat>)
    requires k < |parts| && SortedBy(parts, order)
    requires forall i :: 0 <= i < |order| ==> order[i] < k
    ensures SortedBy(parts, r) && |r| == |order| + 1
    ensures forall x :: x in r <==> x in order || x == k
  {
    if order == [] then [k]
    else if Precedes(parts, k, order[0]) then [k] + order
    else
      var rest := InsertIndex(parts, order[1..], k);
      assert forall x :: x in order[1..] ==> Precedes(parts, order[0], x) by {
        forall x | x in order[1..] ensures Precedes(parts, order[0], x) {
          var i :| 0 <= i < |order[1..]| && order[1..][i] == x;
          assert x == order[i + 1];
        }
      }
      assert forall i :: 0 <= i < |rest| ==> Precedes(parts, order[0], rest[i]) by {
        forall i | 0 <= i < |rest| ensures Precedes(parts, order[0], rest[i]) {
          assert rest[i] in rest;
        }
      }
      [order[0]] + rest
  }

  function SortIndices(parts: seq<Partition>, m: nat): (r: seq<nat>)
    requires m <= |parts|
    ensures SortedBy(parts, r) && |r| == m
    ensures forall x: int :: x in r <==> 0 <= x < m
  {
    if m == 0 then []
    else
      var prev := SortIndices(parts, m - 1);
      assert forall i :: 0 <= i < |prev| ==> prev[i] < m - 1 by {
        forall i | 0 <= i < |prev| ensures prev[i] < m - 1 {
          assert prev[i] in prev;
        }
      }
      InsertIndex(parts, prev, m - 1)
  }

  /**
   * The order in which process_cluster visits a topic's partitions: every index once, by ascending
   * num, and partitions with equal num in their original order, as a stable sort leaves them.
   */
  function SortedOrder(parts: seq<Partition>): (order: seq<nat>)
    ensures |order| == |parts|
    ensures forall k :: 0 <= k < |parts| ==> k in order
    ensures forall i :: 0 <= i < |order| ==> order[i] < |parts|
    ensures forall i, j :: 0 <= i < j < |order| ==> parts[order[i]].num <= parts[order[j]].num
    ensures forall i, j :: 0 <= i < j < |order| && parts[order[i]].num == parts[order[j]].num ==> order[i] < order[j]
    ensures forall i, j :: 0 <= i < j < |order| ==> order[i] != order[j]
  {
    SortIndices(parts, |parts|)
  }

  // ---------------------------------------------------------------------------------------------
  // The plan as functions

  /** The replica counts of the partitions, in visiting order. */
  function Counts(parts: seq<Partition>, order: seq<nat>): (c: seq<nat>)
    requires forall i :: 0 <= i < |order| ==> order[i] < |parts|
    ensures |c| == |order|
  {
    seq(|order|, t requires 0 <= t < |order| => |parts[order[t]].replicas|)
  }

  /** The partitions after the first |lists| partitions in visiting order got these replica lists. */
  function Rebuilt(parts: seq<Partition>, order: seq<nat>, lists: seq<seq<int>>): (r: seq<Partition>)
    requires |lists| <= |order| && forall i :: 0 <= i < |order| ==> order[i] < |parts|
    ensures |r| == |parts|
  {
    if lists == [] then parts
    else
      var k := |lists| - 1;
      Rebuilt(parts, order, lists[..k])[order[k] := Partition(parts[order[k]].num, lists[k])]
  }

  /** The deques a topic starts with: leader_deque rotated by the hash, todeque by one more. */
  function StartOf(targets: seq<int>, name: string): Deques
    requires targets != []
  {
    var start := Hash(name, |targets|);
    Deques(Rotate(targets, start), Rotate(targets, start + 1))
  }

  /** One topic's share of process_cluster: the topic afterwards and the error that stopped it, if any. */
  function TopicPlan(targets: seq<int>, topic: Topic): (Topic, Option<PlanError>)
  {
    if targets == [] then (topic, Some(ZeroDivision))
    else
      var order := SortedOrder(topic.partitions);
      var run := PlaceAll(StartOf(targets, topic.name), Counts(topic.partitions, order));
      (Topic(topic.name, Rebuilt(topic.partitions, order, run.lists)), if run.ok then None else Some(PopFromEmptyDeque))
  }

  /** A topic as process_cluster leaves it: planned when selected, untouched otherwise. */
  function Visit(m: Migrate, topic: Topic): (Topic, Option<PlanError>)
  {
    if Selected(m, topic.name) then TopicPlan(m.targets, topic) else (topic, None)
  }

  /** process_cluster over the topics in turn; the first error ends it and later topics stay as they were. */
  function ClusterPlan(m: Migrate, topics: seq<Topic>): (seq<Topic>, Option<PlanError>)
    decreases |topics|
  {
    if topics == [] then ([], None)
    else
      var first := Visit(m, topics[0]);
      if first.1.Some? then ([first.0] + topics[1..], first.1)
      else
        var rest := ClusterPlan(m, topics[1..]);
        ([first.0] + rest.0, rest.1)
  }

  // ---------------------------------------------------------------------------------------------
  // The plan as the source computes it

  /** The rotation loop of process_cluster (both deques `start` times, then todeque once more). */
  method StartDeques(targets: seq<int>, start: nat) returns (dq: Deques)
    requires targets != []
    ensures dq == Deques(Rotate(targets, start), Rotate(targets, start + 1))
  {
    var leaderDeque, toDeque := targets, targets;
    RotateZero(targets);
    for i := 0 to start
      invariant leaderDeque == Rotate(targets, i) && toDeque == Rotate(targets, i)
    {
      RotateStep(targets, i);
      var proposed := leaderDeque[0];
      leaderDeque := leaderDeque[1..] + [proposed];
      proposed := toDeque[0];
      toDeque := toDeque[1..] + [proposed];
    }
    RotateStep(targets, start);
    var proposed := toDeque[0];
    toDeque := toDeque[1..] + [proposed];
    dq := Deques(leaderDeque, toDeque);
  }

  /**
   * The loop over one partition's positions: position 0 takes the leader from leader_deque, every
   * later one a follower from todeque, lending the leader if it comes up; the lent broker goes back
   * on the front of todeque. A pop from an empty todeque stops it with the replicas added so far.
   */
  method RebuildPartition(dq: Deques, count: nat) returns (p: Placed)
    requires dq.leaderDeque != []
    ensures p == PlacePartition(dq, count)
  {
    var leaderDeque, toDeque := dq.leaderDeque, dq.toDeque;
    ghost var total := FillFollowers(Fill(dq.toDeque, [], None), dq.leaderDeque[0], if count > 0 then count - 1 else 0);
    var replicas: seq<int> := [];
    var first := true;
    var leader := 0;
    var lender: Option<int> := None;
    for pos := 0 to count
      invariant first <==> pos == 0
      invariant |replicas| == pos
      invariant pos == 0 ==> leaderDeque == dq.leaderDeque && toDeque == dq.toDeque && lender.None?
      invariant pos > 0 ==> leader == dq.leaderDeque[0] && replicas[0] == leader
      invariant pos > 0 ==> leaderDeque == dq.leaderDeque[1..] + [leader]
      invariant pos > 0 ==> FillFollowers(Fill(toDeque, replicas[1..], lender), leader, count - pos) == total
    {
      var proposed;
      if first {
        proposed := leaderDeque[0];
        leaderDeque := leaderDeque[1..] + [proposed];
        leader := proposed;
        lender := None;
        assert replicas + [proposed] == [leader];
        assert [leader][1..] == [];
      } else {
        ghost var before := Fill(toDeque, replicas[1..], lender);
        if toDeque == [] {
          assert FollowerStep(before, leader).None?;
          assert replicas == [leader] + replicas[1..];
          return Placed(dq, replicas, false);
        }
        proposed := toDeque[0];
        toDeque := toDeque[1..];
        if proposed == leader {
          lender := Some(proposed);
          if toDeque == [] {
            assert FollowerStep(before, leader).None?;
            assert replicas == [leader] + replicas[1..];
            return Placed(dq, replicas, false);
          }
          proposed := toDeque[0];
          toDeque := toDeque[1..];
        }
        toDeque := toDeque + [proposed];
        assert (replicas + [proposed])[1..] == replicas[1..] + [proposed];
        assert FollowerStep(before, leader) == Some(Fill(toDeque, replicas[1..] + [proposed], lender));
      }
      replicas := replicas + [proposed];
      first := false;
    }
    if count > 0 {
      assert replicas == [leader] + replicas[1..];
      assert total == (Fill(toDeque, replicas[1..], lender), true);
    }
    if lender.Some? {
      toDeque := [lender.value] + toDeque;
    }
    p := Placed(Deques(leaderDeque, toDeque), replicas, true);
    if count == 0 {
      assert p == PlacePartition(dq, count);
    } else {
      assert total.0.chosen == replicas[1..];
      assert total.0.lender == lender;
      assert p == PlacePartition(dq, count);
    }
  }

  /** The run of a topic resumed at visiting position j, after the replica lists `lists` were placed. */
  ghost function Resume(dq: Deques, counts: seq<nat>, j: nat, lists: seq<seq<int>>): Run
    requires dq.leaderDeque != [] && j <= |counts|
  {
    var rest := PlaceAll(dq, counts[j..]);
    Run(rest.deques, lists + rest.lists, rest.ok)
  }

  lemma ResumeStep(dq: Deques, counts: seq<nat>, j: nat, lists: seq<seq<int>>)
    requires dq.leaderDeque != [] && j < |counts|
    ensures var p := PlacePartition(dq, counts[j]);
      if p.ok then Resume(dq, counts, j, lists) == Resume(p.deques, counts, j + 1, lists + [p.replicas])
      else Resume(dq, counts, j, lists) == Run(p.deques, lists + [p.replicas], false)
  {
    assert counts[j..][0] == counts[j] && counts[j..][1..] == counts[j + 1..];
    var p := PlacePartition(dq, counts[j]);
    if p.ok {
      var rest := PlaceAll(p.deques, counts[j + 1..]);
      assert lists + ([p.replicas] + rest.lists) == (lists + [p.replicas]) + rest.lists;
    }
  }

  lemma ResumeEnd(dq: Deques, counts: seq<nat>, lists: seq<seq<int>>)
    requires dq.leaderDeque != []
    ensures Resume(dq, counts, |counts|, lists) == Run(dq, lists, true)
  {
    assert counts[|counts|..] == [];
    assert lists + [] == lists;
  }

  /** The partitions at visiting positions j and later are as they were. */
  ghost predicate Untouched(parts: seq<Partition>, parts0: seq<Partition>, order: seq<nat>, j: nat)
    requires |parts| == |parts0| && forall i :: 0 <= i < |order| ==> order[i] < |parts0|
  {
    forall t :: j <= t < |order| ==> parts[order[t]] == parts0[order[t]]
  }

  /** Rebuilt with one more list sets the partition at the next visiting position and nothing else. */
  lemma RebuiltStep(parts0: seq<Partition>, order: seq<nat>, lists: seq<seq<int>>, l: seq<int>)
    requires |lists| < |order| && forall i :: 0 <= i < |order| ==> order[i] < |parts0|
    ensures Rebuilt(parts0, order, lists + [l]) ==
      Rebuilt(parts0, order, lists)[order[|lists|] := Partition(parts0[order[|lists|]].num, l)]
  {
    var longer := lists + [l];
    assert longer[..|lists|] == lists && longer[|lists|] == l;
  }

  /** Setting the partition at visiting position j leaves the later positions untouched. */
  lemma UntouchedStep(parts: seq<Partition>, parts0: seq<Partition>, order: seq<nat>, j: nat, v: Partition)
    requires |parts| == |parts0| && j < |order| && forall i :: 0 <= i < |order| ==> order[i] < |parts0|
    requires forall i, k :: 0 <= i < k < |order| ==> order[i] != order[k]
    requires Untouched(parts, parts0, order, j)
    ensures parts[order[j]] == parts0[order[j]]
    ensures Untouched(parts[order[j] := v], parts0, order, j + 1)
  {
    var next := parts[order[j] := v];
    forall t | j + 1 <= t < |order| ensures next[order[t]] == parts0[order[t]] {
      assert order[j] != order[t];
    }
  }

  /**
   * The state of the partition loop before visiting position j: the partitions so far rebuilt
   * with the lists placed, the later ones untouched, and the run from dq0 resumed at j.
   */
  ghost predicate LoopState(parts0: seq<Partition>, order: seq<nat>, dq0: Deques,
                            j: nat, parts: seq<Partition>, dq: Deques, lists: seq<seq<int>>)
  {
    dq0.leaderDeque != [] && dq.leaderDeque != [] &&
    (forall i :: 0 <= i < |order| ==> order[i] < |parts0|) &&
    |lists| == j && j <= |order| && |parts| == |parts0| &&
    parts == Rebuilt(parts0, order, lists) &&
    Untouched(parts, parts0, order, j) &&
    PlaceAll(dq0, Counts(parts0, order)) == Resume(dq, Counts(parts0, order), j, lists)
  }

  lemma LoopStart(parts0: seq<Partition>, order: seq<nat>, dq0: Deques)
    requires dq0.leaderDeque != [] && forall i :: 0 <= i < |order| ==> order[i] < |parts0|
    ensures LoopState(parts0, order, dq0, 0, parts0, dq0, [])
  {
    var counts := Counts(parts0, order);
    assert counts[0..] == counts && [] + PlaceAll(dq0, counts).lists == PlaceAll(dq0, counts).lists;
  }

  /**
   * Visiting position j: the partition there had counts[j] replicas; rebuilding it from the
   * deques either continues the loop or ends it where the run ends.
   */
  lemma LoopStep(parts0: seq<Partition>, order: seq<nat>, dq0: Deques,
                 j: nat, parts: seq<Partition>, dq: Deques, lists: seq<seq<int>>, p: Placed)
    requires forall i, k :: 0 <= i < k < |order| ==> order[i] != order[k]
    requires LoopState(parts0, order, dq0, j, parts, dq, lists) && j < |order|
    requires p == PlacePartition(dq, |parts[order[j]].replicas|)
    ensures var cleared := parts[order[j] := Partition(parts[order[j]].num, [])];
      var next := cleared[order[j] := Partition(cleared[order[j]].num, p.replicas)];
      var run := PlaceAll(dq0, Counts(parts0, order));
      (p.ok ==> LoopState(parts0, order, dq0, j + 1, next, p.deques, lists + [p.replicas])) &&
      (!p.ok ==> next == Rebuilt(parts0, order, run.lists) && !run.ok)
  {
    var counts := Counts(parts0, order);
    var idx := order[j];
    UntouchedStep(parts, parts0, order, j, Partition(parts0[idx].num, p.replicas));
    RebuiltStep(parts0, order, lists, p.replicas);
    assert |parts[idx].replicas| == counts[j];
    ResumeStep(dq, counts, j, lists);
    var cleared := parts[idx := Partition(parts[idx].num, [])];
    assert cleared[idx := Partition(cleared[idx].num, p.replicas)] == parts[idx := Partition(parts0[idx].num, p.replicas)];
  }

  lemma LoopEnd(parts0: seq<Partition>, order: seq<nat>, dq0: Deques, parts: seq<Partition>, dq: Deques, lists: seq<seq<int>>)
    requires LoopState(parts0, order, dq0, |order|, parts, dq, lists)
    ensures var run := PlaceAll(dq0, Counts(parts0, order));
      parts == Rebuilt(parts0, order, run.lists) && run.ok
  {
    ResumeEnd(dq, Counts(parts0, order), lists);
  }

  /**
   * The partition loop of process_cluster: every partition, in visiting order, is cleared and
   * rebuilt from the deques. A failing pop ends the loop with the partition it was rebuilding
   * holding only the replicas added before the pop.
   */
  method RebuildPartitions(parts0: seq<Partition>, order: seq<nat>, dq0: Deques) returns (parts: seq<Partition>, ok: bool)
    requires dq0.leaderDeque != []
    requires forall i :: 0 <= i < |order| ==> order[i] < |parts0|
    requires forall i, k :: 0 <= i < k < |order| ==> order[i] != order[k]
    ensures var run := PlaceAll(dq0, Counts(parts0, order));
      parts == Rebuilt(parts0, order, run.lists) && ok == run.ok
  {
    ghost var lists: seq<seq<int>> := [];
    var dq := dq0;
    parts := parts0;
    LoopStart(parts0, order, dq0);
    for j := 0 to |order|
      invariant LoopState(parts0, order, dq0, j, parts, dq, lists)
    {
      var idx := order[j];
      var count := |parts[idx].replicas|;
      ghost var before := parts;
      parts := parts[idx := Partition(parts[idx].num, [])];
      var p := RebuildPartition(dq, count);
      parts := parts[idx := Partition(parts[idx].num, p.replicas)];
      LoopStep(parts0, order, dq0, j, before, dq, lists, p);
      lists := lists + [p.replicas];
      if !p.ok {
        return parts, false;
      }
      dq := p.deques;
    }
    LoopEnd(parts0, order, dq0, parts, dq, lists);
    return parts, true;
  }

  /** One selected topic of process_cluster: the hash, the rotations, the sort, then the partition loop. */
  method ProcessTopic(targets: seq<int>, topic: Topic) returns (result: Topic, failure: Option<PlanError>)
    ensures (result, failure) == TopicPlan(targets, topic)
  {
    if targets == [] {
      return topic, Some(ZeroDivision);
    }
    var start := HashVal(topic.name, |targets|);
    var dq := StartDeques(targets, start);
    var order := SortedOrder(topic.partitions);
    var parts, ok := RebuildPartitions(topic.partitions, order, dq);
    result := Topic(topic.name, parts);
    failure := if ok then None else Some(PopFromEmptyDeque);
  }

  /**
   * One turn of the topic loop: if the i-th topic, visited, gives (t, e), the plan so far extends by t.
   * An error ends the plan with the remaining topics as they were.
   */
  lemma ClusterPlanStep(m: Migrate, topics: seq<Topic>, result: seq<Topic>, i: nat, t: Topic, e: Option<PlanError>)
    requires i < |topics| && |result| == |topics| && result[i..] == topics[i..]
    requires (t, e) == Visit(m, topics[i])
    ensures var prefix := result[..i] + ClusterPlan(m, topics[i..]).0;
      var next := result[i := t];
      if e.Some? then prefix == next && ClusterPlan(m, topics[i..]).1 == e
      else
        prefix == next[..i + 1] + ClusterPlan(m, topics[i + 1..]).0 &&
        ClusterPlan(m, topics[i..]).1 == ClusterPlan(m, topics[i + 1..]).1 &&
        next[i + 1..] == topics[i + 1..]
  {
    assert topics[i..][0] == topics[i] && topics[i..][1..] == topics[i + 1..];
    var next := result[i := t];
    assert next[..i + 1] == result[..i] + [t];
    assert next[i + 1..] == topics[i + 1..] by {
      assert result[i + 1..] == result[i..][1..];
    }
    if e.Some? {
      assert next == result[..i] + [t] + topics[i + 1..];
    }
  }

  /** The topic loop of process_cluster: unselected topics are skipped, the first error ends it. */
  method ProcessCluster(m: Migrate, topics: seq<Topic>) returns (result: seq<Topic>, failure: Option<PlanError>)
    ensures (result, failure) == ClusterPlan(m, topics)
  {
    ghost var plan := ClusterPlan(m, topics);
    result := topics;
    assert topics[0..] == topics && result[..0] + plan.0 == plan.0;
    for i := 0 to |topics|
      invariant |result| == |topics| && result[i..] == topics[i..]
      invariant plan == (result[..i] + ClusterPlan(m, topics[i..]).0, ClusterPlan(m, topics[i..]).1)
    {
      var topic := topics[i];
      if m.topics.Some? && topic.name !in m.topics.value {
        ClusterPlanStep(m, topics, result, i, topic, None);
        assert result[i := topic] == result by { assert result[i] == result[i..][0]; }
        continue;
      }
      if topic.name in m.exclude {
        ClusterPlanStep(m, topics, result, i, topic, None);
        assert result[i := topic] == result by { assert result[i] == result[i..][0]; }
        continue;
      }
      var t, e := ProcessTopic(m.targets, topic);
      ClusterPlanStep(m, topics, result, i, t, e);
      result := result[i := t];
      if e.Some? {
        return result, e;
      }
    }
    assert topics[|topics|..] == [];
    assert ClusterPlan(m, topics[|topics|..]) == ([], None);
    assert result[..|topics|] + [] == result;
    return result, None;
  }
}
