/**
 * What process_cluster guarantees, stated on the plan functions of Planner in the source's own
 * terms: topics, partitions by index, replica lists and broker ids.
 */
module PlanProperties {
  import opened Wrappers
  import opened Sequences
  import opened Hashing
  import opened MigrateConfig
  import opened Topology
  import opened Placement
  import opened Planner

  /** Rebuilt gives each visited position its list and leaves the positions still to visit alone. */
  lemma {:induction false} RebuiltAt(parts: seq<Partition>, order: seq<nat>, lists: seq<seq<int>>)
    requires |lists| <= |order| && forall i :: 0 <= i < |order| ==> order[i] < |parts|
    requires forall i, k :: 0 <= i < k < |order| ==> order[i] != order[k]
    ensures var r := Rebuilt(parts, order, lists);
      (forall t :: 0 <= t < |lists| ==> r[order[t]] == Partition(parts[order[t]].num, lists[t])) &&
      (forall t :: |lists| <= t < |order| ==> r[order[t]] == parts[order[t]])
    decreases |lists|
  {
    if lists != [] {
      var k := |lists| - 1;
      var prefix := lists[..k];
      RebuiltAt(parts, order, prefix);
      var r := Rebuilt(parts, order, lists);
      assert r == Rebuilt(parts, order, prefix)[order[k] := Partition(parts[order[k]].num, lists[k])];
      forall t | 0 <= t < k ensures r[order[t]] == Partition(parts[order[t]].num, lists[t]) {
        assert order[t] != order[k];
        assert prefix[t] == lists[t];
      }
      forall t | |lists| <= t < |order| ensures r[order[t]] == parts[order[t]] {
        assert order[k] != order[t];
      }
    }
  }

  /** The deques a topic starts with hold the targets, and leader_deque is the hash rotation. */
  lemma StartOfTargets(targets: seq<int>, name: string)
    requires targets != []
    ensures var dq := StartOf(targets, name);
      dq.leaderDeque == Rotate(targets, Hash(name, |targets|)) &&
      dq.leaderDeque != [] && (forall x :: x in dq.leaderDeque ==> x in targets) &&
      multiset(dq.toDeque) == multiset(targets) && (forall x :: x in dq.toDeque ==> x in targets)
  {
    var dq := StartOf(targets, name);
    forall x | x in dq.leaderDeque ensures x in targets {
      assert x in multiset(dq.leaderDeque);
    }
    forall x | x in dq.toDeque ensures x in targets {
      assert x in multiset(dq.toDeque);
    }
  }

  /**
   * Partition k of a planned topic: its visiting position t, the list the run gave it when the run
   * reached it, or the partition unchanged when the run stopped before it.
   */
  lemma VisitedAt(targets: seq<int>, topic: Topic, k: nat) returns (t: nat)
    requires targets != [] && k < |topic.partitions|
    ensures var parts := topic.partitions;
      var order := SortedOrder(parts);
      var run := PlaceAll(StartOf(targets, topic.name), Counts(parts, order));
      var after := TopicPlan(targets, topic).0.partitions;
      t < |order| && order[t] == k && Counts(parts, order)[t] == |parts[k].replicas| &&
      (t < |run.lists| ==> after[k] == Partition(parts[k].num, run.lists[t])) &&
      (t >= |run.lists| ==> after[k] == parts[k])
  {
    var parts := topic.partitions;
    var order := SortedOrder(parts);
    var run := PlaceAll(StartOf(targets, topic.name), Counts(parts, order));
    assert k in order;
    t :| 0 <= t < |order| && order[t] == k;
    RebuiltAt(parts, order, run.lists);
  }

  /**
   * How one topic can fail: ZeroDivision exactly when there are no targets; with a duplicate-free
   * target list, a pop from the empty todeque exactly when there is a single target and some
   * partition has two or more replicas. Either way the topic keeps its name and partition count.
   */
  lemma TopicFailure(targets: seq<int>, topic: Topic)
    ensures var r := TopicPlan(targets, topic);
      r.0.name == topic.name && |r.0.partitions| == |topic.partitions| &&
      (r.1 == Some(ZeroDivision) <==> targets == []) &&
      (targets != [] && Distinct(targets) ==>
        (r.1 == Some(PopFromEmptyDeque) <==>
          |targets| == 1 && exists k :: 0 <= k < |topic.partitions| && |topic.partitions[k].replicas| >= 2))
  {
    if targets != [] && Distinct(targets) {
      var parts := topic.partitions;
      var order := SortedOrder(parts);
      var counts := Counts(parts, order);
      var dq := StartOf(targets, topic.name);
      var small := forall t :: 0 <= t < |counts| ==> counts[t] <= 1;
      assert PlaceAll(dq, counts).ok <==> |targets| >= 2 || small by {
        StartOfTargets(targets, topic.name);
        ToDequeStaysPermutation(targets, dq, counts);
      }
      assert small <==> !exists k :: 0 <= k < |parts| && |parts[k].replicas| >= 2 by {
        if exists k :: 0 <= k < |parts| && |parts[k].replicas| >= 2 {
          var k :| 0 <= k < |parts| && |parts[k].replicas| >= 2;
          assert k in order;
          var t :| 0 <= t < |order| && order[t] == k;
          assert counts[t] >= 2;
        } else {
          forall t | 0 <= t < |counts| ensures counts[t] <= 1 {
            assert order[t] < |parts|;
          }
        }
      }
    }
  }

  /**
   * A topic that is planned without error: every partition keeps its num and its replica count,
   * and every replica is a target broker.
   */
  lemma TopicReplicas(targets: seq<int>, topic: Topic)
    ensures var parts := topic.partitions;
      var after := TopicPlan(targets, topic).0.partitions;
      TopicPlan(targets, topic).1 == None ==>
      |after| == |parts| &&
      forall k :: 0 <= k < |parts| ==>
        after[k].num == parts[k].num && |after[k].replicas| == |parts[k].replicas| &&
        forall x :: x in after[k].replicas ==> x in targets
  {
    if TopicPlan(targets, topic).1 == None {
      var parts := topic.partitions;
      var order := SortedOrder(parts);
      var counts := Counts(parts, order);
      var dq := StartOf(targets, topic.name);
      var run := PlaceAll(dq, counts);
      var after := TopicPlan(targets, topic).0.partitions;
      StartOfTargets(targets, topic.name);
      ReplicaCountsKept(dq, counts);
      ReplicasAreTargets(targets, dq, counts);
      forall k | 0 <= k < |parts|
        ensures after[k].num == parts[k].num && |after[k].replicas| == |parts[k].replicas|
        ensures forall x :: x in after[k].replicas ==> x in targets
      {
        var t := VisitedAt(targets, topic, k);
        assert |run.lists[t]| == counts[t];
      }
    }
  }

  /** The leader of the list at position j of a topic's successful run. */
  lemma RunLeaderAt(targets: seq<int>, name: string, counts: seq<nat>, j: nat)
    requires targets != []
    ensures var run := PlaceAll(StartOf(targets, name), counts);
      var lists := run.lists;
      run.ok && j < |counts| && counts[j] > 0 ==>
      j < |lists| && |lists[j]| > 0 &&
      lists[j][0] == RoundRobin(targets, Hash(name, |targets|) + CountNonEmpty(counts[..j]))
  {
    var dq := StartOf(targets, name);
    ReplicaCountsKept(dq, counts);
    LeaderRoundRobin(targets, Hash(name, |targets|), dq, counts);
  }

  /** The leader of the partition at visiting position j; see TopicLeaders. */
  lemma TopicLeaderAt(targets: seq<int>, topic: Topic, j: nat)
    ensures var order := SortedOrder(topic.partitions);
      var counts := Counts(topic.partitions, order);
      var after := TopicPlan(targets, topic).0.partitions;
      TopicPlan(targets, topic).1 == None && j < |topic.partitions| && counts[j] > 0 ==>
      targets != [] && |after[order[j]].replicas| > 0 &&
      after[order[j]].replicas[0] == RoundRobin(targets, Hash(topic.name, |targets|) + CountNonEmpty(counts[..j]))
  {
    var parts := topic.partitions;
    var order := SortedOrder(parts);
    var counts := Counts(parts, order);
    if TopicPlan(targets, topic).1 == None && j < |parts| && counts[j] > 0 {
      var dq := StartOf(targets, topic.name);
      var run := PlaceAll(dq, counts);
      var after := TopicPlan(targets, topic).0.partitions;
      var s := Hash(topic.name, |targets|);
      assert |run.lists| == |counts| by {
        ReplicaCountsKept(dq, counts);
      }
      assert after[order[j]] == Partition(parts[order[j]].num, run.lists[j]) by {
        RebuiltAt(parts, order, run.lists);
      }
      RunLeaderAt(targets, topic.name, counts, j);
      assert after[order[j]].replicas == run.lists[j];
    }
  }

  /**
   * Leaders go round robin: the partition at visiting position j, when it has replicas, is led by
   * the target at (hash of the topic name + number of earlier partitions with replicas) modulo
   * the number of targets.
   */
  lemma TopicLeaders(targets: seq<int>, topic: Topic)
    ensures TopicPlan(targets, topic).1 == None ==> targets != []
    ensures var order := SortedOrder(topic.partitions);
      var counts := Counts(topic.partitions, order);
      var after := TopicPlan(targets, topic).0.partitions;
      TopicPlan(targets, topic).1 == None ==>
      forall j :: 0 <= j < |order| && counts[j] > 0 ==>
        |after[order[j]].replicas| > 0 &&
        after[order[j]].replicas[0] == RoundRobin(targets, Hash(topic.name, |targets|) + CountNonEmpty(counts[..j]))
  {
    if TopicPlan(targets, topic).1 == None {
      forall j | 0 <= j < |topic.partitions| && Counts(topic.partitions, SortedOrder(topic.partitions))[j] > 0 {
        TopicLeaderAt(targets, topic, j);
      }
    }
  }

  /**
   * With a duplicate-free target list, in a topic planned without error: no follower is its
   * partition's leader, and a partition with no more replicas than there are targets gets
   * pairwise distinct replicas.
   */
  lemma TopicFollowers(targets: seq<int>, topic: Topic)
    requires Distinct(targets)
    ensures var parts := topic.partitions;
      var after := TopicPlan(targets, topic).0.partitions;
      TopicPlan(targets, topic).1 == None ==>
      |after| == |parts| &&
      (forall k, i :: 0 <= k < |parts| && 1 <= i < |after[k].replicas| ==>
        after[k].replicas[i] != after[k].replicas[0]) &&
      (forall k :: 0 <= k < |parts| && |parts[k].replicas| <= |targets| ==> Distinct(after[k].replicas))
  {
    if TopicPlan(targets, topic).1 == None {
      var parts := topic.partitions;
      var order := SortedOrder(parts);
      var counts := Counts(parts, order);
      var dq := StartOf(targets, topic.name);
      var run := PlaceAll(dq, counts);
      var after := TopicPlan(targets, topic).0.partitions;
      StartOfTargets(targets, topic.name);
      ReplicaCountsKept(dq, counts);
      FollowersAvoidLeader(targets, dq, counts);
      forall k | 0 <= k < |parts|
        ensures forall i :: 1 <= i < |after[k].replicas| ==> after[k].replicas[i] != after[k].replicas[0]
        ensures |parts[k].replicas| <= |targets| ==> Distinct(after[k].replicas)
      {
        var t := VisitedAt(targets, topic, k);
      }
    }
  }

  /**
   * The topic loop keeps the cluster's topics in order and by name, and a topic that is not
   * selected is left as it was.
   */
  lemma {:induction false} ClusterShape(m: Migrate, topics: seq<Topic>)
    ensures var r := ClusterPlan(m, topics).0;
      |r| == |topics| &&
      (forall i :: 0 <= i < |topics| ==> r[i].name == topics[i].name) &&
      (forall i :: 0 <= i < |topics| && !Selected(m, topics[i].name) ==> r[i] == topics[i])
    decreases |topics|
  {
    if topics != [] {
      var r := ClusterPlan(m, topics);
      var first := Visit(m, topics[0]);
      TopicFailure(m.targets, topics[0]);
      if first.1.None? {
        var rest := ClusterPlan(m, topics[1..]);
        ClusterShape(m, topics[1..]);
        forall i | 1 <= i < |topics| ensures r.0[i] == rest.0[i - 1] && topics[i] == topics[1..][i - 1] { }
      }
    }
  }

  /**
   * The topic loop stopped at topic i: every earlier topic was visited without error, topic i is
   * selected and its plan failed, and every later topic is as it was.
   */
  predicate FailsAt(m: Migrate, topics: seq<Topic>, r: (seq<Topic>, Option<PlanError>), i: int)
  {
    |r.0| == |topics| && 0 <= i < |topics| &&
    (forall j :: 0 <= j < i ==> Visit(m, topics[j]) == (r.0[j], None)) &&
    Selected(m, topics[i].name) && TopicPlan(m.targets, topics[i]) == (r.0[i], r.1) &&
    r.0[i + 1..] == topics[i + 1..]
  }

  /** A failure at topic i of the tail is a failure at topic i + 1 when the first topic passes. */
  lemma FailsAtCons(m: Migrate, topics: seq<Topic>, i: int)
    requires topics != [] && Visit(m, topics[0]).1.None?
    requires FailsAt(m, topics[1..], ClusterPlan(m, topics[1..]), i)
    ensures FailsAt(m, topics, ClusterPlan(m, topics), i + 1)
  {
    var r := ClusterPlan(m, topics);
    var rest := ClusterPlan(m, topics[1..]);
    assert r.0 == [Visit(m, topics[0]).0] + rest.0;
    assert r.0[i + 1] == rest.0[i] && topics[i + 1] == topics[1..][i];
    assert r.0[i + 2..] == rest.0[i + 1..];
    assert topics[i + 2..] == topics[1..][i + 1..];
    forall j | 0 <= j < i + 1 ensures Visit(m, topics[j]) == (r.0[j], None) {
      if j > 0 {
        assert r.0[j] == rest.0[j - 1] && topics[j] == topics[1..][j - 1];
      }
    }
  }

  /**
   * The outcome of the topic loop: without error every selected topic is planned on its own; an
   * error comes from one selected topic, planned up to the failure, with every earlier topic
   * planned without error and every later topic as it was.
   */
  lemma {:induction false} ClusterOutcome(m: Migrate, topics: seq<Topic>)
    ensures var r := ClusterPlan(m, topics);
      |r.0| == |topics| &&
      (r.1.None? ==> forall i :: 0 <= i < |topics| && Selected(m, topics[i].name) ==>
        TopicPlan(m.targets, topics[i]) == (r.0[i], None)) &&
      (r.1.Some? ==> exists i :: FailsAt(m, topics, r, i))
    decreases |topics|
  {
    ClusterShape(m, topics);
    if topics != [] {
      var r := ClusterPlan(m, topics);
      var first := Visit(m, topics[0]);
      if first.1.Some? {
        assert r.0 == [first.0] + topics[1..];
        assert r.0[1..] == topics[1..];
        assert FailsAt(m, topics, r, 0);
      } else {
        var rest := ClusterPlan(m, topics[1..]);
        ClusterOutcome(m, topics[1..]);
        assert r.0 == [first.0] + rest.0;
        if r.1.None? {
          forall i | 0 <= i < |topics| && Selected(m, topics[i].name)
            ensures TopicPlan(m.targets, topics[i]) == (r.0[i], None)
          {
            if i > 0 {
              assert r.0[i] == rest.0[i - 1] && topics[i] == topics[1..][i - 1];
            }
          }
        } else {
          var i :| FailsAt(m, topics[1..], rest, i);
          FailsAtCons(m, topics, i);
        }
      }
    }
  }

  /**
   * End to end: for a migrate action the constructor accepted, a plan without error puts every
   * replica of every selected topic on a broker of the cluster that is not being removed, and
   * keeps every partition's replication factor.
   */
  lemma MigrationAvoidsSources(cluster: seq<int>, sources: seq<int>, targets: seq<int>,
                               allow: Option<seq<string>>, exclude: seq<string>, m: Migrate, topics: seq<Topic>)
    requires NewMigrate(cluster, sources, targets, allow, exclude) == Ok(m)
    requires ClusterPlan(m, topics).1 == None
    ensures var r := ClusterPlan(m, topics).0;
      |r| == |topics| &&
      forall i, k :: 0 <= i < |topics| && Selected(m, topics[i].name) && 0 <= k < |topics[i].partitions| ==>
        |r[i].partitions| == |topics[i].partitions| &&
        |r[i].partitions[k].replicas| == |topics[i].partitions[k].replicas| &&
        forall x :: x in r[i].partitions[k].replicas ==> x in cluster && x !in sources
  {
    var r := ClusterPlan(m, topics).0;
    ClusterOutcome(m, topics);
    forall i, k | 0 <= i < |topics| && Selected(m, topics[i].name) && 0 <= k < |topics[i].partitions|
      ensures |r[i].partitions| == |topics[i].partitions|
      ensures |r[i].partitions[k].replicas| == |topics[i].partitions[k].replicas|
      ensures forall x :: x in r[i].partitions[k].replicas ==> x in cluster && x !in sources
    {
      TopicReplicas(m.targets, topics[i]);
    }
  }
}
