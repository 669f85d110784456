# The kafka-tools `migrate` planner, modelled in Dafny

The `migrate` action of the kafka-tools assigner moves partition replicas off a set of source
brokers and onto a set of target brokers. The replication factor of every partition stays the same.
This project models the action's three parts in Dafny and proves what the plan guarantees:

- **Construction** (`MigrateConfig`). It rejects a target list that overlaps the brokers being removed,
  and it rejects a target that is not a cluster broker. An empty target list is replaced by every
  cluster broker that is not being removed.
- **`hashval`** (`Hashing`). It sums the ordinals of a topic's name modulo the number of targets. The
  result is the topic's start offset into the target list.
- **`process_cluster`** (`Placement`, `Planner`, `PlanProperties`). For every selected topic it works as follows:
  - two deques are built from the target list:
    - `leader_deque`, rotated by the start offset;
    - `todeque`, rotated by one more.
  - Every partition, in ascending `num` order, is cleared and refilled:
    - position 0 takes the front of `leader_deque`. That broker goes to its back, so the leaders go
      round robin.
    - Every later position takes the front of `todeque`, which then goes to its back.
    - When that broker is the partition's leader, it is "lent": the next broker is taken instead.
    - The lent broker goes back on the front of `todeque` once the partition is complete.

The model has two layers:
- **Functions.** `FollowerStep`, `FillFollowers`, `PlacePartition`, `PlaceAll`, `TopicPlan` and
  `ClusterPlan` state the plan as values. The lemmas are proved about these functions.
- **Methods.** `HashVal`, `StartDeques`, `RebuildPartition`, `RebuildPartitions`, `ProcessTopic`
  and `ProcessCluster` follow the source's loops step by step, with the deques as local sequences.
  Each method is proved equal to the function that specifies it.

Brokers are their integer ids. A topic is its name plus its list of partitions, and a partition is
its `num` plus its replica list (leader first).

The model has two failure modes:
- `ZeroDivision`: `hashval` with an empty target list.
- `PopFromEmptyDeque`: a `popleft` on an empty `todeque`.

On either one, the model returns the topology as the exception leaves it:
- earlier selected topics are already rebuilt, each planned without error;
- on `ZeroDivision` the failing topic is untouched, because `hashval` runs before any partition is cleared;
- on `PopFromEmptyDeque` the failing topic's earlier partitions are rebuilt, and the failing partition is cleared and only partly refilled;
- later partitions and topics are untouched.

Modules and files:

| file | module | contents |
|---|---|---|
| wrappers.dfy | Wrappers | `Option`, `Result` |
| sequences.dfy | Sequences | `Distinct`, deque rotation `Rotate` and its step lemma, multiset helpers |
| hashing.dfy | Hashing | ordinal sum, `Hash`, the `HashVal` loop |
| config.dfy | MigrateConfig | `NewMigrate`: the constructor's checks and the default target list |
| topology.dfy | Topology | `Partition`, `Topic` |
| placement.dfy | Placement | the two-deque strategy on values for one partition and for a topic's run, and its lemmas |
| planner.dfy | Planner | topic selection, the sort by `num`, the plan functions and the source's loops as methods |
| properties.dfy | PlanProperties | the guarantees stated per topic, per partition index and for the whole cluster |

## Model

| member | source | states |
|---|---|---|
| Hashing.Hash | kafka/tools/assigner/actions/migrate.py:50-54 | the start offset of a topic lies in [0, siz) for every siz > 0 |
| Hashing.HashVal | kafka/tools/assigner/actions/migrate.py:50-54 | the accumulating loop returns the sum of the name's character ordinals modulo siz, a value in [0, siz) |
| Hashing.OrdSumConcat | kafka/tools/assigner/actions/migrate.py:53 | the ordinal sum of a concatenation is the sum of the two ordinal sums |
| Hashing.OrdSumPermutation | kafka/tools/assigner/actions/migrate.py:53 | two names with the same characters, in any order, have the same ordinal sum |
| Hashing.AnagramsShareHash | kafka/tools/assigner/actions/migrate.py:50-54 | topics whose names are anagrams get the same start offset |
| MigrateConfig.AscendingWithout | kafka/tools/assigner/actions/migrate.py:36-37 | the default target list holds exactly the cluster brokers that are not being removed, each once, in ascending order |
| MigrateConfig.NewMigrate | kafka/tools/assigner/actions/migrate.py:31-39 | rejects exactly the configurations whose targets overlap the sources, and otherwise exactly those naming a target outside the cluster; an accepted action keeps sources, allow-list and exclude list and a non-empty target list as given; an empty target list becomes the duplicate-free list of cluster brokers not being removed; every accepted target is a cluster broker that is not a source |
| Sequences.Rotate | kafka/tools/assigner/actions/migrate.py:64-74 | a deque rotated k times keeps its length and its elements and has s[k mod n] at the front |
| Sequences.RotateZero | kafka/tools/assigner/actions/migrate.py:64-65 | a fresh deque is the target list rotated zero times |
| Sequences.RotateStep | kafka/tools/assigner/actions/migrate.py:69-72 | one popleft followed by append turns the k-th rotation into the (k+1)-th |
| Sequences.DistinctSetLike | kafka/tools/assigner/actions/migrate.py:64-65 | a duplicate-free target list gives a deque in which every broker occurs at most once |
| Sequences.SetLikeDistinct | kafka/tools/assigner/actions/migrate.py:96-106 | a list whose elements all come from a multiset without repeats is duplicate-free |
| Planner.StartDeques | kafka/tools/assigner/actions/migrate.py:64-74 | the rotation loop leaves leader_deque as the targets rotated start times and todeque rotated start + 1 times |
| Planner.SortedOrder | kafka/tools/assigner/actions/migrate.py:76 | the partitions are visited in non-decreasing num order, every partition exactly once, and partitions with equal num in their original order, as Python's stable `sorted` leaves them |
| Planner.RebuildPartition | kafka/tools/assigner/actions/migrate.py:78-110 | the per-position loop with first, leader and lender computes exactly PlacePartition, including the partial list when a pop fails |
| Planner.RebuildPartitions | kafka/tools/assigner/actions/migrate.py:78-110 | the partition loop rebuilds, in visiting order, exactly the lists PlaceAll gives and stops where PlaceAll stops |
| Planner.ProcessTopic | kafka/tools/assigner/actions/migrate.py:64-110 | one selected topic is rebuilt exactly as TopicPlan states; an empty target list is a ZeroDivision |
| Planner.ProcessCluster | kafka/tools/assigner/actions/migrate.py:59-63 | the topic loop skips unselected topics, plans the others and stops at the first error, exactly as ClusterPlan states |
| Placement.PlacePartition | kafka/tools/assigner/actions/migrate.py:83-110 | rebuilding a partition keeps the length of leader_deque |
| Placement.PlaceAll | kafka/tools/assigner/actions/migrate.py:76-110 | a run produces at most one replica list per partition |
| Placement.FillLength | kafka/tools/assigner/actions/migrate.py:88-104 | filling the follower slots extends the chosen followers by exactly one per slot when every pop succeeds and by fewer otherwise |
| Placement.FillWithin | kafka/tools/assigner/actions/migrate.py:96-104 | follower slots only draw brokers that are already in todeque |
| Placement.StepKeepsLent | kafka/tools/assigner/actions/migrate.py:96-104 | from a duplicate-free target multiset, one follower slot fails exactly when there is a single target; it keeps todeque equal to the targets less at most the lent leader, and never chooses the leader |
| Placement.FillKeepsLent | kafka/tools/assigner/actions/migrate.py:88-104 | the same over all follower slots of a partition: the slots succeed exactly when there are none or there are at least two targets |
| Placement.StepKeepsUnwrapped | kafka/tools/assigner/actions/migrate.py:96-104 | while there are fewer followers than targets less one, the next slot succeeds and the chosen followers are the last entries of todeque |
| Placement.FillKeepsUnwrapped | kafka/tools/assigner/actions/migrate.py:88-104 | with at most as many replicas as targets, every follower slot succeeds and todeque has not wrapped round |
| Placement.PlacePartitionCount | kafka/tools/assigner/actions/migrate.py:83-106 | a partition without replicas is left alone; otherwise its leader is the front of leader_deque, and it gets exactly its old count on success and fewer on a failed pop |
| Placement.PlacePartitionLeader | kafka/tools/assigner/actions/migrate.py:91-95 | when leader_deque is the s-th rotation, the leader is targets[s mod n], and leader_deque becomes the (s+1)-th rotation |
| Placement.PlacePartitionWithin | kafka/tools/assigner/actions/migrate.py:88-106 | when both deques hold only targets, the new replicas and the deques of the result hold only targets; after a failed pop those are the input deques, since the exception discards the source's |
| Placement.FillFromTargets | kafka/tools/assigner/actions/migrate.py:96-104 | filling from a todeque that is a permutation of duplicate-free targets succeeds exactly when count <= 1 or there are two or more targets, and chooses distinct followers when count <= n |
| Placement.PlacePartitionDistinct | kafka/tools/assigner/actions/migrate.py:86-110 | with duplicate-free targets: success exactly when count <= 1 or n >= 2; todeque is again a permutation of the targets after the lent broker is restored; no follower is the leader; the replicas are distinct when count <= n |
| Placement.LeaderDequeRotates | kafka/tools/assigner/actions/migrate.py:91-93 | after a run from the s-th rotation, leader_deque is the rotation by s plus the number of partitions with replicas |
| Placement.LeaderRoundRobin | kafka/tools/assigner/actions/migrate.py:91-95 | the t-th partition with replicas is led by targets[(s + number of earlier partitions with replicas) mod n] |
| Placement.ReplicaCountsKept | kafka/tools/assigner/actions/migrate.py:83-106 | every partition that completes has exactly its old replica count; a run that fails ends with a partition holding fewer; a successful run covers every partition |
| Placement.ReplicasAreTargets | kafka/tools/assigner/actions/migrate.py:88-106 | every broker placed in any partition of a run is a target |
| Placement.ToDequeStaysPermutation | kafka/tools/assigner/actions/migrate.py:96-110 | with duplicate-free targets, a run fails exactly when there is one target and some partition has two or more replicas; after a successful run todeque is a permutation of the targets |
| Placement.FollowersAvoidLeader | kafka/tools/assigner/actions/migrate.py:96-104 | with duplicate-free targets, no position >= 1 of any list holds that list's leader, and lists with at most n replicas are duplicate-free |
| Placement.FollowersRepeatWhenShort | kafka/tools/assigner/actions/migrate.py:96-110 | with two targets a, b and a partition of three replicas the list is [a, b, b] and the deques end as [b, a] and [a, b] |
| Placement.RepeatedTargetFollowsItself | kafka/tools/assigner/actions/migrate.py:96-104 | with a target list that repeats an id, a partition's follower can be its own leader: [b, b] |
| Placement.RepeatedTargetRunsDry | kafka/tools/assigner/actions/migrate.py:88-104 | with the two-entry target list [b, b], a partition of three replicas fails on the pop of line 101 after placing [b, b], so the one-target failure condition does not carry over to repeated ids |
| PlanProperties.RebuiltAt | kafka/tools/assigner/actions/migrate.py:78-106 | the partition at each visited position keeps its num and gets the new list; the partitions not yet visited are unchanged |
| PlanProperties.StartOfTargets | kafka/tools/assigner/actions/migrate.py:64-74 | both starting deques hold exactly the targets; leader_deque is the rotation by the hash |
| PlanProperties.VisitedAt | kafka/tools/assigner/actions/migrate.py:76-88 | every partition index is visited at some position; it gets that position's list if the run reached it, and is unchanged otherwise |
| PlanProperties.TopicFailure | kafka/tools/assigner/actions/migrate.py:67-101 | a topic fails with ZeroDivision exactly when there are no targets; with duplicate-free targets it fails on a pop exactly when there is one target and a partition has two or more replicas; it keeps its name and partition count |
| PlanProperties.TopicReplicas | kafka/tools/assigner/actions/migrate.py:83-106 | in a topic planned without error, every partition keeps its num and its replica count and holds only target brokers |
| PlanProperties.RunLeaderAt | kafka/tools/assigner/actions/migrate.py:64-95 | in a successful run from a topic's starting deques, the list at position j, if its count is positive, is led by targets[(hashval + number of earlier non-empty counts) mod n] |
| PlanProperties.TopicLeaderAt | kafka/tools/assigner/actions/migrate.py:64-95 | in a topic planned without error, the partition at visiting position j, if it has replicas, is led by targets[(hashval + number of earlier partitions with replicas) mod n] |
| PlanProperties.TopicLeaders | kafka/tools/assigner/actions/migrate.py:64-95 | the same for every visiting position of a topic planned without error |
| PlanProperties.TopicFollowers | kafka/tools/assigner/actions/migrate.py:96-104 | with duplicate-free targets, in a topic planned without error, no follower is its partition's leader and a partition with at most n replicas has distinct replicas |
| PlanProperties.ClusterShape | kafka/tools/assigner/actions/migrate.py:59-63 | the cluster keeps its topics in order and by name; topics outside a given allow-list and excluded topics are unchanged |
| PlanProperties.ClusterOutcome | kafka/tools/assigner/actions/migrate.py:59-110 | without error every selected topic is planned on its own; an error comes from one selected topic, every earlier topic was visited without error (selected ones planned on their own, the others unchanged), and every later topic is unchanged |
| PlanProperties.FailsAtCons | kafka/tools/assigner/actions/migrate.py:59-63 | when the first topic is visited without error, a failure at topic i of the remaining topics is a failure at topic i + 1 of the whole loop |
| PlanProperties.MigrationAvoidsSources | kafka/tools/assigner/actions/migrate.py:31-110 | for an accepted action and a plan without error, every replica of every selected topic is a cluster broker that is not being removed, and every partition keeps its replica count |

## Left out

- `_add_args` (lines 42-47) only declares command-line options. The option values are the parameters of `NewMigrate` and the fields of `Migrate`.
- `check_brokers` and the `ActionModule` base class (lines 28-30) are not part of this model. The source broker list is taken as given.
- The `Cluster`, `Broker` and `Partition` classes are not part of this model:
  - A broker is its id.
  - The `proposed_broker == leader_broker` test (line 99) is id equality.
  - `cluster.brokers[...]` (lines 94, 98, 102) is not modelled. Every accepted target is a cluster broker, so no lookup can fail.
- `remove_all_replicas` and `add_replica(broker, pos)` (lines 84, 106) become clearing a replica list and appending to it.
- Partitions and topics are values that the methods return. The model does not capture objects updated in place or aliasing between them.
- The iteration order of the topic dictionary (line 59) is not modelled. Topics are a given sequence.
- MigrateConfig.AscendingWithout: `list(set(...) - set(...))` (line 37) has CPython's set order. The model fixes it as ascending. When the two orders differ, every leader and every follower drawn from a defaulted target list may differ from CPython's. The lemmas in `Placement` and the topic-level lemmas of `PlanProperties` take the target list as a parameter and hold for every order of it, so their guarantees carry over to CPython's order; `PlanProperties.MigrationAvoidsSources` is proved for the ascending default.
- Rack- or load-aware placement is not implemented (TODO at line 57). None is modelled.
- Printing, executing or saving the plan happens outside this file.
- Exceptions become the `Err`/`PlanError` results described above, returned together with the state the exception leaves.
- Hashing.HashVal requires `siz > 0`. A zero size is the ZeroDivision error, modelled at topic level by `Planner.ProcessTopic`.
- Placement.ToDequeStaysPermutation, Placement.FollowersAvoidLeader, PlanProperties.TopicFailure (its pop-failure half) and PlanProperties.TopicFollowers require a duplicate-free target list. An explicit target list may repeat an id; `Placement.RepeatedTargetFollowsItself` shows a follower equal to its leader when it does, and `Placement.RepeatedTargetRunsDry` shows a failed pop with two list entries.
- PlanProperties.TopicReplicas, PlanProperties.TopicLeaderAt, PlanProperties.TopicLeaders, PlanProperties.TopicFollowers and PlanProperties.MigrationAvoidsSources are stated for a plan without error. The partition-level lemmas in `Placement` also cover the partial list of a failing partition.

## Behaviour of the code worth noting

The model follows the code in each case:

- **Empty default target list.** When no targets are given and every cluster broker is being removed, line 37 yields an empty target list, and neither check (lines 31, 38) rejects it. The first selected topic then divides by zero in `hashval` (line 54, `ZeroDivision`).
- **Too few targets.** `NotEnoughReplicasException` is imported (line 20) but never raised. With a duplicate-free target list of one broker and a partition of two or more replicas, the second `popleft` of line 101 runs on an empty `todeque` after the partition was cleared (line 84) and partly refilled (`PopFromEmptyDeque`).
- **More replicas than targets.** With a duplicate-free target list of two or more brokers the code does not fail. Followers repeat: [a, b, b] for two targets and three replicas.
- **A target list that repeats an id.** The constructor compares sets (lines 31, 38), so an explicit list such as [b, b] is accepted. A partition of two replicas then gets [b, b], with the leader as its own follower. A partition of three replicas fails: the second follower slot lends b, and the `popleft` of line 101 finds `todeque` empty (`PopFromEmptyDeque`).
- **Placement strategy.** Rack awareness is a TODO (line 57), and nothing in the file looks at broker load or forces a replication factor: each partition keeps its own replica count and is filled by the deque strategy with the lent leader.
