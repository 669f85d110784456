/** The part of the cluster model the planner reads and rewrites. */
module Topology {
  /** A partition: its number and its ordered replica broker ids (index 0 is the leader). */
  datatype Partition = Partition(num: int, replicas: seq<int>)

  /** A topic: its name and its partitions, in the cluster's own order. */
  datatype Topic = Topic(name: string, partitions: seq<Partition>)
}
