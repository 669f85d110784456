/** ActionMigrate's constructor: validating the source/target broker split and defaulting the targets. */
module MigrateConfig {
  import opened Wrappers
  import opened Sequences

  /** The two ConfigurationException cases of the constructor. */
  datatype ConfigError =
    | TargetsOverlapSources   // a broker being removed is also named as a target
    | TargetsNotInCluster     // a target broker is not a broker of the cluster

  /**
   * A validated migrate action: the brokers to remove, the target list the deques are built from,
   * the optional topic allow-list and the exclude list.
   */
  datatype Migrate = Migrate(sources: seq<int>, targets: seq<int>, topics: Option<seq<string>>, exclude: seq<string>)

  /** x inserted into the strictly ascending r, unless it is already there. */
  function InsertAscending(r: seq<int>, x: int): (r': seq<int>)
    requires forall i, j :: 0 <= i < j < |r| ==> r[i] < r[j]
    ensures forall i, j :: 0 <= i < j < |r'| ==> r'[i] < r'[j]
    ensures forall y :: y in r' <==> y in r || y == x
  {
    if r == [] then [x]
    else if x < r[0] then [x] + r
    else if x == r[0] then r
    else
      assert forall y :: y in r[1..] ==> r[0] < y by {
        forall y | y in r[1..] ensures r[0] < y {
          var i :| 0 <= i < |r[1..]| && r[1..][i] == y;
          assert y == r[i + 1];
        }
      }
      var t := InsertAscending(r[1..], x);
      assert forall k :: 0 <= k < |t| ==> r[0] < t[k] by {
        forall k | 0 <= k < |t| ensures r[0] < t[k] {
          assert t[k] in t;
        }
      }
      [r[0]] + t
  }

  /**
   * The ids of s that are not in removed, once each and in ascending order: the enumeration the
   * model fixes for `list(set(s) - set(removed))`.
   */
  function AscendingWithout(s: seq<int>, removed: seq<int>): (r: seq<int>)
    ensures forall i, j :: 0 <= i < j < |r| ==> r[i] < r[j]
    ensures forall x :: x in r <==> x in s && x !in removed
  {
    if s == [] then []
    else
      var rest := AscendingWithout(s[..|s| - 1], removed);
      var x := s[|s| - 1];
      assert forall y :: y in s <==> y in s[..|s| - 1] || y == x by {
        assert s == s[..|s| - 1] + [x];
      }
      if x in removed then rest else InsertAscending(rest, x)
  }

  /**
   * The constructor (migrate.py lines 31-39). The overlap test is made on the target list as given,
   * before defaulting; the cluster-membership test is also made on the list as given, so an empty
   * list always passes it and is replaced by every cluster broker that is not being removed.
   * `cluster` lists the ids of the cluster's brokers (the keys of its broker dictionary).
   */
  function NewMigrate(cluster: seq<int>, sources: seq<int>, targets: seq<int>,
                      topics: Option<seq<string>>, exclude: seq<string>): (r: Result<Migrate, ConfigError>)
    ensures r == Err(TargetsOverlapSources) <==> exists x :: x in targets && x in sources
    ensures r == Err(TargetsNotInCluster) <==>
              (forall x :: x in targets ==> x !in sources) && exists x :: x in targets && x !in cluster
    ensures r.Ok? ==> r.value.sources == sources && r.value.topics == topics && r.value.exclude == exclude
    ensures r.Ok? && targets != [] ==> r.value.targets == targets
    ensures r.Ok? && targets == [] ==>
              Distinct(r.value.targets) && forall x :: x in r.value.targets <==> x in cluster && x !in sources
    ensures r.Ok? ==> forall x :: x in r.value.targets ==> x in cluster && x !in sources
  {
    if exists x :: x in targets && x in sources then Err(TargetsOverlapSources)
    else
      var to := if targets == [] then AscendingWithout(cluster, sources) else targets;
      if exists x :: x in targets && x !in cluster then Err(TargetsNotInCluster)
      else Ok(Migrate(sources, to, topics, exclude))
  }
}
