/**
 * Discovery of a cluster's EC2 route tables for teardown (pkg/resources/aws/routetable.go).
 *
 * The provider is an oracle: `responses[i]` is what DescribeRouteTables answered for the i-th
 * cluster filter set, either the route tables it returned or the provider's error message.
 */
module AwsRouteTables {
  import opened Wrappers
  import opened Ec2
  import opened Resources

  /** The provider's answer to one filtered DescribeRouteTables request. */
  type Response = Result<seq<RouteTable>>

  /**
   * The tag helpers of package aws that are not part of this model, kept uninterpreted:
   * `hasOwnedTag(description, tags, clusterName)` is the ownership check and
   * `findName(tags)` the display name taken from the tags.
   */
  datatype TagFunctions = TagFunctions(
    hasOwnedTag: (string, seq<Tag>, string) -> bool,
    findName: seq<Tag> -> string)

  /** The key a route table is merged under: its ID, or "" when the ID is nil. */
  function IdKey(rt: RouteTable): string
  {
    ToString(rt.routeTableId)
  }

  /** The error `DescribeRouteTables` reports for a failed provider call. */
  function ListingError(providerError: string): string
  {
    "error listing RouteTables: " + providerError
  }

  // ---------------------------------------------------------------------------------------------
  // DescribeRouteTables: specification

  /** Writes the records of one response into `m` in order, each under its ID; later writes win. */
  function MergePass(m: map<string, RouteTable>, rts: seq<RouteTable>): map<string, RouteTable>
    decreases |rts|
  {
    if rts == [] then m
    else
      var last := rts[|rts| - 1];
      MergePass(m, rts[..|rts| - 1])[IdKey(last) := last]
  }

  /** What DescribeRouteTables computes after the given responses: the first error, or the merged map. */
  function Describe(responses: seq<Response>): Result<map<string, RouteTable>>
    decreases |responses|
  {
    if responses == [] then Success(map[])
    else
      match Describe(responses[..|responses| - 1])
      case Failure(e) => Failure(e)
      case Success(m) =>
        match responses[|responses| - 1]
        case Failure(e) => Failure(ListingError(e))
        case Success(rts) => Success(MergePass(m, rts))
  }

  /** Response `resp` succeeded and returned a route table whose ID is `k`. */
  ghost predicate Returns(resp: Response, k: string)
  {
    resp.Success? && exists j :: 0 <= j < |resp.value| && IdKey(resp.value[j]) == k
  }

  /** `rts[j]` has ID `k` and no later record of `rts` does. */
  ghost predicate LastWithId(rts: seq<RouteTable>, k: string, j: int)
  {
    0 <= j < |rts| && IdKey(rts[j]) == k && forall j' :: j < j' < |rts| ==> IdKey(rts[j']) != k
  }

  // ---------------------------------------------------------------------------------------------
  // DescribeRouteTables: properties of the specification

  /** The keys after one pass are the earlier keys plus the pass's IDs. */
  lemma {:induction false} MergePassKeys(m: map<string, RouteTable>, rts: seq<RouteTable>, k: string)
    ensures k in MergePass(m, rts) <==> k in m || exists j :: 0 <= j < |rts| && IdKey(rts[j]) == k
    decreases |rts|
  {
    if rts != [] {
      var n := |rts| - 1;
      MergePassKeys(m, rts[..n], k);
      if k in MergePass(m, rts[..n]) && k !in m {
        var j :| 0 <= j < n && IdKey(rts[..n][j]) == k;
        assert IdKey(rts[j]) == k;
      }
      if j :| 0 <= j < |rts| && IdKey(rts[j]) == k {
        if j < n {
          assert IdKey(rts[..n][j]) == k;
        }
      }
    }
  }

  /** After one pass a key returned by the pass holds the pass's last record with that key. */
  lemma {:induction false} MergePassLastWins(m: map<string, RouteTable>, rts: seq<RouteTable>, k: string, j: int)
    requires LastWithId(rts, k, j)
    ensures k in MergePass(m, rts) && MergePass(m, rts)[k] == rts[j]
    decreases |rts|
  {
    var n := |rts| - 1;
    if j < n {
      assert LastWithId(rts[..n], k, j);
      MergePassLastWins(m, rts[..n], k, j);
    }
  }

  /** After one pass a key the pass did not return keeps its earlier record. */
  lemma {:induction false} MergePassKeeps(m: map<string, RouteTable>, rts: seq<RouteTable>, k: string)
    requires k in m
    requires forall j :: 0 <= j < |rts| ==> IdKey(rts[j]) != k
    ensures k in MergePass(m, rts) && MergePass(m, rts)[k] == m[k]
    decreases |rts|
  {
    if rts != [] {
      var n := |rts| - 1;
      assert forall j :: 0 <= j < n ==> rts[..n][j] == rts[j];
      MergePassKeeps(m, rts[..n], k);
    }
  }

  /** Some record of `rts` has ID `k`, so one of them is the last with that ID. */
  lemma {:induction false} LastWithIdExists(rts: seq<RouteTable>, k: string) returns (j: int)
    requires exists i :: 0 <= i < |rts| && IdKey(rts[i]) == k
    ensures LastWithId(rts, k, j)
    decreases |rts|
  {
    var n := |rts| - 1;
    if IdKey(rts[n]) == k {
      j := n;
    } else {
      var i :| 0 <= i < |rts| && IdKey(rts[i]) == k;
      assert IdKey(rts[..n][i]) == k;
      j := LastWithIdExists(rts[..n], k);
      assert LastWithId(rts, k, j);
    }
  }

  /** Once a prefix of the responses has failed, the outcome is that prefix's error. */
  lemma {:induction false} DescribeFailureSticks(responses: seq<Response>, n: nat)
    requires n <= |responses|
    requires Describe(responses[..n]).Failure?
    ensures Describe(responses) == Describe(responses[..n])
    decreases |responses|
  {
    if n < |responses| {
      var k := |responses| - 1;
      assert responses[..k][..n] == responses[..n];
      DescribeFailureSticks(responses[..k], n);
    } else {
      assert responses[..n] == responses;
    }
  }

  /** DescribeRouteTables fails exactly when some provider call fails, and then reports the first one. */
  lemma {:induction false} DescribeFailsIff(responses: seq<Response>)
    ensures Describe(responses).Failure? <==> exists p :: 0 <= p < |responses| && responses[p].Failure?
    ensures Describe(responses).Failure? ==>
      exists p :: 0 <= p < |responses| && responses[p].Failure?
        && (forall q :: 0 <= q < p ==> responses[q].Success?)
        && Describe(responses).error == ListingError(responses[p].error)
    decreases |responses|
  {
    if responses != [] {
      var n := |responses| - 1;
      var prefix := responses[..n];
      DescribeFailsIff(prefix);
      assert forall q :: 0 <= q < n ==> prefix[q] == responses[q];
    }
  }

  /** On success, a key is in the merged map exactly when some filter pass returned that ID. */
  lemma {:induction false} DescribeKeys(responses: seq<Response>, k: string)
    requires Describe(responses).Success?
    ensures k in Describe(responses).value <==> exists p :: 0 <= p < |responses| && Returns(responses[p], k)
    decreases |responses|
  {
    if responses != [] {
      var n := |responses| - 1;
      var prefix := responses[..n];
      DescribeKeys(prefix, k);
      assert forall q :: 0 <= q < n ==> prefix[q] == responses[q];
      MergePassKeys(Describe(prefix).value, responses[n].value, k);
    }
  }

  /** On success, every key maps to a route table whose ID is that key. */
  lemma {:induction false} DescribeKeyIsId(responses: seq<Response>, k: string)
    requires Describe(responses).Success?
    requires k in Describe(responses).value
    ensures IdKey(Describe(responses).value[k]) == k
    decreases |responses|
  {
    var n := |responses| - 1;
    var prefix := responses[..n];
    var m := Describe(prefix).value;
    var rts := responses[n].value;
    MergePassKeys(m, rts, k);
    if exists i :: 0 <= i < |rts| && IdKey(rts[i]) == k {
      var j := LastWithIdExists(rts, k);
      MergePassLastWins(m, rts, k, j);
    } else {
      DescribeKeyIsId(prefix, k);
      MergePassKeeps(m, rts, k);
    }
  }

  /**
   * On success, a duplicate ID keeps the record of the last pass that returned it, and within that
   * pass the last record with that ID.
   */
  lemma {:induction false} DescribeLastPassWins(responses: seq<Response>, k: string)
    returns (p: nat, j: nat)
    requires Describe(responses).Success?
    requires k in Describe(responses).value
    ensures p < |responses| && responses[p].Success? && LastWithId(responses[p].value, k, j)
    ensures Describe(responses).value[k] == responses[p].value[j]
    ensures forall q :: p < q < |responses| ==> !Returns(responses[q], k)
    decreases |responses|
  {
    var n := |responses| - 1;
    var prefix := responses[..n];
    var m := Describe(prefix).value;
    var rts := responses[n].value;
    MergePassKeys(m, rts, k);
    if exists i :: 0 <= i < |rts| && IdKey(rts[i]) == k {
      var last := LastWithIdExists(rts, k);
      MergePassLastWins(m, rts, k, last);
      p, j := n, last;
    } else {
      p, j := DescribeLastPassWins(prefix, k);
      MergePassKeeps(m, rts, k);
      assert prefix[p] == responses[p];
      forall q | p < q < |responses|
        ensures !Returns(responses[q], k)
      {
        if q < n {
          assert prefix[q] == responses[q];
        }
      }
    }
  }

  // ---------------------------------------------------------------------------------------------
  // DescribeRouteTables and ListRouteTables

  /**
   * Runs one provider query per filter set and merges the returned route tables by ID;
   * stops at the first provider error.
   */
  method DescribeRouteTables(responses: seq<Response>) returns (r: Result<map<string, RouteTable>>)
    ensures r == Describe(responses)
  {
    var routeTables: map<string, RouteTable> := map[];
    for i := 0 to |responses|
      invariant Describe(responses[..i]) == Success(routeTables)
    {
      assert responses[..i + 1][..i] == responses[..i];
      var response := responses[i];
      if response.Failure? {
        r := Failure(ListingError(response.error));
        DescribeFailureSticks(responses, i + 1);
        return;
      }
      var rts := response.value;
      ghost var before := routeTables;
      for j := 0 to |rts|
        invariant routeTables == MergePass(before, rts[..j])
      {
        assert rts[..j + 1][..j] == rts[..j];
        routeTables := routeTables[IdKey(rts[j]) := rts[j]];
      }
      assert rts[..|rts|] == rts;
    }
    assert responses[..|responses|] == responses;
    r := Success(routeTables);
  }

  /** Every route table any successful pass returned has a non-nil ID. */
  ghost predicate AllIdsPresent(responses: seq<Response>)
  {
    forall p, j :: 0 <= p < |responses| && responses[p].Success? && 0 <= j < |responses[p].value| ==>
      responses[p].value[j].routeTableId.Some?
  }

  /**
   * When every returned record has an ID, every merged record carries its key as a non-nil ID; in
   * particular the precondition of ListRouteTables holds.
   */
  lemma MergedRecordHasId(responses: seq<Response>, k: string)
    requires AllIdsPresent(responses)
    requires Describe(responses).Success?
    requires k in Describe(responses).value
    ensures Describe(responses).value[k].routeTableId == Some(k)
  {
    DescribeKeyIsId(responses, k);
    var p, j := DescribeLastPassWins(responses, k);
  }

  /** Every entry of `m` is stored under its route table's (non-nil) ID. */
  ghost predicate KeyedById(m: map<string, RouteTable>)
  {
    forall k :: k in m ==> m[k].routeTableId == Some(k)
  }

  /** `order` lists every key of `keys` exactly once, in some order. */
  ghost predicate Enumerates(order: seq<string>, keys: set<string>)
  {
    && (forall i :: 0 <= i < |order| ==> order[i] in keys)
    && (forall k :: k in keys ==> k in order)
    && (forall i, j :: 0 <= i < j < |order| ==> order[i] != order[j])
  }

  /** The trackers of the merged entries visited in the given order. */
  ghost function TrackersOf(m: map<string, RouteTable>, order: seq<string>, clusterName: string, tagFns: TagFunctions)
    : seq<Resource<RouteTable>>
    requires KeyedById(m)
    requires forall i :: 0 <= i < |order| ==> order[i] in m
    decreases |order|
  {
    if order == [] then []
    else
      var n := |order| - 1;
      TrackersOf(m, order[..n], clusterName, tagFns) + [BuildTrackerForRouteTable(m[order[n]], clusterName, tagFns)]
  }

  /** The i-th tracker is the one built from the entry under the i-th key, and carries that key as its ID. */
  lemma {:induction false} TrackersOfAt(m: map<string, RouteTable>, order: seq<string>, clusterName: string,
                                        tagFns: TagFunctions, i: nat)
    requires KeyedById(m)
    requires forall j :: 0 <= j < |order| ==> order[j] in m
    requires i < |order|
    ensures |TrackersOf(m, order, clusterName, tagFns)| == |order|
    ensures TrackersOf(m, order, clusterName, tagFns)[i] == BuildTrackerForRouteTable(m[order[i]], clusterName, tagFns)
    ensures TrackersOf(m, order, clusterName, tagFns)[i].id == order[i]
    decreases |order|
  {
    var n := |order| - 1;
    assert forall j :: 0 <= j < n ==> order[..n][j] == order[j];
    if i < n {
      TrackersOfAt(m, order[..n], clusterName, tagFns, i);
    } else if n > 0 {
      TrackersOfAt(m, order[..n], clusterName, tagFns, 0);
    }
  }

  /** An enumeration of a set is exactly as long as the set is large. */
  lemma {:induction false} EnumerationLength(order: seq<string>, keys: set<string>)
    requires Enumerates(order, keys)
    ensures |order| == |keys|
    decreases |order|
  {
    if order != [] {
      var n := |order| - 1;
      var rest := keys - {order[n]};
      forall k | k in rest
        ensures k in order[..n]
      {
        var i :| 0 <= i < |order| && order[i] == k;
        assert i < n;
        assert order[..n][i] == k;
      }
      EnumerationLength(order[..n], rest);
    }
  }

  /** One tracker per visited key. */
  lemma {:induction false} TrackersOfLength(m: map<string, RouteTable>, order: seq<string>, clusterName: string,
                                            tagFns: TagFunctions)
    requires KeyedById(m)
    requires forall j :: 0 <= j < |order| ==> order[j] in m
    ensures |TrackersOf(m, order, clusterName, tagFns)| == |order|
    decreases |order|
  {
    if order != [] {
      var n := |order| - 1;
      assert forall j :: 0 <= j < n ==> order[..n][j] == order[j];
      TrackersOfLength(m, order[..n], clusterName, tagFns);
    }
  }

  /** Visiting every merged key once gives exactly as many trackers as merged entries. */
  lemma TrackerCount(m: map<string, RouteTable>, order: seq<string>, clusterName: string, tagFns: TagFunctions)
    requires KeyedById(m)
    requires Enumerates(order, m.Keys)
    ensures |TrackersOf(m, order, clusterName, tagFns)| == |m|
  {
    EnumerationLength(order, m.Keys);
    TrackersOfLength(m, order, clusterName, tagFns);
  }

  /** Each tracker is the one built from the merged entry stored under its own ID. */
  lemma TrackersBuiltFromOwnEntry(m: map<string, RouteTable>, order: seq<string>, clusterName: string,
                                  tagFns: TagFunctions)
    requires KeyedById(m)
    requires Enumerates(order, m.Keys)
    ensures var ts := TrackersOf(m, order, clusterName, tagFns);
      forall i :: 0 <= i < |ts| ==>
        && ts[i].id in m && m[ts[i].id].routeTableId.Some?
        && ts[i] == BuildTrackerForRouteTable(m[ts[i].id], clusterName, tagFns)
  {
    var ts := TrackersOf(m, order, clusterName, tagFns);
    TrackersOfLength(m, order, clusterName, tagFns);
    forall i | 0 <= i < |ts|
      ensures ts[i].id in m && m[ts[i].id].routeTableId.Some?
      ensures ts[i] == BuildTrackerForRouteTable(m[ts[i].id], clusterName, tagFns)
    {
      TrackersOfAt(m, order, clusterName, tagFns, i);
    }
  }

  /** No two trackers carry the same ID. */
  lemma TrackerIdsDistinct(m: map<string, RouteTable>, order: seq<string>, clusterName: string, tagFns: TagFunctions)
    requires KeyedById(m)
    requires Enumerates(order, m.Keys)
    ensures var ts := TrackersOf(m, order, clusterName, tagFns);
      forall i, j :: 0 <= i < j < |ts| ==> ts[i].id != ts[j].id
  {
    var ts := TrackersOf(m, order, clusterName, tagFns);
    TrackersOfLength(m, order, clusterName, tagFns);
    forall i, j | 0 <= i < j < |ts|
      ensures ts[i].id != ts[j].id
    {
      TrackersOfAt(m, order, clusterName, tagFns, i);
      TrackersOfAt(m, order, clusterName, tagFns, j);
    }
  }

  /** Every merged key has a tracker. */
  lemma TrackersCoverKeys(m: map<string, RouteTable>, order: seq<string>, clusterName: string, tagFns: TagFunctions)
    requires KeyedById(m)
    requires Enumerates(order, m.Keys)
    ensures var ts := TrackersOf(m, order, clusterName, tagFns);
      forall k :: k in m ==> exists i :: 0 <= i < |ts| && ts[i].id == k
  {
    var ts := TrackersOf(m, order, clusterName, tagFns);
    TrackersOfLength(m, order, clusterName, tagFns);
    forall k | k in m
      ensures exists i :: 0 <= i < |ts| && ts[i].id == k
    {
      var i :| 0 <= i < |order| && order[i] == k;
      TrackersOfAt(m, order, clusterName, tagFns, i);
    }
  }

  /**
   * Lists the cluster's route tables and turns each merged entry into a tracker. The map is
   * visited in an unspecified order, so the result is stated up to order. `vpcId` is unused.
   */
  method ListRouteTables(responses: seq<Response>, vpcId: string, clusterName: string, tagFns: TagFunctions)
    returns (r: Result<seq<Resource<RouteTable>>>)
    requires Describe(responses).Success? ==>
      forall k :: k in Describe(responses).value ==> Describe(responses).value[k].routeTableId.Some?
    ensures Describe(responses).Failure? ==> r == Failure(Describe(responses).error)
    ensures Describe(responses).Success? ==> r.Success?
    ensures r.Success? ==>
      var m := Describe(responses).value;
      && |r.value| == |m|
      && (forall i :: 0 <= i < |r.value| ==>
            && r.value[i].id in m && m[r.value[i].id].routeTableId.Some?
            && r.value[i] == BuildTrackerForRouteTable(m[r.value[i].id], clusterName, tagFns))
      && (forall i, j :: 0 <= i < j < |r.value| ==> r.value[i].id != r.value[j].id)
      && (forall k :: k in m ==> exists i :: 0 <= i < |r.value| && r.value[i].id == k)
  {
    var described := DescribeRouteTables(responses);
    if described.Failure? {
      return Failure(described.error);
    }
    var routeTables := described.value;
    forall k | k in routeTables
      ensures routeTables[k].routeTableId == Some(k)
    {
      DescribeKeyIsId(responses, k);
    }
    var remaining := routeTables.Keys;
    var resourceTrackers: seq<Resource<RouteTable>> := [];
    ghost var order: seq<string> := [];
    while remaining != {}
      invariant remaining <= routeTables.Keys
      invariant Enumerates(order, routeTables.Keys - remaining)
      invariant resourceTrackers == TrackersOf(routeTables, order, clusterName, tagFns)
      decreases |remaining|
    {
      var k :| k in remaining;
      var rt := routeTables[k];
      var resourceTracker := BuildTrackerForRouteTable(rt, clusterName, tagFns);
      resourceTrackers := resourceTrackers + [resourceTracker];
      remaining := remaining - {k};
      order := order + [k];
    }
    TrackerCount(routeTables, order, clusterName, tagFns);
    TrackersBuiltFromOwnEntry(routeTables, order, clusterName, tagFns);
    TrackerIdsDistinct(routeTables, order, clusterName, tagFns);
    TrackersCoverKeys(routeTables, order, clusterName, tagFns);
    r := Success(resourceTrackers);
  }

  // ---------------------------------------------------------------------------------------------
  // dumpRouteTable

  /** Appends the tracker's `{id, type, raw}` record to the shared dump list; never fails. */
  method DumpRouteTable<Obj>(op: DumpOperation<Obj>, r: Resource<Obj>) returns (err: Option<string>)
    modifies op
    ensures op.resources == old(op.resources) + [DumpRecord(r.id, r.resourceType, r.obj)]
    ensures err == None
  {
    var data := DumpRecord(r.id, r.resourceType, r.obj);
    op.resources := op.resources + [data];
    err := None;
  }

  // ---------------------------------------------------------------------------------------------
  // buildTrackerForRouteTable

  /** The `Blocked` edges: one "subnet:<id>" key per association, in association order. */
  function SubnetKeys(associations: seq<RouteTableAssociation>): (keys: seq<string>)
    ensures |keys| == |associations|
    ensures forall i :: 0 <= i < |keys| ==> keys[i] == "subnet:" + ToString(associations[i].subnetId)
    decreases |associations|
  {
    if associations == [] then []
    else
      var n := |associations| - 1;
      SubnetKeys(associations[..n]) + ["subnet:" + ToString(associations[n].subnetId)]
  }

  /** The tracker for one route table, with its VPC as the blocked-by edge and its subnets as blockers. */
  function BuildTrackerForRouteTable(rt: RouteTable, clusterName: string, tagFns: TagFunctions): (r: Resource<RouteTable>)
    requires rt.routeTableId.Some?
    ensures r.id == rt.routeTableId.value && r.resourceType == ResourceTypeRouteTable && r.obj == rt
    ensures r.name == tagFns.findName(rt.tags)
    ensures r.dumper == RouteTableDumper && r.deleter == RouteTableDeleter
    ensures r.shared == !tagFns.hasOwnedTag(ResourceTypeRouteTable + ":" + rt.routeTableId.value, rt.tags, clusterName)
    ensures r.blocks == ["vpc:" + ToString(rt.vpcId)]
    ensures |r.blocked| == |rt.associations|
    ensures forall i :: 0 <= i < |r.blocked| ==> r.blocked[i] == "subnet:" + ToString(rt.associations[i].subnetId)
  {
    var id := rt.routeTableId.value;
    Resource(
      name := tagFns.findName(rt.tags),
      id := ToString(rt.routeTableId),
      resourceType := ResourceTypeRouteTable,
      obj := rt,
      dumper := RouteTableDumper,
      deleter := RouteTableDeleter,
      shared := !tagFns.hasOwnedTag(ResourceTypeRouteTable + ":" + id, rt.tags, clusterName),
      blocks := ["vpc:" + ToString(rt.vpcId)],
      blocked := SubnetKeys(rt.associations))
  }

  /** A key is a `Blocked` edge exactly when it names the subnet of some association. */
  lemma BlockedNamesExactlyTheSubnets(rt: RouteTable, clusterName: string, tagFns: TagFunctions, key: string)
    requires rt.routeTableId.Some?
    ensures key in BuildTrackerForRouteTable(rt, clusterName, tagFns).blocked <==>
      exists i :: 0 <= i < |rt.associations| && key == "subnet:" + ToString(rt.associations[i].subnetId)
  {
  }

  /** No key is both a `Blocks` and a `Blocked` edge: the first names a VPC, the others subnets. */
  lemma BlocksAndBlockedAreDisjoint(rt: RouteTable, clusterName: string, tagFns: TagFunctions)
    requires rt.routeTableId.Some?
    ensures forall key :: key in BuildTrackerForRouteTable(rt, clusterName, tagFns).blocks ==>
      key !in BuildTrackerForRouteTable(rt, clusterName, tagFns).blocked
  {
    var r := BuildTrackerForRouteTable(rt, clusterName, tagFns);
    var vpcKey := "vpc:" + ToString(rt.vpcId);
    assert vpcKey[0] == 'v';
    forall i | 0 <= i < |r.blocked|
      ensures r.blocked[i] != vpcKey
    {
      assert r.blocked[i][0] == 's';
    }
  }

  /** Two associations with different subnet IDs give different `Blocked` edges. */
  lemma SubnetKeysDistinguishSubnets(rt: RouteTable, clusterName: string, tagFns: TagFunctions, i: nat, j: nat)
    requires rt.routeTableId.Some?
    requires i < |rt.associations| && j < |rt.associations|
    requires ToString(rt.associations[i].subnetId) != ToString(rt.associations[j].subnetId)
    ensures BuildTrackerForRouteTable(rt, clusterName, tagFns).blocked[i]
         != BuildTrackerForRouteTable(rt, clusterName, tagFns).blocked[j]
  {
    var r := BuildTrackerForRouteTable(rt, clusterName, tagFns);
    var prefix := "subnet:";
    assert r.blocked[i][|prefix|..] == ToString(rt.associations[i].subnetId);
    assert r.blocked[j][|prefix|..] == ToString(rt.associations[j].subnetId);
  }

  // ---------------------------------------------------------------------------------------------
  // Ownership as the tests pin it down

  /** The ownership tag key of a cluster. */
  function OwnershipTagKey(clusterName: string): string
  {
    "kubernetes.io/cluster/" + clusterName
  }

  /** The tags the listing test puts on its route tables: the legacy cluster tag and the ownership tag. */
  function ClusterTags(clusterName: string, ownership: string): seq<Tag>
  {
    [Tag(Some("KubernetesCluster"), Some(clusterName)), Tag(Some(OwnershipTagKey(clusterName)), Some(ownership))]
  }

  /** The only facts about `HasOwnedTag` the tests assert: "owned" is owned, "shared" is not. */
  ghost predicate AgreesWithOwnershipTests(hasOwnedTag: (string, seq<Tag>, string) -> bool)
  {
    forall id, clusterName ::
      hasOwnedTag(ResourceTypeRouteTable + ":" + id, ClusterTags(clusterName, "owned"), clusterName)
      && !hasOwnedTag(ResourceTypeRouteTable + ":" + id, ClusterTags(clusterName, "shared"), clusterName)
  }

  /** A table tagged for the cluster is shared exactly when its ownership tag says "shared". */
  lemma TaggedTableSharedFlag(rt: RouteTable, clusterName: string, tagFns: TagFunctions, ownership: string)
    requires AgreesWithOwnershipTests(tagFns.hasOwnedTag)
    requires rt.routeTableId.Some?
    requires ownership == "owned" || ownership == "shared"
    requires rt.tags == ClusterTags(clusterName, ownership)
    ensures BuildTrackerForRouteTable(rt, clusterName, tagFns).shared <==> ownership == "shared"
  {
  }

  /** The two route tables of the listing test. */
  function TestTable(clusterName: string, ownership: string): RouteTable
  {
    RouteTable(Some("rtb-" + ownership), Some("vpc-1234"), [], ClusterTags(clusterName, ownership))
  }

  /**
   * The listing test's scenario: whatever the filter passes return of its two tables, the tracker
   * built for "rtb-shared" is shared and the one built for "rtb-owned" is not.
   * The test inspects the output of ListRouteTables; this lemma covers it together with the
   * postcondition of ListRouteTables, which says that every tracker it returns is
   * BuildTrackerForRouteTable applied to the merged entry under its own ID.
   */
  lemma ListingTestScenario(responses: seq<Response>, clusterName: string, tagFns: TagFunctions, k: string)
    requires AgreesWithOwnershipTests(tagFns.hasOwnedTag)
    requires forall p, j :: 0 <= p < |responses| && responses[p].Success? && 0 <= j < |responses[p].value| ==>
      responses[p].value[j] in {TestTable(clusterName, "shared"), TestTable(clusterName, "owned")}
    requires Describe(responses).Success?
    requires k in Describe(responses).value
    ensures Describe(responses).value[k].routeTableId.Some?
    ensures var t := BuildTrackerForRouteTable(Describe(responses).value[k], clusterName, tagFns);
      && (t.id == "rtb-shared" ==> t.shared)
      && (t.id == "rtb-owned" ==> !t.shared)
  {
    var p, j := DescribeLastPassWins(responses, k);
    var rt := Describe(responses).value[k];
    if rt == TestTable(clusterName, "shared") {
      TaggedTableSharedFlag(rt, clusterName, tagFns, "shared");
    } else {
      TaggedTableSharedFlag(rt, clusterName, tagFns, "owned");
    }
  }
}
