# Route-table discovery for cluster teardown

This project models the route-table lister that kops uses when it deletes a cluster on AWS
(`pkg/resources/aws/routetable.go`), and proves properties of that model.

- **DescribeRouteTables** sends one EC2 `DescribeRouteTables` request per cluster filter set.
  It merges every returned route table into one map keyed by route-table ID, and it stops at the
  first provider error.
- **ListRouteTables** turns every merged entry into a teardown tracker (`resources.Resource`).
- **buildTrackerForRouteTable** builds one tracker. The tracker records:
  - the route table's ID and the type `route-table`;
  - its display name;
  - the route-table dump and delete handlers;
  - a `Shared` flag, the negation of the ownership check;
  - one `Blocks` edge to its VPC (`vpc:<id>`);
  - one `Blocked` edge per association (`subnet:<id>`).
- **dumpRouteTable** appends an `{id, type, raw}` record to the shared dump list.

Files:

- `wrappers.dfy`: `Option` (Go's nil pointers) and `Result` (a value or an error message).
- `ec2.dfy`: the EC2 records the lister reads (`Tag`, `RouteTableAssociation`, `RouteTable`).
  It also has `ToString`, which plays the role of `aws.ToString` and maps a nil pointer to `""`.
- `resources.dfy`: the tracker `Resource`, the dump record, and the class `DumpOperation`.
  `DumpOperation` holds the dump list that dumpers append to.
- `routetable.dfy`: the four operations and the lemmas about them.

The provider is an oracle. `responses[i]` is the provider's answer for the i-th filter set:
either the route tables it returned, or its error message.

- `Describe(responses)` is the specification of the merge: it gives the first error or the merged map.
- The method `DescribeRouteTables` runs the source's two nested loops. It is proved to compute
  exactly `Describe(responses)`.
- The lemmas about `Describe` state what the merge promises.

The package helpers `HasOwnedTag` and `FindName` are not part of this model. Both are
uninterpreted function values, bundled in `TagFunctions`. The only constraint on `HasOwnedTag`
is the pair of cases the listing test asserts (`AgreesWithOwnershipTests`):

- a table tagged `owned` for the cluster is owned;
- a table tagged `shared` is not owned.

The test fixes one cluster name (`me.example.com`) and two IDs (`rtb-shared`, `rtb-owned`).
The model generalises both cases to every route-table ID and every cluster name.

Go visits a map in an unspecified order, so `ListRouteTables` picks the next key
nondeterministically (`:|`). Its postcondition is stated up to order:

- there is one tracker per merged entry;
- no ID appears twice;
- each tracker is the one built from the entry under its own ID.

Line 87 dereferences `*rt.RouteTableId`, so `BuildTrackerForRouteTable` requires a non-nil ID.
`ListRouteTables` requires only what line 87 needs: when the merge succeeds, every record left in
the merged map has a non-nil ID. A provider error, or a nil-ID record that a later record with
ID `""` overwrites, is within this precondition. `MergedRecordHasId` shows that the precondition
holds whenever every returned record has an ID.

Three behaviours of the code worth knowing:

- The code does not drop main route tables.
- A main association without a subnet ID yields the edge `subnet:`. `ToString` of a nil
  `SubnetId` is `""`.
- Nothing here filters tables by ownership tag. Which tables are returned is up to the provider
  query's filters.

## Model

| member | source | states |
|---|---|---|
| `AwsRouteTables.DescribeRouteTables` | pkg/resources/aws/routetable.go:32-52 | the result is exactly `Describe(responses)`: the first provider error, wrapped as "error listing RouteTables: …", or all responses merged in order, each record written under its ID |
| `AwsRouteTables.DescribeFailsIff` | pkg/resources/aws/routetable.go:41-44 | the merge fails exactly when some provider call failed, and the reported error wraps that of the first failing call (all earlier calls succeeded) |
| `AwsRouteTables.DescribeFailureSticks` | pkg/resources/aws/routetable.go:41-44 | once a call has failed, later responses cannot change the outcome (early return) |
| `AwsRouteTables.DescribeKeys` | pkg/resources/aws/routetable.go:35-49 | on success, the key set is exactly the union, over all filter passes, of the IDs each pass returned |
| `AwsRouteTables.DescribeKeyIsId` | pkg/resources/aws/routetable.go:46-48 | on success, every key maps to a route table whose ID (`aws.ToString`) is that key |
| `AwsRouteTables.DescribeLastPassWins` | pkg/resources/aws/routetable.go:37-49 | on success, the record under a key is the last one with that ID in the last pass that returned it; no later pass returned that ID |
| `AwsRouteTables.MergePassKeys` | pkg/resources/aws/routetable.go:46-48 | one pass adds exactly its own IDs to the keys already present |
| `AwsRouteTables.MergePassLastWins` | pkg/resources/aws/routetable.go:46-48 | within one pass, a duplicated ID keeps the pass's last record with that ID |
| `AwsRouteTables.MergePassKeeps` | pkg/resources/aws/routetable.go:46-48 | an ID a pass does not return keeps the record it had before the pass |
| `AwsRouteTables.MergedRecordHasId` | pkg/resources/aws/routetable.go:82-87 | when every returned record has a non-nil ID, every merged entry's ID is non-nil and equal to its key, so building its tracker cannot panic |
| `AwsRouteTables.ListRouteTables` | pkg/resources/aws/routetable.go:54-68 | a provider error is passed through unchanged and no trackers are returned; on success, there are exactly as many trackers as merged entries, no ID appears twice, every merged ID has a tracker, and each tracker is the one built from the entry under its ID |
| `AwsRouteTables.TrackerCount` | pkg/resources/aws/routetable.go:60-67 | visiting every merged key once, in any order, gives exactly as many trackers as merged entries |
| `AwsRouteTables.TrackersBuiltFromOwnEntry` | pkg/resources/aws/routetable.go:62-64 | each tracker produced by the visit is the one built from the merged entry stored under its own ID |
| `AwsRouteTables.TrackerIdsDistinct` | pkg/resources/aws/routetable.go:60-67 | no two trackers produced by the visit carry the same ID |
| `AwsRouteTables.TrackersCoverKeys` | pkg/resources/aws/routetable.go:60-67 | every merged key has a tracker |
| `AwsRouteTables.DumpRouteTable` | pkg/resources/aws/routetable.go:70-77 | the dump list becomes the old list plus exactly one `{id, type, raw}` record taken from the tracker; earlier records stay unchanged and in place; the returned error is always nil |
| `AwsRouteTables.SubnetKeys` | pkg/resources/aws/routetable.go:95-97 | one `subnet:<id>` key per association, in association order, with `""` for a nil subnet ID |
| `AwsRouteTables.BuildTrackerForRouteTable` | pkg/resources/aws/routetable.go:79-103 | the tracker has the table's ID, type `route-table`, the table as its raw object, the name `FindName(tags)`, and the route-table dumper and deleter; `Shared` is the negation of `HasOwnedTag("route-table:<id>", tags, clusterName)`; `Blocks` is exactly `["vpc:" + ToString(VpcId)]`; `Blocked` has one `subnet:` entry per association, in order, and is empty with no associations |
| `AwsRouteTables.BlockedNamesExactlyTheSubnets` | pkg/resources/aws/routetable.go:95-100 | a key is a `Blocked` edge if and only if it is `subnet:` followed by the subnet ID of some association |
| `AwsRouteTables.BlocksAndBlockedAreDisjoint` | pkg/resources/aws/routetable.go:93-100 | the VPC edge is never one of the subnet edges: the tracker never both blocks and is blocked by the same key |
| `AwsRouteTables.SubnetKeysDistinguishSubnets` | pkg/resources/aws/routetable.go:96 | associations with different subnet IDs give different `Blocked` edges |
| `AwsRouteTables.TaggedTableSharedFlag` | pkg/resources/aws/routetable.go:87 | given only the ownership cases the tests fix, a table carrying the cluster tag and an ownership tag `owned` or `shared` is shared exactly when the tag says `shared` |
| `AwsRouteTables.ListingTestScenario` | pkg/resources/aws/aws_test.go:246-286 | in the listing test, whatever the filter passes return of its two tables, the tracker built from the merged `rtb-shared` entry is shared and the `rtb-owned` one is not; with the `ListRouteTables` postcondition (each returned tracker is built from the entry under its ID) this covers the trackers the test inspects |

## Left out

- The EC2 client call and `buildEC2FiltersForCluster` belong to the provider and the filter
  builder, and are not part of this model. Their whole effect is the `responses` oracle, one
  answer per filter set. Pagination and retries are the client's business.
  The type assertion `cloud.(awsup.AWSCloud)` at line 33 panics for a cloud that is not AWS;
  the model has no such cloud, so it does not capture that panic.
- The `klog` call that announces the listing is left out: it is logging only.
- `HasOwnedTag` and `FindName` are defined in files that are not part of this model, so they are
  uninterpreted. `HasOwnedTag` is constrained only by the test's owned and shared cases.
- `DeleteRouteTable` is provider I/O. The tracker only records which deleter it carries.
- The raw object (`Obj`, an `interface{}`) is copied through as an opaque value.
  The dump list is generic in its type.
- Pointer aliasing is left out. In the source, the tracker's `Obj` and the map's value are the
  same `*ec2.RouteTable`. In the model they are equal values.
- The `error` values are modelled as strings. `fmt.Errorf("...: %v", err)` becomes string
  concatenation with the provider's message.
- The `vpcID` parameter of `ListRouteTables` is accepted and ignored, as in the source.
- Tracker fields that this file never sets are not part of the `Resource` datatype.
- `addUntaggedRouteTables`, `ListIAMInstanceProfiles`, `ListIAMRoles`, `ListVolumes` and
  `matchesElbTags` are defined in files not part of this model. Their tests in
  `pkg/resources/aws/aws_test.go` appear only as evidence for the `route-table:<id>` key format
  and the `Shared` flag.
- The `VPC` task tests in `upup/pkg/fi/cloudup/awstasks/vpc_test.go` rely on reflection-based
  change detection and a mock EC2 state, neither of which is part of this model.
- `ListRouteTables`: a merged record with a nil route-table ID makes the source panic at line 87.
  A precondition excludes that case instead of modelling it as a crash.
- Nil elements in the provider's lists cannot be expressed, because `seq<RouteTable>` and
  `seq<RouteTableAssociation>` hold values, not pointers. The source panics on a nil
  `*ec2.RouteTable` at line 47 and on a nil `*ec2.RouteTableAssociation` at line 96; the model
  does not capture either panic.
