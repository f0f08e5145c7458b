/**
 * The shapes of the EC2 records that the route-table lister reads.
 * Every pointer field is an Option. Apart from `RouteTableAssociation.main`, only the fields the
 * lister touches are modelled; the lister never reads `main`, which is kept so that a main
 * association (one that may carry no subnet ID) can be written down.
 */
module Ec2 {
  import opened Wrappers

  /** `ec2.ResourceTypeRouteTable`. */
  const ResourceTypeRouteTable: string := "route-table"

  /** An EC2 tag: a key and a value, each possibly nil. */
  datatype Tag = Tag(key: Option<string>, value: Option<string>)

  /** One association of a route table with a subnet (or the main association of its VPC). */
  datatype RouteTableAssociation = RouteTableAssociation(subnetId: Option<string>, main: Option<bool>)

  /** An EC2 route table as returned by DescribeRouteTables. */
  datatype RouteTable = RouteTable(
    routeTableId: Option<string>,
    vpcId: Option<string>,
    associations: seq<RouteTableAssociation>,
    tags: seq<Tag>)

  /** `aws.ToString`: the pointed-to string, or "" for a nil pointer. */
  function ToString(p: Option<string>): string
  {
    match p
    case Some(s) => s
    case None => ""
  }
}
