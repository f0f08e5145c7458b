/**
 * The teardown tracker (`resources.Resource`) and the dump collection trackers are exported into.
 */
module Resources {

  /** The dump capability a tracker carries; route tables use `dumpRouteTable`. */
  datatype Dumper = RouteTableDumper

  /** The delete capability a tracker carries; route tables use `DeleteRouteTable`. */
  datatype Deleter = RouteTableDeleter

  /**
   * One discovered cloud object. `blocks` lists the keys that cannot be deleted before this one,
   * `blocked` the keys that must be deleted before this one. `obj` is the raw provider record.
   */
  datatype Resource<Obj> = Resource(
    name: string,
    id: string,
    resourceType: string,
    obj: Obj,
    dumper: Dumper,
    deleter: Deleter,
    shared: bool,
    blocks: seq<string>,
    blocked: seq<string>)

  /** The `{id, type, raw}` record one dumper call contributes. */
  datatype DumpRecord<Obj> = DumpRecord(id: string, resourceType: string, raw: Obj)

  /** The shared dump collection (`op.Dump.Resources`) that every dumper appends to. */
  class DumpOperation<Obj> {
    var resources: seq<DumpRecord<Obj>>

    constructor ()
      ensures resources == []
    {
      resources := [];
    }
  }
}
