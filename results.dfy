/** The values a completed request delivers. Each is a plain record whose
    accessors return what it was built with. */
module Results {
  import opened Wrappers
  import Types

  /** A node's payload. */
  type Buffer = seq<bv8>

  /** `get_result`: the data and the stat of a node. */
  datatype GetResult = GetResult(data: Buffer, stat: Types.Stat)

  /** `get_children_result`: the children names and the parent's stat. */
  datatype GetChildrenResult = GetChildrenResult(children: seq<string>, parentStat: Types.Stat)

  /** `exists_result`: the stat when the node exists. */
  datatype ExistsResult = ExistsResult(stat: Option<Types.Stat>)
  {
    /** `operator bool`: the node exists exactly when a stat is held. */
    predicate Exists() { stat.Some? }
  }

  /** `create_result`: the name the node was created under. */
  datatype CreateResult = CreateResult(name: string)

  /** `set_result`: the stat after the write. */
  datatype SetResult = SetResult(stat: Types.Stat)

  /** `event`: what a watch reports, and the session state at that time. */
  datatype Event = Event(eventType: Types.EventType, state: Types.State)
}
