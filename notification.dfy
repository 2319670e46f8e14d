/** `notification`: the variant cell a connection hands back, holding one of
    an empty marker, an exception, a watch event or one of the operation
    results, together with the user's opaque tracker. The tracker is a
    `ptr<void>`: `None` stands for null, `Some(id)` names the object it
    refers to. */
module Notification {
  import opened Wrappers
  import Results
  import Types
  import Acl

  /** A captured exception; its payload is not inspected by the cell. */
  datatype Thrown = Thrown(what: string)

  /** `get_acl_result`: the rules of a node and its stat. */
  datatype GetAclResult = GetAclResult(rules: seq<Acl.AclRule>, stat: Types.Stat)

  /** `storage_type`: the nine alternatives, `Empty` being `std::monostate`. */
  datatype Storage =
    | Empty
    | Failure(thrown: Thrown)
    | EventData(event: Results.Event)
    | GetData(get: Results.GetResult)
    | ChildrenData(children: Results.GetChildrenResult)
    | AclData(acl: GetAclResult)
    | ExistsData(exists_: Results.ExistsResult)
    | CreateData(create: Results.CreateResult)
    | SetData(written: Results.SetResult)

  /** The alternative a template argument `T` of `is<T>` / `as<T>` names. */
  datatype Kind =
    | EmptyKind | FailureKind | EventKind | GetKind | ChildrenKind
    | AclKind | ExistsKind | CreateKind | SetKind

  type TrackerRef = Option<nat>

  /** `std::bad_variant_access`. */
  datatype BadVariantAccess = BadVariantAccess(wanted: Kind, held: Kind)

  /** The alternative a storage value holds. */
  function KindOf(s: Storage): (k: Kind)
    ensures k == EmptyKind <==> s.Empty?
    ensures k == FailureKind <==> s.Failure?
    ensures k == EventKind <==> s.EventData?
    ensures k == GetKind <==> s.GetData?
    ensures k == ChildrenKind <==> s.ChildrenData?
    ensures k == AclKind <==> s.AclData?
    ensures k == ExistsKind <==> s.ExistsData?
    ensures k == CreateKind <==> s.CreateData?
    ensures k == SetKind <==> s.SetData?
  {
    match s
    case Empty => EmptyKind
    case Failure(_) => FailureKind
    case EventData(_) => EventKind
    case GetData(_) => GetKind
    case ChildrenData(_) => ChildrenKind
    case AclData(_) => AclKind
    case ExistsData(_) => ExistsKind
    case CreateData(_) => CreateKind
    case SetData(_) => SetKind
  }

  /** `std::holds_alternative<T>`. */
  predicate Holds(s: Storage, k: Kind)
  {
    KindOf(s) == k
  }

  /** `std::get<T>`: the held value when the cell holds `T`, otherwise
      `bad_variant_access` naming what was wanted and what is held. */
  function Access(s: Storage, k: Kind): (r: Result<Storage, BadVariantAccess>)
    ensures r.Ok? <==> Holds(s, k)
    ensures r.Ok? ==> r.value == s && KindOf(r.value) == k
    ensures r.Err? ==> r.error.wanted == k && r.error.held == KindOf(s) && r.error.held != k
  {
    if KindOf(s) == k then Ok(s) else Err(BadVariantAccess(k, KindOf(s)))
  }

  /** A cell holds exactly one alternative: `is<T>` is true for one `T` and
      `as<T>` succeeds for that one only. */
  lemma ExactlyOneAlternative(s: Storage, k1: Kind, k2: Kind)
    requires Access(s, k1).Ok?
    ensures Holds(s, k2) <==> k2 == k1
    ensures Access(s, k2).Ok? <==> k2 == k1
  {
  }

  /** `std::exchange(x, v)`: the old value, and `x` now holds `v`. */
  function Exchange<T>(x: T, v: T): (T, T)
  {
    (x, v)
  }

  class Notification {
    var data: Storage
    var tracker: TrackerRef

    /** The default constructor: the empty alternative and a null tracker. */
    constructor ()
      ensures data == Empty && tracker == None
    {
      data := Empty;
      tracker := None;
    }

    /** The constructor from a storage value and a tracker. */
    constructor Make(d: Storage, track: TrackerRef)
      ensures data == d && tracker == track
    {
      data := d;
      tracker := track;
    }

    /** The copy constructor. */
    constructor Copy(src: Notification)
      ensures data == src.data && tracker == src.tracker
    {
      data := src.data;
      tracker := src.tracker;
    }

    /** The move constructor: the new cell takes the source's data and
        tracker, and the source is left empty with a null tracker. */
    constructor Move(src: Notification)
      modifies src
      ensures data == old(src.data) && tracker == old(src.tracker)
      ensures src.data == Empty && src.tracker == None
    {
      var d := Exchange(src.data, Empty);
      var t := Exchange(src.tracker, None);
      data := d.0;
      tracker := t.0;
      new;
      src.data := d.1;
      src.tracker := t.1;
    }

    /** Copy assignment. */
    method CopyFrom(src: Notification)
      modifies this
      ensures data == old(src.data) && tracker == old(src.tracker)
    {
      data := src.data;
      tracker := src.tracker;
    }

    /** Move assignment: each field of the source is exchanged for its empty
        value and the old value stored here. Moving a cell into itself
        therefore leaves it as it was; moving another cell empties that one. */
    method MoveFrom(src: Notification)
      modifies this, src
      ensures data == old(src.data) && tracker == old(src.tracker)
      ensures src != this ==> src.data == Empty && src.tracker == None
    {
      var d := Exchange(src.data, Empty);
      src.data := d.1;
      data := d.0;
      var t := Exchange(src.tracker, None);
      src.tracker := t.1;
      tracker := t.0;
    }

    /** `is<T>()`. */
    predicate Is(k: Kind)
      reads this
    {
      Holds(data, k)
    }

    /** `as<T>()`: the held value, or `bad_variant_access` when the cell
        holds another alternative. */
    function As(k: Kind): (r: Result<Storage, BadVariantAccess>)
      reads this
      ensures r.Ok? <==> Is(k)
      ensures r.Ok? ==> r.value == data
    {
      Access(data, k)
    }

    /** `reset()`: back to the empty alternative, releasing the tracker. */
    method Reset()
      modifies this
      ensures data == Empty && tracker == None
      ensures Is(EmptyKind) && As(EmptyKind).Ok?
    {
      data := Empty;
      tracker := None;
    }
  }

  /** A moved-from cell is indistinguishable from a default one: it holds
      the empty alternative, no other `as<T>` succeeds on it, and a moved
      cell answers `is<T>` exactly as its source did. */
  method MoveLeavesDefault(src: Notification) returns (dst: Notification)
    modifies src
    ensures fresh(dst)
    ensures forall k :: dst.Is(k) <==> Holds(old(src.data), k)
    ensures src.Is(EmptyKind)
    ensures forall k :: src.As(k).Ok? <==> k == EmptyKind
  {
    dst := new Notification.Move(src);
  }
}
