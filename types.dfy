/** The value vocabulary of the client: typed ids and versions, node
    metadata (`stat`), creation modes, event types and session states,
    with their canonical renderings (src/zk/types.hpp, src/zk/types.cpp). */
module Types {
  import opened Text

  // ---------------------------------------------------------------------------
  // strong_id
  // ---------------------------------------------------------------------------

  /** An integer tagged with a phantom `Kind`, so that ids of different kinds
      cannot be compared or assigned to each other. */
  datatype StrongId<Kind> = StrongId(value: int)

  datatype VersionKind = VersionKind
  datatype AclVersionKind = AclVersionKind
  datatype ChildVersionKind = ChildVersionKind
  datatype TransactionKind = TransactionKind

  type Version = StrongId<VersionKind>
  type AclVersion = StrongId<AclVersionKind>
  type ChildVersion = StrongId<ChildVersionKind>
  type TransactionId = StrongId<TransactionKind>

  predicate Eq<K>(a: StrongId<K>, b: StrongId<K>) { a.value == b.value }
  predicate Ne<K>(a: StrongId<K>, b: StrongId<K>) { a.value != b.value }
  predicate Lt<K>(a: StrongId<K>, b: StrongId<K>) { a.value < b.value }
  predicate Le<K>(a: StrongId<K>, b: StrongId<K>) { a.value <= b.value }
  predicate Gt<K>(a: StrongId<K>, b: StrongId<K>) { a.value > b.value }
  predicate Ge<K>(a: StrongId<K>, b: StrongId<K>) { a.value >= b.value }

  /** The six comparisons are those of the underlying values: `==` is identity
      of ids, the others are derived from `<`, and `<` is a strict total order. */
  lemma StrongIdComparisons<K>(a: StrongId<K>, b: StrongId<K>, c: StrongId<K>)
    ensures Eq(a, b) <==> a == b
    ensures Ne(a, b) <==> !Eq(a, b)
    ensures Le(a, b) <==> (Lt(a, b) || Eq(a, b))
    ensures Gt(a, b) <==> Lt(b, a)
    ensures Ge(a, b) <==> !Lt(a, b)
    ensures !Lt(a, a)
    ensures Lt(a, b) && Lt(b, c) ==> Lt(a, c)
    ensures Lt(a, b) || Eq(a, b) || Lt(b, a)
  {
  }

  /** The integer a strong id is built on: `std::int32_t` for the three
      version kinds, `std::size_t` (64 bits wide) for `transaction_id`. */
  datatype Width = Int32 | Size64

  const INT32_MIN: int := -0x8000_0000
  const INT32_MAX: int := 0x7FFF_FFFF
  const SIZE_MODULUS: int := 0x1_0000_0000_0000_0000

  /** The values the underlying integer type can hold. */
  predicate Representable(w: Width, v: int)
  {
    match w
    case Int32 => INT32_MIN <= v <= INT32_MAX
    case Size64 => 0 <= v < SIZE_MODULUS
  }

  /** `++` is defined on every `size_t` (it wraps) but not on the largest
      `int32_t`, where signed overflow is undefined. */
  predicate CanIncrement(w: Width, v: int)
  {
    w.Size64? || v < INT32_MAX
  }

  /** `--` is defined on every `size_t` (it wraps) but not on the smallest
      `int32_t`. */
  predicate CanDecrement(w: Width, v: int)
  {
    w.Size64? || v > INT32_MIN
  }

  /** The value after `++`: one more, except that the largest `size_t`
      wraps around to 0. */
  function Incremented(w: Width, v: int): (r: int)
    requires Representable(w, v) && CanIncrement(w, v)
    ensures Representable(w, r)
    ensures r == if w.Size64? && v == SIZE_MODULUS - 1 then 0 else v + 1
  {
    match w
    case Int32 => v + 1
    case Size64 => (v + 1) % SIZE_MODULUS
  }

  /** The value after `--`: one less, except that the `size_t` 0 wraps
      around to the largest `size_t`. */
  function Decremented(w: Width, v: int): (r: int)
    requires Representable(w, v) && CanDecrement(w, v)
    ensures Representable(w, r)
    ensures r == if w.Size64? && v == 0 then SIZE_MODULUS - 1 else v - 1
  {
    match w
    case Int32 => v - 1
    case Size64 => (v - 1) % SIZE_MODULUS
  }

  /** `--` undoes `++` and `++` undoes `--`, wrap-around included. */
  lemma IncrementDecrementInverse(w: Width, v: int)
    requires Representable(w, v)
    ensures CanIncrement(w, v) ==> CanDecrement(w, Incremented(w, v)) && Decremented(w, Incremented(w, v)) == v
    ensures CanDecrement(w, v) ==> CanIncrement(w, Decremented(w, v)) && Incremented(w, Decremented(w, v)) == v
  {
  }

  /** A strong id held in a variable, so that `++` and `--` can update it in
      place as the C++ operators do, in the width of its underlying type. */
  class IdCell<K> {
    const width: Width
    var id: StrongId<K>

    /** The held value fits the underlying type. */
    predicate Valid()
      reads this
    {
      Representable(width, id.value)
    }

    constructor (w: Width, initial: StrongId<K>)
      requires Representable(w, initial.value)
      ensures width == w && id == initial && Valid()
    {
      width := w;
      id := initial;
    }

    /** Prefix `++`: raises the value by one (wrapping for `size_t`) and
        yields this same variable. */
    method PreIncrement() returns (self: IdCell<K>)
      requires Valid() && CanIncrement(width, id.value)
      modifies this
      ensures Valid()
      ensures id.value == Incremented(width, old(id.value))
      ensures self == this
    {
      id := StrongId(Incremented(width, id.value));
      self := this;
    }

    /** Postfix `++`: raises the value by one and yields the old id. */
    method PostIncrement() returns (copy: StrongId<K>)
      requires Valid() && CanIncrement(width, id.value)
      modifies this
      ensures Valid()
      ensures copy == old(id)
      ensures id.value == Incremented(width, old(id.value))
    {
      copy := id;
      var self := PreIncrement();
    }

    /** Prefix `--`: lowers the value by one (wrapping for `size_t`) and
        yields this same variable. */
    method PreDecrement() returns (self: IdCell<K>)
      requires Valid() && CanDecrement(width, id.value)
      modifies this
      ensures Valid()
      ensures id.value == Decremented(width, old(id.value))
      ensures self == this
    {
      id := StrongId(Decremented(width, id.value));
      self := this;
    }

    /** Postfix `--`: lowers the value by one and yields the old id. */
    method PostDecrement() returns (copy: StrongId<K>)
      requires Valid() && CanDecrement(width, id.value)
      modifies this
      ensures Valid()
      ensures copy == old(id)
      ensures id.value == Decremented(width, old(id.value))
    {
      copy := id;
      var self := PreDecrement();
    }
  }

  /** A transaction id counted down from 0 wraps to the largest `size_t`,
      and counted up from there comes back to 0. */
  method TransactionIdWraps() returns (low: TransactionId, high: TransactionId)
    ensures low.value == 0 && high.value == SIZE_MODULUS - 1
  {
    var cell := new IdCell<TransactionKind>(Size64, StrongId(0));
    low := cell.PostDecrement();
    high := cell.PostIncrement();
  }

  // ---------------------------------------------------------------------------
  // basic_version sentinels and version printers
  // ---------------------------------------------------------------------------

  /** `basic_version::invalid()`: never returned by the ensemble. */
  function Invalid<K>(): StrongId<K> { StrongId(-42) }

  /** `basic_version::any()`: a version check that always passes. */
  function Any<K>(): StrongId<K> { StrongId(-1) }

  lemma SentinelValues<K>()
    ensures Any<K>().value == -1 && Invalid<K>().value == -42
    ensures Any<K>() != Invalid<K>()
  {
  }

  /** The shared shape of the three version printers: `<prefix>(any)`,
      `<prefix>(invalid)` or `<prefix>(<n>)`. */
  function VersionText(prefix: string, value: int): string
  {
    prefix + "(" + (if value == Any<VersionKind>().value then "any"
                    else if value == Invalid<VersionKind>().value then "invalid"
                    else IntToString(value)) + ")"
  }

  function VersionToString(v: Version): string { VersionText("version", v.value) }
  function AclVersionToString(v: AclVersion): string { VersionText("acl_version", v.value) }
  function ChildVersionToString(v: ChildVersion): string { VersionText("child_version", v.value) }

  function TransactionIdToString(t: TransactionId): string
  {
    "transaction_id(" + IntToString(t.value) + ")"
  }

  /** A decimal rendering starts with a digit or '-', never with a letter. */
  lemma IntToStringStart(n: int)
    ensures |IntToString(n)| > 0
    ensures IsDigit(IntToString(n)[0]) || IntToString(n)[0] == '-'
    ensures ' ' !in IntToString(n) && ')' !in IntToString(n)
  {
    NatToStringRoundTrip(if n < 0 then -n else n);
    var s := IntToString(n);
    assert forall i :: 0 <= i < |s| ==> IsDigit(s[i]) || s[i] == '-';
  }

  /** Two texts of the shape `prefix + inner + suffix` agree on `inner` when
      they agree as a whole. */
  lemma Unwrap(prefix: string, a: string, b: string, suffix: string)
    requires prefix + a + suffix == prefix + b + suffix
    ensures a == b
  {
    var x := prefix + a + suffix;
    var y := prefix + b + suffix;
    assert |a| == |b|;
    assert a == x[|prefix|..|prefix| + |a|];
    assert b == y[|prefix|..|prefix| + |b|];
  }

  /** Every version printer is injective, and it prints "any" exactly for -1
      and "invalid" exactly for -42. */
  lemma VersionTextInjective(prefix: string, a: int, b: int)
    requires VersionText(prefix, a) == VersionText(prefix, b)
    ensures a == b
  {
    var ia := if a == -1 then "any" else if a == -42 then "invalid" else IntToString(a);
    var ib := if b == -1 then "any" else if b == -42 then "invalid" else IntToString(b);
    Unwrap(prefix + "(", ia, ib, ")");
    IntToStringStart(a);
    IntToStringStart(b);
    if a != -1 && a != -42 && b != -1 && b != -42 {
      IntToStringInjective(a, b);
    }
  }

  lemma VersionPrinters(v: Version, w: Version, av: AclVersion, cv: ChildVersion)
    ensures VersionToString(v) == "version(any)" <==> v == Any()
    ensures VersionToString(v) == "version(invalid)" <==> v == Invalid()
    ensures VersionToString(v) == VersionToString(w) <==> v == w
    ensures AclVersionToString(av) == "acl_version(any)" <==> av == Any()
    ensures AclVersionToString(av) == "acl_version(invalid)" <==> av == Invalid()
    ensures ChildVersionToString(cv) == "child_version(any)" <==> cv == Any()
    ensures ChildVersionToString(cv) == "child_version(invalid)" <==> cv == Invalid()
  {
    assert "version(any)" == VersionText("version", -1);
    assert "version(invalid)" == VersionText("version", -42);
    if VersionToString(v) == "version(any)" { VersionTextInjective("version", v.value, -1); }
    if VersionToString(v) == "version(invalid)" { VersionTextInjective("version", v.value, -42); }
    if VersionToString(v) == VersionToString(w) { VersionTextInjective("version", v.value, w.value); }
    assert "acl_version(any)" == VersionText("acl_version", -1);
    assert "acl_version(invalid)" == VersionText("acl_version", -42);
    if AclVersionToString(av) == "acl_version(any)" { VersionTextInjective("acl_version", av.value, -1); }
    if AclVersionToString(av) == "acl_version(invalid)" { VersionTextInjective("acl_version", av.value, -42); }
    assert "child_version(any)" == VersionText("child_version", -1);
    assert "child_version(invalid)" == VersionText("child_version", -42);
    if ChildVersionToString(cv) == "child_version(any)" { VersionTextInjective("child_version", cv.value, -1); }
    if ChildVersionToString(cv) == "child_version(invalid)" { VersionTextInjective("child_version", cv.value, -42); }
  }

  /** Transaction ids print as `transaction_id(<n>)`, one text per id. */
  lemma TransactionIdPrinter(t: TransactionId, u: TransactionId)
    ensures TransactionIdToString(t) == TransactionIdToString(u) <==> t == u
  {
    if TransactionIdToString(t) == TransactionIdToString(u) {
      Unwrap("transaction_id(", IntToString(t.value), IntToString(u.value), ")");
      IntToStringInjective(t.value, u.value);
    }
  }

  // ---------------------------------------------------------------------------
  // stat
  // ---------------------------------------------------------------------------

  /** Node metadata. Clock times are whole milliseconds since the epoch. */
  datatype Stat = Stat(
    createTransaction: TransactionId,
    modifiedTransaction: TransactionId,
    childModifiedTransaction: TransactionId,
    createTime: int,
    modifiedTime: int,
    dataVersion: Version,
    childVersion: ChildVersion,
    aclVersion: AclVersion,
    ephemeralOwner: nat,
    dataSize: nat,
    childrenCount: nat)
  {
    /** As written in the library: true when there is NO ephemeral owner. */
    predicate IsEphemeral() { ephemeralOwner == 0 }
  }

  function BoolText(b: bool): string { if b then "true" else "false" }

  /** The space-separated fields of the stat printer, in printing order:
      the text opens with '{' and closes with '}'. */
  function StatFields(s: Stat): seq<string>
  {
    ["{data_version=" + IntToString(s.dataVersion.value),
     "child_version=" + IntToString(s.childVersion.value),
     "acl_version=" + IntToString(s.aclVersion.value),
     "data_size=" + IntToString(s.dataSize),
     "children_count=" + IntToString(s.childrenCount),
     "ephemeral=" + BoolText(s.IsEphemeral()) + "}"]
  }

  function StatToString(s: Stat): string
  {
    Join(StatFields(s), " ")
  }

  lemma StatFieldsNoSpace(s: Stat)
    ensures forall k :: 0 <= k < |StatFields(s)| ==> ' ' !in StatFields(s)[k]
  {
    IntToStringStart(s.dataVersion.value);
    IntToStringStart(s.childVersion.value);
    IntToStringStart(s.aclVersion.value);
    IntToStringStart(s.dataSize);
    IntToStringStart(s.childrenCount);
  }

  /** The stat printer shows data_version, child_version, acl_version,
      data_size, children_count and the is_ephemeral() flag: two stats print
      alike exactly when those six agree. */
  lemma StatPrinter(a: Stat, b: Stat)
    ensures StatToString(a) == StatToString(b) <==>
      a.dataVersion == b.dataVersion && a.childVersion == b.childVersion &&
      a.aclVersion == b.aclVersion && a.dataSize == b.dataSize &&
      a.childrenCount == b.childrenCount && a.IsEphemeral() == b.IsEphemeral()
  {
    if StatToString(a) == StatToString(b) {
      StatFieldsNoSpace(a);
      StatFieldsNoSpace(b);
      SplitJoin(StatFields(a), ' ');
      SplitJoin(StatFields(b), ' ');
      var fa, fb := StatFields(a), StatFields(b);
      assert fa == fb;
      Unwrap("{data_version=", IntToString(a.dataVersion.value), IntToString(b.dataVersion.value), "");
      IntToStringInjective(a.dataVersion.value, b.dataVersion.value);
      Unwrap("child_version=", IntToString(a.childVersion.value), IntToString(b.childVersion.value), "");
      IntToStringInjective(a.childVersion.value, b.childVersion.value);
      Unwrap("acl_version=", IntToString(a.aclVersion.value), IntToString(b.aclVersion.value), "");
      IntToStringInjective(a.aclVersion.value, b.aclVersion.value);
      Unwrap("data_size=", IntToString(a.dataSize), IntToString(b.dataSize), "");
      IntToStringInjective(a.dataSize, b.dataSize);
      Unwrap("children_count=", IntToString(a.childrenCount), IntToString(b.childrenCount), "");
      IntToStringInjective(a.childrenCount, b.childrenCount);
      assert fa[5] == fb[5];
    }
  }

  // ---------------------------------------------------------------------------
  // create_mode
  // ---------------------------------------------------------------------------

  /** Creation flags over the 32-bit unsigned representation. */
  datatype CreateMode = CreateMode(bits: bv32)

  const Normal := CreateMode(0)
  const Ephemeral := CreateMode(1)
  const Sequential := CreateMode(2)
  const Container := CreateMode(4)

  function Or(a: CreateMode, b: CreateMode): CreateMode { CreateMode(a.bits | b.bits) }
  function And(a: CreateMode, b: CreateMode): CreateMode { CreateMode(a.bits & b.bits) }
  function Not(a: CreateMode): CreateMode { CreateMode(!a.bits) }

  /** `is_set(self, flags)`: every flag of `flags` is present in `self`. */
  predicate IsSet(self: CreateMode, flags: CreateMode) { self.bits & flags.bits == flags.bits }

  /** Every mode holds `normal`, the empty set of flags. */
  lemma IsSetNormal(m: CreateMode)
    ensures IsSet(m, Normal)
  {
  }

  /** A union of flags holds each of its operands. */
  lemma IsSetOr(a: CreateMode, b: CreateMode)
    ensures IsSet(Or(a, b), a) && IsSet(Or(a, b), b)
  {
  }

  /** A mode holding two sets of flags holds their union. */
  lemma IsSetUnionIntro(m: CreateMode, a: CreateMode, b: CreateMode)
    requires IsSet(m, a) && IsSet(m, b)
    ensures IsSet(m, Or(a, b))
  {
  }

  /** A mode holding a union of flags holds each operand. */
  lemma IsSetUnionElim(m: CreateMode, a: CreateMode, b: CreateMode)
    requires IsSet(m, Or(a, b))
    ensures IsSet(m, a) && IsSet(m, b)
  {
  }

  /** Complement is an involution and shares no flag with its argument. */
  lemma NotLaws(m: CreateMode)
    ensures Not(Not(m)) == m
    ensures And(m, Not(m)) == Normal
  {
  }

  /** The flags are distinct bits: `ephemeral | sequential` holds ephemeral,
      while ephemeral alone does not hold sequential. */
  lemma FlagsDistinct()
    ensures IsSet(Or(Ephemeral, Sequential), Ephemeral)
    ensures !IsSet(Ephemeral, Sequential) && !IsSet(Ephemeral, Container)
    ensures !IsSet(Sequential, Container)
  {
  }

  /** The names of the known flags set in `m`, in printing order. */
  function CreateModeFlagNames(m: CreateMode): seq<string>
  {
    (if IsSet(m, Ephemeral) then ["ephemeral"] else [])
    + (if IsSet(m, Sequential) then ["sequential"] else [])
    + (if IsSet(m, Container) then ["container"] else [])
  }

  function CreateModeToString(m: CreateMode): string
  {
    if m == Normal then "normal" else Join(CreateModeFlagNames(m), "|")
  }

  function CreateModeFlag(name: string): bv32
  {
    if name == "ephemeral" then 1 else if name == "sequential" then 2
    else if name == "container" then 4 else 0
  }

  function OrFlags(names: seq<string>): bv32
  {
    if names == [] then 0 else CreateModeFlag(names[0]) | OrFlags(names[1..])
  }

  /** Reads back a rendering of CreateModeToString (its partner). */
  function ParseCreateMode(s: string): CreateMode
  {
    if s == "normal" then Normal else CreateMode(OrFlags(Split(s, '|')))
  }

  function FlagBit(b: bool, bit: bv32): bv32 { if b then bit else 0 }

  /** A mode with only known flags is the union of the flags it holds. */
  lemma KnownModeBits(m: CreateMode)
    requires m.bits & !7 == 0
    ensures m.bits == FlagBit(IsSet(m, Ephemeral), 1) | FlagBit(IsSet(m, Sequential), 2)
                      | FlagBit(IsSet(m, Container), 4)
  {
  }

  lemma {:induction false} OrFlagsAppend(x: seq<string>, y: seq<string>)
    ensures OrFlags(x + y) == OrFlags(x) | OrFlags(y)
    decreases |x|
  {
    if x == [] {
      assert x + y == y;
    } else {
      assert (x + y)[1..] == x[1..] + y;
      OrFlagsAppend(x[1..], y);
      var f, r, t := CreateModeFlag(x[0]), OrFlags(x[1..]), OrFlags(y);
      assert f | (r | t) == (f | r) | t;
    }
  }

  lemma FlagNamesRead()
    ensures OrFlags(["ephemeral"]) == 1
    ensures OrFlags(["sequential"]) == 2
    ensures OrFlags(["container"]) == 4
  {
    assert "container"[0] != "ephemeral"[0];
  }

  /** Reading the printed flag names back ORs together exactly the flags held. */
  lemma OrFlagsOfNames(m: CreateMode)
    ensures OrFlags(CreateModeFlagNames(m)) == FlagBit(IsSet(m, Ephemeral), 1)
      | FlagBit(IsSet(m, Sequential), 2) | FlagBit(IsSet(m, Container), 4)
  {
    var e := if IsSet(m, Ephemeral) then ["ephemeral"] else [];
    var q := if IsSet(m, Sequential) then ["sequential"] else [];
    var c := if IsSet(m, Container) then ["container"] else [];
    FlagNamesRead();
    OrFlagsAppend(e, q);
    OrFlagsAppend(e + q, c);
  }

  /** Printing then parsing gives the mode back whenever only known flags are
      set; the printer lists them in the order ephemeral, sequential, container. */
  lemma CreateModeRoundTrip(m: CreateMode)
    requires m.bits & !7 == 0
    ensures ParseCreateMode(CreateModeToString(m)) == m
  {
    var names := CreateModeFlagNames(m);
    KnownModeBits(m);
    OrFlagsOfNames(m);
    if m != Normal {
      assert |names| > 0;
      assert forall k :: 0 <= k < |names| ==> '|' !in names[k];
      SplitJoin(names, '|');
      JoinPrefix(names, "|");
      assert Join(names, "|") != "normal" by {
        assert |names[0]| >= 9;
      }
    }
  }

  // ---------------------------------------------------------------------------
  // event_type and state
  // ---------------------------------------------------------------------------

  /** `enum class event_type : int`; any int can be cast to it. */
  newtype EventType = int

  const ErrorEvent: EventType := 0
  const Created: EventType := 1
  const Erased: EventType := 2
  const Changed: EventType := 3
  const Child: EventType := 4
  const Session: EventType := -1
  const NotWatching: EventType := -2

  predicate IsNamedEventType(e: EventType)
  {
    e == ErrorEvent || e == Created || e == Erased || e == Changed || e == Child
    || e == Session || e == NotWatching
  }

  function EventTypeToString(e: EventType): string
  {
    if e == ErrorEvent then "error"
    else if e == Created then "created"
    else if e == Erased then "erased"
    else if e == Changed then "changed"
    else if e == Child then "child"
    else if e == Session then "session"
    else if e == NotWatching then "not_watching"
    else "event_type(" + IntToString(e as int) + ")"
  }

  /** Names are at most 12 characters long, the fallback text at least 13. */
  lemma EventTypeTextLength(e: EventType)
    ensures IsNamedEventType(e) ==> |EventTypeToString(e)| <= 12
    ensures !IsNamedEventType(e) ==> |EventTypeToString(e)| >= 13
  {
    IntToStringStart(e as int);
  }

  /** The seven named values print their names, every other value prints
      `event_type(<n>)`, and no two values print alike. */
  lemma EventTypePrinter(a: EventType, b: EventType)
    ensures !IsNamedEventType(a) <==> EventTypeToString(a) == "event_type(" + IntToString(a as int) + ")"
    ensures EventTypeToString(a) == EventTypeToString(b) <==> a == b
  {
    EventTypeTextLength(a);
    EventTypeTextLength(b);
    IntToStringStart(a as int);
    if EventTypeToString(a) == EventTypeToString(b) && !IsNamedEventType(a) && !IsNamedEventType(b) {
      Unwrap("event_type(", IntToString(a as int), IntToString(b as int), ")");
      IntToStringInjective(a as int, b as int);
    }
  }

  /** `enum class state : int`; any int can be cast to it. */
  newtype State = int

  const Closed: State := 0
  const Connecting: State := 1
  const Associating: State := 2
  const Connected: State := 3
  const ReadOnly: State := 5
  const NotConnected: State := 999
  const ExpiredSession: State := -112
  const AuthenticationFailed: State := -113

  /** The states the printer names; associating and not_connected are not. */
  predicate IsNamedState(s: State)
  {
    s == Closed || s == Connecting || s == Connected || s == ReadOnly
    || s == ExpiredSession || s == AuthenticationFailed
  }

  function StateToString(s: State): string
  {
    if s == Closed then "closed"
    else if s == Connecting then "connecting"
    else if s == Connected then "connected"
    else if s == ReadOnly then "read_only"
    else if s == ExpiredSession then "expired_session"
    else if s == AuthenticationFailed then "authentication_failed"
    else "state(" + IntToString(s as int) + ")"
  }

  /** Only the fallback text `state(<n>)` starts with 's'. */
  lemma StateTextStart(s: State)
    ensures |StateToString(s)| > 0
    ensures StateToString(s)[0] == 's' <==> !IsNamedState(s)
  {
  }

  /** Six states print their names; every other value, associating included,
      prints `state(<n>)`; no two values print alike. */
  lemma StatePrinter(a: State, b: State)
    ensures !IsNamedState(a) <==> StateToString(a) == "state(" + IntToString(a as int) + ")"
    ensures StateToString(Associating) == "state(2)"
    ensures StateToString(a) == StateToString(b) <==> a == b
  {
    assert NatToString(2) == "2";
    StateTextStart(a);
    StateTextInjective(a, b);
  }

  /** No two states print alike. */
  lemma StateTextInjective(a: State, b: State)
    ensures StateToString(a) == StateToString(b) ==> a == b
  {
    StateTextStart(a);
    StateTextStart(b);
    if StateToString(a) == StateToString(b) && !IsNamedState(a) && !IsNamedState(b) {
      Unwrap("state(", IntToString(a as int), IntToString(b as int), ")");
      IntToStringInjective(a as int, b as int);
    }
  }
}
