/** Transactions: the four kinds of operation, their checked accessors and
    printers, and the ordered builders `multi_op` and `multi_result`. */
module Multi {
  import opened Text
  import opened Wrappers
  import Types
  import Acl
  import Results

  // ---------------------------------------------------------------------------
  // op_type
  // ---------------------------------------------------------------------------

  /** `enum class op_type : int`; any int can be cast to it. */
  newtype OpType = int

  const CheckType: OpType := 0
  const CreateType: OpType := 1
  const EraseType: OpType := 2
  const SetType: OpType := 3

  predicate IsNamedOpType(t: OpType) { CheckType <= t <= SetType }

  function OpTypeToString(t: OpType): string
  {
    if t == CheckType then "check"
    else if t == CreateType then "create"
    else if t == EraseType then "erase"
    else if t == SetType then "set"
    else "op_type(" + IntToString(t as int) + ")"
  }

  /** The four kinds print their names, every other value `op_type(<n>)`; no
      two values print alike, and no rendering holds a '{'. */
  lemma OpTypePrinter(a: OpType, b: OpType)
    ensures !IsNamedOpType(a) <==> OpTypeToString(a) == "op_type(" + IntToString(a as int) + ")"
    ensures OpTypeToString(a) == OpTypeToString(b) <==> a == b
    ensures '{' !in OpTypeToString(a)
  {
    Types.IntToStringStart(a as int);
    Types.IntToStringStart(b as int);
    NoBraceInNumber(a as int);
    if OpTypeToString(a) == OpTypeToString(b) && !IsNamedOpType(a) && !IsNamedOpType(b) {
      Types.Unwrap("op_type(", IntToString(a as int), IntToString(b as int), ")");
      IntToStringInjective(a as int, b as int);
    }
  }

  lemma NoBraceInNumber(n: int)
    ensures '{' !in IntToString(n)
  {
    NatToStringRoundTrip(if n < 0 then -n else n);
    var s := IntToString(n);
    assert forall i :: 0 <= i < |s| ==> IsDigit(s[i]) || s[i] == '-';
  }

  // ---------------------------------------------------------------------------
  // op
  // ---------------------------------------------------------------------------

  type Buffer = Results.Buffer

  datatype CheckData = CheckData(path: string, check: Types.Version)
  datatype CreateData = CreateData(path: string, data: Buffer, rules: seq<Acl.AclRule>, mode: Types.CreateMode)
  datatype EraseData = EraseData(path: string, check: Types.Version)
  datatype SetData = SetData(path: string, data: Buffer, check: Types.Version)

  /** `op`: a variant holding exactly one of the four payloads. It has no
      assignment, so an op never changes once built; copies are values. */
  datatype Op =
    | CheckOp(checkData: CheckData)
    | CreateOp(createData: CreateData)
    | EraseOp(eraseData: EraseData)
    | SetOp(setData: SetData)
  {
    /** `op::type()`: the kind of the payload held. */
    function Type(): (t: OpType)
      ensures t == CheckType <==> CheckOp?
      ensures t == CreateType <==> CreateOp?
      ensures t == EraseType <==> EraseOp?
      ensures t == SetType <==> SetOp?
    {
      match this
      case CheckOp(_) => CheckType
      case CreateOp(_) => CreateType
      case EraseOp(_) => EraseType
      case SetOp(_) => SetType
    }

    /** Every payload starts with the node's path. */
    function Path(): string
    {
      match this
      case CheckOp(d) => d.path
      case CreateOp(d) => d.path
      case EraseOp(d) => d.path
      case SetOp(d) => d.path
    }
  }

  /** The `logic_error` text of an accessor called on the wrong kind. */
  function InvalidTypeMessage(accessor: string, actual: OpType): string
  {
    "Invalid op type for op::" + accessor + ": " + OpTypeToString(actual)
  }

  function AsCheck(o: Op): (r: Result<CheckData, string>)
    ensures r.Ok? <==> o.Type() == CheckType
    ensures r.Ok? ==> CheckOp(r.value) == o
    ensures r.Err? ==> r.error == InvalidTypeMessage("as_check", o.Type())
  {
    if o.CheckOp? then Ok(o.checkData) else Err(InvalidTypeMessage("as_check", o.Type()))
  }

  function AsCreate(o: Op): (r: Result<CreateData, string>)
    ensures r.Ok? <==> o.Type() == CreateType
    ensures r.Ok? ==> CreateOp(r.value) == o
    ensures r.Err? ==> r.error == InvalidTypeMessage("as_create", o.Type())
  {
    if o.CreateOp? then Ok(o.createData) else Err(InvalidTypeMessage("as_create", o.Type()))
  }

  function AsErase(o: Op): (r: Result<EraseData, string>)
    ensures r.Ok? <==> o.Type() == EraseType
    ensures r.Ok? ==> EraseOp(r.value) == o
    ensures r.Err? ==> r.error == InvalidTypeMessage("as_erase", o.Type())
  {
    if o.EraseOp? then Ok(o.eraseData) else Err(InvalidTypeMessage("as_erase", o.Type()))
  }

  function AsSet(o: Op): (r: Result<SetData, string>)
    ensures r.Ok? <==> o.Type() == SetType
    ensures r.Ok? ==> SetOp(r.value) == o
    ensures r.Err? ==> r.error == InvalidTypeMessage("as_set", o.Type())
  {
    if o.SetOp? then Ok(o.setData) else Err(InvalidTypeMessage("as_set", o.Type()))
  }

  /** Exactly one accessor succeeds on any op, and the failures name the kind
      actually held. */
  lemma ExactlyOneAccessor(o: Op)
    ensures (if AsCheck(o).Ok? then 1 else 0) + (if AsCreate(o).Ok? then 1 else 0)
            + (if AsErase(o).Ok? then 1 else 0) + (if AsSet(o).Ok? then 1 else 0) == 1
    ensures AsCheck(o).Err? ==> AsCheck(o).error == "Invalid op type for op::as_check: " + OpTypeToString(o.Type())
  {
  }

  // Factories

  /** `op::check(path, version = version::any())`. */
  function Check(path: string, check: Types.Version := Types.Any()): (o: Op)
    ensures o.Type() == CheckType && AsCheck(o) == Ok(CheckData(path, check))
  {
    CheckOp(CheckData(path, check))
  }

  /** `op::create(path, data, rules, mode = create_mode::normal)`. */
  function CreateWithRules(path: string, data: Buffer, rules: seq<Acl.AclRule>,
                           mode: Types.CreateMode := Types.Normal): (o: Op)
    ensures o.Type() == CreateType && AsCreate(o) == Ok(CreateData(path, data, rules, mode))
  {
    CreateOp(CreateData(path, data, rules, mode))
  }

  /** `op::create(path, data, mode = create_mode::normal)`: open, unsafe rules. */
  function Create(path: string, data: Buffer, mode: Types.CreateMode := Types.Normal): (o: Op)
    ensures o.Type() == CreateType && AsCreate(o) == Ok(CreateData(path, data, Acl.OpenUnsafe(), mode))
  {
    CreateWithRules(path, data, Acl.OpenUnsafe(), mode)
  }

  /** `op::erase(path, version = version::any())`. */
  function Erase(path: string, check: Types.Version := Types.Any()): (o: Op)
    ensures o.Type() == EraseType && AsErase(o) == Ok(EraseData(path, check))
  {
    EraseOp(EraseData(path, check))
  }

  /** `op::set(path, data, version = version::any())`. */
  function Set(path: string, data: Buffer, check: Types.Version := Types.Any()): (o: Op)
    ensures o.Type() == SetType && AsSet(o) == Ok(SetData(path, data, check))
  {
    SetOp(SetData(path, data, check))
  }

  /** The defaults: any version for check, erase and set, a normal mode and the
      open, unsafe rules for create. */
  lemma FactoryDefaults(path: string, data: Buffer)
    ensures AsCheck(Check(path)).value.check == Types.Any()
    ensures AsErase(Erase(path)).value.check == Types.Any()
    ensures AsSet(Set(path, data)).value.check == Types.Any()
    ensures AsCreate(Create(path, data)).value.mode == Types.Normal
    ensures AsCreate(Create(path, data)).value.rules == [Acl.AclRule("world", "anyone", Acl.All)]
  {
  }

  // Printer

  /** What an op prints after its path: the version, or for create the mode
      and the rules, the rules through the list printer as it is written
      (between '{' and '}'). */
  function Details(o: Op): string
  {
    match o
    case CheckOp(d) => Types.VersionToString(d.check)
    case CreateOp(d) => Types.CreateModeToString(d.mode) + " " + Acl.AclToStringAsWritten(d.rules)
    case EraseOp(d) => Types.VersionToString(d.check)
    case SetOp(d) => Types.VersionToString(d.check)
  }

  /** An op prints as its type name followed by `{<path> <details>}`. */
  function OpToString(o: Op): string
  {
    OpTypeToString(o.Type()) + "{" + o.Path() + " " + Details(o) + "}"
  }

  /** In `name{path details}`, the text before the first '{' is the name
      (which holds none), and when the path holds no ' ' the text after the
      '{' up to the next ' ' is the path. */
  lemma BracedParts(name: string, path: string, details: string)
    requires '{' !in name
    ensures var t := name + "{" + path + " " + details + "}";
      '{' in t && FirstIndex(t, '{') == |name|
      && (' ' !in path ==>
            var rest := t[|name| + 1..];
            ' ' in rest && rest[..FirstIndex(rest, ' ')] == path)
  {
    var t := name + "{" + path + " " + details + "}";
    var tail := path + " " + details + "}";
    assert t == name + ['{'] + tail;
    FirstIndexOfPrefix(name, tail, '{');
    if ' ' !in path {
      assert t[|name| + 1..] == tail;
      assert tail == path + [' '] + (details + "}");
      FirstIndexOfPrefix(path, details + "}", ' ');
    }
  }

  /** Two texts `name{path details}` that agree have the same name, and the
      same path when neither path holds a ' '. */
  lemma BracedInjective(n1: string, p1: string, d1: string, n2: string, p2: string, d2: string)
    requires '{' !in n1 && '{' !in n2
    requires n1 + "{" + p1 + " " + d1 + "}" == n2 + "{" + p2 + " " + d2 + "}"
    ensures n1 == n2
    ensures ' ' !in p1 && ' ' !in p2 ==> p1 == p2
  {
    var t := n1 + "{" + p1 + " " + d1 + "}";
    BracedParts(n1, p1, d1);
    BracedParts(n2, p2, d2);
    assert n1 == t[..FirstIndex(t, '{')];
    assert n2 == t[..FirstIndex(t, '{')];
  }

  /** Two ops that print alike are of the same kind, and have the same path
      when their paths hold no ' '. */
  lemma OpPrinterShowsKindAndPath(a: Op, b: Op)
    requires OpToString(a) == OpToString(b)
    ensures a.Type() == b.Type()
    ensures ' ' !in a.Path() && ' ' !in b.Path() ==> a.Path() == b.Path()
  {
    OpTypePrinter(a.Type(), b.Type());
    OpTypePrinter(b.Type(), a.Type());
    BracedInjective(OpTypeToString(a.Type()), a.Path(), Details(a),
                    OpTypeToString(b.Type()), b.Path(), Details(b));
  }

  lemma CheckOpText()
    ensures OpToString(Check("/")) == "check{/ version(any)}"
  {
  }

  /** The details of a create op with the default mode and rules: the mode,
      then the rules through the list printer as written, between braces. */
  lemma CreateDetailsText(data: Buffer)
    ensures Details(Create("/a", data)) == "normal" + " " + ("{" + "(world:anyone, all)" + "}")
  {
    Acl.OpenUnsafeTextAsWritten();
  }

  /** So the whole create op prints its rules between braces. */
  lemma CreateOpText(data: Buffer)
    ensures OpToString(Create("/a", data))
         == "create" + "{" + "/a" + " " + ("normal" + " " + ("{" + "(world:anyone, all)" + "}")) + "}"
  {
    CreateDetailsText(data);
  }

  // ---------------------------------------------------------------------------
  // multi_op
  // ---------------------------------------------------------------------------

  /** `multi_op`: an ordered list of ops that only grows at the end. */
  class MultiOp {
    var ops: seq<Op>

    /** `multi_op(std::vector<op>)` and the initializer-list form: the ops as
        given, in order. */
    constructor(ops: seq<Op>)
      ensures this.ops == ops
    {
      this.ops := ops;
    }

    function Size(): (n: nat)
      reads this
      ensures n == |ops|
    {
      |ops|
    }

    function At(i: nat): (o: Op)
      reads this
      requires i < |ops|
      ensures o == ops[i]
    {
      ops[i]
    }

    /** `push_back` and `emplace_back`: one op more, at the end. */
    method PushBack(o: Op)
      modifies this
      ensures ops == old(ops) + [o]
      ensures Size() == old(Size()) + 1 && At(Size() - 1) == o
      ensures forall i :: 0 <= i < old(Size()) ==> At(i) == old(ops[i])
    {
      ops := ops + [o];
    }

    /** `reserve`: capacity only, no visible change. */
    method Reserve(capacity: nat)
      ensures ops == old(ops)
    {
    }
  }

  function OpTexts(ops: seq<Op>): (texts: seq<string>)
    ensures |texts| == |ops| && forall i :: 0 <= i < |ops| ==> texts[i] == OpToString(ops[i])
  {
    seq(|ops|, i requires 0 <= i < |ops| => OpToString(ops[i]))
  }

  /** The `multi_op` printer: the ops in order, separated by ", ", between
      '[' and ']'. */
  function MultiOpToString(ops: seq<Op>): string
  {
    "[" + Join(OpTexts(ops), ", ") + "]"
  }

  method PrintMultiOp(m: MultiOp) returns (text: string)
    ensures text == MultiOpToString(m.ops)
  {
    var body := JoinLoop(OpTexts(m.ops), ", ");
    text := "[" + body + "]";
  }

  /** An empty transaction prints "[]", a single op prints between the
      brackets with no separator. */
  lemma MultiOpPrinterShort(o: Op)
    ensures MultiOpToString([]) == "[]"
    ensures MultiOpToString([o]) == "[" + OpToString(o) + "]"
  {
    assert OpTexts([o]) == [OpToString(o)];
  }

  lemma OpTextsSnoc(ops: seq<Op>, o: Op)
    ensures OpTexts(ops + [o]) == OpTexts(ops) + [OpToString(o)]
  {
  }

  /** Appending an op appends ", " and its text before the closing ']'. */
  lemma MultiOpPrinterGrows(ops: seq<Op>, o: Op)
    requires |ops| > 0
    ensures var t := MultiOpToString(ops);
      MultiOpToString(ops + [o]) == t[..|t| - 1] + ", " + OpToString(o) + "]"
  {
    var texts, x := OpTexts(ops), OpToString(o);
    OpTextsSnoc(ops, o);
    JoinSnoc(texts, x, ", ");
    BracketAppend(Join(texts, ", "), x);
  }

  lemma BracketAppend(j: string, x: string)
    ensures var t := "[" + j + "]";
      "[" + (j + ", " + x) + "]" == t[..|t| - 1] + ", " + x + "]"
  {
    var t := "[" + j + "]";
    assert t[..|t| - 1] == "[" + j;
  }

  // ---------------------------------------------------------------------------
  // multi_result
  // ---------------------------------------------------------------------------

  /** What a part holds besides its type: nothing, a create result or a set
      result. */
  datatype PartResult = NoResult | Created(created: Results.CreateResult) | Written(written: Results.SetResult)

  /** `multi_result::part`. */
  datatype Part = Part(partType: OpType, result: PartResult)
  {
    /** `part::type()`. */
    function Type(): OpType { partType }
  }

  /** `part(op_type, nullptr)`: a type and no result. */
  function TypedPart(t: OpType): (p: Part)
    ensures p.Type() == t && p.result.NoResult?
  {
    Part(t, NoResult)
  }

  /** `part(create_result)`: of type create. */
  function CreatedPart(r: Results.CreateResult): (p: Part)
    ensures p.Type() == CreateType && p.result == Created(r)
  {
    Part(CreateType, Created(r))
  }

  /** `part(set_result)`: of type set. */
  function WrittenPart(r: Results.SetResult): (p: Part)
    ensures p.Type() == SetType && p.result == Written(r)
  {
    Part(SetType, Written(r))
  }

  /** `multi_result`: an ordered list of parts that only grows at the end. */
  class MultiResult {
    var parts: seq<Part>

    constructor(parts: seq<Part>)
      ensures this.parts == parts
    {
      this.parts := parts;
    }

    function Size(): (n: nat)
      reads this
      ensures n == |parts|
    {
      |parts|
    }

    function At(i: nat): (p: Part)
      reads this
      requires i < |parts|
      ensures p == parts[i]
    {
      parts[i]
    }

    /** `push_back` and `emplace_back`: one part more, at the end. */
    method PushBack(p: Part)
      modifies this
      ensures parts == old(parts) + [p]
      ensures Size() == old(Size()) + 1 && At(Size() - 1) == p
    {
      parts := parts + [p];
    }
  }
}
