/** Access control: permission bit-sets, ACL rules with their equality and
    ordering, ordered rule lists and their printers (src/zk/acl.hpp,
    src/zk/acl.cpp). */
module Acl {
  import opened Text
  import opened Bits

  // ---------------------------------------------------------------------------
  // permission
  // ---------------------------------------------------------------------------

  /** Permissions as their `unsigned int` value; rules are ordered by it. */
  datatype Permission = Permission(value: Word)

  const NoPermission := Permission(0)
  const Read := Permission(1)
  const Write := Permission(2)
  const Create := Permission(4)
  const Erase := Permission(8)
  const Admin := Permission(16)
  const All := Permission(31)

  function Union(a: Permission, b: Permission): Permission { Permission(Or32(a.value, b.value)) }
  function Intersect(a: Permission, b: Permission): Permission { Permission(And32(a.value, b.value)) }
  function Complement(a: Permission): Permission { Permission(BitNot(a.value)) }

  /** `allows(self, perform)`: `self` grants every permission in `perform`. */
  predicate Allows(self: Permission, perform: Permission)
  {
    Intersect(self, perform) == perform
  }

  /** `all` is the union of the five single permissions. */
  lemma AllIsEveryFlag()
    ensures All == Union(Union(Union(Union(Read, Write), Create), Erase), Admin)
  {
  }

  lemma AllowsNothing(p: Permission)
    ensures Allows(p, NoPermission)
  {
  }

  /** A union allows each of its operands, e.g. `allows(read | write, read)`. */
  lemma AllowsUnionPart(a: Permission, b: Permission)
    ensures Allows(Union(a, b), a) && Allows(Union(a, b), b)
  {
    AndOrAbsorb(a.value, b.value);
    AndOrAbsorb(b.value, a.value);
    BitOrComm(a.value, b.value);
  }

  /** A permission allows a union exactly when it allows both operands. */
  lemma AllowsUnion(p: Permission, a: Permission, b: Permission)
    ensures Allows(p, Union(a, b)) <==> Allows(p, a) && Allows(p, b)
  {
    AndOfOr(p.value, a.value, b.value);
  }

  /** `all` allows exactly the permissions made of the five known flags. */
  lemma AllowsAll(p: Permission)
    ensures Allows(All, p) <==> p.value < 32
  {
    assert Pow2(5) == 32;
    AndLowOnes(p.value, 5);
  }

  lemma PermissionComplement(p: Permission)
    ensures Complement(Complement(p)) == p
    ensures Intersect(p, Complement(p)) == NoPermission
  {
    ComplementLaws(p.value);
  }

  /** The names of the flags selected by five booleans, in printing order. */
  function FlagNames(r: bool, w: bool, c: bool, e: bool, a: bool): seq<string>
  {
    (if r then ["read"] else []) + (if w then ["write"] else [])
    + (if c then ["create"] else []) + (if e then ["erase"] else [])
    + (if a then ["admin"] else [])
  }

  /** The names of the known permissions `p` allows, in printing order. */
  function PermissionFlagNames(p: Permission): seq<string>
  {
    FlagNames(Allows(p, Read), Allows(p, Write), Allows(p, Create), Allows(p, Erase), Allows(p, Admin))
  }

  function PermissionToString(p: Permission): string
  {
    if p == NoPermission then "none"
    else if p == All then "all"
    else Join(PermissionFlagNames(p), "|")
  }

  function FlagIf(b: bool, flag: nat): nat { if b then flag else 0 }

  /** Reads back a rendering of PermissionToString (its partner): the
      permission holding exactly the flags named between the '|'s. */
  function ParsePermission(s: string): Permission
  {
    if s == "none" then NoPermission
    else if s == "all" then All
    else
      var names := Split(s, '|');
      Permission(FlagIf("read" in names, 1) + FlagIf("write" in names, 2)
                 + FlagIf("create" in names, 4) + FlagIf("erase" in names, 8)
                 + FlagIf("admin" in names, 16))
  }

  /** Allowing a single flag is testing its bit. */
  lemma FlagBits(p: Permission)
    ensures Allows(p, Read) <==> BitAt(p.value, 0) == 1
    ensures Allows(p, Write) <==> BitAt(p.value, 1) == 1
    ensures Allows(p, Create) <==> BitAt(p.value, 2) == 1
    ensures Allows(p, Erase) <==> BitAt(p.value, 3) == 1
    ensures Allows(p, Admin) <==> BitAt(p.value, 4) == 1
  {
    assert Pow2(0) == 1 && Pow2(1) == 2 && Pow2(2) == 4 && Pow2(3) == 8 && Pow2(4) == 16;
    SingleBit(p.value, 0);
    SingleBit(p.value, 1);
    SingleBit(p.value, 2);
    SingleBit(p.value, 3);
    SingleBit(p.value, 4);
  }

  /** A value below 32 is the sum of its five low bits. */
  lemma FiveBits(x: nat)
    requires x < 32
    ensures x == BitAt(x, 0) + 2 * BitAt(x, 1) + 4 * BitAt(x, 2) + 8 * BitAt(x, 3) + 16 * BitAt(x, 4)
  {
    assert Pow2(5) == 32;
    LowBitsValue(x, 5);
    var x1, x2, x3, x4 := x / 2, x / 2 / 2, x / 2 / 2 / 2, x / 2 / 2 / 2 / 2;
    assert LowBits(x4, 1) == BitAt(x4, 0);
    assert LowBits(x3, 2) == BitAt(x3, 0) + 2 * LowBits(x4, 1);
    assert LowBits(x2, 3) == BitAt(x2, 0) + 2 * LowBits(x3, 2);
    assert LowBits(x1, 4) == BitAt(x1, 0) + 2 * LowBits(x2, 3);
    assert LowBits(x, 5) == BitAt(x, 0) + 2 * LowBits(x1, 4);
    assert BitAt(x, 1) == BitAt(x1, 0);
    assert BitAt(x, 2) == BitAt(x1, 1) == BitAt(x2, 0);
    assert BitAt(x, 3) == BitAt(x1, 2) == BitAt(x2, 1) == BitAt(x3, 0);
    assert BitAt(x, 4) == BitAt(x1, 3) == BitAt(x2, 2) == BitAt(x3, 1) == BitAt(x4, 0);
  }

  lemma FlagNamesMembership(r: bool, w: bool, c: bool, e: bool, a: bool)
    ensures ("read" in FlagNames(r, w, c, e, a)) == r
    ensures ("write" in FlagNames(r, w, c, e, a)) == w
    ensures ("create" in FlagNames(r, w, c, e, a)) == c
    ensures ("erase" in FlagNames(r, w, c, e, a)) == e
    ensures ("admin" in FlagNames(r, w, c, e, a)) == a
  {
    assert "write"[0] != "erase"[0] && "write"[0] != "admin"[0] && "erase"[0] != "admin"[0];
    assert "read" != "write" && "read" != "erase" && "read" != "admin";
  }

  /** A '|'-joined list of flag names is neither "none" nor "all". */
  lemma FlagNamesText(r: bool, w: bool, c: bool, e: bool, a: bool)
    requires r || w || c || e || a
    ensures Join(FlagNames(r, w, c, e, a), "|") != "none"
    ensures Join(FlagNames(r, w, c, e, a), "|") != "all"
    ensures forall k :: 0 <= k < |FlagNames(r, w, c, e, a)| ==> '|' !in FlagNames(r, w, c, e, a)[k]
  {
    var names := FlagNames(r, w, c, e, a);
    JoinPrefix(names, "|");
    assert names[0] in {"read", "write", "create", "erase", "admin"};
  }

  /** Reading back a non-empty list of flag names finds exactly those flags. */
  lemma ParseFlagNames(r: bool, w: bool, c: bool, e: bool, a: bool)
    requires r || w || c || e || a
    ensures ParsePermission(Join(FlagNames(r, w, c, e, a), "|")).value
            == FlagIf(r, 1) + FlagIf(w, 2) + FlagIf(c, 4) + FlagIf(e, 8) + FlagIf(a, 16)
  {
    var names := FlagNames(r, w, c, e, a);
    FlagNamesText(r, w, c, e, a);
    SplitJoin(names, '|');
    FlagNamesMembership(r, w, c, e, a);
  }

  /** Printing then parsing gives back every permission made of known flags:
      "none" for 0, "all" for 31, else the flags in the order read, write,
      create, erase, admin separated by '|'. */
  lemma PermissionRoundTrip(p: Permission)
    requires p.value < 32
    ensures ParsePermission(PermissionToString(p)) == p
  {
    if p != NoPermission && p != All {
      var r, w, c, e, a := Allows(p, Read), Allows(p, Write), Allows(p, Create), Allows(p, Erase), Allows(p, Admin);
      FlagBits(p);
      FiveBits(p.value);
      assert r || w || c || e || a;
      ParseFlagNames(r, w, c, e, a);
      assert FlagIf(r, 1) + FlagIf(w, 2) + FlagIf(c, 4) + FlagIf(e, 8) + FlagIf(a, 16) == p.value;
    }
  }

  /** The union of the five flags prints as "all". */
  lemma PermissionAllText()
    ensures PermissionToString(Union(Union(Union(Union(Read, Write), Create), Erase), Admin)) == "all"
  {
    assert Union(Union(Union(Union(Read, Write), Create), Erase), Admin) == All;
  }

  /** The renderings pinned down for `none` and single flags. */
  lemma PermissionSingleTexts()
    ensures PermissionToString(NoPermission) == "none"
    ensures PermissionToString(All) == "all"
    ensures PermissionToString(Admin) == "admin"
    ensures PermissionToString(Read) == "read"
  {
    FlagBits(Admin);
    assert PermissionFlagNames(Admin) == ["admin"];
    FlagBits(Read);
    assert PermissionFlagNames(Read) == ["read"];
  }

  lemma ReadWriteText()
    ensures PermissionToString(Union(Read, Write)) == "read|write"
  {
    assert Union(Read, Write) == Permission(3);
    FlagBits(Permission(3));
    assert PermissionFlagNames(Permission(3)) == ["read", "write"];
    JoinTwo("read", "write", "|");
  }

  /** The renderings pinned down for unions of flags. */
  lemma PermissionUnionExamples()
    ensures PermissionToString(Union(Read, Create)) == "read|create"
    ensures PermissionToString(Union(Write, Admin)) == "write|admin"
  {
    assert Union(Read, Create) == Permission(5);
    FlagBits(Permission(5));
    assert PermissionFlagNames(Permission(5)) == ["read", "create"];
    JoinTwo("read", "create", "|");
    assert Union(Write, Admin) == Permission(18);
    FlagBits(Permission(18));
    assert PermissionFlagNames(Permission(18)) == ["write", "admin"];
    JoinTwo("write", "admin", "|");
  }

  lemma PermissionThreeFlagsExample()
    ensures PermissionToString(Union(Union(Read, Create), Erase)) == "read|create|erase"
  {
    assert Union(Union(Read, Create), Erase) == Permission(13);
    FlagBits(Permission(13));
    assert PermissionFlagNames(Permission(13)) == ["read", "create", "erase"];
    JoinThree("read", "create", "erase", "|");
  }

  // ---------------------------------------------------------------------------
  // acl_rule
  // ---------------------------------------------------------------------------

  /** One rule: an authentication scheme, an id under it, and permissions.
      The accessors `scheme()`, `id()` and `permissions()` are its fields. */
  datatype AclRule = AclRule(scheme: string, id: string, permissions: Permission)

  predicate RuleEq(a: AclRule, b: AclRule)
  {
    a.scheme == b.scheme && a.id == b.id && a.permissions == b.permissions
  }

  predicate RuleNe(a: AclRule, b: AclRule) { !RuleEq(a, b) }

  /** `std::tie(scheme, id, permissions) <`: lexicographic, permissions compared
      as unsigned integers. */
  predicate RuleLt(a: AclRule, b: AclRule)
  {
    StringLess(a.scheme, b.scheme)
    || (!StringLess(b.scheme, a.scheme)
        && (StringLess(a.id, b.id)
            || (!StringLess(b.id, a.id) && a.permissions.value < b.permissions.value)))
  }

  predicate RuleLe(a: AclRule, b: AclRule) { !RuleLt(b, a) }
  predicate RuleGt(a: AclRule, b: AclRule) { RuleLt(b, a) }
  predicate RuleGe(a: AclRule, b: AclRule) { !RuleLt(a, b) }

  /** Equality is field-wise, so it is the identity of rules. */
  lemma RuleEquality(a: AclRule, b: AclRule)
    ensures RuleEq(a, b) <==> a == b
    ensures RuleNe(a, b) <==> a != b
  {
  }

  lemma RuleLtIrreflexive(a: AclRule)
    ensures !RuleLt(a, a)
  {
    StringLessIrreflexive(a.scheme);
    StringLessIrreflexive(a.id);
  }

  lemma RuleLtTransitive(a: AclRule, b: AclRule, c: AclRule)
    requires RuleLt(a, b) && RuleLt(b, c)
    ensures RuleLt(a, c)
  {
    StringLessTrichotomy(a.scheme, b.scheme);
    StringLessTrichotomy(b.scheme, c.scheme);
    StringLessTrichotomy(a.id, b.id);
    StringLessTrichotomy(b.id, c.id);
    if a.scheme == b.scheme == c.scheme {
      if a.id == b.id || b.id == c.id {
      } else {
        StringLessTransitive(a.id, b.id, c.id);
        StringLessIrreflexive(a.scheme);
      }
    } else if a.scheme == b.scheme {
    } else if b.scheme == c.scheme {
    } else {
      StringLessTransitive(a.scheme, b.scheme, c.scheme);
    }
  }

  /** Of two different rules, one orders before the other. */
  lemma RuleLtTotal(a: AclRule, b: AclRule)
    ensures RuleLt(a, b) || a == b || RuleLt(b, a)
  {
    if a.scheme != b.scheme {
      StringLessTrichotomy(a.scheme, b.scheme);
      assert StringLess(a.scheme, b.scheme) || StringLess(b.scheme, a.scheme);
    } else if a.id != b.id {
      StringLessIrreflexive(a.scheme);
      StringLessTrichotomy(a.id, b.id);
    } else if a.permissions != b.permissions {
      StringLessIrreflexive(a.scheme);
      StringLessIrreflexive(a.id);
    }
  }

  /** `<=` is `<` or equality, `>=` is `>` or equality. */
  lemma RuleDerivedComparisons(a: AclRule, b: AclRule)
    ensures RuleLe(a, b) <==> RuleLt(a, b) || a == b
    ensures RuleGe(a, b) <==> RuleGt(a, b) || a == b
  {
    RuleLtTotal(a, b);
    RuleLtIrreflexive(a);
    if RuleLt(a, b) && RuleLt(b, a) {
      RuleLtTransitive(a, b, a);
    }
  }

  function RuleToString(r: AclRule): string
  {
    "(" + r.scheme + (if r.id == [] then "" else ":" + r.id) + ", "
    + PermissionToString(r.permissions) + ")"
  }

  /** A permission's text never holds a ':'. */
  lemma PermissionTextHasNoColon(p: Permission)
    ensures ':' !in PermissionToString(p)
  {
    var names := PermissionFlagNames(p);
    if p != NoPermission && p != All {
      JoinAvoids(names, "|", ':');
    }
  }

  /** With an empty id the ":id" part is left out entirely: the text holds no
      ':' beyond those of the scheme; with a non-empty id it follows the
      scheme after one ':'. */
  lemma RuleIdShown(r: AclRule)
    ensures r.id == [] && ':' !in r.scheme ==> ':' !in RuleToString(r)
    ensures r.id != [] ==> RuleToString(r)[1 + |r.scheme|..2 + |r.scheme| + |r.id|] == ":" + r.id
  {
    PermissionTextHasNoColon(r.permissions);
    var t := RuleToString(r);
    if r.id != [] {
      assert t == "(" + r.scheme + (":" + r.id) + (", " + PermissionToString(r.permissions) + ")");
    }
  }

  lemma RulePrinterExample()
    ensures RuleToString(AclRule("ip", "80.23.0.0/16", Union(Read, Write))) == "(ip:80.23.0.0/16, read|write)"
  {
    ReadWriteText();
    var p := Union(Read, Write);
    assert RuleToString(AclRule("ip", "80.23.0.0/16", p))
        == "(" + "ip" + ":" + "80.23.0.0/16" + ", " + PermissionToString(p) + ")";
  }

  // ---------------------------------------------------------------------------
  // acl: an ordered list of rules
  // ---------------------------------------------------------------------------

  /** The rule list; `emplace_back` appends to it in place. */
  class AclList {
    var rules: seq<AclRule>

    /** From a vector or an initializer list: same rules, same order. */
    constructor (initial: seq<AclRule>)
      ensures rules == initial
    {
      rules := initial;
    }

    function Size(): (n: nat)
      reads this
      ensures n == |rules|
    {
      |rules|
    }

    function At(i: nat): (r: AclRule)
      reads this
      requires i < |rules|
      ensures r == rules[i]
    {
      rules[i]
    }

    /** Appends one rule at the end; the earlier rules are unchanged. */
    method EmplaceBack(scheme: string, id: string, permissions: Permission)
      modifies this
      ensures rules == old(rules) + [AclRule(scheme, id, permissions)]
      ensures Size() == old(Size()) + 1
    {
      rules := rules + [AclRule(scheme, id, permissions)];
    }

    /** `reserve` only pre-allocates storage: the rules do not change. */
    method Reserve(capacity: nat)
      modifies this
      ensures rules == old(rules)
    {
    }
  }

  function RuleTexts(rules: seq<AclRule>): (texts: seq<string>)
    ensures |texts| == |rules|
    ensures forall i :: 0 <= i < |rules| ==> texts[i] == RuleToString(rules[i])
  {
    seq(|rules|, i requires 0 <= i < |rules| => RuleToString(rules[i]))
  }

  /** The rules' texts separated by ", ", with a separator only between two
      consecutive rules. */
  method WriteRules(rules: seq<AclRule>) returns (text: string)
    ensures text == Join(RuleTexts(rules), ", ")
  {
    text := JoinLoop(RuleTexts(rules), ", ");
  }

  /** The list printer as written: the rules between '{' and '}'. */
  function AclToStringAsWritten(rules: seq<AclRule>): string
  {
    "{" + Join(RuleTexts(rules), ", ") + "}"
  }

  /** The list printer as its tests expect it: the rules between '[' and ']'. */
  function AclToString(rules: seq<AclRule>): string
  {
    "[" + Join(RuleTexts(rules), ", ") + "]"
  }

  method PrintAclAsWritten(list: AclList) returns (text: string)
    ensures text == AclToStringAsWritten(list.rules)
  {
    var body := WriteRules(list.rules);
    text := "{" + body + "}";
  }

  method PrintAcl(list: AclList) returns (text: string)
    ensures text == AclToString(list.rules)
  {
    var body := WriteRules(list.rules);
    text := "[" + body + "]";
  }

  // ---------------------------------------------------------------------------
  // acls: presets
  // ---------------------------------------------------------------------------

  function CreatorAll(): seq<AclRule> { [AclRule("auth", "", All)] }
  function OpenUnsafe(): seq<AclRule> { [AclRule("world", "anyone", All)] }
  function ReadUnsafe(): seq<AclRule> { [AclRule("world", "anyone", Read)] }

  /** The presets hold one rule each: ("auth", "", all), ("world", "anyone",
      all) and ("world", "anyone", read); "auth" orders before "world". */
  lemma Presets()
    ensures |CreatorAll()| == 1 && |OpenUnsafe()| == 1 && |ReadUnsafe()| == 1
    ensures RuleLt(CreatorAll()[0], OpenUnsafe()[0]) && RuleNe(CreatorAll()[0], OpenUnsafe()[0])
    ensures RuleGe(OpenUnsafe()[0], CreatorAll()[0])
  {
    assert StringLess("auth", "world") by { assert "auth"[0] < "world"[0]; }
  }

  lemma SingleRuleTexts(r: AclRule)
    ensures RuleTexts([r]) == [RuleToString(r)]
  {
  }

  /** A one-rule list prints as that rule between brackets. */
  lemma SingleRuleList(r: AclRule)
    ensures AclToString([r]) == "[" + RuleToString(r) + "]"
  {
    SingleRuleTexts(r);
  }

  /** A rule with an id prints "(scheme:id, permissions)". */
  lemma RuleWithIdText(scheme: string, id: string, p: Permission, text: string)
    requires id != [] && PermissionToString(p) == text
    ensures RuleToString(AclRule(scheme, id, p)) == "(" + scheme + ":" + id + ", " + text + ")"
  {
  }

  /** The corrected printer renders the presets as the library's tests expect. */
  lemma CreatorAllText()
    ensures AclToString(CreatorAll()) == "[(auth, all)]"
  {
    PermissionSingleTexts();
    SingleRuleList(AclRule("auth", "", All));
    assert RuleToString(AclRule("auth", "", All)) == "(" + "auth" + "" + ", " + "all" + ")";
  }

  lemma OpenUnsafeText()
    ensures AclToString(OpenUnsafe()) == "[" + "(world:anyone, all)" + "]"
  {
    PermissionSingleTexts();
    SingleRuleList(AclRule("world", "anyone", All));
    RuleWithIdText("world", "anyone", All, "all");
  }

  /** As written, `open_unsafe()` prints between braces. */
  lemma OpenUnsafeTextAsWritten()
    ensures AclToStringAsWritten(OpenUnsafe()) == "{" + "(world:anyone, all)" + "}"
  {
    PermissionSingleTexts();
    SingleRuleTexts(AclRule("world", "anyone", All));
    RuleWithIdText("world", "anyone", All, "all");
  }

  lemma ReadUnsafeText()
    ensures AclToString(ReadUnsafe()) == "[" + "(world:anyone, read)" + "]"
  {
    PermissionSingleTexts();
    SingleRuleList(AclRule("world", "anyone", Read));
    RuleWithIdText("world", "anyone", Read, "read");
  }

  /** Two rules print separated by ", " inside the brackets. */
  lemma TwoRuleList(a: AclRule, b: AclRule)
    ensures AclToString([a, b]) == "[" + RuleToString(a) + ", " + RuleToString(b) + "]"
  {
    assert RuleTexts([a, b]) == [RuleToString(a), RuleToString(b)];
    JoinTwo(RuleToString(a), RuleToString(b), ", ");
  }

  lemma AuthReadText()
    ensures RuleToString(AclRule("auth", "", Read)) == "(auth, read)"
  {
    PermissionSingleTexts();
    assert RuleToString(AclRule("auth", "", Read)) == "(" + "auth" + "" + ", " + "read" + ")";
  }

  lemma IpAllText()
    ensures RuleToString(AclRule("ip", "50.40.30.0/24", All)) == "(ip:50.40.30.0/24, all)"
  {
    PermissionSingleTexts();
    RuleWithIdText("ip", "50.40.30.0/24", All, "all");
  }

  lemma TwoRuleText()
    ensures AclToString([AclRule("auth", "", Read), AclRule("ip", "50.40.30.0/24", All)])
            == "[" + "(auth, read)" + ", " + "(ip:50.40.30.0/24, all)" + "]"
  {
    AuthReadText();
    IpAllText();
    TwoRuleList(AclRule("auth", "", Read), AclRule("ip", "50.40.30.0/24", All));
  }

  /** The printer as written disagrees with those expectations for every list:
      its text opens with '{' where '[' is expected. */
  lemma AclPrinterAsWrittenDiffers(rules: seq<AclRule>)
    ensures AclToStringAsWritten(rules) != AclToString(rules)
    ensures AclToStringAsWritten(CreatorAll()) == "{(auth, all)}"
  {
    assert AclToStringAsWritten(rules)[0] == '{';
    assert AclToString(rules)[0] == '[';
  }
}
