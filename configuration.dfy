/** The server configuration: a list of `key=value` lines and the settings read
    from them, each remembering the line it came from so that an edit rewrites
    that line in place. */
module Configuration {
  import opened Wrappers
  import opened Text

  const DefaultClientPort: nat := 2181
  const DefaultPeerPort: nat := 2888
  const DefaultLeaderPort: nat := 3888
  /** In milliseconds. */
  const DefaultTickTime: int := 2000

  const Uint16Modulus: nat := 0x1_0000
  const SizeModulus: nat := 0x1_0000_0000_0000_0000

  // ---------------------------------------------------------------------------
  // The line pattern `^([^=]+)=([^ #]+)[ #]*$`
  // ---------------------------------------------------------------------------

  predicate IsBlank(c: char) { c == ' ' || c == '#' }

  /** The shape of a line the pattern accepts, with `name` and `data` its two
      groups: a name free of '=', an '=', a value free of ' ' and '#', and
      nothing after it but ' ' and '#'. */
  predicate Matches(line: string, name: string, data: string)
  {
    && |name| > 0 && '=' !in name
    && |data| > 0 && (forall k :: 0 <= k < |data| ==> !IsBlank(data[k]))
    && |name| + 1 + |data| <= |line|
    && line[..|name|] == name && line[|name|] == '='
    && line[|name| + 1..|name| + 1 + |data|] == data
    && (forall k :: |name| + 1 + |data| <= k < |line| ==> IsBlank(line[k]))
  }

  /** The two groups of a match. */
  datatype Match = Match(name: string, data: string)

  /** How many leading characters of `s` are neither ' ' nor '#'. */
  function ValueSpan(s: string): (k: nat)
    ensures k <= |s|
    ensures forall j :: 0 <= j < k ==> !IsBlank(s[j])
    ensures k < |s| ==> IsBlank(s[k])
  {
    if |s| == 0 || IsBlank(s[0]) then 0 else 1 + ValueSpan(s[1..])
  }

  /** Any prefix length free of blanks and ended by a blank or the end is the
      span. */
  lemma {:induction false} ValueSpanUnique(s: string, k: nat)
    requires k <= |s|
    requires forall j :: 0 <= j < k ==> !IsBlank(s[j])
    requires k < |s| ==> IsBlank(s[k])
    ensures ValueSpan(s) == k
  {
    if k > 0 {
      ValueSpanUnique(s[1..], k - 1);
    }
  }

  predicate AllBlank(s: string)
  {
    forall k :: 0 <= k < |s| ==> IsBlank(s[k])
  }

  /** `regex_match` with the line pattern: the name runs to the first '='
      (the class `[^=]` cannot cross it), the value is as long as it can be,
      and only blanks may remain. */
  function MatchLine(line: string): Option<Match>
  {
    if '=' !in line then None
    else
      var i := FirstIndex(line, '=');
      var rest := line[i + 1..];
      var k := ValueSpan(rest);
      if i == 0 || k == 0 || !AllBlank(rest[k..]) then None
      else Some(Match(line[..i], rest[..k]))
  }

  /** Every match MatchLine reports has the pattern's shape. */
  lemma MatchLineSound(line: string)
    requires MatchLine(line).Some?
    ensures Matches(line, MatchLine(line).value.name, MatchLine(line).value.data)
  {
    var i := FirstIndex(line, '=');
    var rest := line[i + 1..];
    var k := ValueSpan(rest);
    var name, data := line[..i], rest[..k];
    assert MatchLine(line).value == Match(name, data);
    assert line[i + 1..i + 1 + k] == data;
    forall j | i + 1 + k <= j < |line|
      ensures IsBlank(line[j])
    {
      assert line[j] == rest[k..][j - (i + 1 + k)];
    }
  }

  /** Every line of the pattern's shape is matched, with the same groups; so
      the groups of a line are unique. */
  lemma MatchLineComplete(line: string, name: string, data: string)
    requires Matches(line, name, data)
    ensures MatchLine(line) == Some(Match(name, data))
  {
    var n := |name|;
    assert line == name + "=" + line[n + 1..];
    FirstIndexOfPrefix(name, line[n + 1..], '=');
    var rest := line[n + 1..];
    assert rest[..|data|] == data;
    ValueSpanUnique(rest, |data|);
    forall j | 0 <= j < |rest[|data|..]|
      ensures IsBlank(rest[|data|..][j])
    {
      assert rest[|data|..][j] == line[n + 1 + |data| + j];
    }
  }

  // ---------------------------------------------------------------------------
  // std::atoi / std::atol
  // ---------------------------------------------------------------------------

  /** `isspace` in the C locale. */
  predicate IsSpace(c: char) { c == ' ' || '\t' <= c <= '\r' }

  function SpaceSpan(s: string): (k: nat)
    ensures k <= |s|
    ensures forall j :: 0 <= j < k ==> IsSpace(s[j])
    ensures k < |s| ==> !IsSpace(s[k])
  {
    if |s| == 0 || !IsSpace(s[0]) then 0 else 1 + SpaceSpan(s[1..])
  }

  function DigitSpan(s: string): (k: nat)
    ensures k <= |s| && AllDigits(s[..k])
    ensures k < |s| ==> !IsDigit(s[k])
  {
    if |s| == 0 || !IsDigit(s[0]) then 0
    else
      var k := 1 + DigitSpan(s[1..]);
      assert s[..k] == [s[0]] + s[1..][..k - 1];
      k
  }

  /** The value of the leading digits of `s`, 0 when there are none. */
  function LeadingNumber(s: string): nat
  {
    DigitsValue(s[..DigitSpan(s)])
  }

  /** `atoi`/`atol`: leading white space, an optional sign, then as many
      digits as follow; 0 when no digit follows. Overflow is not modelled. */
  function Atoi(s: string): int
  {
    var t := s[SpaceSpan(s)..];
    if |t| > 0 && t[0] == '-' then -(LeadingNumber(t[1..]) as int)
    else if |t| > 0 && t[0] == '+' then LeadingNumber(t[1..])
    else LeadingNumber(t)
  }

  lemma DigitSpanAll(s: string)
    requires AllDigits(s)
    ensures DigitSpan(s) == |s|
  {
  }

  /** Reading back a printed natural gives it. */
  lemma AtoiOfNat(n: nat)
    ensures Atoi(NatToString(n)) == n
  {
    var s := NatToString(n);
    NatToStringRoundTrip(n);
    assert !IsSpace(s[0]);
    assert s[SpaceSpan(s)..] == s;
    DigitSpanAll(s);
    assert s[..|s|] == s;
  }

  /** Reading back a printed integer gives it. */
  lemma AtoiOfInt(i: int)
    ensures Atoi(IntToString(i)) == i
  {
    if i < 0 {
      var s := NatToString(-i);
      NatToStringRoundTrip(-i);
      var t := "-" + s;
      assert !IsSpace(t[0]);
      assert t[SpaceSpan(t)..] == t;
      assert t[1..] == s;
      DigitSpanAll(s);
      assert s[..|s|] == s;
    } else {
      AtoiOfNat(i);
    }
  }

  /** How each setting's text is read: a port is cut to 16 bits, a count to the
      width of `size_t`, the tick time is milliseconds, and the leader flag
      is on exactly for "yes". */
  function ReadPort(d: string): (p: nat)
    ensures p < Uint16Modulus
  {
    Atoi(d) % Uint16Modulus
  }

  function ReadMilliseconds(d: string): int { Atoi(d) }

  function ReadCount(d: string): (n: nat)
    ensures n < SizeModulus
  {
    Atoi(d) % SizeModulus
  }

  function ReadServes(d: string): bool { d == "yes" }

  /** How each setting is written back. */
  function ServesText(b: bool): string { if b then "yes" else "no" }

  lemma SmallRemainder(x: nat, m: nat)
    requires x < m
    ensures x % m == x
  {
  }

  /** Each writer is undone by its reader. */
  lemma ReadPortOfText(p: nat)
    requires p < Uint16Modulus
    ensures ReadPort(NatToString(p)) == p
  {
    AtoiOfNat(p);
    SmallRemainder(p, Uint16Modulus);
  }

  lemma ReadMillisecondsOfText(t: int)
    ensures ReadMilliseconds(IntToString(t)) == t
  {
    AtoiOfInt(t);
  }

  lemma ReadCountOfText(n: nat)
    requires n < SizeModulus
    ensures ReadCount(NatToString(n)) == n
  {
    AtoiOfNat(n);
    SmallRemainder(n, SizeModulus);
  }

  lemma ReadServesOfText(b: bool)
    ensures ReadServes(ServesText(b)) == b
  {
  }

  // ---------------------------------------------------------------------------
  // Keys
  // ---------------------------------------------------------------------------

  /** Which setting a name assigns. */
  datatype Key =
    | ClientPortKey | DataDirKey | TickTimeKey | InitLimitKey | SyncLimitKey | LeaderServesKey
    | ServerKey(name: string)
    | UnknownKey(name: string)

  /** The key dispatch of `from_lines`: the six known names, then any name
      starting with "server.", then anything else. */
  function Classify(name: string): Key
  {
    if name == "clientPort" then ClientPortKey
    else if name == "dataDir" then DataDirKey
    else if name == "tickTime" then TickTimeKey
    else if name == "initLimit" then InitLimitKey
    else if name == "syncLimit" then SyncLimitKey
    else if name == "leaderServes" then LeaderServesKey
    else if |name| >= 7 && name[..7] == "server." then ServerKey(name[7..])
    else UnknownKey(name)
  }

  /** The name a key is written under. */
  function KeyName(k: Key): string
  {
    match k
    case ClientPortKey => "clientPort"
    case DataDirKey => "dataDir"
    case TickTimeKey => "tickTime"
    case InitLimitKey => "initLimit"
    case SyncLimitKey => "syncLimit"
    case LeaderServesKey => "leaderServes"
    case ServerKey(n) => "server." + n
    case UnknownKey(n) => n
  }

  /** Classifying loses nothing: the key gives back the name. */
  lemma ClassifyKeepsName(name: string)
    ensures KeyName(Classify(name)) == name
  {
    if Classify(name).ServerKey? {
      assert name == name[..7] + name[7..];
    }
  }

  /** The line `set` writes: "key=text". */
  function SettingLine(k: Key, text: string): string
  {
    KeyName(k) + "=" + text
  }

  /** The key of a server entry or of an unknown setting. */
  function Tagged(server: bool, name: string): Key
  {
    if server then ServerKey(name) else UnknownKey(name)
  }

  // ---------------------------------------------------------------------------
  // What a list of lines sets
  // ---------------------------------------------------------------------------

  datatype Assignment = Assignment(key: Key, data: string)

  /** What one line sets: nothing for an empty line, a comment, or a line the
      pattern rejects. */
  function LineAssignment(line: string): Option<Assignment>
  {
    if line == "" || line[0] == '#' then None
    else match MatchLine(line)
      case None => None
      case Some(m) => Some(Assignment(Classify(m.name), m.data))
  }

  /** What each line sets, in order. */
  function Assignments(ls: seq<string>): (xs: seq<Option<Assignment>>)
    ensures |xs| == |ls|
  {
    if |ls| == 0 then [] else Assignments(ls[..|ls| - 1]) + [LineAssignment(ls[|ls| - 1])]
  }

  lemma {:induction false} AssignmentAt(ls: seq<string>, j: nat)
    requires j < |ls|
    ensures Assignments(ls)[j] == LineAssignment(ls[j])
    decreases |ls|
  {
    if j < |ls| - 1 {
      AssignmentAt(ls[..|ls| - 1], j);
    }
  }

  predicate Assigns(a: Option<Assignment>, k: Key)
  {
    a.Some? && a.value.key == k
  }

  /** A setting's value and the index of the line it came from (`not_a_line`
      is None). */
  datatype Setting<T> = Setting(value: Option<T>, line: Option<nat>)

  /** The value of a setting is on a line that exists. */
  predicate InRange<T>(s: Setting<T>, count: nat)
  {
    (s.value.Some? ==> s.line.Some?) && (s.line.Some? ==> s.line.value < count)
  }

  /** `s` holds the data of line `at`, the last of `xs` assigning `k`. */
  predicate LastAssigned(xs: seq<Option<Assignment>>, k: Key, at: nat, s: Setting<string>)
  {
    && at < |xs| && Assigns(xs[at], k)
    && s == Setting(Some(xs[at].value.data), Some(at))
    && forall j :: at < j < |xs| ==> !Assigns(xs[j], k)
  }

  /** `s` holds the data of line `at`, the first of `xs` assigning `k`. */
  predicate FirstAssigned(xs: seq<Option<Assignment>>, k: Key, at: nat, s: Setting<string>)
  {
    && at < |xs| && Assigns(xs[at], k)
    && s == Setting(Some(xs[at].value.data), Some(at))
    && forall j :: 0 <= j < at ==> !Assigns(xs[j], k)
  }

  /** A scalar setting as the lines give it: the last line assigning `k`
      wins. */
  function ScalarData(xs: seq<Option<Assignment>>, k: Key): Setting<string>
    decreases |xs|
  {
    if |xs| == 0 then Setting(None, None)
    else
      var last := xs[|xs| - 1];
      if Assigns(last, k) then Setting(Some(last.value.data), Some(|xs| - 1))
      else ScalarData(xs[..|xs| - 1], k)
  }

  /** ScalarData is unset when no line assigns `k`, and otherwise holds the
      last assignment. */
  lemma {:induction false} ScalarDataSpec(xs: seq<Option<Assignment>>, k: Key)
    ensures var s := ScalarData(xs, k);
            && (s.line.None? ==> s.value.None? && forall j :: 0 <= j < |xs| ==> !Assigns(xs[j], k))
            && (s.line.Some? ==> LastAssigned(xs, k, s.line.value, s))
    decreases |xs|
  {
    if |xs| > 0 && !Assigns(xs[|xs| - 1], k) {
      var prefix := xs[..|xs| - 1];
      ScalarDataSpec(prefix, k);
      assert forall j :: 0 <= j < |xs| - 1 ==> prefix[j] == xs[j];
    }
  }

  /** One more line: it wins if it assigns `k`. */
  lemma ScalarStep(xs: seq<Option<Assignment>>, i: nat, k: Key)
    requires i < |xs|
    ensures ScalarData(xs[..i + 1], k)
            == if Assigns(xs[i], k) then Setting(Some(xs[i].value.data), Some(i)) else ScalarData(xs[..i], k)
  {
    assert xs[..i + 1][..i] == xs[..i];
  }

  /** `insert` of the entry a line assigns, which keeps an earlier entry of
      the same name. */
  function AddFirst(m: map<string, Setting<string>>, a: Option<Assignment>, server: bool, index: nat): (r: map<string, Setting<string>>)
    ensures forall n :: n in r <==> n in m || Assigns(a, Tagged(server, n))
    ensures forall n :: n in m ==> r[n] == m[n]
    ensures forall n :: n in r && n !in m ==> a.Some? && r[n] == Setting(Some(a.value.data), Some(index))
  {
    match a
    case Some(Assignment(key, data)) =>
      if (if server then key.ServerKey? else key.UnknownKey?) && key.name !in m then
        assert key == Tagged(server, key.name);
        m[key.name := Setting(Some(data), Some(index))]
      else m
    case None => m
  }

  /** The server entries (`server` true) or unknown settings as the lines give
      them: a name keeps the first line that assigns it. */
  function FirstNamed(xs: seq<Option<Assignment>>, server: bool): map<string, Setting<string>>
    decreases |xs|
  {
    if |xs| == 0 then map[]
    else AddFirst(FirstNamed(xs[..|xs| - 1], server), xs[|xs| - 1], server, |xs| - 1)
  }

  /** FirstNamed holds a name exactly when some line assigns it, with the
      first such line. */
  lemma {:induction false} FirstNamedSpec(xs: seq<Option<Assignment>>, server: bool)
    ensures var m := FirstNamed(xs, server);
            && (forall n :: n in m ==> m[n].line.Some? && FirstAssigned(xs, Tagged(server, n), m[n].line.value, m[n]))
            && (forall j, n :: 0 <= j < |xs| && Assigns(xs[j], Tagged(server, n)) ==> n in m)
    decreases |xs|
  {
    if |xs| > 0 {
      var prefix := xs[..|xs| - 1];
      FirstNamedSpec(prefix, server);
      assert forall j :: 0 <= j < |xs| - 1 ==> prefix[j] == xs[j];
      var m := FirstNamed(xs, server);
      var pm := FirstNamed(prefix, server);
      forall n | n in m
        ensures m[n].line.Some? && FirstAssigned(xs, Tagged(server, n), m[n].line.value, m[n])
      {
        if n in pm {
          assert FirstAssigned(prefix, Tagged(server, n), pm[n].line.value, pm[n]);
        }
      }
    }
  }

  /** One more line: its entry is added unless the name is present. */
  lemma NamedStep(xs: seq<Option<Assignment>>, i: nat, server: bool)
    requires i < |xs|
    ensures FirstNamed(xs[..i + 1], server) == AddFirst(FirstNamed(xs[..i], server), xs[i], server, i)
  {
    assert xs[..i + 1][..i] == xs[..i];
  }

  function Decoded<T>(s: Setting<string>, read: string -> T): (r: Setting<T>)
    ensures r.line == s.line && (r.value.Some? <==> s.value.Some?)
    ensures s.value.Some? ==> r.value.value == read(s.value.value)
  {
    Setting(if s.value.Some? then Some(read(s.value.value)) else None, s.line)
  }

  // ---------------------------------------------------------------------------
  // State
  // ---------------------------------------------------------------------------

  /** The fields of a configuration, as one value. */
  datatype ConfigState = ConfigState(
    sourceFile: Option<string>,
    lines: seq<string>,
    clientPort: Setting<nat>,
    dataDirectory: Setting<string>,
    tickTime: Setting<int>,
    initLimit: Setting<nat>,
    syncLimit: Setting<nat>,
    leaderServes: Setting<bool>,
    serverPaths: map<string, Setting<string>>,
    unknownSettings: map<string, Setting<string>>)

  /** Every setting points at an existing line, every map entry holds a value,
      and the port fits 16 bits. */
  predicate WellFormed(s: ConfigState)
  {
    var n := |s.lines|;
    && InRange(s.clientPort, n) && InRange(s.dataDirectory, n) && InRange(s.tickTime, n)
    && InRange(s.initLimit, n) && InRange(s.syncLimit, n) && InRange(s.leaderServes, n)
    && (s.clientPort.value.Some? ==> s.clientPort.value.value < Uint16Modulus)
    && (forall k :: k in s.serverPaths ==> s.serverPaths[k].value.Some? && InRange(s.serverPaths[k], n))
    && (forall k :: k in s.unknownSettings ==> s.unknownSettings[k].value.Some? && InRange(s.unknownSettings[k], n))
  }

  /** `from_lines` as a value: every setting read from the lines. */
  function Parse(ls: seq<string>): ConfigState
  {
    StateOf(ls, Assignments(ls))
  }

  /** The lines `ls`, with the settings that `xs` assigns. */
  function StateOf(ls: seq<string>, xs: seq<Option<Assignment>>): ConfigState
  {
    ConfigState(None, ls,
      Decoded(ScalarData(xs, ClientPortKey), ReadPort),
      ScalarData(xs, DataDirKey),
      Decoded(ScalarData(xs, TickTimeKey), ReadMilliseconds),
      Decoded(ScalarData(xs, InitLimitKey), ReadCount),
      Decoded(ScalarData(xs, SyncLimitKey), ReadCount),
      Decoded(ScalarData(xs, LeaderServesKey), ReadServes),
      FirstNamed(xs, true),
      FirstNamed(xs, false))
  }

  /** One line's effect in `from_lines`: a scalar setting is overwritten,
      while a server entry or an unknown setting is inserted only under a new
      name. */
  function Step(s: ConfigState, a: Option<Assignment>, i: nat): ConfigState
  {
    match a
    case None => s
    case Some(Assignment(key, data)) =>
      match key
      case ClientPortKey => s.(clientPort := Setting(Some(ReadPort(data)), Some(i)))
      case DataDirKey => s.(dataDirectory := Setting(Some(data), Some(i)))
      case TickTimeKey => s.(tickTime := Setting(Some(ReadMilliseconds(data)), Some(i)))
      case InitLimitKey => s.(initLimit := Setting(Some(ReadCount(data)), Some(i)))
      case SyncLimitKey => s.(syncLimit := Setting(Some(ReadCount(data)), Some(i)))
      case LeaderServesKey => s.(leaderServes := Setting(Some(ReadServes(data)), Some(i)))
      case ServerKey(name) =>
        if name in s.serverPaths then s
        else s.(serverPaths := s.serverPaths[name := Setting(Some(data), Some(i))])
      case UnknownKey(name) =>
        if name in s.unknownSettings then s
        else s.(unknownSettings := s.unknownSettings[name := Setting(Some(data), Some(i))])
  }

  /** The lines' effects taken one after the other, from an empty
      configuration. */
  function Fold(xs: seq<Option<Assignment>>): ConfigState
    decreases |xs|
  {
    if |xs| == 0 then StateOf([], [])
    else Step(Fold(xs[..|xs| - 1]), xs[|xs| - 1], |xs| - 1)
  }

  /** A step keeps the last-wins and first-wins readings of the lines. */
  lemma StepAgrees(xs: seq<Option<Assignment>>, i: nat)
    requires i < |xs|
    ensures Step(StateOf([], xs[..i]), xs[i], i) == StateOf([], xs[..i + 1])
  {
    ScalarStep(xs, i, ClientPortKey);
    ScalarStep(xs, i, DataDirKey);
    ScalarStep(xs, i, TickTimeKey);
    ScalarStep(xs, i, InitLimitKey);
    ScalarStep(xs, i, SyncLimitKey);
    ScalarStep(xs, i, LeaderServesKey);
    NamedStep(xs, i, true);
    NamedStep(xs, i, false);
  }

  /** Taking the lines one at a time gives what the last-wins and first-wins
      readings give. */
  lemma {:induction false} FoldAgrees(xs: seq<Option<Assignment>>)
    ensures Fold(xs) == StateOf([], xs)
    decreases |xs|
  {
    if |xs| > 0 {
      var i := |xs| - 1;
      FoldAgrees(xs[..i]);
      StepAgrees(xs, i);
      assert xs[..i + 1] == xs;
    }
  }

  /** Whatever the lines, what they give is well formed. */
  lemma ParseWellFormed(ls: seq<string>)
    ensures WellFormed(Parse(ls))
  {
    StateWellFormed(ls, Assignments(ls));
  }

  lemma StateWellFormed(ls: seq<string>, xs: seq<Option<Assignment>>)
    requires |xs| == |ls|
    ensures WellFormed(StateOf(ls, xs))
  {
    var port := ScalarData(xs, ClientPortKey);
    if port.value.Some? {
      assert StateOf(ls, xs).clientPort.value.value == ReadPort(port.value.value);
    }
    ScalarInRange(xs, ClientPortKey);
    ScalarInRange(xs, DataDirKey);
    ScalarInRange(xs, TickTimeKey);
    ScalarInRange(xs, InitLimitKey);
    ScalarInRange(xs, SyncLimitKey);
    ScalarInRange(xs, LeaderServesKey);
    NamedInRange(xs, true);
    NamedInRange(xs, false);
  }

  lemma ScalarInRange(xs: seq<Option<Assignment>>, k: Key)
    ensures InRange(ScalarData(xs, k), |xs|)
  {
    ScalarDataSpec(xs, k);
  }

  lemma NamedInRange(xs: seq<Option<Assignment>>, server: bool)
    ensures forall n :: n in FirstNamed(xs, server) ==>
              FirstNamed(xs, server)[n].value.Some? && InRange(FirstNamed(xs, server)[n], |xs|)
  {
    FirstNamedSpec(xs, server);
  }

  /** The line a key's setting was read from, if any. */
  function LineOf(s: ConfigState, k: Key): Option<nat>
  {
    match k
    case ClientPortKey => s.clientPort.line
    case DataDirKey => s.dataDirectory.line
    case TickTimeKey => s.tickTime.line
    case InitLimitKey => s.initLimit.line
    case SyncLimitKey => s.syncLimit.line
    case LeaderServesKey => s.leaderServes.line
    case ServerKey(n) => if n in s.serverPaths then s.serverPaths[n].line else None
    case UnknownKey(n) => if n in s.unknownSettings then s.unknownSettings[n].line else None
  }

  /** The line a parsed setting records is a line that assigns that very key. */
  lemma ParseLineAssigns(ls: seq<string>, k: Key)
    ensures LineOf(Parse(ls), k).Some? ==>
              LineOf(Parse(ls), k).value < |ls| && Assigns(Assignments(ls)[LineOf(Parse(ls), k).value], k)
  {
    var xs := Assignments(ls);
    match k
    case ServerKey(n) => FirstNamedSpec(xs, true);
    case UnknownKey(n) => FirstNamedSpec(xs, false);
    case _ => ScalarDataSpec(xs, k);
  }

  /** No two settings of a parsed configuration share a line: a line assigns
      one key at most. */
  lemma ParseLinesDistinct(ls: seq<string>, k1: Key, k2: Key)
    requires k1 != k2 && LineOf(Parse(ls), k1).Some?
    ensures LineOf(Parse(ls), k1) != LineOf(Parse(ls), k2)
  {
    ParseLineAssigns(ls, k1);
    ParseLineAssigns(ls, k2);
  }

  /** The values `operator==` compares: the getters' results (defaults
      applied) and the server and unknown maps without their line numbers. */
  datatype Effective = Effective(
    clientPort: nat, dataDirectory: Option<string>, tickTime: int,
    initLimit: Option<nat>, syncLimit: Option<nat>, leaderServes: Option<bool>,
    servers: map<string, Option<string>>, unknown: map<string, Option<string>>)

  function Values(m: map<string, Setting<string>>): (r: map<string, Option<string>>)
    ensures r.Keys == m.Keys && forall k :: k in m ==> r[k] == m[k].value
  {
    map k | k in m :: m[k].value
  }

  function EffectiveOf(s: ConfigState): Effective
  {
    Effective(
      if s.clientPort.value.Some? then s.clientPort.value.value else DefaultClientPort,
      s.dataDirectory.value,
      if s.tickTime.value.Some? then s.tickTime.value.value else DefaultTickTime,
      s.initLimit.value, s.syncLimit.value, s.leaderServes.value,
      Values(s.serverPaths), Values(s.unknownSettings))
  }

  /** An unset port or tick time compares equal to its default set on any
      line. */
  lemma DefaultsCompareEqual(s: ConfigState, a: nat, b: nat)
    ensures s.clientPort.value.None? ==>
              EffectiveOf(s) == EffectiveOf(s.(clientPort := Setting(Some(DefaultClientPort), Some(a))))
    ensures s.tickTime.value.None? ==>
              EffectiveOf(s) == EffectiveOf(s.(tickTime := Setting(Some(DefaultTickTime), Some(b))))
  {
  }

  /** The outcome of the generic `set`: the new setting and the new lines. */
  datatype Edit<T> = Edit(setting: Setting<T>, lines: seq<string>)

  /** `set(target, value, key, encode)`, with `text` the line "key=encoded"
      for a value. An unset setting gets a new last line; an unset setting
      cleared stays as it is; a set setting has its own line rewritten, and
      clearing it leaves that line empty. */
  function Set<T>(target: Setting<T>, value: Option<T>, text: string, lines: seq<string>): (e: Edit<T>)
    requires InRange(target, |lines|)
    ensures |lines| <= |e.lines| <= |lines| + 1
    ensures e.setting.value == value && InRange(e.setting, |e.lines|)
    ensures forall i :: 0 <= i < |lines| && Some(i) != target.line ==> e.lines[i] == lines[i]
    ensures e.setting.line.Some? ==> e.lines[e.setting.line.value] == (if value.Some? then text else "")
    ensures target.line.Some? ==> e.setting.line == target.line && |e.lines| == |lines|
    ensures target.line.None? && value.Some? ==> e.setting.line == Some(|lines|) && |e.lines| == |lines| + 1
    ensures target.line.None? && value.None? ==> e == Edit(target, lines)
  {
    var targetLine := if value.Some? then text else "";
    if target.line.None? && value.Some? then
      Edit(Setting(value, Some(|lines|)), lines + [targetLine])
    else if target.line.None? then
      Edit(target, lines)
    else
      Edit(Setting(value, target.line), lines[target.line.value := targetLine])
  }

  /** `add_server` as a value: an error for a name already present; otherwise
      a new last line "server.<name>=<host>:<peer>:<leader>". */
  function AddServerTo(s: ConfigState, name: string, hostname: string, peerPort: nat, leaderPort: nat): (r: Result<ConfigState, string>)
    requires WellFormed(s)
    ensures name in s.serverPaths <==> r.Err?
    ensures r.Err? ==> r.error == "Already a server with the name " + name
    ensures r.Ok? ==>
              var address := hostname + ":" + NatToString(peerPort) + ":" + NatToString(leaderPort);
              r.value == s.(lines := s.lines + [SettingLine(ServerKey(name), address)],
                            serverPaths := s.serverPaths[name := Setting(Some(address), Some(|s.lines|))])
  {
    if name in s.serverPaths then Err("Already a server with the name " + name)
    else
      var address := hostname + ":" + NatToString(peerPort) + ":" + NatToString(leaderPort);
      var e := Set(Setting(None, None), Some(address), SettingLine(ServerKey(name), address), s.lines);
      Ok(s.(lines := e.lines, serverPaths := s.serverPaths[name := e.setting]))
  }
  /** Lengthening the lines keeps every recorded line number in range. */
  lemma LinesGrow(s: ConfigState, ls: seq<string>)
    requires WellFormed(s) && |s.lines| <= |ls|
    ensures WellFormed(s.(lines := ls))
  {
  }

  /** A successful `add_server` keeps the configuration well formed and adds
      exactly the new server's address to the effective server list. */
  lemma AddServerToSpec(s: ConfigState, name: string, hostname: string, peerPort: nat, leaderPort: nat)
    requires WellFormed(s) && name !in s.serverPaths
    ensures var r := AddServerTo(s, name, hostname, peerPort, leaderPort);
            var address := hostname + ":" + NatToString(peerPort) + ":" + NatToString(leaderPort);
            && r.Ok?
            && WellFormed(r.value)
            && Values(r.value.serverPaths) == Values(s.serverPaths)[name := Some(address)]
            && EffectiveOf(r.value) == EffectiveOf(s).(servers := EffectiveOf(s).servers[name := Some(address)])
  {
    var address := hostname + ":" + NatToString(peerPort) + ":" + NatToString(leaderPort);
    var t := s.(lines := s.lines + [SettingLine(ServerKey(name), address)]);
    LinesGrow(s, t.lines);
    var entry := Setting(Some(address), Some(|s.lines|));
    var r := AddServerTo(s, name, hostname, peerPort, leaderPort);
    assert r.value == t.(serverPaths := s.serverPaths[name := entry]);
    ValuesUpdate(s.serverPaths, name, entry);
  }

  /** A successful `add_server` keeps the configuration well formed. */
  lemma AddServerToWellFormed(s: ConfigState, name: string, hostname: string, peerPort: nat, leaderPort: nat)
    requires WellFormed(s)
    ensures AddServerTo(s, name, hostname, peerPort, leaderPort).Ok? ==> WellFormed(AddServerTo(s, name, hostname, peerPort, leaderPort).value)
  {
    if name !in s.serverPaths {
      AddServerToSpec(s, name, hostname, peerPort, leaderPort);
    }
  }

  /** `client_port(port)` on a configuration value. */
  function WithClientPort(s: ConfigState, port: nat): ConfigState
    requires WellFormed(s) && port < Uint16Modulus
  {
    var e := Set(s.clientPort, Some(port), SettingLine(ClientPortKey, NatToString(port)), s.lines);
    s.(clientPort := e.setting, lines := e.lines)
  }

  /** Setting the client port keeps the configuration well formed and changes
      no effective setting but the port. */
  lemma WithClientPortSpec(s: ConfigState, port: nat)
    requires WellFormed(s) && port < Uint16Modulus
    ensures WellFormed(WithClientPort(s, port))
    ensures EffectiveOf(WithClientPort(s, port)) == EffectiveOf(s).(clientPort := port)
  {
    var e := Set(s.clientPort, Some(port), SettingLine(ClientPortKey, NatToString(port)), s.lines);
    LinesGrow(s, e.lines);
  }

  /** `data_directory(path)` on a configuration value. */
  function WithDataDirectory(s: ConfigState, path: string): ConfigState
    requires WellFormed(s)
  {
    var e := Set(s.dataDirectory, Some(path), SettingLine(DataDirKey, path), s.lines);
    s.(dataDirectory := e.setting, lines := e.lines)
  }

  /** Setting the data directory keeps the configuration well formed and
      changes no effective setting but the directory. */
  lemma WithDataDirectorySpec(s: ConfigState, path: string)
    requires WellFormed(s)
    ensures WellFormed(WithDataDirectory(s, path))
    ensures EffectiveOf(WithDataDirectory(s, path)) == EffectiveOf(s).(dataDirectory := Some(path))
  {
    var e := Set(s.dataDirectory, Some(path), SettingLine(DataDirKey, path), s.lines);
    LinesGrow(s, e.lines);
  }

  /** Setting the client port, then the data directory, keeps the
      configuration well formed. */
  lemma WithPortAndDirectoryWellFormed(s: ConfigState, port: nat, path: string)
    requires WellFormed(s) && port < Uint16Modulus
    ensures WellFormed(WithClientPort(s, port))
    ensures WellFormed(WithDataDirectory(WithClientPort(s, port), path))
  {
    var e := Set(s.clientPort, Some(port), SettingLine(ClientPortKey, NatToString(port)), s.lines);
    LinesGrow(s, e.lines);
    var t := WithClientPort(s, port);
    var f := Set(t.dataDirectory, Some(path), SettingLine(DataDirKey, path), t.lines);
    LinesGrow(t, f.lines);
  }

  /** Updating one entry of a settings map updates only that entry's value. */
  lemma ValuesUpdate(m: map<string, Setting<string>>, k: string, x: Setting<string>)
    ensures Values(m[k := x]) == Values(m)[k := x.value]
  {
    var l, r := Values(m[k := x]), Values(m)[k := x.value];
    assert l.Keys == r.Keys;
    assert forall j :: j in l ==> l[j] == r[j];
  }


  // ---------------------------------------------------------------------------
  // The configuration object
  // ---------------------------------------------------------------------------

  // ---------------------------------------------------------------------------
  // Reading lines from a text (`from_string`, `from_stream`)
  // ---------------------------------------------------------------------------

  /** One `std::getline`: the text up to the first '\n', and what follows
      that '\n'; the whole text when it holds none. */
  function GetLine(s: string): (r: (string, string))
    requires s != ""
    ensures '\n' !in r.0 && |r.1| < |s|
    ensures '\n' in s ==> s == r.0 + "\n" + r.1
    ensures '\n' !in s ==> r == (s, "")
  {
    if '\n' in s then
      var i := FirstIndex(s, '\n');
      assert s == s[..i] + "\n" + s[i + 1..];
      (s[..i], s[i + 1..])
    else (s, "")
  }

  /** The lines `getline` yields until it fails: a final '\n' ends the last
      line rather than starting an empty one, and an empty text has none. */
  function Lines(s: string): seq<string>
    decreases |s|
  {
    if s == "" then [] else [GetLine(s).0] + Lines(GetLine(s).1)
  }

  /** Lines each followed by a '\n', as a file of them is written. */
  function Terminated(ls: seq<string>): string
    decreases |ls|
  {
    if |ls| == 0 then "" else ls[0] + "\n" + Terminated(ls[1..])
  }

  /** A line before a '\n' is read first, and the rest after it. */
  lemma LinesCons(a: string, b: string)
    requires '\n' !in a
    ensures Lines(a + "\n" + b) == [a] + Lines(b)
  {
    var t := a + "\n" + b;
    FirstIndexOfPrefix(a, b, '\n');
    assert t[..|a|] == a;
    assert t[|a| + 1..] == b;
    assert GetLine(t) == (a, b);
  }

  lemma ConsAppend<T>(xs: seq<T>, ys: seq<T>)
    requires |xs| > 0
    ensures [xs[0]] + (xs[1..] + ys) == xs + ys
  {
    assert [xs[0]] + xs[1..] == xs;
  }

  /** Lines written one per '\n'-terminated line are read back in front of
      whatever text follows them. */
  lemma {:induction false} LinesOfTerminated(ls: seq<string>, rest: string)
    requires forall k :: 0 <= k < |ls| ==> '\n' !in ls[k]
    ensures Lines(Terminated(ls) + rest) == ls + Lines(rest)
    decreases |ls|
  {
    if |ls| == 0 {
      assert Terminated(ls) + rest == rest;
    } else {
      var t := Terminated(ls[1..]);
      LinesOfTerminated(ls[1..], rest);
      assert Terminated(ls) + rest == ls[0] + "\n" + (t + rest);
      LinesCons(ls[0], t + rest);
      ConsAppend(ls, Lines(rest));
    }
  }

  /** Reading back '\n'-terminated lines gives them back, and so does a
      last line left without its '\n'. */
  lemma LinesRoundTrip(ls: seq<string>, last: string)
    requires forall k :: 0 <= k < |ls| ==> '\n' !in ls[k]
    requires '\n' !in last
    ensures Lines(Terminated(ls)) == ls
    ensures last != "" ==> Lines(Terminated(ls) + last) == ls + [last]
  {
    LinesOfTerminated(ls, "");
    assert Terminated(ls) + "" == Terminated(ls);
    LinesOfTerminated(ls, last);
    LinesOfOneLine(last);
  }

  /** Text with no '\n' at all is one line, unless it is empty. */
  lemma LinesOfOneLine(s: string)
    requires '\n' !in s
    ensures Lines(s) == if s == "" then [] else [s]
  {
  }

  /** The `getline` loop of `from_stream` over a text: every line in order.
      Reading from a text always ends at its end, so the loop never leaves
      the stream short of EOF. */
  method ReadLines(s: string) returns (lines: seq<string>)
    ensures lines == Lines(s)
  {
    lines := [];
    var rest := s;
    while rest != ""
      invariant lines + Lines(rest) == Lines(s)
      decreases |rest|
    {
      var next := GetLine(rest);
      lines := lines + [next.0];
      rest := next.1;
    }
  }

  class Configuration {
    var sourceFile: Option<string>
    var lines: seq<string>
    var clientPort: Setting<nat>
    var dataDirectory: Setting<string>
    var tickTime: Setting<int>
    var initLimit: Setting<nat>
    var syncLimit: Setting<nat>
    var leaderServes: Setting<bool>
    var serverPaths: map<string, Setting<string>>
    var unknownSettings: map<string, Setting<string>>

    function State(): ConfigState
      reads this
    {
      ConfigState(sourceFile, lines, clientPort, dataDirectory, tickTime, initLimit, syncLimit,
                  leaderServes, serverPaths, unknownSettings)
    }

    predicate Valid()
      reads this
    {
      WellFormed(State())
    }

    /** No file, no lines, nothing set. */
    constructor()
      ensures State() == Parse([]) && Valid()
    {
      sourceFile := None;
      lines := [];
      clientPort := Setting(None, None);
      dataDirectory := Setting(None, None);
      tickTime := Setting(None, None);
      initLimit := Setting(None, None);
      syncLimit := Setting(None, None);
      leaderServes := Setting(None, None);
      serverPaths := map[];
      unknownSettings := map[];
    }

    /** `from_lines`: each line in turn is skipped, or matched and dispatched
        on its name; the lines are kept verbatim. */
    static method FromLines(ls: seq<string>) returns (c: Configuration)
      ensures fresh(c) && c.State() == Parse(ls)
    {
      c := new Configuration();
      ghost var xs := Assignments(ls);
      for lineNo := 0 to |ls|
        invariant c.State() == Fold(xs[..lineNo])
      {
        var assignment := LineAssignment(ls[lineNo]);
        AssignmentAt(ls, lineNo);
        assert xs[..lineNo + 1][..lineNo] == xs[..lineNo];
        c.Apply(assignment, lineNo);
      }
      assert xs[..|ls|] == xs;
      FoldAgrees(xs);
      c.lines := ls;
    }

    /** `from_string`: the text's lines as `getline` yields them, then
        `from_lines`. */
    static method FromString(text: string) returns (c: Configuration)
      ensures fresh(c) && c.State() == Parse(Lines(text))
    {
      var ls := ReadLines(text);
      c := FromLines(ls);
    }

    /** The dispatch of one line in `from_lines`, by the key its name
        gives. */
    method Apply(assignment: Option<Assignment>, lineNo: nat)
      modifies this
      ensures State() == Step(old(State()), assignment, lineNo)
    {
      match assignment {
        case None =>
        case Some(Assignment(key, data)) =>
          var here := Some(lineNo);
          match key {
            case ClientPortKey => clientPort := Setting(Some(ReadPort(data)), here);
            case DataDirKey => dataDirectory := Setting(Some(data), here);
            case TickTimeKey => tickTime := Setting(Some(ReadMilliseconds(data)), here);
            case InitLimitKey => initLimit := Setting(Some(ReadCount(data)), here);
            case SyncLimitKey => syncLimit := Setting(Some(ReadCount(data)), here);
            case LeaderServesKey => leaderServes := Setting(Some(ReadServes(data)), here);
            case ServerKey(name) =>
              if name !in serverPaths {
                serverPaths := serverPaths[name := Setting(Some(data), here)];
              }
            case UnknownKey(name) =>
              if name !in unknownSettings {
                unknownSettings := unknownSettings[name := Setting(Some(data), here)];
              }
          }
      }
    }

    /** Replaces every field at once. */
    method Load(s: ConfigState)
      modifies this
      ensures State() == s
    {
      sourceFile, lines := s.sourceFile, s.lines;
      clientPort, dataDirectory, tickTime := s.clientPort, s.dataDirectory, s.tickTime;
      initLimit, syncLimit, leaderServes := s.initLimit, s.syncLimit, s.leaderServes;
      serverPaths, unknownSettings := s.serverPaths, s.unknownSettings;
    }

    /** `is_minimal`: a data directory and a client port, and nothing else. */
    predicate IsMinimal()
      reads this
    {
      dataDirectory.value.Some? && clientPort.value.Some? && |lines| == 2
    }

    /** `client_port()`: the stored port, else 2181. */
    function ClientPort(): (p: nat)
      reads this
      ensures clientPort.value.Some? ==> p == clientPort.value.value
      ensures clientPort.value.None? ==> p == DefaultClientPort
    {
      if clientPort.value.Some? then clientPort.value.value else DefaultClientPort
    }

    /** `tick_time()`: the stored tick time, else 2000 ms. */
    function TickTime(): (t: int)
      reads this
      ensures tickTime.value.Some? ==> t == tickTime.value.value
      ensures tickTime.value.None? ==> t == DefaultTickTime
    {
      if tickTime.value.Some? then tickTime.value.value else DefaultTickTime
    }

    /** `servers()`: every entry's name and address. */
    function Servers(): (m: map<string, string>)
      reads this
      requires Valid()
      ensures m.Keys == serverPaths.Keys
      ensures forall k :: k in m ==> Some(m[k]) == serverPaths[k].value
    {
      map k | k in serverPaths :: serverPaths[k].value.value
    }

    /** `unknown_settings()`: every unrecognised name and its value. */
    function UnknownSettings(): (m: map<string, string>)
      reads this
      requires Valid()
      ensures m.Keys == unknownSettings.Keys
      ensures forall k :: k in m ==> Some(m[k]) == unknownSettings[k].value
    {
      map k | k in unknownSettings :: unknownSettings[k].value.value
    }

    /** `client_port(port)`. */
    method SetClientPort(port: Option<nat>)
      requires Valid() && (port.Some? ==> port.value < Uint16Modulus)
      modifies this
      ensures Valid() && ClientPort() == (if port.Some? then port.value else DefaultClientPort)
      ensures var e := Set(old(clientPort), port, SettingLine(ClientPortKey, if port.Some? then NatToString(port.value) else ""), old(lines));
              State() == old(State()).(clientPort := e.setting, lines := e.lines)
    {
      var e := Set(clientPort, port, SettingLine(ClientPortKey, if port.Some? then NatToString(port.value) else ""), lines);
      LinesGrow(State(), e.lines);
      clientPort, lines := e.setting, e.lines;
    }

    /** `data_directory(path)`. */
    method SetDataDirectory(path: Option<string>)
      requires Valid()
      modifies this
      ensures Valid() && dataDirectory.value == path
      ensures var e := Set(old(dataDirectory), path, SettingLine(DataDirKey, if path.Some? then path.value else ""), old(lines));
              State() == old(State()).(dataDirectory := e.setting, lines := e.lines)
    {
      var e := Set(dataDirectory, path, SettingLine(DataDirKey, if path.Some? then path.value else ""), lines);
      LinesGrow(State(), e.lines);
      dataDirectory, lines := e.setting, e.lines;
    }

    /** `tick_time(time)`, written as its count of milliseconds. */
    method SetTickTime(time: Option<int>)
      requires Valid()
      modifies this
      ensures Valid() && TickTime() == (if time.Some? then time.value else DefaultTickTime)
      ensures var e := Set(old(tickTime), time, SettingLine(TickTimeKey, if time.Some? then IntToString(time.value) else ""), old(lines));
              State() == old(State()).(tickTime := e.setting, lines := e.lines)
    {
      var e := Set(tickTime, time, SettingLine(TickTimeKey, if time.Some? then IntToString(time.value) else ""), lines);
      LinesGrow(State(), e.lines);
      tickTime, lines := e.setting, e.lines;
    }

    /** `init_limit(limit)`. */
    method SetInitLimit(limit: Option<nat>)
      requires Valid()
      modifies this
      ensures Valid() && initLimit.value == limit
      ensures var e := Set(old(initLimit), limit, SettingLine(InitLimitKey, if limit.Some? then NatToString(limit.value) else ""), old(lines));
              State() == old(State()).(initLimit := e.setting, lines := e.lines)
    {
      var e := Set(initLimit, limit, SettingLine(InitLimitKey, if limit.Some? then NatToString(limit.value) else ""), lines);
      LinesGrow(State(), e.lines);
      initLimit, lines := e.setting, e.lines;
    }

    /** `sync_limit(limit)`. */
    method SetSyncLimit(limit: Option<nat>)
      requires Valid()
      modifies this
      ensures Valid() && syncLimit.value == limit
      ensures var e := Set(old(syncLimit), limit, SettingLine(SyncLimitKey, if limit.Some? then NatToString(limit.value) else ""), old(lines));
              State() == old(State()).(syncLimit := e.setting, lines := e.lines)
    {
      var e := Set(syncLimit, limit, SettingLine(SyncLimitKey, if limit.Some? then NatToString(limit.value) else ""), lines);
      LinesGrow(State(), e.lines);
      syncLimit, lines := e.setting, e.lines;
    }

    /** `leader_serves(serve)`, written as "yes" or "no". */
    method SetLeaderServes(serve: Option<bool>)
      requires Valid()
      modifies this
      ensures Valid() && leaderServes.value == serve
      ensures var e := Set(old(leaderServes), serve, SettingLine(LeaderServesKey, if serve.Some? then ServesText(serve.value) else ""), old(lines));
              State() == old(State()).(leaderServes := e.setting, lines := e.lines)
    {
      var e := Set(leaderServes, serve, SettingLine(LeaderServesKey, if serve.Some? then ServesText(serve.value) else ""), lines);
      LinesGrow(State(), e.lines);
      leaderServes, lines := e.setting, e.lines;
    }

    /** `add_server`: fails, changing nothing, when the name is taken. */
    method AddServer(name: string, hostname: string, peerPort: nat := DefaultPeerPort, leaderPort: nat := DefaultLeaderPort)
      returns (error: Option<string>)
      requires Valid()
      modifies this
      ensures Valid()
      ensures var r := AddServerTo(old(State()), name, hostname, peerPort, leaderPort);
              (r.Err? ==> error == Some(r.error) && State() == old(State()))
              && (r.Ok? ==> error == None && State() == r.value)
    {
      var r := AddServerTo(State(), name, hostname, peerPort, leaderPort);
      if r.Ok? {
        AddServerToSpec(State(), name, hostname, peerPort, leaderPort);
      }
      match r {
        case Err(message) => error := Some(message);
        case Ok(s) =>
          lines, serverPaths := s.lines, s.serverPaths;
          error := None;
      }
    }

    /** `add_setting`: the lines with "key=value" appended, read again from
        scratch; only the source file survives. */
    method AddSetting(key: string, value: string)
      modifies this
      ensures State() == Parse(old(lines) + [key + "=" + value]).(sourceFile := old(sourceFile))
      ensures Valid()
    {
      var parsed := FromLines(lines + [key + "=" + value]);
      ParseWellFormed(lines + [key + "=" + value]);
      Load(parsed.State().(sourceFile := sourceFile));
    }

    /** `operator==`: the same object, or the same effective values; lines,
        line numbers and the source file do not take part. */
    function Equals(other: Configuration): (r: bool)
      reads this, other
      ensures r <==> this == other || EffectiveOf(State()) == EffectiveOf(other.State())
    {
      this == other
      || (ClientPort() == other.ClientPort()
          && dataDirectory.value == other.dataDirectory.value
          && TickTime() == other.TickTime()
          && initLimit.value == other.initLimit.value
          && syncLimit.value == other.syncLimit.value
          && leaderServes.value == other.leaderServes.value
          && Values(serverPaths) == Values(other.serverPaths)
          && Values(unknownSettings) == Values(other.unknownSettings))
    }
  }

  /** The lines of `make_minimal(dir, port)`. */
  function MinimalLines(dir: string, port: nat): seq<string>
  {
    [SettingLine(DataDirKey, dir), SettingLine(ClientPortKey, NatToString(port))]
  }

  /** `make_minimal`: the data directory and then the client port, each on a
      line of its own. */
  method MakeMinimal(dir: string, port: nat := DefaultClientPort) returns (c: Configuration)
    requires port < Uint16Modulus
    ensures fresh(c) && c.Valid() && c.IsMinimal()
    ensures c.lines == MinimalLines(dir, port)
    ensures c.dataDirectory.value == Some(dir) && c.ClientPort() == port
  {
    c := new Configuration();
    c.SetDataDirectory(Some(dir));
    c.SetClientPort(Some(port));
  }

  /** A line written as `key=text` reads back as that key and text, when the
      key cannot end early and the text holds no blank. */
  lemma WrittenLineReads(key: Key, text: string)
    requires |KeyName(key)| > 0 && '=' !in KeyName(key) && KeyName(key)[0] != '#'
    requires |text| > 0 && forall k :: 0 <= k < |text| ==> !IsBlank(text[k])
    ensures LineAssignment(SettingLine(key, text)) == Some(Assignment(Classify(KeyName(key)), text))
  {
    var name := KeyName(key);
    var line := name + "=" + text;
    assert line[..|name|] == name;
    assert line[0] == name[0];
    assert line[|name| + 1..|name| + 1 + |text|] == text;
    MatchLineComplete(line, name, text);
  }

  /** The name of each key that a line can be written under is read back as
      that key. */
  lemma ClassifyKnownNames()
    ensures Classify("clientPort") == ClientPortKey && Classify("dataDir") == DataDirKey
  {
  }

  /** The two lines of a minimal configuration assign the data directory and
      the client port. */
  lemma MinimalDataDirLine(dir: string)
    requires |dir| > 0 && forall k :: 0 <= k < |dir| ==> !IsBlank(dir[k])
    ensures LineAssignment(SettingLine(DataDirKey, dir)) == Some(Assignment(DataDirKey, dir))
  {
    WrittenLineReads(DataDirKey, dir);
    ClassifyKnownNames();
  }

  lemma MinimalPortLine(port: nat)
    ensures LineAssignment(SettingLine(ClientPortKey, NatToString(port))) == Some(Assignment(ClientPortKey, NatToString(port)))
  {
    NatToStringRoundTrip(port);
    WrittenLineReads(ClientPortKey, NatToString(port));
    ClassifyKnownNames();
  }

  /** Reading a minimal configuration's lines back gives its data directory
      and port, so it stays minimal across a save and a load. */
  lemma MinimalLinesReadBack(dir: string, port: nat)
    requires port < Uint16Modulus
    requires |dir| > 0 && forall k :: 0 <= k < |dir| ==> !IsBlank(dir[k])
    ensures Parse(MinimalLines(dir, port)).dataDirectory == Setting(Some(dir), Some(0))
    ensures Parse(MinimalLines(dir, port)).clientPort == Setting(Some(port), Some(1))
  {
    var ls := MinimalLines(dir, port);
    var xs := Assignments(ls);
    MinimalDataDirLine(dir);
    MinimalPortLine(port);
    AssignmentAt(ls, 0);
    AssignmentAt(ls, 1);
    ReadPortOfText(port);
    ScalarStep(xs, 0, DataDirKey);
    ScalarStep(xs, 1, DataDirKey);
    ScalarStep(xs, 1, ClientPortKey);
    assert xs[..2] == xs;
  }
}
