# zookeeper-cpp client core, modelled in Dafny

This project models the deterministic, client-side layer of the zookeeper-cpp
library, the part that sits around the native ZooKeeper C client and around
the test-server helpers. It covers:

- **Value vocabulary** (`types.dfy`, `acl.dfy`, `bits.dfy`):
  - strong ids with in-place `++`/`--` and their comparisons;
  - the version sentinels `any()` = -1 and `invalid()` = -42;
  - `create_mode` and `permission` as 32-bit unsigned bit sets, with `is_set` and `allows`;
  - ACL rules with their equality and lexicographic ordering;
  - the `acl` list, and the presets `creator_all`, `open_unsafe` and `read_unsafe`;
  - every printer: event types, states, versions, transaction ids, stats, modes, permissions, rules and lists.
- **Error taxonomy** (`errors.dfy`):
  - the numeric `error_code` list and its range predicates;
  - `to_string(error_code)`;
  - the `throw_error` dispatch, modelled as the error value it throws: code, exception family and description;
  - the message `to_string(code) + ": " + description`.
- **Transactions** (`multi.dfy`):
  - the four-way `op` variant with its factories, `type()` and the checked `as_*` accessors;
  - the `op` printers;
  - the `multi_op` and `multi_result` builders, as classes over a sequence;
  - the `multi_op` printer loop.
- **Connection bookkeeping** (`connection.dfy`):
  - the raw code and state normalisation;
  - the one-shot watcher cells (a data cell and an event cell);
  - the `_watches` table of `connection_zk`, with its registration, delivery and `close()`;
  - the exists callbacks;
  - the transaction completer, including the binary search for the failed index.
  - Each native call is a code it returns, or a callback arriving with a code and a payload.
- **Server-side helpers**:
  - `configuration.dfy`: the line-oriented `key=value` reader, with its regular expression written as a matcher and `atoi`/`atol` written out; the in-place line editor `set`, `add_server` and `add_setting`; the getters with their defaults; `make_minimal`/`is_minimal`; and `==`.
  - `package_registry.dfy`: the version-to-class-path table and its registration handles.
  - `classpath.dfy`: `join`, `command_line`, and the first-match search of `find_system_default` with its cached `system_default`. Whether a file exists is a probe function passed in.
  - `server_group.dfy`: the planning in `make_ensemble`, covering ids, ports with a 16-bit counter, peer lists and the connection string; and `start_all_servers`.
- **`notification`** (`notification.dfy`): the variant cell plus tracker, whose move operations empty the source.

`text.dfy` holds the string helpers the printers share: decimal rendering, joining and splitting, and string order. `wrappers.dfy` holds `Option` and `Result`. `results.dfy` holds the plain result records.

Imperative parts of the library are Dafny classes, each method proved against a specification function:

- the id cell;
- the `acl`, `multi_op` and `multi_result` lists;
- the watcher, the connection and the commit completer;
- the configuration;
- the registry and its handles;
- the cached class path;
- the server group;
- the notification.

Loops in the library are methods with loop invariants: `join`, the list printers, `from_lines`, the `getline` loop of `from_stream`, the class-path search, the planning and peer loops of `make_ensemble`, and `start_all_servers`.

Where the library and its description disagree, the model follows the code:

- `stat::is_ephemeral()` is true when `ephemeral_owner == 0`, as written.
- The ACL rule and list types take the header's names (`acl_rule`, `acl`) with the behaviour of `src/zk/acl.cpp`.
- The list printer writes `{...}` while the tests expect `[...]`; see Findings. The `op` printer uses the list printer as written, so a create op prints its rules between braces.
- `register_classpath_server` builds its refusal message from the version after moving it away; see Findings. `Register` returns that message as written.
- Each Findings row keeps the evidently intended definition beside the as-written one, with its property proved, for comparison.
- `connection_zk.cpp` uses `error_code::no_entry`, `closed` and `transaction_failed`, which the enumeration in `src/zk/error.hpp` does not declare. They are extra codes, with the distinct values -1001, -1002 and -1003, which no listed code uses.
- `notification::storage_type` names a `get_acl_result` that `results.hpp` does not declare. It is modelled as a record of an ACL list and a stat.

## Model

| member | source | states |
|---|---|---|
| Types.StrongIdComparisons | src/zk/types.hpp:57-91 | `==` on two ids of one kind is value identity; `!=`, `<=`, `>`, `>=` are the negation and derivations of `<`; `<` is irreflexive, transitive and total, as on the underlying integers |
| Types.Incremented | src/zk/types.hpp:30-34 | `++` on the underlying type: the result is representable, and it is one more than the input except for the largest `size_t`, which wraps to 0 |
| Types.Decremented | src/zk/types.hpp:43-47 | `--` on the underlying type: the result is representable, and it is one less than the input except for the `size_t` 0, which wraps to 2^64-1 |
| Types.IncrementDecrementInverse | src/zk/types.hpp:30-54 | `--` undoes `++` and `++` undoes `--` in both widths, wrap-around included |
| Types.IdCell.constructor | src/zk/types.hpp:22-24 | the id holds exactly the value it was built with, which fits the underlying integer type |
| Types.IdCell.PreIncrement | src/zk/types.hpp:30-34 | prefix `++` gives the `Incremented` value in the id's width (one more, the largest `size_t` wrapping to 0; never called on the largest `int32_t`, where it is undefined), keeps the value representable and returns the same variable |
| Types.IdCell.PostIncrement | src/zk/types.hpp:36-41 | postfix `++` makes the same width-aware step as prefix `++` and returns the id as it was before |
| Types.IdCell.PreDecrement | src/zk/types.hpp:43-47 | prefix `--` gives the `Decremented` value in the id's width (one less, the `size_t` 0 wrapping to 2^64-1; never called on the smallest `int32_t`), keeps the value representable and returns the same variable |
| Types.IdCell.PostDecrement | src/zk/types.hpp:49-54 | postfix `--` makes the same width-aware step as prefix `--` and returns the id as it was before |
| Types.TransactionIdWraps | src/zk/types.hpp:165-169 | a `transaction_id` (a `size_t`) counted down from 0 reads 2^64-1, and counted up again reads 0 |
| Types.SentinelValues | src/zk/types.hpp:110-119 | `any()` is -1 and `invalid()` is -42 for every version kind, so the two sentinels differ |
| Types.Any | src/zk/types.hpp:118 | the version `any()`, -1 |
| Types.Invalid | src/zk/types.hpp:113 | the version `invalid()`, -42 |
| Types.VersionTextInjective | src/zk/types.cpp:40-50 | `<prefix>(any)` / `<prefix>(invalid)` / `<prefix>(<n>)` never prints two values the same way |
| Types.VersionPrinters | src/zk/types.cpp:40-96 | `version`, `acl_version` and `child_version` print "(any)" exactly for -1, "(invalid)" exactly for -42, and distinct versions as distinct texts |
| Types.VersionToString | src/zk/types.cpp:40-50 | "version(any)" for -1, "version(invalid)" for -42, otherwise "version(<n>)" |
| Types.AclVersionToString | src/zk/types.cpp:63-73 | the same shape under "acl_version" |
| Types.ChildVersionToString | src/zk/types.cpp:86-96 | the same shape under "child_version" |
| Types.TransactionIdPrinter | src/zk/types.cpp:109-112 | `transaction_id(<n>)` is a different text for every id |
| Types.TransactionIdToString | src/zk/types.cpp:109-112 | "transaction_id(<n>)" |
| Types.StatFieldsNoSpace | src/zk/types.cpp:125-134 | no printed stat field contains the space that separates the fields |
| Types.StatPrinter | src/zk/types.cpp:125-134 | two stats print alike exactly when data_version, child_version, acl_version, data_size, children_count and `is_ephemeral()` all agree: the printer shows those and nothing else |
| Types.StatToString | src/zk/types.cpp:125-134 | the six fields `{data_version=… child_version=… acl_version=… data_size=… children_count=… ephemeral=…}` joined by single spaces |
| Types.Stat.IsEphemeral | src/zk/types.hpp:235-238 | true when the ephemeral owner is 0, as written |
| Types.IsSetNormal | src/zk/types.hpp:284-287 | every mode holds `normal` |
| Types.IsSetOr | src/zk/types.hpp:268-287 | `a \| b` holds both `a` and `b` |
| Types.IsSetUnionIntro | src/zk/types.hpp:268-287 | a mode holding `a` and `b` holds `a \| b` |
| Types.IsSetUnionElim | src/zk/types.hpp:268-287 | a mode holding `a \| b` holds `a` and `b` |
| Types.Or | src/zk/types.hpp:268-271 | `|` of two modes: the bitwise or of their 32-bit values |
| Types.And | src/zk/types.hpp:273-276 | `&` of two modes: the bitwise and |
| Types.Not | src/zk/types.hpp:278-281 | `~` of a mode: the 32-bit complement |
| Types.IsSet | src/zk/types.hpp:284-287 | `is_set(self, flags)`: every bit of `flags` is in `self` |
| Bits.ComplementLaws | src/zk/types.hpp:278-281 | `~` on a 32-bit unsigned value is an involution and shares no bit with its argument |
| Types.NotLaws | src/zk/types.hpp:273-281 | 32-bit `~` is an involution and `m & ~m` is `normal` |
| Types.FlagsDistinct | src/zk/types.hpp:248-256 | ephemeral, sequential and container are distinct bits |
| Types.KnownModeBits | src/zk/types.hpp:248-287 | a mode with only known flags is the union of the flags `is_set` reports |
| Types.FlagNamesRead | src/zk/types.cpp:172-184 | each printed flag name reads back as its own bit |
| Types.OrFlagsOfNames | src/zk/types.cpp:172-184 | the names the printer lists are exactly the flags the mode holds |
| Types.CreateModeRoundTrip | src/zk/types.cpp:172-184 | reading back the printed mode gives the mode, for every mode with only known flags, so "normal" and the `\|`-joined list lose nothing |
| Types.CreateModeToString | src/zk/types.cpp:172-184 | "normal" for 0, otherwise the names of the held known flags joined by '|' |
| Types.EventTypeTextLength | src/zk/types.cpp:14-27 | named event types print at most 12 characters, unnamed ones at least 13 |
| Types.EventTypePrinter | src/zk/types.cpp:14-27 | exactly the unnamed values print as `event_type(<n>)`, and distinct values print differently |
| Types.EventTypeToString | src/zk/types.cpp:14-27 | the name of each of the seven event types, otherwise "event_type(<n>)" |
| Types.StateTextStart | src/zk/types.cpp:147-159 | only the fallback text starts with 's' |
| Types.StatePrinter | src/zk/types.cpp:147-159 | exactly the unnamed states print as `state(<n>)`, associating among them as `state(2)`, and distinct states print differently |
| Types.StateTextInjective | src/zk/types.cpp:147-159 | two states that print alike are the same state |
| Types.StateToString | src/zk/types.cpp:147-159 | the name of each of the six printed states, otherwise "state(<n>)" |
| Acl.AllIsEveryFlag | src/zk/acl.hpp:19-28 | `all` is the union of read, write, create, erase and admin |
| Acl.Union | src/zk/acl.hpp:30-33 | `|` of two permissions: the 32-bit bitwise or |
| Acl.Intersect | src/zk/acl.hpp:35-38 | `&` of two permissions: the 32-bit bitwise and |
| Acl.Complement | src/zk/acl.hpp:40-43 | `~` of a permission: the 32-bit complement |
| Acl.Allows | src/zk/acl.hpp:49-52 | `allows(self, perform)`: `self & perform == perform` |
| Acl.AllowsNothing | src/zk/acl.hpp:45-52 | every permission allows `none` |
| Acl.AllowsUnionPart | src/zk/acl.hpp:30-52 | `a \| b` allows `a` and allows `b`, e.g. `allows(read\|write, read)` |
| Acl.AllowsUnion | src/zk/acl.hpp:30-52 | `p` allows `a \| b` exactly when it allows `a` and allows `b` |
| Acl.AllowsAll | src/zk/acl.hpp:19-52 | `all` allows exactly the permissions below 32 |
| Acl.PermissionComplement | src/zk/acl.hpp:35-43 | 32-bit `~` is an involution and `p & ~p` is `none` |
| Acl.FlagBits | src/zk/acl.hpp:19-52 | `allows(p, flag)` holds exactly when that flag's bit of `p` is set |
| Acl.FlagNamesMembership | src/zk/acl.cpp:15-31 | the printer lists a flag name exactly when that flag is allowed |
| Acl.FlagNamesText | src/zk/acl.cpp:15-31 | a non-empty flag list never prints as "none" or "all" and no name contains the '\|' separator |
| Acl.ParseFlagNames | src/zk/acl.cpp:15-31 | reading back a printed flag list ORs together exactly the listed flags |
| Acl.PermissionRoundTrip | src/zk/acl.cpp:15-31 | reading back the printed permission gives the permission, for every value below 32 |
| Acl.PermissionToString | src/zk/acl.cpp:15-31 | "none" for no permission, "all" for the five flags, otherwise the allowed flag names joined by '|' |
| Acl.PermissionAllText | src/zk/acl_tests.cpp:12-21 | the union of the five flags prints as "all" |
| Acl.PermissionSingleTexts | src/zk/acl_tests.cpp:23-30 | none, all, admin and read print as their names |
| Acl.ReadWriteText | src/zk/acl.cpp:15-31 | read\|write prints as "read\|write" |
| Acl.PermissionUnionExamples | src/zk/acl_tests.cpp:26-27 | read\|create prints "read\|create" and write\|admin prints "write\|admin" |
| Acl.PermissionThreeFlagsExample | src/zk/acl_tests.cpp:28 | read\|create\|erase prints "read\|create\|erase" |
| Acl.RuleEquality | src/zk/acl.cpp:60-70 | rules are `==` exactly when scheme, id and permissions agree; `!=` is the negation |
| Acl.RuleEq | src/zk/acl.cpp:60-65 | `==`: equal scheme, id and permissions |
| Acl.RuleNe | src/zk/acl.cpp:67-70 | `!=`: not `==` |
| Acl.RuleLt | src/zk/acl.cpp:72-75 | `<`: scheme, then id, then permissions as unsigned, lexicographically |
| Acl.RuleLe | src/zk/acl.cpp:77-80 | `<=`: not `b < a` |
| Acl.RuleGt | src/zk/acl.cpp:82-85 | `>`: `b < a` |
| Acl.RuleGe | src/zk/acl.cpp:87-90 | `>=`: not `a < b` |
| Acl.RuleLtIrreflexive | src/zk/acl.cpp:72-75 | no rule is `<` itself |
| Acl.RuleLtTransitive | src/zk/acl.cpp:72-75 | lexicographic `<` on (scheme, id, permissions) is transitive |
| Acl.RuleLtTotal | src/zk/acl.cpp:72-75 | any two rules are `<` one way, or equal |
| Acl.RuleDerivedComparisons | src/zk/acl.cpp:77-90 | `<=` is `<` or equal and `>=` is `>` or equal |
| Acl.PermissionTextHasNoColon | src/zk/acl.cpp:15-31 | no permission text contains ':' |
| Acl.RuleIdShown | src/zk/acl.cpp:92-99 | a rule with an empty id prints no ":id"; a non-empty id is printed as ":" + id right after the scheme |
| Acl.RuleToString | src/zk/acl.cpp:92-99 | "(scheme, permissions)", with ":id" after the scheme when the id is not empty |
| Acl.RulePrinterExample | src/zk/acl_tests.cpp:36-41 | ("ip", "80.23.0.0/16", read\|write) prints as "(ip:80.23.0.0/16, read\|write)" |
| Acl.AclList.constructor | src/zk/acl.cpp:112-114 | a list built from rules holds them, in order |
| Acl.AclList.Size | src/zk/acl.hpp:133 | `size()` is the number of rules |
| Acl.AclList.At | src/zk/acl.hpp:135 | `operator[]` returns the rule at that index |
| Acl.AclList.EmplaceBack | src/zk/acl.hpp:147-151 | one rule is appended at the end, earlier rules unchanged, size grows by one |
| Acl.AclList.Reserve | src/zk/acl.hpp:145 | `reserve` leaves the rules unchanged |
| Acl.RuleTexts | src/zk/acl.cpp:119-132 | one printed rule per rule, in order |
| Acl.WriteRules | src/zk/acl.cpp:121-130 | the `first`-flag loop writes the rule texts with ", " only between consecutive rules |
| Acl.PrintAclAsWritten | src/zk/acl.cpp:119-132 | the list printer as written: the rules inside '{' and '}' |
| Acl.PrintAcl | src/zk/acl_tests.cpp:68-77 | the list printer as the tests expect: the rules inside '[' and ']' |
| Acl.AclToStringAsWritten | src/zk/acl.cpp:119-132 | the rule texts joined by ", " between '{' and '}', as written |
| Acl.AclToString | src/zk/acl_tests.cpp:68-77 | the rule texts joined by ", " between '[' and ']', as the tests expect |
| Acl.Presets | src/zk/acl.cpp:145-161 | each preset holds one rule, and creator_all's rule is `<`, `!=` and `<=` open_unsafe's (the test's comparisons) |
| Acl.CreatorAll | src/zk/acl.cpp:145-149 | one rule ("auth", "", all) |
| Acl.OpenUnsafe | src/zk/acl.cpp:151-155 | one rule ("world", "anyone", all) |
| Acl.ReadUnsafe | src/zk/acl.cpp:157-161 | one rule ("world", "anyone", read) |
| Acl.SingleRuleList | src/zk/acl.cpp:119-132 | a one-rule list prints as the rule in brackets with no separator |
| Acl.RuleWithIdText | src/zk/acl.cpp:92-99 | a rule with an id prints as "(scheme:id, perms)" |
| Acl.CreatorAllText | src/zk/acl_tests.cpp:70 | creator_all prints as "[(auth, all)]" |
| Acl.OpenUnsafeText | src/zk/acl_tests.cpp:71 | open_unsafe prints as "[(world:anyone, all)]" |
| Acl.ReadUnsafeText | src/zk/acl_tests.cpp:72 | read_unsafe prints as "[(world:anyone, read)]" |
| Acl.OpenUnsafeTextAsWritten | src/zk/acl.cpp:119-132 | as written, `open_unsafe()` prints "{(world:anyone, all)}" |
| Acl.TwoRuleList | src/zk/acl.cpp:119-132 | a two-rule list prints both rules separated by ", " |
| Acl.AuthReadText | src/zk/acl_tests.cpp:74-75 | ("auth", "", read) prints as "(auth, read)" |
| Acl.IpAllText | src/zk/acl_tests.cpp:74-75 | ("ip", "50.40.30.0/24", all) prints as "(ip:50.40.30.0/24, all)" |
| Acl.TwoRuleText | src/zk/acl_tests.cpp:74-75 | the two-rule list of the test prints as "[(auth, read), (ip:50.40.30.0/24, all)]" |
| Acl.AclPrinterAsWrittenDiffers | src/zk/acl.cpp:119-132 | the list printer as written never gives the text the tests expect; creator_all prints as "{(auth, all)}" |
| Errors.AllErrorCodes | src/zk/error.hpp:62-64 | `all_error_codes()` has 31 entries, from ok to reconfiguration_disabled |
| Errors.AllErrorCodesDistinct | src/zk/error.hpp:17-64 | the list holds exactly the listed codes, each once |
| Errors.ErrorRanges | src/zk/error.hpp:66-75 | `is_system_error` is -100 < c <= -1, `is_api_error` is c <= -100, never both, and ok is neither |
| Errors.IsSystemError | src/zk/error.hpp:66-70 | at or below `system_error` and above `api_error` |
| Errors.IsApiError | src/zk/error.hpp:72-75 | at or below `api_error` |
| Errors.ListedNames | src/zk/error.cpp:25-42 | every listed code prints its own name, which reads back as that code |
| Errors.SystemNames | src/zk/error.cpp:25-42 | the same for the system-range codes |
| Errors.ApiNames | src/zk/error.cpp:25-42 | the same for the api-range codes |
| Errors.UnlistedText | src/zk/error.cpp:33 | an unlisted code prints as `error_code(<n>)` |
| Errors.ToStringInjective | src/zk/error.cpp:25-42 | distinct codes print differently |
| Errors.ToString | src/zk/error.cpp:25-42 | the listed name of each of the 31 codes, otherwise "error_code(<n>)" |
| Errors.ToStringExamples | src/zk/error_tests.cpp:36-40 | code 19 prints "error_code(19)"; no_node prints "no_node" |
| Errors.MessageNamesCode | src/zk/error.cpp:84-87 | two errors with one description and one message have one code: the message `to_string(code) + ": " + description` names the code |
| Errors.SameSuffixSamePrefix | src/zk/error.cpp:84-87 | two messages with one description agree on the code text |
| Errors.Message | src/zk/error.cpp:84-87 | `what()`: the code's text, ": ", then the description |
| Errors.ThrowError | src/zk/error.cpp:44-78 | the thrown error carries the code; a system-family exception only for `is_system_error` codes, an api-family one only for `is_api_error` codes |
| Errors.ThrowErrorUnknown | src/zk/error.cpp:76 | `unknown_error` is thrown exactly for unlisted codes and for ok, system_error and api_error |
| Errors.ThrowErrorAgrees | src/zk/error_tests.cpp:8-35 | for each listed code: the exception's `code()` is the code, and its family agrees with the range predicates, apart from the three codes that fall to `unknown_error` |
| Errors.Description | src/zk/error.cpp:96-278 | the fixed description each error class passes to `error`, "Error code not recognized" for `unknown_error` |
| Errors.NoNodeMessage | src/zk/error.cpp:175 | no_node's message is "no_node: Node does not exist" |
| Errors.OkMessage | src/zk/error.cpp:276-278 | ok's message is "ok: Error code not recognized" |
| Errors.OkThrowsUnknown | src/zk/error.cpp:276-278 | ok throws `unknown_error` with the fixed description |
| Errors.UnlistedMessage | src/zk/error.cpp:276-278 | code 19's message is "error_code(19): Error code not recognized" |
| Multi.OpTypePrinter | src/zk/op.cpp:22-32 | exactly the unnamed values print as `op_type(<n>)`, distinct values print differently, and no text contains '{' |
| Multi.OpTypeToString | src/zk/op.cpp:22-32 | "check", "create", "erase" or "set", otherwise "op_type(<n>)" |
| Multi.Op.Type | src/zk/op.cpp:55-58 | `type()` is the tag of the payload held: check, create, erase or set |
| Multi.Op.Path | src/zk/multi.hpp:39-93 | the path every payload starts with |
| Multi.AsCheck | src/zk/op.cpp:60-75 | `as_check` succeeds exactly on a check op and returns its payload; otherwise it fails with "Invalid op type for op::as_check: <type>" |
| Multi.AsCreate | src/zk/op.cpp:128-131 | `as_create` succeeds exactly on a create op and returns its payload; otherwise the `logic_error` text names the accessor and the actual type |
| Multi.AsErase | src/zk/op.cpp:152-155 | the same for `as_erase` |
| Multi.AsSet | src/zk/op.cpp:177-180 | the same for `as_set` |
| Multi.ExactlyOneAccessor | src/zk/op.cpp:60-180 | on every op exactly one of the four accessors succeeds |
| Multi.Check | src/zk/op.cpp:91-94 | `op::check(p, v)` is a check op whose payload is exactly (p, v) |
| Multi.CreateWithRules | src/zk/op.cpp:118-121 | `op::create(p, d, rules, mode)` is a create op storing exactly its arguments |
| Multi.Create | src/zk/op.cpp:123-126 | `op::create` without rules stores `acls::open_unsafe()` as the rules |
| Multi.Erase | src/zk/op.cpp:147-150 | `op::erase(p, v)` is an erase op storing exactly (p, v) |
| Multi.Set | src/zk/op.cpp:172-175 | `op::set(p, d, v)` is a set op storing exactly (p, d, v) |
| Multi.FactoryDefaults | src/zk/multi.hpp:50-93 | the check, erase and set factories default the version to `version::any()`, create defaults to mode normal and rules (world:anyone, all) |
| Multi.BracedParts | src/zk/op.cpp:84-89 | in "<type>{<path> <details>}" the first '{' ends the type name and a path without spaces ends at the first space |
| Multi.BracedInjective | src/zk/op.cpp:184-189 | two payload texts that agree have the same type name, and the same path when paths have no spaces |
| Multi.Details | src/zk/op.cpp:84-170 | what a payload prints after its path: the version, or for create the mode and the rules through the list printer as written |
| Multi.OpToString | src/zk/op.cpp:184-189 | the type name, then `{<path> <details>}` |
| Multi.OpPrinterShowsKindAndPath | src/zk/op.cpp:184-189 | ops that print alike have one kind and, for space-free paths, one path: the printer is the type name immediately followed by the payload, whose create rules go through the list printer as written |
| Multi.CheckOpText | src/zk/op.cpp:84-89 | `check("/")` prints "check{/ version(any)}" |
| Multi.CreateDetailsText | src/zk/op.cpp:110-116 | the details of a default create op are its mode "normal" and then "{(world:anyone, all)}", the open, unsafe rules through the list printer as written |
| Multi.CreateOpText | src/zk/op.cpp:110-116 | `create("/a", data)` prints "create{/a normal {(world:anyone, all)}}": the rules keep the braces of the list printer as written |
| Multi.MultiOp.constructor | src/zk/multi.cpp:269-271 | `multi_op(vector)` holds the given ops unchanged and in order |
| Multi.MultiOp.Size | src/zk/multi.hpp:151 | `size()` is the number of ops |
| Multi.MultiOp.At | src/zk/multi.hpp:153-154 | `operator[]` is the op at that index |
| Multi.MultiOp.PushBack | src/zk/multi.hpp:164-180 | `push_back`/`emplace_back` append at the end, grow the size by one and leave earlier ops unchanged |
| Multi.MultiOp.Reserve | src/zk/multi.hpp:164 | `reserve` leaves the ops unchanged |
| Multi.OpTexts | src/zk/multi.cpp:280-288 | the printer emits one op text per op, in index order |
| Multi.MultiOpToString | src/zk/multi.cpp:276-289 | the op texts joined by ", " between '[' and ']' |
| Multi.PrintMultiOp | src/zk/multi.cpp:276-289 | the `first`-flag loop writes "[" + the op texts joined by ", " + "]" |
| Multi.MultiOpPrinterShort | src/zk/multi.cpp:276-289 | an empty `multi_op` prints "[]", a single op prints "[" + op + "]" with no separator |
| Multi.OpTextsSnoc | src/zk/multi.cpp:280-288 | appending an op appends its text |
| Multi.MultiOpPrinterGrows | src/zk/multi.cpp:280-287 | appending an op to a non-empty list inserts exactly ", " + its text before the closing bracket, so ", " lies only between consecutive ops |
| Multi.TypedPart | src/zk/multi.hpp:197-210 | a part built from a type reports that type and holds no result |
| Multi.CreatedPart | src/zk/multi.hpp:197-210 | a part built from a create result has type create |
| Multi.WrittenPart | src/zk/multi.hpp:197-210 | a part built from a set result has type set |
| Multi.MultiResult.constructor | src/zk/multi.hpp:235 | a result built from parts holds them in order |
| Multi.MultiResult.Size | src/zk/multi.hpp:239 | `size()` is the number of parts |
| Multi.MultiResult.At | src/zk/multi.hpp:241-242 | `operator[]` is the part at that index |
| Multi.MultiResult.PushBack | src/zk/multi.hpp:252-268 | `push_back`/`emplace_back` append at the end and grow the size by one |
| Connection.ErrorCodeFromRaw | src/zk/connection_zk.cpp:69-87 | operation_timeout and session_moved become connection_loss, invalid_callback and invalid_acl become invalid_arguments, every other code is kept, so none of the four is ever produced |
| Connection.ErrorCodeFromRawIdempotent | src/zk/connection_zk.cpp:69-87 | normalising a normalised code changes nothing |
| Connection.StateFromRaw | src/zk/connection_zk.cpp:99-122 | not_connected (999) and associating become connecting, every other value is kept, so neither is ever produced |
| Connection.StateFromRawIdempotent | src/zk/connection_zk.cpp:99-122 | normalising a normalised state changes nothing |
| Connection.SetOnce | src/zk/connection_zk.cpp:216-222 | a set-once cell keeps its first value; an empty one takes the new value |
| Connection.Watcher.constructor | src/zk/connection_zk.cpp:210-212 | a new watcher has delivered neither data nor event |
| Connection.Watcher.DeliverData | src/zk/connection_zk.cpp:258-271 | only the first data delivery sets the data cell; the event cell is untouched |
| Connection.Watcher.DeliverEvent | src/zk/connection_zk.cpp:248-256 | data not yet delivered is failed with `closed` first, then the first event sets the event cell; later events change nothing |
| Connection.DataCompletion | src/zk/connection_zk.cpp:367-388 | a get or get-children watch delivers its payload exactly when the normalised code is ok, otherwise that code |
| Connection.ExistsCompletion | src/zk/connection_zk.cpp:557-578 | ok gives an exists result with the stat, no_entry an absent stat (a result, not an error), any other code is the error |
| Connection.DeliverExists | src/zk/connection_zk.cpp:557-578 | `exists_watcher::deliver_raw` sets the data cell once with that completion and leaves the event cell |
| Connection.DeliverWatchData | src/zk/connection_zk.cpp:367-388 | the data and child watchers set the data cell once with their completion |
| Connection.ZkConnection.constructor | src/zk/connection_zk.cpp:168-200 | a new connection is open with an empty watch table |
| Connection.ZkConnection.State | src/zk/connection_zk.cpp:324-330 | a closed connection reports closed, an open one the normalised native state, never associating or not_connected |
| Connection.ZkConnection.Watch | src/zk/connection_zk.cpp:392-413 | the watcher is added to `_watches` exactly when submission returns ok; otherwise its data cell fails with the mapped code and the table is unchanged |
| Connection.ZkConnection.DeliverWatch | src/zk/connection_zk.cpp:278-303 | a registered watcher is removed before it is notified, so it is notified through the table at most once; an unknown key changes nothing |
| Connection.ZkConnection.Close | src/zk/connection_zk.cpp:305-330 | on an open connection a successful close nulls the handle, empties `_watches` and delivers (session, closed) to every registered watcher; a failing close throws the mapped code; a closed connection is left as it is |
| Connection.WatchThenClose | src/zk/client_tests.cpp:12-23 | a registered watcher sees (session, closed) and data `closed` after close, and the connection reports closed with an empty table |
| Connection.SuccessParts | src/zk/connection_zk.cpp:823-850 | a successful commit yields one part per op at the same index with the op's type; a create carries the created name, a set its stat |
| Connection.LeadingOk | src/zk/connection_zk.cpp:851-858 | the length of the leading run of raw results whose err is 0 |
| Connection.LeadingOkUnique | src/zk/connection_zk.cpp:851-858 | that length is the only index with ok results before it and a failure at it |
| Connection.Partitioned | src/zk/connection_zk.cpp:854-856 | the precondition of `std::partition_point`: no ok result after a failed one |
| Connection.PartitionPoint | src/zk/connection_zk.cpp:854-856 | the binary search `std::partition_point` returns that length on a partitioned sequence, and an index in range on any |
| Connection.CommitCompleter.constructor | src/zk/connection_zk.cpp:802-808 | one raw result per op, every one starting at -42 |
| Connection.CommitCompleter.Record | src/zk/connection_zk.cpp:794-800 | the native library writing one raw result changes only that index |
| Connection.CommitCompleter.Deliver | src/zk/connection_zk.cpp:823-858 | an ok commit gives the index-aligned parts; a failed one reports the code and, on partitioned results, the failed index = length of the leading ok run |
| Connection.FailureBeforeAnyResult | src/zk/connection_zk.cpp:802-808 | a commit failing before any result is filled reports index 0, since every result still holds -42 |
| Connection.PathBufferSize | src/zk/connection_zk.cpp:815-821 | the created-path buffer is longer than the path, by 12 exactly for a sequential create |
| Configuration.ValueSpan | src/zk/server/configuration.cpp:64 | the value part `[^ #]+` extends exactly up to the first ' ' or '#' |
| Configuration.ValueSpanUnique | src/zk/server/configuration.cpp:64 | that end point is the only one with no blank before it and a blank at it |
| Configuration.MatchLineSound | src/zk/server/configuration.cpp:64-83 | a line the hand-written matcher accepts matches `^([^=]+)=([^ #]+)[ #]*$` with that name and value |
| Configuration.MatchLineComplete | src/zk/server/configuration.cpp:64-83 | every name and value the pattern admits for a line is the one the matcher returns, so the match is unique |
| Configuration.MatchLine | src/zk/server/configuration.cpp:64-83 | the name up to the first '=', the longest run of non-blank characters after it as the value, and only ' '/'#' after that; no match when the name or the value is empty |
| Configuration.SpaceSpan | src/zk/server/configuration.cpp:87 | `atoi` skips exactly the leading whitespace |
| Configuration.DigitSpan | src/zk/server/configuration.cpp:87 | `atoi` reads exactly the leading digits |
| Configuration.DigitSpanAll | src/zk/server/configuration.cpp:87 | an all-digit text is read entirely |
| Configuration.AtoiOfNat | src/zk/server/configuration.cpp:87 | `atoi` reads back a printed natural number |
| Configuration.AtoiOfInt | src/zk/server/configuration.cpp:95 | `atol` reads back a printed integer, sign included |
| Configuration.Atoi | src/zk/server/configuration.cpp:87 | leading white space, an optional sign, then the value of the leading digits; 0 when none follow |
| Configuration.ReadPort | src/zk/server/configuration.cpp:87 | the `uint16_t` cast leaves a port below 65536 |
| Configuration.ReadCount | src/zk/server/configuration.cpp:99-103 | the `size_t` cast leaves a count below 2^64 |
| Configuration.ReadPortOfText | src/zk/server/configuration.cpp:87 | a written port below 65536 reads back unchanged |
| Configuration.ReadMillisecondsOfText | src/zk/server/configuration.cpp:95 | a written tick time reads back unchanged |
| Configuration.ReadCountOfText | src/zk/server/configuration.cpp:99-103 | a written count below 2^64 reads back unchanged |
| Configuration.ReadServesOfText | src/zk/server/configuration.cpp:107 | leaderServes is true exactly for "yes", so the written "yes"/"no" reads back |
| Configuration.ReadMilliseconds | src/zk/server/configuration.cpp:95 | `tickTime` read with `atol` |
| Configuration.ReadServes | src/zk/server/configuration.cpp:107 | `leaderServes` is true exactly for "yes" |
| Configuration.ClassifyKeepsName | src/zk/server/configuration.cpp:85-116 | the key dispatch loses no name: "server." + name and unknown names come back whole |
| Configuration.Classify | src/zk/server/configuration.cpp:85-116 | the six known names, then any name starting with "server." (the rest being the server name), then an unknown setting |
| Configuration.Assignments | src/zk/server/configuration.cpp:72-80 | one matched-or-skipped result per input line |
| Configuration.AssignmentAt | src/zk/server/configuration.cpp:72-80 | the result for a line is that line's own match |
| Configuration.ScalarDataSpec | src/zk/server/configuration.cpp:85-108 | a scalar setting is unset exactly when no line assigns it, and otherwise holds the value and 0-based index of the LAST line assigning it |
| Configuration.ScalarStep | src/zk/server/configuration.cpp:85-108 | a later line assigning a scalar key overwrites it |
| Configuration.AddFirst | src/zk/server/configuration.cpp:109-116 | `map::insert` adds a server or unknown key only if absent and keeps existing entries |
| Configuration.FirstNamedSpec | src/zk/server/configuration.cpp:109-116 | each server and unknown key holds the value and index of the FIRST line naming it, and every named key is present |
| Configuration.NamedStep | src/zk/server/configuration.cpp:109-116 | one more line adds its key only if not yet present |
| Configuration.Decoded | src/zk/server/configuration.cpp:85-108 | decoding a setting keeps its line and presence and reads its value |
| Configuration.StepAgrees | src/zk/server/configuration.cpp:72-117 | one pass of the loop body is the dispatch of that line |
| Configuration.FoldAgrees | src/zk/server/configuration.cpp:72-117 | the loop's line-by-line state is the declarative reading of all lines |
| Configuration.Parse | src/zk/server/configuration.cpp:62-122 | `from_lines` as a value: the lines kept, scalar settings from their last assigning line, server and unknown entries from their first |
| Configuration.ParseWellFormed | src/zk/server/configuration.cpp:62-122 | after `from_lines` every recorded line index is a line of the file, every map entry holds a value, and the port fits 16 bits |
| Configuration.StateWellFormed | src/zk/server/configuration.cpp:62-122 | the same for any line list the assignments came from |
| Configuration.ParseLineAssigns | src/zk/server/configuration.cpp:72-116 | the line a parsed setting records is a line of the file that assigns that very key |
| Configuration.ParseLinesDistinct | src/zk/server/configuration.cpp:72-116 | no two settings of a parsed configuration record the same line, since a line assigns one key at most |
| Configuration.GetLine | src/zk/server/configuration.cpp:129 | one `getline`: a line with no '\n', then the text after that '\n'; the whole text when it holds none |
| Configuration.ReadLines | src/zk/server/configuration.cpp:124-138 | the `getline` loop of `from_stream` yields the lines of `Lines`, in order |
| Configuration.LinesCons | src/zk/server/configuration.cpp:124-138 | a line before a '\n' is read first, then the rest after it |
| Configuration.LinesOfTerminated | src/zk/server/configuration.cpp:124-138 | lines written each followed by '\n' are read back, in front of whatever the text holds after them |
| Configuration.LinesRoundTrip | src/zk/server/configuration.cpp:124-138 | reading '\n'-terminated lines gives them back, and so does a last line without its '\n': a final '\n' yields no empty last line |
| Configuration.LinesOfOneLine | src/zk/server/configuration.cpp:124-138 | a text with no '\n' is one line, and the empty text none |
| Configuration.ScalarInRange | src/zk/server/configuration.cpp:85-108 | a scalar's recorded index is a line index |
| Configuration.NamedInRange | src/zk/server/configuration.cpp:109-116 | every server and unknown entry is set and its index is a line index |
| Configuration.Values | src/zk/server/configuration.cpp:262-297 | `servers()`/`unknown_settings()` map the same names to their values |
| Configuration.DefaultsCompareEqual | src/zk/server/configuration.cpp:332-360 | an unset client port equals one set to 2181, and an unset tick time one set to 2000, under `==` |
| Configuration.Set | src/zk/server/configuration.cpp:163-188 | unset with a value appends "key=text" as the new last line and records it; unset with none does nothing; set overwrites its own line, clearing leaves ""; no other line changes |
| Configuration.AddServerTo | src/zk/server/configuration.cpp:271-288 | an existing name fails with "Already a server with the name <name>"; otherwise "server.<name>=<host>:<peer>:<leader>" is appended and recorded at its line |
| Configuration.LinesGrow | src/zk/server/configuration.cpp:163-188 | appending lines keeps every recorded index valid |
| Configuration.AddServerToSpec | src/zk/server/configuration.cpp:271-288 | a new name succeeds, and afterwards `servers()` maps it to "<host>:<peer>:<leader>" with every other effective setting unchanged |
| Configuration.AddServerToWellFormed | src/zk/server/configuration.cpp:271-288 | a successful `add_server` keeps the line bookkeeping valid |
| Configuration.WithClientPortSpec | src/zk/server/configuration.cpp:201-205 | setting the client port changes only the effective client port |
| Configuration.WithClientPort | src/zk/server/configuration.cpp:201-205 | `client_port(port)` on a configuration value: the generic `set` with the line "clientPort=<port>" |
| Configuration.WithDataDirectorySpec | src/zk/server/configuration.cpp:212-216 | setting the data directory changes only the effective data directory |
| Configuration.WithDataDirectory | src/zk/server/configuration.cpp:212-216 | `data_directory(path)` on a configuration value: the generic `set` with the line "dataDir=<path>" |
| Configuration.WithPortAndDirectoryWellFormed | src/zk/server/configuration.cpp:201-216 | setting the port and then the directory keeps the bookkeeping valid |
| Configuration.ValuesUpdate | src/zk/server/configuration.cpp:262-297 | updating one entry updates only that name's value |
| Configuration.Configuration.constructor | src/zk/server/configuration.cpp:50 | a new configuration has no lines and nothing set |
| Configuration.Configuration.FromLines | src/zk/server/configuration.cpp:62-122 | the loop over the lines yields exactly the declarative reading of the lines, keeping every line verbatim and in order |
| Configuration.Configuration.FromString | src/zk/server/configuration.cpp:148-153 | `from_string` yields exactly the reading of the lines `getline` takes from the text |
| Configuration.Configuration.Apply | src/zk/server/configuration.cpp:85-116 | one line's dispatch by name |
| Configuration.Configuration.Load | src/zk/server/configuration.cpp:309-310 | assignment replaces every field |
| Configuration.Configuration.IsMinimal | src/zk/server/configuration.cpp:155-160 | a data directory and a client port are set and there are exactly two lines |
| Configuration.Configuration.ClientPort | src/zk/server/configuration.cpp:196-199 | the stored port, or 2181 when unset |
| Configuration.Configuration.TickTime | src/zk/server/configuration.cpp:218-221 | the stored tick time, or 2000 ms when unset |
| Configuration.Configuration.Servers | src/zk/server/configuration.cpp:262-269 | every server name with its address, and no other name |
| Configuration.Configuration.UnknownSettings | src/zk/server/configuration.cpp:290-297 | every unknown key with its value, and no other key |
| Configuration.Configuration.SetClientPort | src/zk/server/configuration.cpp:201-205 | `client_port(p)` edits the lines as `set` does, and `client_port()` then gives p, or 2181 when cleared |
| Configuration.Configuration.SetDataDirectory | src/zk/server/configuration.cpp:212-216 | `data_directory(p)` edits the lines as `set` does and then reads back p |
| Configuration.Configuration.SetTickTime | src/zk/server/configuration.cpp:223-227 | `tick_time(t)` edits the lines as `set` does, and `tick_time()` then gives t, or 2000 when cleared |
| Configuration.Configuration.SetInitLimit | src/zk/server/configuration.cpp:234-238 | `init_limit(n)` edits the lines as `set` does and then reads back n |
| Configuration.Configuration.SetSyncLimit | src/zk/server/configuration.cpp:245-249 | `sync_limit(n)` edits the lines as `set` does and then reads back n |
| Configuration.Configuration.SetLeaderServes | src/zk/server/configuration.cpp:256-260 | `leader_serves(b)` writes "yes"/"no" as `set` does and then reads back b |
| Configuration.Configuration.AddServer | src/zk/server/configuration.cpp:271-288 | a duplicate name throws and changes nothing; otherwise the state becomes the `add_server` result |
| Configuration.Configuration.AddSetting | src/zk/server/configuration.cpp:299-312 | the configuration is re-read from the old lines plus "key=value", keeping the source file |
| Configuration.Configuration.Equals | src/zk/server/configuration.cpp:332-360 | `==` holds exactly when the effective settings (defaults applied) and the server and unknown maps agree; line text and source file do not take part |
| Configuration.MakeMinimal | src/zk/server/configuration.cpp:54-60 | the result is minimal, has the lines "dataDir=<dir>" and "clientPort=<port>", and reads back dir and port |
| Configuration.WrittenLineReads | src/zk/server/configuration.cpp:64-116 | a written "key=text" line reads back as that key and text |
| Configuration.ClassifyKnownNames | src/zk/server/configuration.cpp:85-92 | "clientPort" and "dataDir" dispatch to their settings |
| Configuration.MinimalDataDirLine | src/zk/server/configuration.cpp:54-60 | the "dataDir=<dir>" line reads back as the directory |
| Configuration.MinimalPortLine | src/zk/server/configuration.cpp:54-60 | the "clientPort=<port>" line reads back as the port |
| Configuration.MinimalLinesReadBack | src/zk/server/configuration.cpp:54-60 | re-reading the minimal lines gives the directory at line 0 and the port at line 1 |
| PackageRegistry.AsMapEntries | src/zk/server/package_registry.cpp:35-73 | the ordered entry list holds each version once, with its class path, as `std::map` does |
| PackageRegistry.SizeIsKeyCount | src/zk/server/package_registry.cpp:60-64 | the number of entries is the number of versions |
| PackageRegistry.InsertElements | src/zk/server/package_registry.cpp:39 | inserting adds exactly the new entry |
| PackageRegistry.InsertMap | src/zk/server/package_registry.cpp:39 | inserting a new version maps it to its class path and keeps every other entry |
| PackageRegistry.InsertSorted | src/zk/server/package_registry.cpp:39 | inserting a new version keeps the versions in order |
| PackageRegistry.InsertSpec | src/zk/server/package_registry.cpp:39 | inserting a new version keeps the order, adds exactly that mapping and grows the size by one |
| PackageRegistry.Insert | src/zk/server/package_registry.cpp:39 | `map::insert` on the sorted entry list: the new entry in its place by version |
| PackageRegistry.EraseElements | src/zk/server/package_registry.cpp:49 | erasing removes only the entry of that version |
| PackageRegistry.EraseMap | src/zk/server/package_registry.cpp:49 | erasing removes that version from the map and nothing else |
| PackageRegistry.HeadNotInTail | src/zk/server/package_registry.cpp:49 | in an ordered table the first version does not recur |
| PackageRegistry.EraseLength | src/zk/server/package_registry.cpp:49 | erasing shrinks the size by one exactly when the version was present |
| PackageRegistry.EraseSorted | src/zk/server/package_registry.cpp:49 | erasing keeps the versions in order |
| PackageRegistry.EraseSpec | src/zk/server/package_registry.cpp:49 | erasing keeps the order, removes exactly that version and shrinks the size by one iff it was present |
| PackageRegistry.Erase | src/zk/server/package_registry.cpp:49 | `map::erase` on the sorted entry list: the entry with that version removed |
| PackageRegistry.LastIsNewest | src/zk/server/package_registry.cpp:72 | the last entry (`rbegin`) has the lexicographically greatest version |
| PackageRegistry.AlreadyRegisteredAsWrittenDiffers | src/zk/server/package_registry.cpp:39-41 | the message built from the moved-from version lacks the version: for "1.0" it is " is already registered" |
| PackageRegistry.AlreadyRegisteredNamesVersion | src/zk/server/package_registry.cpp:41 | the intended message starts with the version |
| PackageRegistry.AlreadyRegistered | src/zk/server/package_registry.cpp:41 | the intended message: the version, then " is already registered" |
| PackageRegistry.AlreadyRegisteredAsWritten | src/zk/server/package_registry.cpp:39-41 | the message the code builds: the moved-from (empty) version, then " is already registered" |
| PackageRegistry.PackageRegistry.constructor | src/zk/server/package_registry.cpp:25-27 | a new registry is alive and empty |
| PackageRegistry.PackageRegistry.Register | src/zk/server/package_registry.cpp:35-44 | a version already present is refused with `invalid_argument` carrying the message as the code builds it (from the moved-from version) and the table is unchanged; a new one is inserted with its class path, the size grows by one, and a handle naming it is returned |
| PackageRegistry.PackageRegistry.UnregisterInfo | src/zk/server/package_registry.cpp:46-50 | returns true iff an entry with that name was removed; the entry is gone afterwards |
| PackageRegistry.PackageRegistry.Unregister | src/zk/server/package_registry.cpp:52-58 | a null registration returns false and changes nothing; otherwise as above |
| PackageRegistry.PackageRegistry.Size | src/zk/server/package_registry.cpp:60-64 | `size()` is the number of registered versions |
| PackageRegistry.PackageRegistry.Empty | src/zk/server/package_registry.hpp:62-65 | `empty()` holds iff nothing is registered |
| PackageRegistry.PackageRegistry.FindNewest | src/zk/server/package_registry.cpp:66-73 | none iff the registry is empty, otherwise the class path under the lexicographically greatest version |
| PackageRegistry.PackageRegistry.Destroy | src/zk/server/package_registry.cpp:29-33 | destroying the registry ends its lifetime and leaves the table as it was |
| PackageRegistry.Registration.constructor | src/zk/server/package_registry.cpp:13-16 | a handle records its registry and version |
| PackageRegistry.Registration.Release | src/zk/server/package_registry.cpp:18-22 | releasing a handle while its registry is alive removes its entry; after the registry is gone it changes nothing |
| PackageRegistry.RegistrationScenario | src/zk/server/package_registry_tests.cpp:32-49 | the test's sequence: sizes 0, 1, 2, 1; the duplicate "1.0" is refused; a released handle unregisters false; the first unregisters true; the registry ends empty |
| Text.JoinLoop | src/zk/server/classpath.cpp:20-30 | the `first`-flag loop writes exactly the elements with the separator between consecutive ones |
| Text.JoinLength | src/zk/server/classpath.cpp:20-30 | the separator is written only between consecutive elements: none for zero or one element, n-1 for n |
| Text.Join | src/zk/server/classpath.cpp:20-30 | the parts with the separator between consecutive parts only |
| Text.SplitJoin | src/zk/server/classpath.cpp:20-30 | splitting a joined text at a separator the elements avoid gives the elements back |
| Text.StringLessTransitive | src/zk/server/package_registry.cpp:66-73 | the `std::string` `<` the registry orders by is transitive |
| Text.StringLessTrichotomy | src/zk/server/package_registry.cpp:66-73 | any two distinct strings are ordered one way and not both |
| Classpath.LocateFound | src/zk/server/classpath.cpp:64-79 | a found JAR is at "<loc>/<jar>" for a location whose path exists, every earlier location's path being absent |
| Classpath.LocateFirst | src/zk/server/classpath.cpp:64-79 | the first location where "<loc>/<jar>" exists is the one chosen |
| Classpath.LocateMissing | src/zk/server/classpath.cpp:64-83 | a JAR is unfound exactly when it is absent from every location |
| Classpath.Locate | src/zk/server/classpath.cpp:64-79 | the first location holding the JAR, none when every location reports it absent, or the first failed probe |
| Classpath.GatherSpec | src/zk/server/classpath.cpp:62-83 | the outer loop fails iff some probe fails; otherwise every requirement is found or unfound, and when none is unfound the components are the found paths in requirement order |
| Classpath.GatherNext | src/zk/server/classpath.cpp:64-83 | one more requirement adds its path to the components or its name to the unfound list |
| Classpath.Gather | src/zk/server/classpath.cpp:62-83 | the found paths and the missing JARs, both in requirement order, or the first failed probe |
| Classpath.MissingMessageForm | src/zk/server/classpath.cpp:91-96 | the error starts "Could not find requirement: " for exactly one missing JAR and "requirements: " otherwise, followed by the missing names joined by ", " |
| Classpath.MissingMessage | src/zk/server/classpath.cpp:91-96 | "Could not find requirement(s): ", the missing JARs joined by ", ", then the searched paths |
| Classpath.SearchFound | src/zk/server/classpath.cpp:85-88 | a successful search has exactly one component per requirement, each the first location holding it |
| Classpath.Search | src/zk/server/classpath.cpp:48-99 | `find_system_default` as a value: a class path of the found components, the missing-JAR error, or the `system_error` of a failed probe |
| Classpath.AllInFirstLocation | src/zk/server/classpath.cpp:48-88 | when every JAR is in /usr/share/java the class path is those three paths |
| Classpath.FirstLocationPaths | src/zk/server/classpath.cpp:50-60 | the three paths in /usr/share/java, in requirement order |
| Classpath.FirstLocationCommandLine | src/zk/server/classpath.cpp:111-122 | their command line is the three paths joined by ':' |
| Classpath.OneMissing | src/zk/server/classpath.cpp:85-97 | when only slf4j-simple.jar is missing everywhere, the search fails with the singular message |
| Classpath.OneMissingMessage | src/zk/server/classpath.cpp:91-95 | that message is "Could not find requirement: slf4j-simple.jar. Searched paths: /usr/share/java, /usr/local/share/java" |
| Classpath.CommandLineRoundTrip | src/zk/server/classpath.cpp:111-122 | splitting the command line at ':' gives the components back when none contains ':' |
| Classpath.CommandLineSeparators | src/zk/server/classpath.cpp:111-122 | no component gives "", one gives itself, n give n-1 separators |
| Classpath.Classpath.CommandLine | src/zk/server/classpath.cpp:111-122 | the components joined by ':' |
| Classpath.GatherFailurePersists | src/zk/server/classpath.cpp:36-41 | a probe failure (`system_error`) ends the whole search with that failure |
| Classpath.FindSystemDefault | src/zk/server/classpath.cpp:48-99 | the nested loops compute exactly the declarative search |
| Classpath.SystemDefault.constructor | src/zk/server/classpath.cpp:103 | the function-local static starts uninitialised |
| Classpath.SystemDefault.Get | src/zk/server/classpath.cpp:101-105 | once initialised the stored class path is returned; the first call searches, and only a successful search initialises it |
| Classpath.SystemDefaultIsStable | src/zk/server/classpath.cpp:101-105 | after a successful first call every later call returns the same class path, whatever the file system now holds |
| Classpath.SystemDefaultRetries | src/zk/server/classpath.cpp:101-105 | a failing first call initialises nothing, so the next call searches again |
| ServerGroup.BasePort | src/zk/server/server_group.cpp:71-72 | the base port is 18500 when the client port is the default 2181, otherwise the configured client port |
| ServerGroup.Increment | src/zk/server/server_group.cpp:83-87 | `base_port++` on a `uint16_t` stays below 65536 |
| ServerGroup.PortAt | src/zk/server/server_group.cpp:83-87 | the counter after k increments stays below 65536 |
| ServerGroup.PortAtValue | src/zk/server/server_group.cpp:83-87 | after k increments the 16-bit counter is (base + k) mod 65536 |
| ServerGroup.PortsBelowWrap | src/zk/server/server_group.cpp:83-87 | without wrap-around, k increments give base + k |
| ServerGroup.DefaultPortsDoNotWrap | src/zk/server/server_group.cpp:71-87 | with the default client port, server i gets client port 18500+3i, peer port 18500+3i+1 and leader port 18500+3i+2 |
| ServerGroup.Planned | src/zk/server/server_group.cpp:77-87 | each planned server's settings keep the line bookkeeping valid |
| ServerGroup.ServerSettings | src/zk/server/server_group.cpp:82-85 | the copied settings with the new client port and data directory stay valid |
| ServerGroup.ServerSettingsSpec | src/zk/server/server_group.cpp:82-85 | the copied settings differ from the base only in client port and data directory, and keep the base's servers |
| ServerGroup.PlannedSpec | src/zk/server/server_group.cpp:77-87 | server idx is named by its decimal id idx+1 with path "<base>/<name>"; its settings are the base's with client port base+3idx and data directory "<path>/data"; its peer and leader ports are base+3idx+1 and base+3idx+2 |
| ServerGroup.PlannedPaths | src/zk/server/server_group.cpp:78 | a planned server starts from the base's server list |
| ServerGroup.Plan | src/zk/server/server_group.cpp:75-90 | the group holds exactly `size` servers, server i as planned for index i |
| ServerGroup.PlanSnoc | src/zk/server/server_group.cpp:75-90 | one more loop pass appends the next server |
| ServerGroup.PlanDistinct | src/zk/server/server_group.cpp:77-80 | no two planned servers share a name |
| ServerGroup.PlannedNamesDiffer | src/zk/server/server_group.cpp:77-80 | distinct ids give distinct names |
| ServerGroup.AddPeers | src/zk/server/server_group.cpp:99-102 | adding the peers one by one keeps the settings valid |
| ServerGroup.Names | src/zk/server/server_group.cpp:99-102 | the set of the peers' names |
| ServerGroup.NamesSnoc | src/zk/server/server_group.cpp:99-102 | one more peer adds its name |
| ServerGroup.FreshInit | src/zk/server/server_group.cpp:99-102 | fresh peers stay fresh without the last |
| ServerGroup.LastIsFresh | src/zk/server/server_group.cpp:99-102 | the last fresh peer's name is neither in the settings nor among the earlier peers |
| ServerGroup.AddPeersAccepted | src/zk/server/server_group.cpp:99-102 | when no peer name is already a server and the names are distinct, no `add_server` throws |
| ServerGroup.AddPeersOnlyPeers | src/zk/server/server_group.cpp:99-102 | adding peers introduces no other server name |
| ServerGroup.ListPeersKeeps | src/zk/server/server_group.cpp:99-102 | listing peers keeps earlier servers' addresses |
| ServerGroup.ListPeersKeys | src/zk/server/server_group.cpp:99-102 | the listed names are the earlier ones plus the peers' |
| ServerGroup.ListPeersListed | src/zk/server/server_group.cpp:99-102 | each peer is listed at "127.0.0.1:<peer>:<leader>" |
| ServerGroup.ListPeers | src/zk/server/server_group.cpp:99-102 | the server list with each peer listed under its name at its address |
| ServerGroup.Address | src/zk/server/server_group.cpp:101 | "127.0.0.1:<peer port>:<leader port>" |
| ServerGroup.AddPeersEffective | src/zk/server/server_group.cpp:99-102 | adding fresh peers changes only the server list, by listing the peers |
| ServerGroup.AddPeersServers | src/zk/server/server_group.cpp:99-102 | every other setting is unchanged, earlier servers are kept, every peer is listed with its own peer and leader ports, and nothing else is listed |
| ServerGroup.AddPeersRefused | src/zk/server/server_group.cpp:101 | a peer name already in the settings makes `add_server` throw |
| ServerGroup.AddPeersUnfold | src/zk/server/server_group.cpp:99-102 | one inner pass: an earlier throw stands, otherwise the last peer is added with `add_server` |
| ServerGroup.AddPeersGrows | src/zk/server/server_group.cpp:101 | a server listed before adding peers is listed after |
| ServerGroup.AddPeersFailurePersists | src/zk/server/server_group.cpp:99-102 | once an `add_server` throws, the rest of the loop does not run |
| ServerGroup.Outcomes | src/zk/server/server_group.cpp:97-102 | each server's result of adding every server of the group |
| ServerGroup.ConnectSpec | src/zk/server/server_group.cpp:97-112 | the outer loop succeeds iff every server accepts every peer; then server i keeps its plan with the peers added |
| ServerGroup.ConnectRefused | src/zk/server/server_group.cpp:97-112 | one refusing server makes the outer loop throw |
| ServerGroup.ConnectFailurePersists | src/zk/server/server_group.cpp:97-112 | once the outer loop throws, later servers change nothing |
| ServerGroup.ConnectStep | src/zk/server/server_group.cpp:97-112 | one outer pass throws with that server's error or appends that server with its peers |
| ServerGroup.Connect | src/zk/server/server_group.cpp:97-112 | the outer loop: each server in id order takes its new settings, and the first refusal ends the construction |
| ServerGroup.Endpoints | src/zk/server/server_group.cpp:109-111 | one "127.0.0.1:<client port>" per server, in id order |
| ServerGroup.EndpointsSnoc | src/zk/server/server_group.cpp:109-111 | one more server appends its endpoint |
| ServerGroup.Endpoint | src/zk/server/server_group.cpp:109-111 | "127.0.0.1:<client port>" |
| ServerGroup.PlanFresh | src/zk/server/server_group.cpp:75-102 | when the base lists none of the names 1..size, every planned server can take every peer |
| ServerGroup.PlanClash | src/zk/server/server_group.cpp:75-102 | when the base lists some name k in 1..size, the first server already lists peer k |
| ServerGroup.PlanRefused | src/zk/server/server_group.cpp:97-102 | then the peer loop throws |
| ServerGroup.RefusedByFirst | src/zk/server/server_group.cpp:97-102 | a peer already listed by the first server makes the loop throw |
| ServerGroup.EnsembleAccepted | src/zk/server/server_group.cpp:63-117 | with a data directory and none of 1..size in the base's servers, `make_ensemble` succeeds |
| ServerGroup.EnsembleRefused | src/zk/server/server_group.cpp:63-117 | with one of 1..size already a server in the base, it throws |
| ServerGroup.EnsembleSucceeds | src/zk/server/server_group.cpp:67-68 | no data directory throws `invalid_argument` "Settings must specify a base directory"; otherwise it succeeds exactly when no planned name is already a server |
| ServerGroup.EnsembleShape | src/zk/server/server_group.cpp:75-114 | a successful group has `size` servers, each its plan with every peer added, and the connection string of those servers |
| ServerGroup.EnsembleServers | src/zk/server/server_group.cpp:75-102 | server i is named i+1, at "<dir>/<i+1>", with data directory "<path>/data", client/peer/leader ports at base+3i, +1, +2, and all other base settings unchanged |
| ServerGroup.EnsembleClientPort | src/zk/server/server_group.cpp:83 | server i's client port is the counter after 3i increments |
| ServerGroup.EnsemblePeers | src/zk/server/server_group.cpp:97-102 | every server's configuration lists every server of the group, itself included, at "127.0.0.1:<peer>:<leader>" of that server |
| ServerGroup.ClientEndpoints | src/zk/server/server_group.cpp:109-111 | endpoint i is "127.0.0.1:" + the i-th client port |
| ServerGroup.EnsembleConnectionString | src/zk/server/server_group.cpp:92-114 | the connection string is "zk://" + the client endpoints joined by ',' in id order + "/" |
| ServerGroup.ConnectionString | src/zk/server/server_group.cpp:92-114 | "zk://", the endpoints joined by ',', then "/" |
| ServerGroup.Ensemble | src/zk/server/server_group.cpp:63-117 | `make_ensemble` as a value: `invalid_argument` without a data directory, otherwise the planned servers connected to each other, or the first refusal |
| ServerGroup.Started | src/zk/server/server_group.cpp:126-134 | each server after the start loop |
| ServerGroup.StartOne | src/zk/server/server_group.cpp:126-134 | a server without an instance is started with its own settings; a running one is kept |
| ServerGroup.StartedSpec | src/zk/server/server_group.cpp:124-135 | afterwards every server has an instance; running ones are untouched; the others run the given class path with their own settings |
| ServerGroup.StartedIdempotent | src/zk/server/server_group.cpp:124-135 | a second start changes nothing, whatever class path it is given |
| ServerGroup.PlanServers | src/zk/server/server_group.cpp:74-90 | the planning loop with its 16-bit port counter yields exactly the plan |
| ServerGroup.PlanServer | src/zk/server/server_group.cpp:77-87 | one pass plans server idx and advances the counter by three |
| ServerGroup.AddAllPeers | src/zk/server/server_group.cpp:99-102 | the inner loop yields exactly the peers-added settings or the first error |
| ServerGroup.ConnectServers | src/zk/server/server_group.cpp:92-114 | the outer loop yields exactly the connected servers or the first error, and on success writes "zk://" + the endpoints joined by ',' with no leading separator |
| ServerGroup.ServerGroup.constructor | src/zk/server/server_group.cpp:34-35 | an empty group with an empty connection string |
| ServerGroup.ServerGroup.Size | src/zk/server/server_group.hpp:48 | the number of servers |
| ServerGroup.ServerGroup.GetConnectionString | src/zk/server/server_group.cpp:119-122 | the stored connection string |
| ServerGroup.ServerGroup.MakeEnsemble | src/zk/server/server_group.cpp:63-117 | the group is the declarative ensemble, or the same error |
| ServerGroup.ServerGroup.StartAllServers | src/zk/server/server_group.cpp:124-135 | only servers with no instance are started; the connection string is unchanged |
| Notification.KindOf | src/zk/notification.hpp:25-34 | each alternative has its own kind |
| Notification.Access | src/zk/notification.hpp:70-78 | `std::get<T>` succeeds exactly when the cell holds `T` and then yields the held value; otherwise `bad_variant_access` names the wanted and held kinds |
| Notification.Holds | src/zk/notification.hpp:70 | `std::holds_alternative`: the cell holds that alternative |
| Notification.ExactlyOneAlternative | src/zk/notification.hpp:70-78 | a cell holds exactly one alternative: `is<T>` holds and `as<T>` succeeds for that one only |
| Notification.Notification.constructor | src/zk/notification.hpp:40-43 | a default notification holds the empty alternative and a null tracker |
| Notification.Notification.Make | src/zk/notification.hpp:45-48 | the cell holds the given data and tracker |
| Notification.Notification.Copy | src/zk/notification.hpp:50 | a copy holds the source's data and tracker |
| Notification.Notification.Move | src/zk/notification.hpp:52-55 | the new cell takes the source's data and tracker; the source is left empty with a null tracker |
| Notification.Notification.CopyFrom | src/zk/notification.hpp:57 | copy assignment takes the source's data and tracker |
| Notification.Notification.MoveFrom | src/zk/notification.hpp:59-64 | move assignment takes the source's data and tracker and leaves another source empty with a null tracker; a self-move leaves the cell as it was |
| Notification.Notification.Is | src/zk/notification.hpp:70 | `is<T>()`: the data holds alternative `T` |
| Notification.Notification.As | src/zk/notification.hpp:76-78 | `as<T>()` succeeds exactly when `is<T>()` holds, yielding the held data |
| Notification.Notification.Reset | src/zk/notification.cpp:9-13 | back to the empty alternative with no tracker |
| Notification.MoveLeavesDefault | src/zk/notification.hpp:52-78 | after a move the new cell answers `is<T>` as its source did, and the source holds the empty alternative so only `as<empty>` succeeds |

## Left out

- Native calls: every `zoo_*`/`zookeeper_*` call, `stat_from_raw`, the ACL and string-vector marshalling (`with_str`, `with_acl`, `encode_acl_part`, `acl_from_raw`, `string_vector_from_raw`) and `zoo_get_context`. These are foreign C-library calls over raw buffers. The model takes their outcome as a returned code or as a callback payload.
- Futures, promises, atomics, mutexes and `std::async`. This is concurrency plumbing. Promises are set-once cells, and the registry's mutex is dropped, since every operation is modelled as one atomic step.
- The `connection_zk` constructor: it builds a host string and opens a native handle, which is I/O setup. The model starts from an open connection.
- `on_session_event_raw` and its warning to standard error: this is I/O.
- `connection.hpp/.cpp` and `client.hpp/.cpp`: they hold only an abstract interface and one-line forwarding.
- The printers in `results.cpp` and the notification printer. They are cosmetic; the result classes are kept only as plain records.
- Connection.CommitCompleter.Deliver: the failed index is pinned down only when the raw results are partitioned (all ok results first), which is what `std::partition_point` requires. On other inputs it is bounded by the op count.
- Connection.PartitionPoint: on a non-partitioned sequence it states only that the index is in range, since `std::partition_point` promises nothing more there.
- The submit of a commit, which fills the native op array in `connection_zk::commit`: only its created-path buffer size is modelled, as `PathBufferSize`.
- `std::hash` for rules and strong ids: a foreign hash function.
- Configuration file I/O: `from_file`, `save` and `save_file`, and the `runtime_error` `from_stream` throws when a stream stops short of end of file. Reading from a text (`from_string`) always reaches its end, so that error cannot arise there.
- Configuration.Atoi: overflow of `atoi`/`atol` on over-long digit runs is not modelled; the result is the unbounded integer of the leading digits. The `uint16_t` and `size_t` casts applied afterwards are modelled.
- Types.IdCell.PreIncrement, PostIncrement, PreDecrement and PostDecrement: on a version (`int32_t`), stepping past `INT32_MAX` or `INT32_MIN` is signed overflow, which C++ leaves undefined, so those calls require the step to stay in range (`Types.CanIncrement`, `Types.CanDecrement`); a transaction id (`size_t`) wraps modulo 2^64 in both directions.
- Types.TransactionIdToString: like the version printers and the id comparisons, it is stated for every integer value, while a `size_t` id is never negative and a version never leaves the `int32_t` range. Only the in-place `++`/`--` of `Types.IdCell` keep the width (`Types.Representable`), since only they can leave the range.
- The real `stat()` of `file_exists`: whether a path exists is a probe function parameter. A probe failure other than "no such file" is the `system_error` result.
- `make_ensemble`'s `mkdir` calls, `save_id_file` and each server's `save_file`: file writes. Their failures are not modelled.
- Launching server processes: a started server is recorded as the class path and settings it was started with.
- The move constructor and move assignment of `server_group`: they transfer both fields, as for `notification`, and add nothing to the planning.
- `server_id`, which is not declared in the files modelled. `make_ensemble` passes a `server_id` where `add_server` takes a name string. The model uses the decimal id, which is the name the server is filed under.
- Registration lifetime: `shared_ptr` reference counting of registration handles is modelled as explicit `Release` and `Destroy` calls.
- `op` copy and move construction and its deleted assignments: an `Op` is an immutable value, so copies trivially keep the kind and payload.
- `multi_result`'s `reserve`: like `multi_op::reserve`, it changes no part.

## Findings

| source | as written | input that shows it | evidently intended | confidence | as-written member | corrected member |
|---|---|---|---|---|---|---|
| src/zk/acl.cpp:119-132 | the ACL list printer writes the rules between '{' and '}' | `acls::creator_all()` prints "{(auth, all)}" | "[(auth, all)]", as the tests in src/zk/acl_tests.cpp:68-77 expect | not executed | Acl.AclPrinterAsWrittenDiffers | Acl.CreatorAllText |
| src/zk/server/package_registry.cpp:39-41 | the `invalid_argument` message is built from `version` after it was moved into the map's key | registering "1.0" twice gives " is already registered" with a moved-from (typically empty) version | "1.0 is already registered" | not executed | PackageRegistry.AlreadyRegisteredAsWrittenDiffers | PackageRegistry.AlreadyRegisteredNamesVersion |
