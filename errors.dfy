/** The error taxonomy: the numbered list of error codes, the two range
    predicates over them, the printer of a code and the dispatch from a code
    to the exception that reports it. */
module Errors {
  import opened Text
  import opened Wrappers

  /** `enum class error_code : int`; any int can be cast to it. */
  newtype ErrorCode = int

  const Ok: ErrorCode := 0
  const SystemError: ErrorCode := -1
  const RuntimeInconsistency: ErrorCode := -2
  const DataInconsistency: ErrorCode := -3
  const ConnectionLoss: ErrorCode := -4
  const MarshallingError: ErrorCode := -5
  const Unimplemented: ErrorCode := -6
  const OperationTimeout: ErrorCode := -7
  const InvalidArguments: ErrorCode := -8
  const InvalidHandleState: ErrorCode := -9
  const UnknownSession: ErrorCode := -12
  const NewConfigurationNoQuorum: ErrorCode := -13
  const ReconfigurationInProgress: ErrorCode := -14
  const ApiError: ErrorCode := -100
  const NoNode: ErrorCode := -101
  const NotAuthenticated: ErrorCode := -102
  const BadVersion: ErrorCode := -103
  const NoChildrenForEphemerals: ErrorCode := -108
  const NodeExists: ErrorCode := -110
  const NotEmpty: ErrorCode := -111
  const SessionExpired: ErrorCode := -112
  const InvalidCallback: ErrorCode := -113
  const InvalidAcl: ErrorCode := -114
  const AuthenticationFailed: ErrorCode := -115
  const Closing: ErrorCode := -116
  const NoResponse: ErrorCode := -117
  const SessionMoved: ErrorCode := -118
  const ServerReadOnly: ErrorCode := -119
  const EphemeralOnLocalSession: ErrorCode := -120
  const NoWatcher: ErrorCode := -121
  const ReconfigurationDisabled: ErrorCode := -123

  /** Codes the connection reports that the numbered list does not define;
      they are given values of their own, outside the list. */
  const NoEntry: ErrorCode := -1001
  const Closed: ErrorCode := -1002
  const TransactionFailed: ErrorCode := -1003

  /** `all_error_codes()`: every listed code, in list order. */
  function AllErrorCodes(): (r: seq<ErrorCode>)
    ensures |r| == 31 && r[0] == Ok && r[30] == ReconfigurationDisabled
  {
    [
    Ok,
    SystemError,
    RuntimeInconsistency,
    DataInconsistency,
    ConnectionLoss,
    MarshallingError,
    Unimplemented,
    OperationTimeout,
    InvalidArguments,
    InvalidHandleState,
    UnknownSession,
    NewConfigurationNoQuorum,
    ReconfigurationInProgress,
    ApiError,
    NoNode,
    NotAuthenticated,
    BadVersion,
    NoChildrenForEphemerals,
    NodeExists,
    NotEmpty,
    SessionExpired,
    InvalidCallback,
    InvalidAcl,
    AuthenticationFailed,
    Closing,
    NoResponse,
    SessionMoved,
    ServerReadOnly,
    EphemeralOnLocalSession,
    NoWatcher,
    ReconfigurationDisabled
    ]
  }

  /** The codes the list names. */
  predicate Listed(c: ErrorCode)
  {
    c == Ok
    || c == SystemError
    || c == RuntimeInconsistency
    || c == DataInconsistency
    || c == ConnectionLoss
    || c == MarshallingError
    || c == Unimplemented
    || c == OperationTimeout
    || c == InvalidArguments
    || c == InvalidHandleState
    || c == UnknownSession
    || c == NewConfigurationNoQuorum
    || c == ReconfigurationInProgress
    || c == ApiError
    || c == NoNode
    || c == NotAuthenticated
    || c == BadVersion
    || c == NoChildrenForEphemerals
    || c == NodeExists
    || c == NotEmpty
    || c == SessionExpired
    || c == InvalidCallback
    || c == InvalidAcl
    || c == AuthenticationFailed
    || c == Closing
    || c == NoResponse
    || c == SessionMoved
    || c == ServerReadOnly
    || c == EphemeralOnLocalSession
    || c == NoWatcher
    || c == ReconfigurationDisabled
  }

  // ---------------------------------------------------------------------------
  // The list is numbered without repetition
  // ---------------------------------------------------------------------------

  /** Each number is below the one before it. */
  predicate Descending(s: seq<ErrorCode>)
  {
    forall i :: 0 <= i < |s| - 1 ==> s[i + 1] < s[i]
  }

  lemma {:induction false} DescendingStrict(s: seq<ErrorCode>, i: nat, j: nat)
    requires Descending(s)
    requires i < j < |s|
    ensures s[j] < s[i]
    decreases j - i
  {
    if j > i + 1 {
      DescendingStrict(s, i + 1, j);
    }
  }

  /** `all_error_codes()` holds 31 codes, exactly the listed ones, and no
      number appears twice. */
  lemma AllErrorCodesDistinct(c: ErrorCode)
    ensures c in AllErrorCodes() <==> Listed(c)
    ensures forall i, j :: 0 <= i < j < |AllErrorCodes()| ==> AllErrorCodes()[i] != AllErrorCodes()[j]
  {
    var all := AllErrorCodes();
    assert Descending(all);
    forall i, j | 0 <= i < j < |all|
      ensures all[i] != all[j]
    {
      DescendingStrict(all, i, j);
    }
  }

  // ---------------------------------------------------------------------------
  // Range predicates
  // ---------------------------------------------------------------------------

  /** `is_system_error`: at or below system_error and above api_error. */
  predicate IsSystemError(c: ErrorCode) { c <= SystemError && c > ApiError }

  /** `is_api_error`: at or below api_error. */
  predicate IsApiError(c: ErrorCode) { c <= ApiError }

  lemma ErrorRanges(c: ErrorCode)
    ensures IsSystemError(c) <==> -100 < c <= -1
    ensures IsApiError(c) <==> c <= -100
    ensures !(IsSystemError(c) && IsApiError(c))
    ensures !IsSystemError(Ok) && !IsApiError(Ok)
  {
  }

  // ---------------------------------------------------------------------------
  // to_string(error_code)
  // ---------------------------------------------------------------------------

  /** `to_string(code)`: the listed name, else `error_code(<n>)`. */
  function ToString(c: ErrorCode): string
  {
    if c == Ok then "ok"
    else if c == SystemError then "system_error"
    else if c == RuntimeInconsistency then "runtime_inconsistency"
    else if c == DataInconsistency then "data_inconsistency"
    else if c == ConnectionLoss then "connection_loss"
    else if c == MarshallingError then "marshalling_error"
    else if c == Unimplemented then "unimplemented"
    else if c == OperationTimeout then "operation_timeout"
    else if c == InvalidArguments then "invalid_arguments"
    else if c == InvalidHandleState then "invalid_handle_state"
    else if c == UnknownSession then "unknown_session"
    else if c == NewConfigurationNoQuorum then "new_configuration_no_quorum"
    else if c == ReconfigurationInProgress then "reconfiguration_in_progress"
    else if c == ApiError then "api_error"
    else if c == NoNode then "no_node"
    else if c == NotAuthenticated then "not_authenticated"
    else if c == BadVersion then "bad_version"
    else if c == NoChildrenForEphemerals then "no_children_for_ephemerals"
    else if c == NodeExists then "node_exists"
    else if c == NotEmpty then "not_empty"
    else if c == SessionExpired then "session_expired"
    else if c == InvalidCallback then "invalid_callback"
    else if c == InvalidAcl then "invalid_acl"
    else if c == AuthenticationFailed then "authentication_failed"
    else if c == Closing then "closing"
    else if c == NoResponse then "no_response"
    else if c == SessionMoved then "session_moved"
    else if c == ServerReadOnly then "server_read_only"
    else if c == EphemeralOnLocalSession then "ephemeral_on_local_session"
    else if c == NoWatcher then "no_watcher"
    else if c == ReconfigurationDisabled then "reconfiguration_disabled"
    else "error_code(" + IntToString(c as int) + ")"
  }

  /** The listed code a name stands for: the printer read backwards. Names
      are grouped by length, so a lookup compares only names of its length. */
  function CodeOfName(s: string): Option<ErrorCode>
  {
    if |s| == 2 then (if s == "ok" then Some(Ok) else None)
    else if |s| == 7 then (if s == "no_node" then Some(NoNode) else if s == "closing" then Some(Closing) else None)
    else if |s| == 9 then (if s == "api_error" then Some(ApiError) else if s == "not_empty" then Some(NotEmpty) else None)
    else if |s| == 10 then (if s == "no_watcher" then Some(NoWatcher) else None)
    else if |s| == 11 then (if s == "bad_version" then Some(BadVersion) else if s == "node_exists" then Some(NodeExists) else if s == "invalid_acl" then Some(InvalidAcl) else if s == "no_response" then Some(NoResponse) else None)
    else if |s| == 12 then (if s == "system_error" then Some(SystemError) else None)
    else if |s| == 13 then (if s == "unimplemented" then Some(Unimplemented) else if s == "session_moved" then Some(SessionMoved) else None)
    else if |s| == 15 then (if s == "connection_loss" then Some(ConnectionLoss) else if s == "unknown_session" then Some(UnknownSession) else if s == "session_expired" then Some(SessionExpired) else None)
    else if |s| == 16 then (if s == "invalid_callback" then Some(InvalidCallback) else if s == "server_read_only" then Some(ServerReadOnly) else None)
    else if |s| == 17 then (if s == "marshalling_error" then Some(MarshallingError) else if s == "operation_timeout" then Some(OperationTimeout) else if s == "invalid_arguments" then Some(InvalidArguments) else if s == "not_authenticated" then Some(NotAuthenticated) else None)
    else if |s| == 18 then (if s == "data_inconsistency" then Some(DataInconsistency) else None)
    else if |s| == 20 then (if s == "invalid_handle_state" then Some(InvalidHandleState) else None)
    else if |s| == 21 then (if s == "runtime_inconsistency" then Some(RuntimeInconsistency) else if s == "authentication_failed" then Some(AuthenticationFailed) else None)
    else if |s| == 24 then (if s == "reconfiguration_disabled" then Some(ReconfigurationDisabled) else None)
    else if |s| == 26 then (if s == "no_children_for_ephemerals" then Some(NoChildrenForEphemerals) else if s == "ephemeral_on_local_session" then Some(EphemeralOnLocalSession) else None)
    else if |s| == 27 then (if s == "new_configuration_no_quorum" then Some(NewConfigurationNoQuorum) else if s == "reconfiguration_in_progress" then Some(ReconfigurationInProgress) else None)
    else None
  }

  /** A listed code prints its name, which names it alone and holds no '('. */
  lemma ListedNames(c: ErrorCode)
    requires Listed(c)
    ensures CodeOfName(ToString(c)) == Some(c)
    ensures |ToString(c)| <= 10 || ToString(c)[10] != '('
  {
    if c > ApiError {
      SystemNames(c);
    } else {
      ApiNames(c);
    }
  }

  lemma SystemNames(c: ErrorCode)
    requires Listed(c) && c > ApiError
    ensures CodeOfName(ToString(c)) == Some(c)
  {
  }

  lemma ApiNames(c: ErrorCode)
    requires Listed(c) && c <= ApiError
    ensures CodeOfName(ToString(c)) == Some(c)
  {
  }

  /** Every code the list leaves out prints as `error_code(<n>)`. */
  lemma UnlistedText(c: ErrorCode)
    requires !Listed(c)
    ensures ToString(c) == "error_code(" + IntToString(c as int) + ")"
  {
  }

  /** No two codes print alike. */
  lemma ToStringInjective(a: ErrorCode, b: ErrorCode)
    requires ToString(a) == ToString(b)
    ensures a == b
  {
    if Listed(a) && Listed(b) {
      ListedNames(a);
      ListedNames(b);
    } else if Listed(a) {
      ListedNames(a);
      UnlistedText(b);
    } else if Listed(b) {
      ListedNames(b);
      UnlistedText(a);
    } else {
      UnlistedText(a);
      UnlistedText(b);
      var ta, tb := IntToString(a as int), IntToString(b as int);
      assert ta == ToString(a)[11..|ToString(a)| - 1];
      assert tb == ToString(b)[11..|ToString(b)| - 1];
      IntToStringInjective(a as int, b as int);
    }
  }

  lemma ToStringExamples()
    ensures ToString(19) == "error_code(19)"
    ensures ToString(NoNode) == "no_node"
  {
  }

  // ---------------------------------------------------------------------------
  // Errors and throw_error
  // ---------------------------------------------------------------------------

  /** The family of the class thrown: a subclass of `system_error`, a subclass
      of `api_error`, or `unknown_error`. Within a family the code names the
      class. */
  datatype Family = SystemFamily | ApiFamily | UnknownFamily

  /** A thrown `error`: the code it carries, its family and the description
      its class passes to the `error` constructor. */
  datatype Error = Error(code: ErrorCode, family: Family, description: string)

  /** `what()`: the `error` constructor builds it from the code's text, ": ",
      then the description. */
  function Message(e: Error): string
  {
    ToString(e.code) + ": " + e.description
  }

  /** An error's message names its code: two errors with the same description
      and the same message carry the same code. */
  lemma MessageNamesCode(a: Error, b: Error)
    requires a.description == b.description && Message(a) == Message(b)
    ensures a.code == b.code
  {
    SameSuffixSamePrefix(ToString(a.code), ToString(b.code), a.description);
    ToStringInjective(a.code, b.code);
  }

  /** Two texts followed by the same ": description" are equal. */
  lemma SameSuffixSamePrefix(x: string, y: string, d: string)
    requires x + ": " + d == y + ": " + d
    ensures x == y
  {
    var m := x + ": " + d;
    assert |x| == |y|;
    assert m[..|x|] == x;
    assert m[..|y|] == y;
  }

  /** The class `throw_error(code)` picks, by its family; the code names the
      class within the family. */
  function ThrownFamily(c: ErrorCode): Family
  {
    if c == RuntimeInconsistency then SystemFamily
    else if c == DataInconsistency then SystemFamily
    else if c == ConnectionLoss then SystemFamily
    else if c == MarshallingError then SystemFamily
    else if c == Unimplemented then SystemFamily
    else if c == OperationTimeout then SystemFamily
    else if c == InvalidArguments then SystemFamily
    else if c == InvalidHandleState then SystemFamily
    else if c == UnknownSession then SystemFamily
    else if c == NewConfigurationNoQuorum then SystemFamily
    else if c == ReconfigurationInProgress then SystemFamily
    else if c == NoNode then ApiFamily
    else if c == NotAuthenticated then ApiFamily
    else if c == BadVersion then ApiFamily
    else if c == NoChildrenForEphemerals then ApiFamily
    else if c == NodeExists then ApiFamily
    else if c == NotEmpty then ApiFamily
    else if c == SessionExpired then ApiFamily
    else if c == InvalidCallback then ApiFamily
    else if c == InvalidAcl then ApiFamily
    else if c == AuthenticationFailed then ApiFamily
    else if c == Closing then ApiFamily
    else if c == NoResponse then ApiFamily
    else if c == SessionMoved then ApiFamily
    else if c == ServerReadOnly then ApiFamily
    else if c == EphemeralOnLocalSession then ApiFamily
    else if c == NoWatcher then ApiFamily
    else if c == ReconfigurationDisabled then ApiFamily
    else UnknownFamily
  }

  /** The description the class of code c passes to the `error` constructor;
      `unknown_error` passes "Error code not recognized". */
  function Description(c: ErrorCode, family: Family): string
  {
    if family == UnknownFamily then "Error code not recognized"
    else if c == RuntimeInconsistency then "A runtime inconsistency was found"
    else if c == DataInconsistency then "A data inconsistency was found"
    else if c == ConnectionLoss then "Connection to the server has been lost"
    else if c == MarshallingError then "Error while marshalling or unmarshalling data"
    else if c == Unimplemented then "Operation is unimplemented"
    else if c == OperationTimeout then "Operation timeout"
    else if c == InvalidArguments then "Invalid arguments"
    else if c == InvalidHandleState then "Invalid state for handle"
    else if c == UnknownSession then "Unknown session"
    else if c == NewConfigurationNoQuorum then "No quorum of new configuration is connected and up-to-date with the leader of last commmitted configuration. Try invoking reconfiguration after new servers are connected and synced."
    else if c == ReconfigurationInProgress then "Another reconfiguration is in progress -- concurrent reconfigs not supported"
    else if c == NoNode then "Node does not exist"
    else if c == NotAuthenticated then "Not authenticated"
    else if c == BadVersion then "Version conflict"
    else if c == NoChildrenForEphemerals then "Ephemeral nodes may not have children"
    else if c == NodeExists then "Node already exists"
    else if c == NotEmpty then "Cannot erase a node with children"
    else if c == SessionExpired then "The session has been expired by the server"
    else if c == InvalidCallback then "Invalid callback specified"
    else if c == InvalidAcl then "Invalid ACL specified"
    else if c == AuthenticationFailed then "Client authentication failed"
    else if c == Closing then "Client is closing"
    else if c == NoResponse then "No server responses to process"
    else if c == SessionMoved then "Session moved to another server, so operation was ignored"
    else if c == ServerReadOnly then "State-changing request was passed to read-only server"
    else if c == EphemeralOnLocalSession then "Cannot create ephemeral node on a local session"
    else if c == NoWatcher then "Cannot remove a non-existing watcher"
    else if c == ReconfigurationDisabled then "Cluster reconfiguration feature is disabled"
    else "Error code not recognized"
  }

  /** `throw_error(code)`: the error it throws (it never returns normally). */
  function ThrowError(c: ErrorCode): (e: Error)
    ensures e.code == c
    ensures e.family == SystemFamily ==> IsSystemError(c)
    ensures e.family == ApiFamily ==> IsApiError(c)
  {
    Error(c, ThrownFamily(c), Description(c, ThrownFamily(c)))
  }

  /** Exactly ok, system_error, api_error and the codes the list leaves out
      throw `unknown_error`. */
  lemma ThrowErrorUnknown(c: ErrorCode)
    ensures ThrowError(c).family == UnknownFamily
            <==> !Listed(c) || c == Ok || c == SystemError || c == ApiError
  {
  }

  /** For every code of `all_error_codes()`, the error thrown carries the code,
      its family agrees with the range predicates, and only ok, system_error
      and api_error fall back to `unknown_error`. */
  lemma ThrowErrorAgrees(c: ErrorCode)
    requires c in AllErrorCodes()
    ensures ThrowError(c).code == c
    ensures ThrowError(c).family == SystemFamily <==> IsSystemError(c) && c != SystemError
    ensures ThrowError(c).family == ApiFamily <==> IsApiError(c) && c != ApiError
    ensures ThrowError(c).family == UnknownFamily <==> c == Ok || c == SystemError || c == ApiError
  {
    AllErrorCodesDistinct(c);
    ThrowErrorUnknown(c);
  }

  /** The message is the code's text, ": ", then the class's description. */
  lemma NoNodeMessage()
    ensures Message(ThrowError(NoNode)) == "no_node: Node does not exist"
  {
  }

  lemma OkMessage()
    ensures Message(ThrowError(Ok)) == "ok" + ": " + "Error code not recognized"
  {
    OkThrowsUnknown();
  }

  /** Code 0 throws `unknown_error` with its fixed description. */
  lemma OkThrowsUnknown()
    ensures ThrowError(Ok) == Error(Ok, UnknownFamily, "Error code not recognized")
    ensures ToString(Ok) == "ok"
  {
    assert ThrownFamily(Ok) == UnknownFamily;
  }

  lemma UnlistedMessage()
    ensures Message(ThrowError(19)) == "error_code(19): Error code not recognized"
  {
    ToStringExamples();
  }
}
