/** The client's bookkeeping around the native library: normalising the codes
    and states it reports, the one-shot watcher cells, the table of registered
    watches, closing, the exists callbacks and the transaction completer. Each
    call into the native library is abstracted as a code it returns, or as a
    callback that later arrives with a code and a payload. */
module Connection {
  import opened Wrappers
  import Errors
  import Types
  import Results
  import Multi

  // ---------------------------------------------------------------------------
  // Native adaptors
  // ---------------------------------------------------------------------------

  /** `error_code_from_raw`: operation_timeout and session_moved become
      connection_loss, invalid_callback and invalid_acl become
      invalid_arguments, every other code is kept. */
  function ErrorCodeFromRaw(raw: int): (c: Errors.ErrorCode)
    ensures c != Errors.OperationTimeout && c != Errors.SessionMoved
    ensures c != Errors.InvalidCallback && c != Errors.InvalidAcl
    ensures raw == -7 || raw == -118 ==> c == Errors.ConnectionLoss
    ensures raw == -113 || raw == -114 ==> c == Errors.InvalidArguments
    ensures raw != -7 && raw != -113 && raw != -114 && raw != -118 ==> c as int == raw
  {
    if raw == Errors.OperationTimeout as int then Errors.ConnectionLoss
    else if raw == Errors.InvalidCallback as int || raw == Errors.InvalidAcl as int then Errors.InvalidArguments
    else if raw == Errors.SessionMoved as int then Errors.ConnectionLoss
    else raw as Errors.ErrorCode
  }

  /** Normalising a normalised code changes nothing. */
  lemma ErrorCodeFromRawIdempotent(raw: int)
    ensures ErrorCodeFromRaw(ErrorCodeFromRaw(raw) as int) == ErrorCodeFromRaw(raw)
  {
  }

  /** `state_from_raw`: not_connected (999) and associating become
      connecting; every other value is kept. */
  function StateFromRaw(raw: int): (s: Types.State)
    ensures s != Types.Associating && s != Types.NotConnected
    ensures raw == 999 || raw == 2 ==> s == Types.Connecting
    ensures raw != 999 && raw != 2 ==> s as int == raw
  {
    if raw == Types.NotConnected as int then Types.Connecting
    else if raw == Types.Associating as int then Types.Connecting
    else raw as Types.State
  }

  /** Normalising a normalised state changes nothing. */
  lemma StateFromRawIdempotent(raw: int)
    ensures StateFromRaw(StateFromRaw(raw) as int) == StateFromRaw(raw)
  {
  }

  // ---------------------------------------------------------------------------
  // Watchers
  // ---------------------------------------------------------------------------

  /** A promise's shared state: empty until it is set, then set for good. */
  function SetOnce<T>(cell: Option<T>, v: T): (r: Option<T>)
    ensures r.Some? && (cell.Some? ==> r == cell) && (cell.None? ==> r == Some(v))
  {
    if cell.None? then Some(v) else cell
  }

  /** What the data promise of a watcher is fulfilled with, by kind: a get, a
      get-children or an exists result. */
  datatype WatchData =
    | DataWatch(get: Results.GetResult)
    | ChildrenWatch(children: Results.GetChildrenResult)
    | ExistsWatch(exists_: Results.ExistsResult)

  /** `watcher` with `basic_watcher`: a data cell and an event cell; each
      "delivered" flag is the cell being set. */
  class Watcher {
    var data: Option<Result<WatchData, Errors.ErrorCode>>
    var event: Option<Results.Event>

    constructor()
      ensures data == None && event == None
    {
      data := None;
      event := None;
    }

    /** `deliver_data`: the first delivery sets the data cell, later ones do
        nothing. */
    method DeliverData(d: Result<WatchData, Errors.ErrorCode>)
      modifies this
      ensures data == SetOnce(old(data), d) && event == old(event)
    {
      if data.None? {
        data := Some(d);
      }
    }

    /** `deliver_event`: data not yet delivered fails with `closed` first;
        then the first event sets the event cell. */
    method DeliverEvent(ev: Results.Event)
      modifies this
      ensures data == SetOnce(old(data), Err(Errors.Closed))
      ensures event == SetOnce(old(event), ev)
    {
      if data.None? {
        DeliverData(Err(Errors.Closed));
      }
      if event.None? {
        event := Some(ev);
      }
    }
  }

  /** The data a get or get-children watch delivers: the payload on ok, the
      normalised code otherwise. */
  function DataCompletion(rawRc: int, payload: WatchData): (r: Result<WatchData, Errors.ErrorCode>)
    ensures r.Ok? <==> ErrorCodeFromRaw(rawRc) == Errors.Ok
    ensures r.Ok? ==> r.value == payload
    ensures r.Err? ==> r.error == ErrorCodeFromRaw(rawRc)
  {
    var rc := ErrorCodeFromRaw(rawRc);
    if rc == Errors.Ok then Ok(payload) else Err(rc)
  }

  /** The exists callbacks: ok gives the stat, no_entry gives an absent stat
      (a result, not an error), any other code is an error. */
  function ExistsCompletion(rawRc: int, stat: Types.Stat): (r: Result<Results.ExistsResult, Errors.ErrorCode>)
    ensures r.Ok? <==> ErrorCodeFromRaw(rawRc) in {Errors.Ok, Errors.NoEntry}
    ensures r.Ok? ==> (r.value.Exists() <==> ErrorCodeFromRaw(rawRc) == Errors.Ok)
    ensures r.Ok? && r.value.Exists() ==> r.value.stat == Some(stat)
    ensures r.Err? ==> r.error == ErrorCodeFromRaw(rawRc)
  {
    var rc := ErrorCodeFromRaw(rawRc);
    if rc == Errors.Ok then Ok(Results.ExistsResult(Some(stat)))
    else if rc == Errors.NoEntry then Ok(Results.ExistsResult(None))
    else Err(rc)
  }

  /** `exists_watcher::deliver_raw`. */
  method DeliverExists(w: Watcher, rawRc: int, stat: Types.Stat)
    modifies w
    ensures w.data == SetOnce(old(w.data), match ExistsCompletion(rawRc, stat)
                                           case Ok(r) => Ok(ExistsWatch(r))
                                           case Err(c) => Err(c))
    ensures w.event == old(w.event)
  {
    var r := ExistsCompletion(rawRc, stat);
    match r
    case Ok(v) => w.DeliverData(Ok(ExistsWatch(v)));
    case Err(c) => w.DeliverData(Err(c));
  }

  /** `data_watcher::deliver_raw` and `child_watcher::deliver_raw`. */
  method DeliverWatchData(w: Watcher, rawRc: int, payload: WatchData)
    modifies w
    ensures w.data == SetOnce(old(w.data), DataCompletion(rawRc, payload))
    ensures w.event == old(w.event)
  {
    w.DeliverData(DataCompletion(rawRc, payload));
  }

  // ---------------------------------------------------------------------------
  // connection_zk
  // ---------------------------------------------------------------------------

  /** `connection_zk`: whether the native handle is live, and `_watches`. A
      watch is keyed by its watcher's address, so the table is the set of
      registered watchers. */
  class ZkConnection {
    var open: bool
    var watches: set<Watcher>

    /** Every registered watcher is still waiting for its event: the only way
        to deliver one is to take the watcher out of the table first. */
    predicate Valid()
      reads this, watches
    {
      forall w :: w in watches ==> w.event.None?
    }

    /** A connection whose native handle was created. */
    constructor()
      ensures open && watches == {} && Valid()
    {
      open := true;
      watches := {};
    }

    /** `state()`: the normalised native state while open, else closed. */
    function State(rawState: int): (s: Types.State)
      reads this
      ensures s != Types.Associating && s != Types.NotConnected
      ensures !open ==> s == Types.Closed
      ensures open ==> s == StateFromRaw(rawState)
    {
      if open then StateFromRaw(rawState) else Types.Closed
    }

    /** `watch`, `watch_children` and `watch_exists`: a new watcher, added to
        the table only when the submission returns ok; otherwise its data
        fails with the normalised code and the table is unchanged. */
    method Watch(submitRc: int) returns (w: Watcher)
      requires Valid()
      modifies this
      ensures fresh(w) && w.event == None && Valid() && open == old(open)
      ensures ErrorCodeFromRaw(submitRc) == Errors.Ok ==> watches == old(watches) + {w} && w.data == None
      ensures ErrorCodeFromRaw(submitRc) != Errors.Ok ==>
                watches == old(watches) && w.data == Some(Err(ErrorCodeFromRaw(submitRc)))
    {
      w := new Watcher();
      var rc := ErrorCodeFromRaw(submitRc);
      if rc == Errors.Ok {
        watches := watches + {w};
      } else {
        w.DeliverData(Err(rc));
      }
    }

    /** `try_extract_watch` then `deliver_watch`: a registered watcher is taken
        out of the table before its event is delivered; an unknown key is
        ignored. */
    method DeliverWatch(key: Watcher, eventType: int, rawState: int)
      requires Valid()
      modifies this, key
      ensures Valid() && open == old(open)
      ensures key in old(watches) ==>
                watches == old(watches) - {key}
                && key.event == Some(Results.Event(eventType as Types.EventType, StateFromRaw(rawState)))
                && key.data == SetOnce(old(key.data), Err(Errors.Closed))
      ensures key !in old(watches) ==>
                watches == old(watches) && key.event == old(key.event) && key.data == old(key.data)
    {
      if key in watches {
        watches := watches - {key};
        key.DeliverEvent(Results.Event(eventType as Types.EventType, StateFromRaw(rawState)));
      }
    }

    /** `close()`: on a live handle whose native close returns ok, the handle
        is dropped, the table emptied, and every watcher that was in it gets
        event(session, closed). A failing native close throws and changes
        nothing; closing a closed connection does nothing. */
    method Close(closeRc: int) returns (thrown: Option<Errors.Error>)
      requires Valid()
      modifies this, watches
      ensures Valid()
      ensures !old(open) ==> thrown == None && !open && watches == old(watches)
                             && forall w :: w in old(watches) ==> w.data == old(w.data) && w.event == old(w.event)
      ensures old(open) && ErrorCodeFromRaw(closeRc) != Errors.Ok ==>
                thrown == Some(Errors.ThrowError(ErrorCodeFromRaw(closeRc)))
                && open && watches == old(watches)
                && forall w :: w in old(watches) ==> w.data == old(w.data) && w.event == old(w.event)
      ensures old(open) && ErrorCodeFromRaw(closeRc) == Errors.Ok ==>
                thrown == None && !open && watches == {}
                && forall w :: w in old(watches) ==>
                     w.event == Some(Results.Event(Types.Session, Types.Closed))
                     && w.data == SetOnce(old(w.data), Err(Errors.Closed))
    {
      if !open {
        return None;
      }
      var err := ErrorCodeFromRaw(closeRc);
      if err != Errors.Ok {
        return Some(Errors.ThrowError(err));
      }
      open := false;
      var pending := watches;
      watches := {};
      while pending != {}
        invariant pending <= old(watches)
        invariant forall w :: w in pending ==> w.data == old(w.data) && w.event == old(w.event)
        invariant forall w :: w in old(watches) && w !in pending ==>
                    w.event == Some(Results.Event(Types.Session, Types.Closed))
                    && w.data == SetOnce(old(w.data), Err(Errors.Closed))
        invariant !open && watches == {}
        decreases pending
      {
        var w :| w in pending;
        w.DeliverEvent(Results.Event(Types.Session, Types.Closed));
        pending := pending - {w};
      }
      thrown := None;
    }
  }

  /** A watch registered and then closed sees event(session, closed), and a
      second close does nothing. */
  method WatchThenClose() returns (c: ZkConnection, w: Watcher)
    ensures w.event == Some(Results.Event(Types.Session, Types.Closed))
    ensures w.data == Some(Err(Errors.Closed))
    ensures !c.open && c.watches == {} && c.State(3) == Types.Closed
  {
    c := new ZkConnection();
    w := c.Watch(0);
    var first := c.Close(0);
    var second := c.Close(0);
  }

  // ---------------------------------------------------------------------------
  // The transaction completer
  // ---------------------------------------------------------------------------

  /** `zoo_op_result_t`: the code of one op, the name a create produced and
      the stat a set produced. */
  datatype RawResult = RawResult(err: int, value: string, stat: Types.Stat)

  /** `transaction_failed`: the code of the failure and the index of the op
      that failed. */
  datatype TransactionFailure = TransactionFailure(code: Errors.ErrorCode, failedIndex: nat)

  /** The parts of a successful commit: one per op, at the same index; a
      create gives its name, a set its stat, a check or erase its type only. */
  function SuccessParts(txn: seq<Multi.Op>, raws: seq<RawResult>): (parts: seq<Multi.Part>)
    requires |raws| == |txn|
    ensures |parts| == |txn|
    ensures forall i :: 0 <= i < |txn| ==> parts[i].Type() == txn[i].Type()
    ensures forall i :: 0 <= i < |txn| && txn[i].CreateOp? ==>
              parts[i].result == Multi.Created(Results.CreateResult(raws[i].value))
    ensures forall i :: 0 <= i < |txn| && txn[i].SetOp? ==>
              parts[i].result == Multi.Written(Results.SetResult(raws[i].stat))
    ensures forall i :: 0 <= i < |txn| && (txn[i].CheckOp? || txn[i].EraseOp?) ==>
              parts[i].result == Multi.NoResult
  {
    seq(|txn|, i requires 0 <= i < |txn| => PartFor(txn[i], raws[i]))
  }

  function PartFor(o: Multi.Op, raw: RawResult): Multi.Part
  {
    match o
    case CreateOp(_) => Multi.CreatedPart(Results.CreateResult(raw.value))
    case SetOp(_) => Multi.WrittenPart(Results.SetResult(raw.stat))
    case _ => Multi.TypedPart(o.Type())
  }

  /** The results before index i are all ok, and none after a failed one is. */
  predicate Partitioned(raws: seq<RawResult>)
  {
    forall i, j :: 0 <= i < j < |raws| && raws[j].err == 0 ==> raws[i].err == 0
  }

  /** The length of the leading run of ok results. */
  function LeadingOk(raws: seq<RawResult>): (n: nat)
    ensures n <= |raws|
    ensures forall k :: 0 <= k < n ==> raws[k].err == 0
    ensures n < |raws| ==> raws[n].err != 0
  {
    if |raws| == 0 || raws[0].err != 0 then 0 else 1 + LeadingOk(raws[1..])
  }

  /** Any index preceded only by ok results and not itself ok is the leading
      run's length. */
  lemma {:induction false} LeadingOkUnique(raws: seq<RawResult>, p: nat)
    requires p <= |raws|
    requires forall k :: 0 <= k < p ==> raws[k].err == 0
    requires p < |raws| ==> raws[p].err != 0
    ensures p == LeadingOk(raws)
  {
    if p > 0 {
      LeadingOkUnique(raws[1..], p - 1);
    }
  }

  /** `std::partition_point` with "err == 0": a binary search, which finds the
      leading run of ok results whenever the results are partitioned. */
  method PartitionPoint(raws: array<RawResult>) returns (idx: nat)
    ensures idx <= raws.Length
    ensures Partitioned(raws[..]) ==> idx == LeadingOk(raws[..])
  {
    var lo, hi := 0, raws.Length;
    while lo < hi
      invariant 0 <= lo <= hi <= raws.Length
      invariant Partitioned(raws[..]) ==> forall k :: 0 <= k < lo ==> raws[k].err == 0
      invariant Partitioned(raws[..]) ==> forall k :: hi <= k < raws.Length ==> raws[k].err != 0
      decreases hi - lo
    {
      var mid := lo + (hi - lo) / 2;
      if raws[mid].err == 0 {
        lo := mid + 1;
      } else {
        hi := mid;
      }
    }
    if Partitioned(raws[..]) {
      LeadingOkUnique(raws[..], lo);
    }
    idx := lo;
  }

  /** `connection_zk_commit_completer`: the transaction, and the raw results
      the native library writes while it runs the transaction. */
  class CommitCompleter {
    const sourceTxn: seq<Multi.Op>
    const rawResults: array<RawResult>

    predicate Valid()
      reads this
    {
      rawResults.Length == |sourceTxn|
    }

    /** One raw result per op, each starting with err = -42. */
    constructor(src: seq<Multi.Op>, blank: Types.Stat)
      ensures sourceTxn == src && Valid() && fresh(rawResults)
      ensures forall i :: 0 <= i < rawResults.Length ==> rawResults[i].err == -42
    {
      sourceTxn := src;
      rawResults := new RawResult[|src|](_ => RawResult(0, "", blank));
      new;
      for i := 0 to rawResults.Length
        invariant forall k :: 0 <= k < i ==> rawResults[k].err == -42
      {
        rawResults[i] := rawResults[i].(err := -42);
      }
    }

    /** The native library writing the result of op `idx`. */
    method Record(idx: nat, r: RawResult)
      requires idx < rawResults.Length
      modifies rawResults
      ensures rawResults[..] == old(rawResults[..])[idx := r]
    {
      rawResults[idx] := r;
    }

    /** `deliver(rc)`: on ok, one part per op in order; otherwise the failure
        with its code and the index the leading run of ok results ends at. */
    method Deliver(rc: Errors.ErrorCode) returns (outcome: Result<seq<Multi.Part>, TransactionFailure>)
      requires Valid()
      ensures rc == Errors.Ok ==> outcome == Ok(SuccessParts(sourceTxn, rawResults[..]))
      ensures rc != Errors.Ok ==> outcome.Err? && outcome.error.code == rc
                                  && outcome.error.failedIndex <= |sourceTxn|
      ensures rc != Errors.Ok && Partitioned(rawResults[..]) ==>
                outcome.error.failedIndex == LeadingOk(rawResults[..])
    {
      if rc == Errors.Ok {
        var out := new Multi.MultiResult([]);
        for idx := 0 to |sourceTxn|
          invariant out.parts == SuccessParts(sourceTxn[..idx], rawResults[..idx])
        {
          var raw := rawResults[idx];
          var o := sourceTxn[idx];
          var part: Multi.Part;
          match o {
            case CreateOp(_) => part := Multi.CreatedPart(Results.CreateResult(raw.value));
            case SetOp(_) => part := Multi.WrittenPart(Results.SetResult(raw.stat));
            case _ => part := Multi.TypedPart(o.Type());
          }
          out.PushBack(part);
        }
        assert sourceTxn[..|sourceTxn|] == sourceTxn;
        assert rawResults[..|sourceTxn|] == rawResults[..];
        outcome := Ok(out.parts);
      } else {
        var index := PartitionPoint(rawResults);
        outcome := Err(TransactionFailure(rc, index));
      }
    }
  }

  /** With nothing recorded, every result still holds -42, so a failure
      reports index 0. */
  method FailureBeforeAnyResult(txn: seq<Multi.Op>, blank: Types.Stat, rc: Errors.ErrorCode)
    returns (outcome: Result<seq<Multi.Part>, TransactionFailure>)
    requires rc != Errors.Ok
    ensures outcome == Err(TransactionFailure(rc, 0))
  {
    var completer := new CommitCompleter(txn, blank);
    outcome := completer.Deliver(rc);
    if |txn| > 0 {
      LeadingOkUnique(completer.rawResults[..], 0);
    }
  }

  /** `path_buffer_for`: room for the path and its terminator, and for a
      sequential create the digits the ensemble appends. */
  function PathBufferSize(path: string, mode: Types.CreateMode): (n: nat)
    ensures n > |path|
    ensures Types.IsSet(mode, Types.Sequential) <==> n == |path| + 12
  {
    |path| + (if Types.IsSet(mode, Types.Sequential) then 12 else 1)
  }
}
