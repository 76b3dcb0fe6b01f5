/**
 * The perf_ex processing element: a singleton guarded by is_init, whose init
 * installs the two tool-chain callbacks and whose fini puts the warning
 * defaults back. Neither touches the embedded processing object's data_in
 * or data_out.
 */
module PerfEx {
  import opened Common
  import opened Processing

  /** A call of perf_ex_init or perf_ex_fini. */
  datatype Call = InitCall | FiniCall

  /** The return code and the new is_init of one call, from is_init. */
  function Step(isInit: bool, c: Call): (r: (int, bool))
    ensures r.0 == 0 || r.0 == -1
  {
    match c
    case InitCall => if isInit then (-1, true) else (0, true)
    case FiniCall => if isInit then (0, false) else (-1, false)
  }

  /** The return codes of a sequence of calls, and the final is_init. */
  function Run(isInit: bool, calls: seq<Call>): (r: (seq<int>, bool))
    ensures |r.0| == |calls|
    decreases |calls|
  {
    if calls == [] then ([], isInit)
    else
      var s := Step(isInit, calls[0]);
      var rest := Run(s.1, calls[1..]);
      ([s.0] + rest.0, rest.1)
  }

  /** The set_tc / set_tc_gbl_config pair of a perf_ex_obj: never assigned, the working ones, or the defaults. */
  datatype TcOps = Cleared | Installed | Defaults

  /** perf_ex_obj; pdata points at the singleton or is NULL. */
  class PerfExObj {
    const proc: ProcessingObj
    var ops: TcOps
    var pdata: Option<PerfExData>

    constructor (proc: ProcessingObj)
      ensures this.proc == proc && ops == Cleared && pdata == None
    {
      this.proc := proc;
      ops := Cleared;
      pdata := None;
    }

    /**
     * perf_ex_set_tc and perf_ex_set_tc_gbl_config, and the defaults
     * installed by fini: each returns 0 whichever pair is installed (the
     * defaults only add a warning).
     */
    method SetTc(path: string) returns (rc: int)
      ensures rc == 0
    {
      rc := 0;
    }

    method SetTcGblConfig() returns (rc: int)
      ensures rc == 0
    {
      rc := 0;
    }

    /** perf_ex_data_out: returns 0 without looking at the message. */
    method DataOut() returns (rc: int)
      ensures rc == 0
    {
      rc := 0;
    }
  }

  /** perf_ex_private_data: the singleton perf_ex_priv_data (the tool-chain fields are not modelled). */
  class PerfExData {
    var isInit: bool

    /** The static singleton starts zeroed. */
    constructor ()
      ensures !isInit
    {
      isInit := false;
    }

    /** perf_ex_init: refused while initialised; otherwise points pdata here and installs the callbacks. */
    method Init(obj: PerfExObj) returns (rc: int)
      modifies this, obj`ops, obj`pdata
      ensures (rc, isInit) == Step(old(isInit), InitCall)
      ensures rc == 0 ==> obj.ops == Installed && obj.pdata == Some(this)
      ensures rc != 0 ==> obj.ops == old(obj.ops) && obj.pdata == old(obj.pdata)
    {
      if isInit {
        return -1;
      }
      obj.pdata := Some(this);
      obj.ops := Installed;
      isInit := true;
      return 0;
    }

    /**
     * perf_ex_fini: refused unless initialised; otherwise installs the
     * defaults and clears is_init through pdata, which is left set.
     */
    method Fini(obj: PerfExObj) returns (rc: int)
      requires isInit ==> obj.pdata == Some(this)
      modifies this, obj`ops
      ensures (rc, isInit) == Step(old(isInit), FiniCall)
      ensures rc == 0 ==> obj.ops == Defaults
      ensures rc != 0 ==> obj.ops == old(obj.ops)
      ensures obj.pdata == old(obj.pdata)
    {
      if !isInit {
        return -1;
      }
      obj.ops := Defaults;
      isInit := false;
      return 0;
    }
  }

  // ------------------------------------------------------------- properties

  /** Init and fini alternate: each call succeeds exactly when it is the one is_init calls for next. */
  lemma StepSucceedsWhenExpected(isInit: bool, c: Call)
    ensures Step(isInit, c).0 == 0 <==> (c == InitCall) == !isInit
    ensures Step(isInit, c).1 == (c == InitCall)
  {
  }

  /** The initialised state after a run is that of the last call, whatever came before it. */
  lemma {:induction false} RunEndsAtLastCall(isInit: bool, calls: seq<Call>)
    requires calls != []
    ensures Run(isInit, calls).1 == (calls[|calls| - 1] == InitCall)
    decreases |calls|
  {
    if |calls| > 1 {
      RunEndsAtLastCall(Step(isInit, calls[0]).1, calls[1..]);
    }
  }

  /** A strictly alternating run from the zeroed singleton, init first, succeeds throughout. */
  lemma {:induction false} AlternationSucceeds(calls: seq<Call>, isInit: bool)
    requires forall k :: 0 <= k < |calls| ==> (calls[k] == InitCall) == ((k % 2 == 0) != isInit)
    ensures forall k :: 0 <= k < |calls| ==> Run(isInit, calls).0[k] == 0
    decreases |calls|
  {
    if calls != [] {
      var rest := calls[1..];
      forall k | 0 <= k < |rest|
        ensures (rest[k] == InitCall) == ((k % 2 == 0) != !isInit)
      {
        assert rest[k] == calls[k + 1];
      }
      AlternationSucceeds(rest, !isInit);
    }
  }

  /** The sequences of the init / fini tests: init then fini, a refused second init, a refused second fini. */
  lemma LifecycleTests()
    ensures Run(false, [InitCall, FiniCall]) == ([0, 0], false)
    ensures Run(false, [InitCall, InitCall, FiniCall]) == ([0, -1, 0], false)
    ensures Run(false, [InitCall, FiniCall, FiniCall]) == ([0, 0, -1], false)
  {
    assert [FiniCall][1..] == [] && [InitCall, FiniCall][1..] == [FiniCall];
    assert [FiniCall, FiniCall][1..] == [FiniCall];
    assert [InitCall, InitCall, FiniCall][1..] == [InitCall, FiniCall];
    assert [InitCall, FiniCall, FiniCall][1..] == [FiniCall, FiniCall];
    assert [0] + [] == [0] && [-1] + [] == [-1];
    assert Run(true, [FiniCall]) == ([0], false);
    assert Run(false, [FiniCall]) == ([-1], false);
    assert [-1] + [0] == [-1, 0] && [0] + [-1] == [0, -1] && [0] + [0] == [0, 0];
    assert Run(true, [InitCall, FiniCall]) == ([-1, 0], false);
    assert Run(true, [FiniCall, FiniCall]) == ([0, -1], false);
    assert [0] + [-1, 0] == [0, -1, 0] && [0] + [0, -1] == [0, 0, -1];
  }
}
