/**
 * The linear pipeline: a singleton holding up to 16 processing objects, a
 * count, one shared message and the source/sink connection flags.
 */
module Pipeline {
  import opened Common
  import opened Processing
  import Message

  /** Capacity of proc_objs. */
  const MAX_OBJS: nat := 16

  /** One callback invocation made by stream_data, naming the stage it was made on. */
  datatype Call = DataOut(stage: nat) | DataIn(stage: nat)

  /** The calls over the first k links of the chain, in order. */
  function Chain(k: nat): (r: seq<Call>)
    ensures forall i :: 0 <= i < |r| ==> (r[i].DataOut? ==> r[i].stage < k) && (r[i].DataIn? ==> 1 <= r[i].stage <= k)
  {
    if k == 0 then [] else Chain(k - 1) + [DataOut(k - 1), DataIn(k)]
  }

  /** Link i of the chain is data_out of stage i followed by data_in of stage i + 1. */
  lemma {:induction false} ChainAt(k: nat, i: nat)
    requires i < k
    ensures |Chain(k)| == 2 * k
    ensures Chain(k)[2 * i] == DataOut(i) && Chain(k)[2 * i + 1] == DataIn(i + 1)
  {
    if i < k - 1 {
      ChainAt(k - 1, i);
    } else {
      ChainLength(k - 1);
    }
  }

  lemma {:induction false} ChainLength(k: nat)
    ensures |Chain(k)| == 2 * k
  {
    if k > 0 {
      ChainLength(k - 1);
    }
  }

  /** Which callbacks a pipeline_obj carries. */
  datatype PipeOps = Uninstalled | Installed

  /** pipeline_obj: its four callbacks and its pdata. */
  class PipelineObj {
    var ops: PipeOps
    var pdata: PipelineData?

    constructor ()
      ensures ops == Uninstalled && pdata == null
    {
      ops, pdata := Uninstalled, null;
    }
  }

  /** pipeline_private_data: the single static instance pipeline_pdata. */
  class PipelineData {
    var procObjs: array<ProcessingObj?>
    var count: nat
    var msg: Message.MessageObj
    var isSinkConnected: bool
    var isSrcConnected: bool
    var isUsed: bool

    predicate Valid()
      reads this, procObjs
    {
      procObjs.Length == MAX_OBJS && count <= MAX_OBJS &&
      forall i :: 0 <= i < count ==> procObjs[i] != null
    }

    /** The attached objects, in attachment order. */
    function Stages(): seq<ProcessingObj?>
      reads this, procObjs
      requires Valid()
    {
      procObjs[..count]
    }

    /** The zero-initialised static instance. */
    constructor ()
      ensures Valid() && fresh(procObjs) && fresh(msg)
      ensures count == 0 && !isSinkConnected && !isSrcConnected && !isUsed
      ensures msg.ops == Message.Unset && msg.pdata == None
    {
      procObjs := new ProcessingObj?[MAX_OBJS];
      count := 0;
      msg := new Message.MessageObj();
      isSinkConnected, isSrcConnected, isUsed := false, false, false;
    }

    /**
     * pipeline_attach_src: -1 and nothing changed when a source is already
     * connected; otherwise src is appended and the source flag set. There is
     * no bound check, so the caller must leave room.
     */
    method AttachSrc(src: ProcessingObj) returns (rc: int)
      requires Valid()
      requires !isSrcConnected ==> count < MAX_OBJS
      modifies this`count, this`isSrcConnected, procObjs
      ensures Valid()
      ensures rc == 0 || rc == -1
      ensures rc == -1 <==> old(isSrcConnected)
      ensures rc == -1 ==> isSrcConnected == old(isSrcConnected) && count == old(count) && procObjs[..] == old(procObjs[..])
      ensures rc == 0 ==> isSrcConnected && count == old(count) + 1 && Stages() == old(Stages()) + [src]
    {
      if isSrcConnected {
        return -1;
      }
      procObjs[count] := src;
      isSrcConnected := true;
      count := count + 1;
      return 0;
    }

    /**
     * pipeline_attach_proc: -1 and nothing changed unless a source and no sink
     * is connected; otherwise src is appended and dst is ignored. No bound
     * check either.
     */
    method AttachProc(src: ProcessingObj, dst: ProcessingObj?) returns (rc: int)
      requires Valid()
      requires isSrcConnected && !isSinkConnected ==> count < MAX_OBJS
      modifies this`count, procObjs
      ensures Valid()
      ensures rc == 0 || rc == -1
      ensures rc == -1 <==> !isSrcConnected || isSinkConnected
      ensures rc == -1 ==> count == old(count) && procObjs[..] == old(procObjs[..])
      ensures rc == 0 ==> count == old(count) + 1 && Stages() == old(Stages()) + [src]
    {
      if !isSrcConnected {
        return -1;
      }
      if isSinkConnected {
        return -1;
      }
      procObjs[count] := src;
      count := count + 1;
      return 0;
    }

    /**
     * pipeline_attach_sink: -1 when all 16 places are taken; otherwise sink is
     * appended and the sink flag set, and the function falls off its end
     * without a return value (None).
     */
    method AttachSink(sink: ProcessingObj) returns (rc: Option<int>)
      requires Valid()
      modifies this`count, this`isSinkConnected, procObjs
      ensures Valid()
      ensures rc == Some(-1) <==> old(count) == MAX_OBJS
      ensures rc.Some? ==> count == old(count) && isSinkConnected == old(isSinkConnected) && procObjs[..] == old(procObjs[..])
      ensures rc.None? ==> isSinkConnected && count == old(count) + 1 && Stages() == old(Stages()) + [sink]
    {
      if count == MAX_OBJS {
        return Some(-1);
      }
      procObjs[count] := sink;
      isSinkConnected := true;
      count := count + 1;
      return None;
    }

    /**
     * pipeline_stream_data: -1 and no call with fewer than two stages;
     * otherwise data_out of stage i then data_in of stage i + 1 for every
     * link, in array order. The callbacks return size_t, so the `< 0` tests
     * never stop the walk and the result is 0. `reply` stands for the size_t
     * the caller reads back from each callback; the callbacks' effects on the
     * message are those of the stage modules.
     */
    method StreamData(reply: Call -> Size) returns (rc: int, log: seq<Call>)
      requires Valid()
      ensures count < 2 ==> rc == -1 && log == []
      ensures count >= 2 ==> rc == 0 && log == Chain(count - 1)
    {
      log := [];
      if count < 2 {
        return -1, log;
      }
      rc := 0;
      var i := 0;
      while i < count - 1
        invariant 0 <= i <= count - 1
        invariant rc == 0
        invariant log == Chain(i)
      {
        var out: Size := reply(DataOut(i));
        log := log + [DataOut(i)];
        if out < 0 {
          rc := -1;
          break;
        }
        var inn: Size := reply(DataIn(i + 1));
        log := log + [DataIn(i + 1)];
        if inn < 0 {
          rc := -1;
          break;
        }
        i := i + 1;
      }
    }

    /** pipeline_get_instance: memset of the static instance to zero. */
    method GetInstance()
      requires Valid()
      modifies this`count, this`isSinkConnected, this`isSrcConnected, this`isUsed, procObjs, msg
      ensures Valid()
      ensures count == 0 && !isSinkConnected && !isSrcConnected && !isUsed
      ensures forall i :: 0 <= i < procObjs.Length ==> procObjs[i] == null
      ensures msg.ops == Message.Unset && msg.pdata == None
    {
      forall i | 0 <= i < procObjs.Length {
        procObjs[i] := null;
      }
      count := 0;
      isSinkConnected, isSrcConnected, isUsed := false, false, false;
      msg.ops := Message.Unset;
      msg.pdata := None;
    }

    /**
     * pipeline_init: zeroes the instance first, so its `is_used` test never
     * fires; -1 when no message slot is free; otherwise the message holds a
     * slot, the object carries the callbacks and pdata, and is_used is set.
     */
    method Init(pool: Message.Pool, obj: PipelineObj) returns (rc: int)
      requires Valid() && pool.Valid()
      modifies this`count, this`isSinkConnected, this`isSrcConnected, this`isUsed, procObjs, msg
      modifies pool.slots, obj
      ensures Valid() && pool.Valid() && pool.Bound(msg)
      ensures count == 0 && !isSinkConnected && !isSrcConnected
      ensures rc == 0 || rc == -1
      ensures rc == 0 <==> Message.FirstFreeFrom(old(pool.slots[..]), 0).Some?
      ensures forall i :: 0 <= i < procObjs.Length ==> procObjs[i] == null
      ensures rc == -1 ==> !isUsed && obj.ops == old(obj.ops) && obj.pdata == old(obj.pdata)
      ensures rc == -1 ==> pool.slots[..] == old(pool.slots[..]) && msg.pdata == None && msg.ops == Message.Unset
      ensures rc == 0 ==> isUsed && obj.ops == Installed && obj.pdata == this && msg.ops == Message.Buffer
      ensures var free := Message.FirstFreeFrom(old(pool.slots[..]), 0);
        rc == 0 ==>
          && msg.pdata == free
          && pool.slots[free.value] == Message.Slot(old(pool.slots[free.value]).buffer, 0, Message.BUFFER_SIZE, true)
          && forall j :: 0 <= j < pool.slots.Length && j != free.value ==> pool.slots[j] == old(pool.slots[j])
    {
      GetInstance();
      if isUsed {
        return -1;
      }
      var m := pool.Init(msg);
      if m != 0 {
        return -1;
      }
      obj.ops := Installed;
      obj.pdata := this;
      isUsed := true;
      return 0;
    }
  }
}
