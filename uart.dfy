/**
 * The UART source: a pool of one static slot holding the device path, the
 * descriptor and the is_used / is_open flags, the device callbacks that set
 * the path, open and close the device, and uart_receive, whose body is
 * compiled out. open(), close() and the termios calls are outside the
 * model: their outcomes are parameters.
 */
module Uart {
  import opened Common
  import opened Text
  import opened Processing

  /** UART_MAX_INSTANCE */
  const UART_COUNT: nat := 1

  /** uart_private_data; devPath is the C string the path buffer holds (the termios settings are not modelled). */
  datatype UartSlot = UartSlot(devPath: string, fd: int, isUsed: bool, isOpen: bool)

  /** The zeroed slot. */
  const ZERO_SLOT := UartSlot("", 0, false, false)

  /** The first slot at or after i that is not in use. */
  function FirstUnused(s: seq<UartSlot>, i: nat): (r: Option<nat>)
    requires i <= |s|
    ensures r.Some? ==> i <= r.value < |s| && !s[r.value].isUsed
    ensures r.Some? ==> forall j :: i <= j < r.value ==> s[j].isUsed
    ensures r.None? <==> forall j :: i <= j < |s| ==> s[j].isUsed
    decreases |s| - i
  {
    if i == |s| then None
    else if !s[i].isUsed then Some(i)
    else FirstUnused(s, i + 1)
  }

  /** A return code with the slot it leaves. */
  datatype SlotResult = SlotResult(rc: int, slot: UartSlot)

  /**
   * uart_open on a slot; fdResult is what open() returns. Rejected when
   * already open; otherwise the descriptor is stored whatever it is, and the
   * slot is open only when open() succeeded.
   */
  function OpenSlot(s: UartSlot, fdResult: int): (r: SlotResult)
  {
    if s.isOpen then SlotResult(-1, s)
    else if fdResult < 0 then SlotResult(-1, s.(fd := fdResult))
    else SlotResult(0, s.(fd := fdResult, isOpen := true))
  }

  /** uart_close on a slot: rejected when not open; otherwise the device is closed but is_open stays set. */
  function CloseSlot(s: UartSlot): (r: SlotResult)
  {
    if !s.isOpen then SlotResult(-1, s) else SlotResult(0, s)
  }

  /** The four device callbacks of a uart_obj. */
  datatype UartOps = Cleared | Installed

  /** uart_obj: the embedded processing object, its device callbacks and pdata (a slot index, None for NULL). */
  class UartObj {
    const proc: ProcessingObj
    var ops: UartOps
    var pdata: Option<nat>

    constructor (proc: ProcessingObj)
      ensures this.proc == proc && ops == Cleared && pdata == None
    {
      this.proc := proc;
      ops := Cleared;
      pdata := None;
    }
  }

  /** uart_receive: the receiving loop is compiled out, so it returns -1. */
  method Receive() returns (rc: int)
    ensures rc == -1
  {
    rc := -1;
  }

  /** uart_set_baudrate; getOk and setOk are the outcomes of tcgetattr and tcsetattr. */
  method SetBaudrate(getOk: bool, setOk: bool) returns (rc: int)
    ensures rc == 0 <==> getOk && setOk
    ensures rc == 0 || rc == -1
  {
    if !getOk {
      return -1;
    }
    if !setOk {
      return -1;
    }
    return 0;
  }

  /** The static array uarts_instances. */
  class Pool {
    var slots: array<UartSlot>

    predicate Valid()
      reads this, slots
    {
      slots.Length == UART_COUNT
    }

    /** An object whose pdata points at a slot of the pool. */
    predicate Points(obj: UartObj)
      reads this, obj
    {
      obj.pdata.Some? && obj.pdata.value < slots.Length
    }

    constructor ()
      ensures Valid() && fresh(slots)
      ensures forall i :: 0 <= i < slots.Length ==> slots[i] == ZERO_SLOT
    {
      slots := new UartSlot[UART_COUNT](_ => ZERO_SLOT);
    }

    /** uart_get_instance: the first unused slot is claimed and pdata points at it; -1 when the one slot is used. */
    method GetInstance(obj: UartObj) returns (rc: int)
      requires Valid()
      modifies slots, obj`pdata
      ensures var free := FirstUnused(old(slots[..]), 0);
        && (rc == 0 <==> free.Some?) && (rc == 0 || rc == -1)
        && (free.None? ==> slots[..] == old(slots[..]) && obj.pdata == old(obj.pdata))
        && (free.Some? ==> (obj.pdata == free &&
              slots[..] == old(slots[..])[free.value := old(slots[free.value]).(isUsed := true)]))
    {
      var i := 0;
      while i < slots.Length
        invariant 0 <= i <= slots.Length
        invariant slots[..] == old(slots[..]) && obj.pdata == old(obj.pdata)
        invariant FirstUnused(slots[..], 0) == FirstUnused(slots[..], i)
      {
        if !slots[i].isUsed {
          obj.pdata := Some(i);
          slots[i] := slots[i].(isUsed := true);
          return 0;
        }
        i := i + 1;
      }
      return -1;
    }

    /** uart_free_instance: the slot is zeroed; pdata keeps pointing at it. */
    method FreeInstance(obj: UartObj)
      requires Valid() && Points(obj)
      modifies slots
      ensures slots[..] == old(slots[..])[obj.pdata.value := ZERO_SLOT]
    {
      slots[obj.pdata.value] := ZERO_SLOT;
    }

    /** uart_set_dev: no check of the slot; the path is cut to 254 characters; always 0. */
    method SetDev(obj: UartObj, dev: string) returns (rc: int)
      requires Valid() && Points(obj)
      modifies slots
      ensures rc == 0
      ensures var i := obj.pdata.value;
        slots[..] == old(slots[..])[i := old(slots[i]).(devPath := StrnCopy(dev, STRING_MAX_LENGTH - 1))]
    {
      var i := obj.pdata.value;
      slots[i] := slots[i].(devPath := StrnCopy(dev, STRING_MAX_LENGTH - 1));
      return 0;
    }

    /** uart_open; fdResult is what open() returns for the device path. */
    method Open(obj: UartObj, fdResult: int) returns (rc: int)
      requires Valid() && Points(obj)
      modifies slots
      ensures var i := obj.pdata.value; var r := OpenSlot(old(slots[i]), fdResult);
        rc == r.rc && slots[..] == old(slots[..])[i := r.slot]
    {
      var i := obj.pdata.value;
      if slots[i].isOpen {
        return -1;
      }
      slots[i] := slots[i].(fd := fdResult);
      if slots[i].fd < 0 {
        return -1;
      }
      slots[i] := slots[i].(isOpen := true);
      return 0;
    }

    /** uart_close */
    method Close(obj: UartObj) returns (rc: int)
      requires Valid() && Points(obj)
      ensures rc == CloseSlot(slots[obj.pdata.value]).rc
    {
      var i := obj.pdata.value;
      if !slots[i].isOpen {
        return -1;
      }
      return 0;
    }

    /**
     * uart_init: zeroes the object, claims the slot, installs the device
     * callbacks, the processing defaults and uart_receive as data_out. When
     * the slot is taken the failure path zeroes the slot through a NULL
     * pdata, so a free slot is required.
     */
    method Init(obj: UartObj) returns (rc: int)
      requires Valid() && FirstUnused(slots[..], 0).Some?
      modifies slots, obj, obj.proc
      ensures Valid() && Points(obj) && rc == 0
      ensures var free := FirstUnused(old(slots[..]), 0).value;
        && obj.pdata == Some(free)
        && slots[..] == old(slots[..])[free := old(slots[free]).(isUsed := true)]
      ensures obj.ops == Installed && obj.proc.dataIn == DataInDefault && obj.proc.dataOut == UartReceive
      ensures !obj.proc.reqEnd
    {
      obj.proc.dataIn, obj.proc.dataOut, obj.proc.reqEnd := Processing.Unset, Processing.Unset, false;
      obj.ops := Cleared;
      obj.pdata := None;
      var got := GetInstance(obj);
      obj.ops := Installed;
      var p := obj.proc.Init();
      obj.proc.dataOut := UartReceive;
      return 0;
    }

    /**
     * uart_fini: nothing but a warning for an unused slot; otherwise the
     * processing defaults are reinstalled and the slot is zeroed, which
     * releases it for the next uart_init.
     */
    method Fini(obj: UartObj)
      requires Valid() && Points(obj)
      modifies slots, obj.proc
      ensures var i := obj.pdata.value;
        if old(slots[i]).isUsed then
          slots[..] == old(slots[..])[i := ZERO_SLOT] &&
          obj.proc.dataIn == DataInDefault && obj.proc.dataOut == DataOutDefault
        else
          slots[..] == old(slots[..]) &&
          obj.proc.dataIn == old(obj.proc.dataIn) && obj.proc.dataOut == old(obj.proc.dataOut)
      ensures obj.proc.reqEnd == old(obj.proc.reqEnd)
    {
      var i := obj.pdata.value;
      if !slots[i].isUsed {
        return;
      }
      var p := obj.proc.Fini();
      FreeInstance(obj);
    }
  }

  // ------------------------------------------------------------- properties

  /**
   * uart_close leaves is_open set: after a successful open, close succeeds
   * and keeps succeeding, and the device cannot be opened again.
   */
  lemma ClosedDeviceStaysOpen(s: UartSlot, fdResult: int, fdAgain: int)
    requires OpenSlot(s, fdResult).rc == 0
    ensures var o := OpenSlot(s, fdResult).slot;
      o.isOpen && CloseSlot(o) == SlotResult(0, o) &&
      OpenSlot(CloseSlot(o).slot, fdAgain) == SlotResult(-1, o)
  {
  }

  /** A failed open leaves the device closed, so a later open is tried afresh. */
  lemma FailedOpenRetries(s: UartSlot, fdResult: int)
    requires !s.isOpen && fdResult < 0
    ensures var r := OpenSlot(s, fdResult);
      r.rc == -1 && !r.slot.isOpen && r.slot.fd == fdResult && CloseSlot(r.slot).rc == -1
  {
  }

  /** With the one slot in use a second uart_init finds none; once uart_fini zeroes it, the next finds it. */
  lemma SingleInstance(s: seq<UartSlot>)
    requires |s| == UART_COUNT && s[0].isUsed
    ensures FirstUnused(s, 0).None?
    ensures FirstUnused(s[0 := ZERO_SLOT], 0) == Some(0)
  {
  }
}
