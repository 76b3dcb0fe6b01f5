/**
 * The file sink: a pool of 16 static file slots, each with a path, an open
 * mode, a descriptor and the is_used / is_open flags, and the file_write
 * callback that hands a message to write() until all of it is written.
 * open() and write() are outside the model: their outcomes are parameters.
 */
module File {
  import opened Common
  import opened Text
  import opened Processing

  /** FILE_COUNT_MAX */
  const FILE_COUNT: nat := 16

  /** enum file_mode; any other value stored in the field is Unhandled. */
  datatype FileMode = RdOnly | WrOnly | Unhandled

  /** file_priv_data; path is the C string the path buffer holds. */
  datatype FileSlot = FileSlot(path: string, fd: int, mode: FileMode, isOpen: bool, isUsed: bool)

  /** The zeroed slot: empty path, descriptor 0, mode 0 (FILE_RDONLY), both flags clear. */
  const ZERO_SLOT := FileSlot("", 0, RdOnly, false, false)

  /** The first slot at or after i that is not in use. */
  function FirstUnused(s: seq<FileSlot>, i: nat): (r: Option<nat>)
    requires i <= |s|
    ensures r.Some? ==> i <= r.value < |s| && !s[r.value].isUsed
    ensures r.Some? ==> forall j :: i <= j < r.value ==> s[j].isUsed
    ensures r.None? <==> forall j :: i <= j < |s| ==> s[j].isUsed
    decreases |s| - i
  {
    if i == |s| then None
    else if !s[i].isUsed then Some(i)
    else FirstUnused(s, i + 1)
  }

  /** A return code with the slot it leaves. */
  datatype SlotResult = SlotResult(rc: int, slot: FileSlot)

  /** file_set_path on a slot: rejected unless claimed; otherwise the path and the mode are recorded. */
  function SetPathSlot(s: FileSlot, path: string, mode: FileMode): (r: SlotResult)
  {
    if !s.isUsed then SlotResult(-1, s)
    else SlotResult(0, s.(path := StrnCopy(path, STRING_MAX_LENGTH - 1), mode := mode))
  }

  /**
   * file_open on a slot; fdResult is what open() returns. Rejected unless
   * claimed, when already open, for an unhandled mode, and when open() fails;
   * otherwise the slot is open on the new descriptor.
   */
  function OpenSlot(s: FileSlot, fdResult: int): (r: SlotResult)
  {
    if !s.isUsed || s.isOpen || s.mode == Unhandled || fdResult < 0 then SlotResult(-1, s)
    else SlotResult(0, s.(isOpen := true, fd := fdResult))
  }

  /** file_close on a slot: rejected unless claimed and open; otherwise the slot is no longer open. */
  function CloseSlot(s: FileSlot): (r: SlotResult)
  {
    if !s.isUsed || !s.isOpen then SlotResult(-1, s)
    else SlotResult(0, s.(isOpen := false))
  }

  /** What a write() call returns: a count of bytes, or -1. */
  datatype Outcome = Wrote(n: nat) | Failed

  /** Where the writing loop stands: whether it has ended, the count it returns, and the bytes handed to write(). */
  datatype Sent = Sent(done: bool, written: Size, output: seq<char>)

  /**
   * The loop of file_write as evidently intended (n a signed count): each
   * write() gets the rest of the message and reports at most that many
   * bytes; a failure ends the loop with the count so far, and so does
   * reaching length. With the outcomes used up the loop has not ended.
   */
  function Send(buf: seq<char>, length: Size, outs: seq<Outcome>, written: Size, output: seq<char>): (r: Sent)
    requires written <= length <= |buf|
    ensures written <= r.written <= length
    ensures r.output == output + buf[written..r.written]
    decreases |outs|
  {
    if outs == [] then Sent(false, written, output)
    else match outs[0]
      case Failed => Sent(true, written, output)
      case Wrote(k) =>
        var n := Min(k, length - written);
        var w := written + n;
        var o := output + buf[written..w];
        if w >= length then Sent(true, w, o) else Send(buf, length, outs[1..], w, o)
  }

  /**
   * The loop of file_write as written: n is a size_t, so `n >= 0` always
   * holds and a failed write() adds (size_t)-1 to written, which steps it
   * back by one (or, from 0, wraps it to SIZE_MAX, which ends the loop).
   */
  function SendAsWritten(buf: seq<char>, length: Size, outs: seq<Outcome>, written: Size, output: seq<char>): (r: Sent)
    requires written <= length <= |buf|
    ensures r.done ==> r.written >= length
    ensures output <= r.output
    decreases |outs|
  {
    if outs == [] then Sent(false, written, output)
    else
      var step := match outs[0]
        case Failed => (ToSize(written + SIZE_MAX), output)
        case Wrote(k) => (written + Min(k, length - written), output + buf[written..written + Min(k, length - written)]);
      var w, o := step.0, step.1;
      if w >= length then Sent(true, w, o)
      else SendAsWritten(buf, length, outs[1..], w, o)
  }

  /**
   * file_write: buf and length are what the message's ptr and length
   * callbacks return; outs are the outcomes of the successive write() calls.
   * The loop never changes the pool.
   */
  method FileWrite(buf: seq<char>, length: Size, outs: seq<Outcome>) returns (done: bool, written: Size, output: seq<char>)
    requires length <= |buf|
    ensures Sent(done, written, output) == Send(buf, length, outs, 0, [])
    ensures written <= length && output == buf[..written]
  {
    written, output := 0, [];
    done := false;
    var i := 0;
    while i < |outs|
      invariant i <= |outs| && written <= length
      invariant output == buf[..written]
      invariant Send(buf, length, outs, 0, []) == Send(buf, length, outs[i..], written, output)
    {
      assert outs[i..][1..] == outs[i + 1..];
      match outs[i]
      case Failed =>
        done := true;
        return;
      case Wrote(k) =>
        var n := Min(k, length - written);
        output := output + buf[written..written + n];
        written := written + n;
        if written >= length {
          done := true;
          return;
        }
      i := i + 1;
    }
  }

  /** Which file callbacks a file_obj carries (file_set_path, file_init = file_open, file_fini = file_close). */
  datatype FileOps = Cleared | Installed

  /** file_obj: the embedded processing object, its file callbacks and pdata (a slot index, None for NULL). */
  class FileObj {
    const proc: ProcessingObj
    var ops: FileOps
    var pdata: Option<nat>

    constructor (proc: ProcessingObj)
      ensures this.proc == proc && ops == Cleared && pdata == None
    {
      this.proc := proc;
      ops := Cleared;
      pdata := None;
    }
  }

  /** The static array file_pdata. */
  class Pool {
    var slots: array<FileSlot>

    predicate Valid()
      reads this, slots
    {
      slots.Length == FILE_COUNT
    }

    /** An object whose pdata points at a slot of the pool. */
    predicate Points(obj: FileObj)
      reads this, obj
    {
      obj.pdata.Some? && obj.pdata.value < slots.Length
    }

    constructor ()
      ensures Valid() && fresh(slots)
      ensures forall i :: 0 <= i < slots.Length ==> slots[i] == ZERO_SLOT
    {
      slots := new FileSlot[FILE_COUNT](_ => ZERO_SLOT);
    }

    /** file_get_instance: the first unused slot is claimed and pdata points at it; -1 when all 16 are used. */
    method GetInstance(obj: FileObj) returns (rc: int)
      requires Valid()
      modifies slots, obj`pdata
      ensures var free := FirstUnused(old(slots[..]), 0);
        && (rc == 0 <==> free.Some?) && (rc == 0 || rc == -1)
        && (free.None? ==> slots[..] == old(slots[..]) && obj.pdata == old(obj.pdata))
        && (free.Some? ==> (obj.pdata == free &&
              slots[..] == old(slots[..])[free.value := old(slots[free.value]).(isUsed := true)]))
    {
      var i := 0;
      while i < slots.Length
        invariant 0 <= i <= slots.Length
        invariant slots[..] == old(slots[..]) && obj.pdata == old(obj.pdata)
        invariant FirstUnused(slots[..], 0) == FirstUnused(slots[..], i)
      {
        if !slots[i].isUsed {
          obj.pdata := Some(i);
          slots[i] := slots[i].(isUsed := true);
          return 0;
        }
        i := i + 1;
      }
      return -1;
    }

    /** file_free_instance: -1 for an unclaimed slot; otherwise the slot is zeroed and pdata becomes NULL. */
    method FreeInstance(obj: FileObj) returns (rc: int)
      requires Valid() && Points(obj)
      modifies slots, obj`pdata
      ensures var i := old(obj.pdata).value;
        && (rc == -1 <==> !old(slots[i]).isUsed) && (rc == 0 || rc == -1)
        && (rc == -1 ==> slots[..] == old(slots[..]) && obj.pdata == old(obj.pdata))
        && (rc == 0 ==> slots[..] == old(slots[..])[i := ZERO_SLOT] && obj.pdata == None)
    {
      var i := obj.pdata.value;
      if !slots[i].isUsed {
        return -1;
      }
      slots[i] := ZERO_SLOT;
      obj.pdata := None;
      return 0;
    }

    /** file_set_path */
    method SetPath(obj: FileObj, path: string, mode: FileMode) returns (rc: int)
      requires Valid() && Points(obj)
      modifies slots
      ensures var i := obj.pdata.value; var r := SetPathSlot(old(slots[i]), path, mode);
        rc == r.rc && slots[..] == old(slots[..])[i := r.slot]
    {
      var i := obj.pdata.value;
      if !slots[i].isUsed {
        return -1;
      }
      slots[i] := slots[i].(path := StrnCopy(path, STRING_MAX_LENGTH - 1), mode := mode);
      return 0;
    }

    /** file_open; fdResult is what open() returns for the slot's path and mode. */
    method Open(obj: FileObj, fdResult: int) returns (rc: int)
      requires Valid() && Points(obj)
      modifies slots
      ensures var i := obj.pdata.value; var r := OpenSlot(old(slots[i]), fdResult);
        rc == r.rc && slots[..] == old(slots[..])[i := r.slot]
    {
      var i := obj.pdata.value;
      if !slots[i].isUsed {
        return -1;
      }
      if slots[i].isOpen {
        return -1;
      }
      match slots[i].mode
      case Unhandled =>
        return -1;
      case _ =>
      if fdResult < 0 {
        return -1;
      }
      slots[i] := slots[i].(isOpen := true, fd := fdResult);
      return 0;
    }

    /** file_close */
    method Close(obj: FileObj) returns (rc: int)
      requires Valid() && Points(obj)
      modifies slots
      ensures var i := obj.pdata.value; var r := CloseSlot(old(slots[i]));
        rc == r.rc && slots[..] == old(slots[..])[i := r.slot]
    {
      var i := obj.pdata.value;
      if !slots[i].isUsed {
        return -1;
      }
      if !slots[i].isOpen {
        return -1;
      }
      slots[i] := slots[i].(isOpen := false);
      return 0;
    }

    /**
     * file_init: zeroes the object, claims the first unused slot and installs
     * the file callbacks, the processing defaults, and file_write as data_in.
     * When no slot is free the failure path frees through a NULL pdata, so a
     * free slot is required.
     */
    method Init(obj: FileObj) returns (rc: int)
      requires Valid() && FirstUnused(slots[..], 0).Some?
      modifies slots, obj, obj.proc
      ensures Valid() && Points(obj) && rc == 0
      ensures var free := FirstUnused(old(slots[..]), 0).value;
        && obj.pdata == Some(free)
        && slots[..] == old(slots[..])[free := old(slots[free]).(isUsed := true)]
      ensures obj.ops == Installed && obj.proc.dataIn == FileWriteCb && obj.proc.dataOut == DataOutDefault
      ensures !obj.proc.reqEnd
    {
      obj.proc.dataIn, obj.proc.dataOut, obj.proc.reqEnd := Processing.Unset, Processing.Unset, false;
      obj.ops := Cleared;
      obj.pdata := None;
      var got := GetInstance(obj);
      obj.ops := Installed;
      var p := obj.proc.Init();
      obj.proc.dataIn := FileWriteCb;
      return 0;
    }

    /**
     * file_clean: -1 for an unclaimed slot or a file still open; otherwise
     * the processing defaults are reinstalled and the slot is freed.
     */
    method Clean(obj: FileObj) returns (rc: int)
      requires Valid() && Points(obj)
      modifies slots, obj`pdata, obj.proc
      ensures var i := old(obj.pdata).value; var s := old(slots[i]);
        && (rc == 0 <==> s.isUsed && !s.isOpen) && (rc == 0 || rc == -1)
        && (rc == -1 ==> (slots[..] == old(slots[..]) && obj.pdata == old(obj.pdata) &&
              obj.proc.dataIn == old(obj.proc.dataIn) && obj.proc.dataOut == old(obj.proc.dataOut)))
        && (rc == 0 ==> (slots[..] == old(slots[..])[i := ZERO_SLOT] && obj.pdata == None &&
              obj.proc.dataIn == DataInDefault && obj.proc.dataOut == DataOutDefault))
      ensures obj.proc.reqEnd == old(obj.proc.reqEnd)
    {
      var i := obj.pdata.value;
      if !slots[i].isUsed {
        return -1;
      }
      if slots[i].isOpen {
        return -1;
      }
      var p := obj.proc.Fini();
      rc := FreeInstance(obj);
    }
  }

  // ------------------------------------------------------------- properties

  /** The intended loop hands write() the message in order, each byte once, and never counts past length. */
  lemma {:induction false} SendWritesPrefix(buf: seq<char>, length: Size, outs: seq<Outcome>, written: Size, output: seq<char>)
    requires written <= length <= |buf| && output == buf[..written]
    ensures var r := Send(buf, length, outs, written, output);
      written <= r.written <= length && r.output == buf[..r.written]
    decreases |outs|
  {
    if outs != [] && outs[0].Wrote? {
      var w := written + Min(outs[0].n, length - written);
      assert output + buf[written..w] == buf[..w];
      if w < length {
        SendWritesPrefix(buf, length, outs[1..], w, buf[..w]);
      }
    }
  }

  /** The intended loop ends short of length only after a failed write(), and runs out of outcomes only when none failed. */
  lemma {:induction false} SendEndsShortOnlyOnFailure(buf: seq<char>, length: Size, outs: seq<Outcome>, written: Size, output: seq<char>)
    requires written <= length <= |buf|
    ensures var r := Send(buf, length, outs, written, output);
      (r.done && r.written < length ==> Failed in outs) && (!r.done ==> Failed !in outs)
    decreases |outs|
  {
    if outs != [] && outs[0].Wrote? {
      var w := written + Min(outs[0].n, length - written);
      if w < length {
        SendEndsShortOnlyOnFailure(buf, length, outs[1..], w, output + buf[written..w]);
        assert outs == [outs[0]] + outs[1..];
      }
    }
  }

  /** Without a failed write() the loop as written and the intended one agree. */
  lemma {:induction false} AsWrittenAgreesWithoutFailure(buf: seq<char>, length: Size, outs: seq<Outcome>, written: Size, output: seq<char>)
    requires written <= length <= |buf| && Failed !in outs
    ensures SendAsWritten(buf, length, outs, written, output) == Send(buf, length, outs, written, output)
    decreases |outs|
  {
    if outs != [] {
      assert outs[0] in outs;
      var w := written + Min(outs[0].n, length - written);
      if w < length {
        assert forall o :: o in outs[1..] ==> o in outs;
        AsWrittenAgreesWithoutFailure(buf, length, outs[1..], w, output + buf[written..w]);
      }
    }
  }

  /**
   * A 10-byte message, write() taking 3 bytes, failing, then taking the 8
   * bytes asked for: as written the failure steps written back to 2, so
   * byte 2 is handed to write() twice and 11 bytes go out for a reported 10.
   * The intended loop stops at the failure with the 3 bytes written.
   */
  lemma FailedWriteRewrites(buf: seq<char>)
    requires |buf| == 10
    ensures var outs := [Wrote(3), Failed, Wrote(8)];
      SendAsWritten(buf, 10, outs, 0, []) == Sent(true, 10, buf[..3] + buf[2..]) &&
      |SendAsWritten(buf, 10, outs, 0, []).output| == 11 &&
      Send(buf, 10, outs, 0, []) == Sent(true, 3, buf[..3])
  {
    var outs := [Wrote(3), Failed, Wrote(8)];
    assert outs[1..] == [Failed, Wrote(8)];
    assert outs[1..][1..] == [Wrote(8)];
    assert [] + buf[0..3] == buf[..3];
    assert SendAsWritten(buf, 10, outs, 0, []) == SendAsWritten(buf, 10, [Failed, Wrote(8)], 3, buf[..3]);
    assert ToSize(3 + SIZE_MAX) == 2;
    assert SendAsWritten(buf, 10, [Failed, Wrote(8)], 3, buf[..3]) == SendAsWritten(buf, 10, [Wrote(8)], 2, buf[..3]);
    assert buf[2..10] == buf[2..];
    assert Send(buf, 10, outs, 0, []) == Send(buf, 10, [Failed, Wrote(8)], 3, buf[..3]);
  }

  /** A successful open followed by another open is rejected, and close undoes the open but for the descriptor. */
  lemma OpenCloseRoundTrip(s: FileSlot, fdResult: int, fdAgain: int)
    requires OpenSlot(s, fdResult).rc == 0
    ensures var o := OpenSlot(s, fdResult).slot;
      o.isOpen && !s.isOpen && OpenSlot(o, fdAgain) == SlotResult(-1, o) &&
      CloseSlot(o) == SlotResult(0, s.(fd := fdResult))
  {
  }

  /** With all 16 slots in use, the slot file_free_instance zeroes is the one the next file_get_instance claims. */
  lemma FreedSlotIsNextClaimed(s: seq<FileSlot>, i: nat)
    requires i < |s| && FirstUnused(s, 0).None?
    ensures FirstUnused(s[i := ZERO_SLOT], 0) == Some(i)
  {
    var t := s[i := ZERO_SLOT];
    assert !t[i].isUsed;
    assert forall j :: 0 <= j < i ==> t[j].isUsed;
  }
}
