/**
 * The message buffer pool: 32 static instance slots of 1024 bytes each, and
 * the message object whose callbacks read and write the slot it has claimed.
 */
module Message {
  import opened Common

  /** MESSAGE_NSTANCES_CNT_MAX */
  const INSTANCES: nat := 32
  /** MESSAGE_BUFFER_SZ_MAX */
  const BUFFER_SIZE: nat := 1024

  /** message_priv_data: one static instance slot. */
  datatype Slot = Slot(buffer: seq<char>, length: Size, totalLen: Size, isUsed: bool)

  /** The all-zero slot: the static initialisation and the memset of message_fini. */
  function ZeroSlot(): (z: Slot)
    ensures |z.buffer| == BUFFER_SIZE && !z.isUsed
  {
    Slot(seq(BUFFER_SIZE, _ => 0 as char), 0, 0, false)
  }

  /** A slot in use holds a 1024-byte buffer and a length within it; a free slot is all zero. */
  predicate SlotOk(s: Slot)
  {
    |s.buffer| == BUFFER_SIZE &&
    if s.isUsed then s.totalLen == BUFFER_SIZE && s.length <= BUFFER_SIZE else s == ZeroSlot()
  }

  /** The lowest index at or after i whose slot is not in use. */
  function FirstFreeFrom(s: seq<Slot>, i: nat): (r: Option<nat>)
    requires i <= |s|
    ensures r.Some? ==> i <= r.value < |s| && !s[r.value].isUsed
    ensures r.Some? ==> forall j :: i <= j < r.value ==> s[j].isUsed
    ensures r.None? <==> forall j :: i <= j < |s| ==> s[j].isUsed
    decreases |s| - i
  {
    if i == |s| then None
    else if !s[i].isUsed then Some(i)
    else FirstFreeFrom(s, i + 1)
  }

  /** The data a message holds: the first `length` bytes of its slot's buffer. */
  function Contents(s: Slot): seq<char>
    requires SlotOk(s)
  {
    s.buffer[..s.length]
  }

  /**
   * message_write_buffer on a slot: the new length is the larger of the old
   * length and len, and that many bytes of src are copied to the start of
   * the buffer.
   */
  function WriteSlot(s: Slot, src: seq<char>, len: Size): (r: Slot)
    requires SlotOk(s) && s.isUsed
    requires Max(s.length, len) <= BUFFER_SIZE && Max(s.length, len) <= |src|
    ensures SlotOk(r) && r.isUsed && r.totalLen == s.totalLen
    ensures r.length >= s.length && r.length >= len
    ensures r.length == s.length || r.length == len
    ensures Contents(r) == src[..r.length]
    ensures r.buffer[r.length..] == s.buffer[r.length..]
  {
    var m := Max(s.length, len);
    s.(buffer := src[..m] + s.buffer[m..], length := m)
  }

  /** Which set of callbacks a message object carries. */
  datatype Ops =
    | Unset      // never initialised: calling a callback is undefined
    | Defaults   // the message_*_default callbacks installed by message_fini
    | Buffer     // the message_*_buffer callbacks installed by message_init

  /** message_obj: its callbacks and the slot its pdata points at (None for NULL). */
  class MessageObj {
    var ops: Ops
    var pdata: Option<nat>

    constructor ()
      ensures ops == Unset && pdata == None
    {
      ops := Unset;
      pdata := None;
    }
  }

  /** The static array message_instances. */
  class Pool {
    var slots: array<Slot>

    predicate Valid()
      reads this, slots
    {
      slots.Length == INSTANCES && forall i :: 0 <= i < slots.Length ==> SlotOk(slots[i])
    }

    /** An object with the buffer callbacks points at a slot in use. */
    predicate Bound(obj: MessageObj)
      reads this, slots, obj
    {
      obj.ops == Buffer ==> obj.pdata.Some? && obj.pdata.value < slots.Length && slots[obj.pdata.value].isUsed
    }

    /** The pool as the program starts: every slot zero. */
    constructor ()
      ensures Valid() && fresh(slots)
      ensures forall i :: 0 <= i < slots.Length ==> slots[i] == ZeroSlot()
    {
      slots := new Slot[INSTANCES](_ => ZeroSlot());
    }

    /** message_get_free_instance: claims the lowest free slot by setting is_used. */
    method GetFreeInstance() returns (r: Option<nat>)
      requires Valid()
      modifies slots
      ensures r == FirstFreeFrom(old(slots[..]), 0)
      ensures r.None? ==> slots[..] == old(slots[..])
      ensures r.Some? ==> slots[..] == old(slots[..])[r.value := old(slots[r.value]).(isUsed := true)]
    {
      var i := 0;
      r := None;
      while i < slots.Length
        invariant 0 <= i <= slots.Length
        invariant slots[..] == old(slots[..])
        invariant FirstFreeFrom(slots[..], 0) == FirstFreeFrom(slots[..], i)
      {
        if !slots[i].isUsed {
          r := Some(i);
          slots[i] := slots[i].(isUsed := true);
          return;
        }
        i := i + 1;
      }
    }

    /** message_internal_init: empty message over the whole buffer; always succeeds. */
    method InternalInit(i: nat) returns (rc: int)
      requires i < slots.Length
      modifies slots
      ensures rc == 0
      ensures slots[..] == old(slots[..])[i := old(slots[i]).(length := 0, totalLen := BUFFER_SIZE)]
    {
      slots[i] := slots[i].(length := 0, totalLen := BUFFER_SIZE);
      rc := 0;
    }

    /**
     * message_init: claims the lowest free slot and installs the buffer
     * callbacks; -1 and nothing changed when all 32 slots are in use.
     */
    method Init(obj: MessageObj) returns (rc: int)
      requires Valid() && Bound(obj)
      modifies slots, obj
      ensures Valid() && Bound(obj)
      ensures var free := FirstFreeFrom(old(slots[..]), 0);
        && (rc == 0 <==> free.Some?)
        && (rc == 0 || rc == -1)
        && (free.None? ==> slots[..] == old(slots[..]) && obj.ops == old(obj.ops) && obj.pdata == old(obj.pdata))
        && (free.Some? ==>
              && obj.pdata == free
              && obj.ops == Buffer
              && slots[free.value] == Slot(old(slots[free.value]).buffer, 0, BUFFER_SIZE, true)
              && Contents(slots[free.value]) == []
              && forall j :: 0 <= j < slots.Length && j != free.value ==> slots[j] == old(slots[j]))
    {
      var slot := GetFreeInstance();
      if slot.None? {
        return -1;
      }
      var i := slot.value;
      var internal := InternalInit(i);
      if internal != 0 {
        return -1;
      }
      obj.pdata := Some(i);
      obj.ops := Buffer;
      return 0;
    }

    /**
     * message_fini: -1 for a NULL pdata or a slot not in use; otherwise the
     * default callbacks are reinstalled, pdata becomes NULL and the slot is
     * zeroed, which frees it.
     */
    method Fini(obj: MessageObj) returns (rc: int)
      requires Valid()
      requires obj.pdata.Some? ==> obj.pdata.value < slots.Length
      modifies slots, obj
      ensures Valid()
      ensures rc == 0 || rc == -1
      ensures rc == -1 <==> old(obj.pdata).None? || !old(slots[obj.pdata.value]).isUsed
      ensures rc == -1 ==> slots[..] == old(slots[..]) && obj.ops == old(obj.ops) && obj.pdata == old(obj.pdata)
      ensures rc == 0 ==>
        && obj.ops == Defaults && obj.pdata == None
        && slots[..] == old(slots[..])[old(obj.pdata).value := ZeroSlot()]
    {
      if obj.pdata.None? {
        return -1;
      }
      var i := obj.pdata.value;
      if !slots[i].isUsed {
        return -1;
      }
      obj.ops := Defaults;
      obj.pdata := None;
      slots[i] := ZeroSlot();
      return 0;
    }

    /** The length callback: the slot's length, or (size_t)-1 by default. */
    method Length(obj: MessageObj) returns (r: Size)
      requires Valid() && Bound(obj) && obj.ops != Unset
      ensures obj.ops == Defaults ==> r == SIZE_MAX
      ensures obj.ops == Buffer ==> r == slots[obj.pdata.value].length && r <= BUFFER_SIZE
    {
      if obj.ops == Defaults {
        return SIZE_MAX;
      }
      r := slots[obj.pdata.value].length;
    }

    /** The total_len callback: 1024 for a claimed slot, or (size_t)-1 by default. */
    method TotalLen(obj: MessageObj) returns (r: Size)
      requires Valid() && Bound(obj) && obj.ops != Unset
      ensures obj.ops == Defaults ==> r == SIZE_MAX
      ensures obj.ops == Buffer ==> r == BUFFER_SIZE
    {
      if obj.ops == Defaults {
        return SIZE_MAX;
      }
      r := slots[obj.pdata.value].totalLen;
    }

    /** The ptr callback: the slot's buffer (named by its index), or NULL by default. */
    method Ptr(obj: MessageObj) returns (p: Option<nat>)
      requires Valid() && Bound(obj) && obj.ops != Unset
      ensures obj.ops == Defaults ==> p.None?
      ensures obj.ops == Buffer ==> p == obj.pdata
    {
      if obj.ops == Defaults {
        return None;
      }
      p := obj.pdata;
    }

    /**
     * The read callback: stores the buffer pointer and returns the length; the
     * default leaves the caller's pointer untouched (None here) and returns -1.
     * Nothing changes.
     */
    method Read(obj: MessageObj) returns (p: Option<nat>, r: Size)
      requires Valid() && Bound(obj) && obj.ops != Unset
      ensures obj.ops == Defaults ==> p.None? && r == SIZE_MAX
      ensures obj.ops == Buffer ==> p == obj.pdata && r == slots[p.value].length && Contents(slots[p.value]) == slots[p.value].buffer[..r]
    {
      if obj.ops == Defaults {
        return None, SIZE_MAX;
      }
      p := Ptr(obj);
      r := Length(obj);
    }

    /**
     * The write callback. message_write_buffer never compares the new length
     * with total_len, so the caller must keep max(length, len) within the
     * 1024-byte buffer, and src must hold that many bytes since memcpy reads
     * them all.
     */
    method Write(obj: MessageObj, src: seq<char>, len: Size) returns (r: Size)
      requires Valid() && Bound(obj) && obj.ops != Unset
      requires obj.ops == Buffer ==>
        var s := slots[obj.pdata.value]; Max(s.length, len) <= BUFFER_SIZE && Max(s.length, len) <= |src|
      modifies slots
      ensures Valid() && Bound(obj)
      ensures obj.ops == Defaults ==> r == SIZE_MAX && slots[..] == old(slots[..])
      ensures obj.ops == Buffer ==>
        var i := obj.pdata.value;
        && slots[..] == old(slots[..])[i := WriteSlot(old(slots[i]), src, len)]
        && r == slots[i].length
        && r == Max(old(slots[i].length), len)
        && Contents(slots[i]) == src[..r]
    {
      if obj.ops == Defaults {
        return SIZE_MAX;
      }
      var i := obj.pdata.value;
      var old_len := Length(obj);
      var m := if old_len > len then old_len else len;
      slots[i] := slots[i].(buffer := src[..m] + slots[i].buffer[m..]);
      slots[i] := slots[i].(length := m);
      r := m;
    }

    /**
     * The cpy callback: message_write_buffer(obj, src->ptr, src->length). The
     * two objects must be distinct slots (restrict), and src must carry the
     * buffer callbacks, as the default ones hand memcpy a NULL source. The
     * default cpy callback never looks at src.
     */
    method Cpy(obj: MessageObj, src: MessageObj) returns (r: Size)
      requires Valid() && Bound(obj) && obj.ops != Unset
      requires obj.ops == Buffer ==>
        && Bound(src) && src.ops == Buffer
        && obj.pdata != src.pdata
        && slots[src.pdata.value].length <= BUFFER_SIZE
      modifies slots
      ensures Valid() && Bound(obj) && (obj.ops == Buffer ==> Bound(src))
      ensures obj.ops == Defaults ==> r == SIZE_MAX && slots[..] == old(slots[..])
      ensures obj.ops == Buffer ==>
        var i, j := obj.pdata.value, src.pdata.value;
        && slots[j] == old(slots[j])
        && slots[..] == old(slots[..])[i := WriteSlot(old(slots[i]), old(slots[j]).buffer, old(slots[j]).length)]
        && r == Max(old(slots[i].length), old(slots[j].length))
        && (old(slots[i].length) <= old(slots[j].length) ==> Contents(slots[i]) == old(Contents(slots[j])))
    {
      if obj.ops == Defaults {
        return SIZE_MAX;
      }
      var j := src.pdata.value;
      var p := Ptr(src);
      var n := Length(src);
      r := Write(obj, slots[j].buffer, n);
    }
  }

  /** Once all 32 slots are in use, the slot that message_fini releases is the one the next message_init claims. */
  lemma FreedSlotIsNextClaimed(s: seq<Slot>, i: nat)
    requires i < |s| && FirstFreeFrom(s, 0).None?
    ensures FirstFreeFrom(s[i := ZeroSlot()], 0) == Some(i)
  {
    var t := s[i := ZeroSlot()];
    assert !t[i].isUsed;
    assert forall j :: 0 <= j < i ==> t[j].isUsed;
  }
}
