/**
 * Reassembly of the text an instrumented target prints through ITM: the low
 * byte of each instrumentation packet goes into a circular character buffer,
 * complete lines are cut out of it at each '\n', and the lines are parsed
 * into memory-allocation records ("alloc <size> <ptr>" followed by one
 * backtrace line per frame) that are handed to the memory-info list.
 */
module Itm2MemInfo {
  import opened Common
  import opened Text
  import Processing
  import PktConverter

  /** sizeof(buffer): MESSAGE_BUFFER_SZ_MAX. */
  const BUFFER_SIZE: nat := 1024
  /** sizeof(buffer) - 1: the modulus of the circular indices; the last byte stays NUL. */
  const RING: nat := 1023

  const NUL: char := 0 as char

  // ------------------------------------------------------------- line cutting

  /** Index of the first NUL at or after i, or |b|: the end of the C string at i. */
  function CStrEnd(b: seq<char>, i: nat): (e: nat)
    requires i <= |b|
    ensures i <= e <= |b|
    decreases |b| - i
  {
    if i == |b| || b[i] == NUL then i else CStrEnd(b, i + 1)
  }

  /** The C string starting at i. */
  function CString(b: seq<char>, i: nat): seq<char>
    requires i <= |b|
  {
    b[i..CStrEnd(b, i)]
  }

  /** strchr(&b[i], '\n'): the first '\n' of the C string at i. */
  function FindNewline(b: seq<char>, i: nat): (r: Option<nat>)
    requires i <= |b|
    ensures r.Some? ==> i <= r.value < |b| && b[r.value] == '\n'
    decreases |b| - i
  {
    if i == |b| || b[i] == NUL then None
    else if b[i] == '\n' then Some(i)
    else FindNewline(b, i + 1)
  }

  /** A buffer as the module keeps it: 1024 characters, the last one NUL. */
  predicate BufferOk(b: seq<char>)
  {
    |b| == BUFFER_SIZE && b[RING] == NUL
  }

  /**
   * The characters received and not yet cut into lines: from head up to tail
   * in ring order.
   */
  function Pending(b: seq<char>, head: nat, tail: nat): seq<char>
    requires |b| == BUFFER_SIZE && head < RING && tail < RING
  {
    if head <= tail then b[head..tail] else b[head..RING] + b[..tail]
  }

  /**
   * The intended re-linearisation of a wrapped buffer (tail < head): the
   * characters from head to the end of the ring move to the front, followed
   * by the characters from 0 to tail inclusive; the rest is left as it was.
   */
  function Rotated(b: seq<char>, head: nat, tail: nat): (r: seq<char>)
    requires |b| == BUFFER_SIZE && tail < head < RING
    ensures |r| == BUFFER_SIZE && r[RING] == b[RING]
  {
    var m := RING - head;
    b[head..RING] + b[..tail + 1] + b[m + tail + 1..]
  }

  /** Where each character of a re-linearised buffer comes from. */
  lemma RotatedAt(b: seq<char>, head: nat, tail: nat, k: nat)
    requires |b| == BUFFER_SIZE && tail < head < RING && k < BUFFER_SIZE
    ensures var m := RING - head;
      Rotated(b, head, tail)[k] == if k < m then b[head + k] else if k < m + tail + 1 then b[k - m] else b[k]
  {
  }

  /** b with len characters of src from index from written at dst. */
  function Moved(b: seq<char>, dst: nat, src: seq<char>, from: nat, len: nat): (r: seq<char>)
    requires dst + len <= |b| && from + len <= |src|
    ensures |r| == |b|
  {
    b[..dst] + src[from..from + len] + b[dst + len..]
  }

  /** Copying the part before the wrap behind the part after it, then the part after it to the front, rotates the ring. */
  lemma RotatedByMoves(b: seq<char>, head: nat, tail: nat)
    requires |b| == BUFFER_SIZE && tail < head < RING
    ensures var m := RING - head;
      Moved(Moved(b, m, b, 0, tail + 1), 0, b, head, m) == Rotated(b, head, tail)
  {
    var m := RING - head;
    var first := Moved(b, m, b, 0, tail + 1);
    assert first[m..] == b[..tail + 1] + b[m + tail + 1..];
  }

  /**
   * The re-linearisation as itm2mem_get_next_line performs it: first
   * memmove(&buffer[m], buffer, tail + 1), then memmove(buffer, &buffer[head], m),
   * where the second copy reads what the first one may already have overwritten.
   */
  function RotatedAsWritten(b: seq<char>, head: nat, tail: nat): (r: seq<char>)
    requires |b| == BUFFER_SIZE && tail < head < RING
    ensures |r| == BUFFER_SIZE
  {
    var m := RING - head;
    var first := b[..m] + b[..tail + 1] + b[m + tail + 1..];
    first[head..RING] + first[m..]
  }

  /** What itm2mem_get_next_line returns and leaves behind. */
  datatype LineCut = LineCut(line: Option<nat>, buf: seq<char>, head: nat, tail: nat)

  /**
   * itm2mem_get_next_line on a buffer, head and tail: at a '\n' from head the
   * newline becomes NUL, the line starts at the old head and head moves past
   * it; with no '\n' and a wrapped buffer, the buffer is re-linearised and
   * the search made once more; otherwise there is no line.
   */
  function NextLine(b: seq<char>, head: nat, tail: nat): (c: LineCut)
    requires BufferOk(b) && head < RING && tail < RING
    ensures BufferOk(c.buf) && c.head < RING && c.tail < RING
    ensures c.line.Some? ==> c.line.value < RING
    decreases if tail < head then 1 else 0
  {
    match FindNewline(b, head)
    case Some(p) => LineCut(Some(head), b[p := NUL], (p + 1) % RING, tail)
    case None =>
      if tail < head then NextLine(Rotated(b, head, tail), 0, tail + RING - head)
      else LineCut(None, b, head, tail)
  }

  // ------------------------------------------------------------- records

  /**
   * struct mem_info: the size field (the backtrace depth), the allocated block
   * size and pointer, and the backtrace addresses and lines by depth (a depth
   * absent from a map holds zero).
   */
  datatype MemInfo = MemInfo(size: UInt, blkSz: Size, ptr: UInt,
                             backtrace: map<nat, UInt>, strBacktrace: map<nat, string>)

  /** memset(&mi, 0, sizeof(struct mem_info)) */
  const ZERO_INFO := MemInfo(0, 0, 0, map[], map[])

  /**
   * The record part of the private data: the two mem_info buffers, mi_count
   * (0 before the first "alloc", then the 1-based index of the record being
   * filled), the static depth of itm2mem_parse, and the records handed to
   * mem_info_append_to_list so far.
   */
  datatype Records = Records(mi: seq<MemInfo>, miCount: Size, depth: UInt, appended: seq<MemInfo>)

  predicate RecordsOk(r: Records)
  {
    |r.mi| == 2 && r.miCount <= 2
  }

  /** mi_count ^= 3 */
  function Toggle(c: Size): (r: Size)
    ensures r % 4 == 3 - c % 4 && r / 4 == c / 4
  {
    c + 3 - 2 * (c % 4)
  }

  datatype Added = Added(rc: int, recs: Records)

  /**
   * itm2mem_add_to_list: before the first record only sets mi_count to 1;
   * otherwise stores depth as the record's size and appends it (ok says
   * whether mem_info_append_to_list succeeds), then zeroes it and switches
   * to the other buffer. A failed append returns -1 without switching.
   */
  function AddSpec(r: Records, depth: UInt, ok: bool): (a: Added)
    requires RecordsOk(r)
    ensures RecordsOk(a.recs)
  {
    if r.miCount > 0 then
      var cur := r.miCount - 1;
      var rec := r.mi[cur].(size := depth);
      if !ok then Added(-1, r.(mi := r.mi[cur := rec]))
      else
        assert r.miCount == 1 || r.miCount == 2;
        Added(0, r.(mi := r.mi[cur := ZERO_INFO], miCount := Toggle(r.miCount), appended := r.appended + [rec]))
    else Added(0, r.(miCount := 1))
  }

  /** "alloc " at the start of the line (strncmp over sizeof("alloc ") - 1 characters). */
  predicate IsAlloc(line: seq<char>)
  {
    |line| >= 6 && line[..6] == "alloc "
  }

  /**
   * sscanf(line, "alloc %ld %x", &blk_sz, &ptr): the %ld value lands in the
   * size_t, the %x value in the unsigned int; a failed conversion stores
   * nothing and ends the scan.
   */
  function ScanAlloc(rec: MemInfo, line: seq<char>): (r: MemInfo)
    requires IsAlloc(line)
    ensures r.size == rec.size && r.backtrace == rec.backtrace && r.strBacktrace == rec.strBacktrace
    ensures ScanInt(line, 5, 10).Some? ==> r.blkSz == ToSize(ScanInt(line, 5, 10).value.value)
    ensures ScanInt(line, 5, 10).None? ==> r == rec
    ensures ScanInt(line, 5, 10).Some? ==>
      var x := ScanInt(line, 5, 10).value.next;
      && (ScanInt(line, x, 16).Some? ==> r.ptr == ScanInt(line, x, 16).value.value % 0x1_0000_0000)
      && (ScanInt(line, x, 16).None? ==> r.ptr == rec.ptr)
  {
    match ScanInt(line, 5, 10)
    case None => rec
    case Some(a) =>
      var sized := rec.(blkSz := ToSize(a.value));
      match ScanInt(line, a.next, 16)
      case None => sized
      case Some(x) => sized.(ptr := x.value % 0x1_0000_0000)
  }

  /** itm2mem_add_to_backtrace: the address the line starts with, and the line itself, at depth. */
  function AddBacktrace(rec: MemInfo, line: seq<char>, depth: UInt): (r: MemInfo)
    ensures r.size == rec.size && r.blkSz == rec.blkSz && r.ptr == rec.ptr
    ensures depth in r.strBacktrace && r.strBacktrace[depth] == line
    ensures forall d :: d in rec.strBacktrace && d != depth ==> d in r.strBacktrace && r.strBacktrace[d] == rec.strBacktrace[d]
    ensures forall d :: d in rec.backtrace && d != depth ==> d in r.backtrace && r.backtrace[d] == rec.backtrace[d]
    ensures ScanInt(line, 0, 16).Some? ==> depth in r.backtrace && r.backtrace[depth] == ScanInt(line, 0, 16).value.value % 0x1_0000_0000
    ensures ScanInt(line, 0, 16).None? ==> r.backtrace == rec.backtrace
  {
    var addressed := match ScanInt(line, 0, 16)
      case None => rec
      case Some(x) => rec.(backtrace := rec.backtrace[depth := x.value % 0x1_0000_0000]);
    addressed.(strBacktrace := addressed.strBacktrace[depth := line])
  }

  datatype Parsed = Parsed(total: Size, recs: Records)

  /**
   * itm2mem_parse, with the "no alloc yet" guard as intended: an "alloc "
   * line closes the record being filled, resets depth and fills the new
   * record from the line; any other line adds a backtrace entry at depth and
   * increments depth, or, before the first "alloc ", is dropped. The result
   * is -1 plus strlen(line) in size_t, or -1 when the line is not used.
   */
  function ParseSpec(r: Records, line: seq<char>, ok: bool): (p: Parsed)
    requires RecordsOk(r)
    ensures RecordsOk(p.recs)
  {
    if IsAlloc(line) then
      var a := AddSpec(r, r.depth, ok);
      if a.rc != 0 then Parsed(SIZE_MAX, a.recs)
      else
        var cur := a.recs.miCount - 1;
        Parsed(ToSize(SIZE_MAX + |line|),
               a.recs.(depth := 0, mi := a.recs.mi[cur := ScanAlloc(a.recs.mi[cur], line)]))
    else if r.miCount == 0 then Parsed(SIZE_MAX, r)
    else
      var cur := r.miCount - 1;
      Parsed(ToSize(SIZE_MAX + |line|),
             r.(mi := r.mi[cur := AddBacktrace(r.mi[cur], line, r.depth)], depth := (r.depth + 1) % 0x1_0000_0000))
  }

  /**
   * The "alloc was not met yet" guard as written: `mi_count - 1 < 0` on a
   * size_t, which is never true.
   */
  predicate NoAllocGuardAsWritten(miCount: Size)
  {
    ToSize(miCount - 1) < 0
  }

  // ------------------------------------------------------------- draining

  /** The whole private state the line loop works on. */
  datatype Itm = Itm(buf: seq<char>, head: nat, tail: nat, recs: Records)

  predicate ItmOk(s: Itm)
  {
    BufferOk(s.buf) && s.head < RING && s.tail < RING && RecordsOk(s.recs)
  }

  /** Where the loop of itm2mem_fill_info stands: the state, the running total, and whether a search found no line. */
  datatype Fill = Fill(st: Itm, total: Size, done: bool)

  /** One pass of the loop of itm2mem_fill_info; ok says whether this pass's append would succeed. */
  function FillStep(f: Fill, ok: bool): (g: Fill)
    requires ItmOk(f.st)
    ensures ItmOk(g.st)
  {
    if f.done then f
    else
      var c := NextLine(f.st.buf, f.st.head, f.st.tail);
      match c.line
      case None => Fill(Itm(c.buf, c.head, c.tail, f.st.recs), f.total, true)
      case Some(start) =>
        var p := ParseSpec(f.st.recs, CString(c.buf, start), ok);
        Fill(Itm(c.buf, c.head, c.tail, p.recs), ToSize(f.total + p.total), false)
  }

  /** The loop of itm2mem_fill_info after n passes; ok(k) is the append outcome of pass k. */
  function FillRun(s: Itm, ok: nat -> bool, n: nat): (f: Fill)
    requires ItmOk(s)
    ensures ItmOk(f.st)
  {
    if n == 0 then Fill(s, 0, false) else FillStep(FillRun(s, ok, n - 1), ok(n - 1))
  }

  /** The character the cast `(char) inst.value` stores. */
  function LowByte(v: UInt): char
  {
    (v % 0x100) as char
  }

  /** The buffer after the loop of itm2mem_info_data_in has stored the first n values from tail on. */
  function Fed(b: seq<char>, tail: nat, values: seq<UInt>, n: nat): (r: seq<char>)
    requires BufferOk(b) && tail < RING && n <= |values|
    ensures BufferOk(r)
  {
    if n == 0 then b else Fed(b, tail, values, n - 1)[(tail + n - 1) % RING := LowByte(values[n - 1])]
  }

  /** The state after the first n values have been stored from tail on. */
  function FedState(s: Itm, values: seq<UInt>, n: nat): (r: Itm)
    requires ItmOk(s) && n <= |values|
    ensures ItmOk(r)
    ensures r.head == s.head && r.recs == s.recs && r.tail == (s.tail + n) % RING
  {
    Itm(Fed(s.buf, s.tail, values, n), s.head, (s.tail + n) % RING, s.recs)
  }

  /**
   * itm2mem_info_data_out: 0 unless the end of the stream was requested;
   * then the result of itm2_mem_get_list, -1 when building the tree or
   * writing the JSON file fails and 1 otherwise.
   */
  function DataOut(reqEnd: bool, treeOk: bool, writeOk: bool): (r: Size)
    ensures r == 0 <==> !reqEnd
    ensures reqEnd ==> (r == 1 <==> treeOk && writeOk)
    ensures reqEnd && !(treeOk && writeOk) ==> r == SIZE_MAX
  {
    if reqEnd then (if !treeOk || !writeOk then ToSize(-1) else 1) else 0
  }

  // ------------------------------------------------------------- the object

  /** itm2mem_info_private_data: the static singleton. */
  class Itm2Mem {
    var buffer: array<char>
    var head: nat
    var tail: nat
    var mi: seq<MemInfo>
    var miCount: Size
    /** The function-static depth of itm2mem_parse. */
    var depth: UInt
    /** The records mem_info_append_to_list has accepted. */
    var appended: seq<MemInfo>

    predicate Valid()
      reads this, buffer
    {
      buffer.Length == BUFFER_SIZE && buffer[RING] == NUL &&
      head < RING && tail < RING && |mi| == 2 && miCount <= 2
    }

    function Recs(): Records
      reads this
    {
      Records(mi, miCount, depth, appended)
    }

    function State(): Itm
      reads this, buffer
    {
      Itm(buffer[..], head, tail, Recs())
    }

    /** Static storage: all zero. */
    constructor ()
      ensures Valid() && fresh(buffer)
      ensures buffer[..] == seq(BUFFER_SIZE, _ => NUL) && head == 0 && tail == 0
      ensures Recs() == Records([ZERO_INFO, ZERO_INFO], 0, 0, [])
    {
      buffer := new char[BUFFER_SIZE](_ => NUL);
      head, tail := 0, 0;
      mi, miCount, depth, appended := [ZERO_INFO, ZERO_INFO], 0, 0, [];
    }

    /**
     * itm2mem_info_init: installs the two callbacks, clears the buffer,
     * mi_count, head and tail (not the records nor the static depth), then
     * fails when either configuration value is missing.
     */
    method Init(proc: Processing.ProcessingObj, outputFound: bool, elfFound: bool) returns (rc: int)
      requires buffer.Length == BUFFER_SIZE && |mi| == 2
      modifies proc, this, buffer
      ensures Valid() && buffer == old(buffer)
      ensures proc.dataIn == Processing.Itm2MemDataIn && proc.dataOut == Processing.Itm2MemDataOut
      ensures proc.reqEnd == old(proc.reqEnd)
      ensures buffer[..] == seq(BUFFER_SIZE, _ => NUL) && head == 0 && tail == 0 && miCount == 0
      ensures mi == old(mi) && depth == old(depth) && appended == old(appended)
      ensures rc == (if outputFound && elfFound then 0 else -1)
    {
      var r := proc.Init();
      proc.dataIn := Processing.Itm2MemDataIn;
      proc.dataOut := Processing.Itm2MemDataOut;
      forall k | 0 <= k < buffer.Length {
        buffer[k] := NUL;
      }
      miCount := 0;
      head := 0;
      tail := 0;
      if !outputFound {
        return -1;
      }
      if !elfFound {
        return -1;
      }
      return 0;
    }

    /** itm2mem_info_fini does nothing. */
    method Fini() returns (rc: int)
      ensures rc == 0
    {
      return 0;
    }

    /** The re-linearisation, with both copies taken from the buffer as it was. */
    method Relinearise()
      requires Valid() && tail < head
      modifies this`head, this`tail, buffer
      ensures Valid()
      ensures buffer[..] == Rotated(old(buffer[..]), old(head), old(tail))
      ensures head == 0 && tail == old(tail) + RING - old(head)
    {
      var moveSz := RING - head;
      var before := buffer[..];
      Move(moveSz, before, 0, tail + 1);
      Move(0, before, head, moveSz);
      RotatedByMoves(before, head, tail);
      tail := tail + moveSz;
      head := 0;
    }

    /** len characters of src from index from copied to the buffer at dst; the ring's last byte is not touched. */
    method Move(dst: nat, src: seq<char>, from: nat, len: nat)
      requires Valid() && dst + len <= RING && from + len <= |src|
      modifies buffer
      ensures Valid()
      ensures buffer[..] == Moved(old(buffer[..]), dst, src, from, len)
    {
      forall k | 0 <= k < len {
        buffer[dst + k] := src[from + k];
      }
      assert buffer[..] == Moved(old(buffer[..]), dst, src, from, len);
    }

    /** itm2mem_get_next_line: the start of the next complete line, if any. */
    method GetNextLine() returns (line: Option<nat>)
      requires Valid()
      modifies this, buffer
      ensures Valid() && buffer == old(buffer) && Recs() == old(Recs())
      ensures LineCut(line, buffer[..], head, tail) == NextLine(old(buffer[..]), old(head), old(tail))
      decreases if tail < head then 1 else 0
    {
      var prevHead := head;
      var pos := FindNewline(buffer[..], head);
      if pos.None? && tail < head {
        Relinearise();
        line := GetNextLine();
        return;
      } else if pos.None? {
        return None;
      }
      buffer[pos.value] := NUL;
      head := (head + (pos.value + 1 - head)) % RING;
      return Some(prevHead);
    }

    /** itm2mem_add_to_list; ok is the outcome of mem_info_append_to_list. */
    method AddToList(depthArg: UInt, ok: bool) returns (rc: int)
      requires Valid()
      modifies this`mi, this`miCount, this`appended
      ensures Valid()
      ensures Added(rc, Recs()) == AddSpec(old(Recs()).(depth := depth), depthArg, ok)
    {
      if miCount > 0 {
        mi := mi[miCount - 1 := mi[miCount - 1].(size := depthArg)];
        if !ok {
          return -1;
        }
        appended := appended + [mi[miCount - 1]];
        mi := mi[miCount - 1 := ZERO_INFO];
        miCount := Toggle(miCount);
      } else {
        miCount := 1;
      }
      return 0;
    }

    /** itm2mem_parse on one line; ok is the outcome of an append it makes. */
    method Parse(line: seq<char>, ok: bool) returns (total: Size)
      requires Valid()
      modifies this`mi, this`miCount, this`depth, this`appended
      ensures Valid()
      ensures Parsed(total, Recs()) == ParseSpec(old(Recs()), line, ok)
    {
      if IsAlloc(line) {
        total := ParseAlloc(line, ok);
      } else {
        total := ParseBacktrace(line, ok);
      }
    }

    /** The "alloc " branch of itm2mem_parse: close the record, then scan the new one. */
    method ParseAlloc(line: seq<char>, ok: bool) returns (total: Size)
      requires Valid() && IsAlloc(line)
      modifies this`mi, this`miCount, this`depth, this`appended
      ensures Valid()
      ensures Parsed(total, Recs()) == ParseSpec(old(Recs()), line, ok)
    {
      ghost var a := AddSpec(Recs(), depth, ok);
      var rc := AddToList(depth, ok);
      assert rc == a.rc && Recs() == a.recs;
      if rc != 0 {
        return SIZE_MAX;
      }
      depth := 0;
      mi := mi[miCount - 1 := ScanAlloc(mi[miCount - 1], line)];
      total := ToSize(SIZE_MAX + |line|);
    }

    /** Any other line: a backtrace entry of the current record, dropped before the first "alloc ". */
    method ParseBacktrace(line: seq<char>, ok: bool) returns (total: Size)
      requires Valid() && !IsAlloc(line)
      modifies this`mi, this`depth
      ensures Valid()
      ensures Parsed(total, Recs()) == ParseSpec(old(Recs()), line, ok)
    {
      if miCount == 0 {
        return SIZE_MAX;
      }
      mi := mi[miCount - 1 := AddBacktrace(mi[miCount - 1], line, depth)];
      depth := (depth + 1) % 0x1_0000_0000;
      total := ToSize(SIZE_MAX + |line|);
    }

    /** One pass of the loop of itm2mem_fill_info: cut the next line and parse it; done when there is none. */
    method FillPass(ok: bool, total: Size) returns (done: bool, newTotal: Size)
      requires Valid()
      modifies this, buffer
      ensures Valid() && buffer == old(buffer)
      ensures Fill(State(), newTotal, done) == FillStep(Fill(old(State()), total, false), ok)
    {
      ghost var f := Fill(State(), total, false);
      var line := GetNextLine();
      ghost var c := LineCut(line, buffer[..], head, tail);
      if line.None? {
        FillStepNone(f, ok, c);
        return true, total;
      }
      newTotal := ParseCut(ok, total, line.value, f, c);
      done := false;
    }

    /** The second half of a pass that found a line: parse it and add what the parse returns. */
    method ParseCut(ok: bool, total: Size, start: nat, ghost f: Fill, ghost c: LineCut) returns (newTotal: Size)
      requires Valid() && ItmOk(f.st) && !f.done && f.total == total
      requires c == NextLine(f.st.buf, f.st.head, f.st.tail) && c.line == Some(start)
      requires c == LineCut(c.line, buffer[..], head, tail) && Recs() == f.st.recs
      modifies this`mi, this`miCount, this`depth, this`appended
      ensures Valid()
      ensures Fill(State(), newTotal, false) == FillStep(f, ok)
    {
      assert CString(buffer[..], start) == CString(c.buf, start);
      var res := Parse(CString(buffer[..], start), ok);
      ghost var p := Parsed(res, Recs());
      assert p == ParseSpec(f.st.recs, CString(c.buf, start), ok);
      FillStepLine(f, ok, c, p);
      assert State() == Itm(c.buf, c.head, c.tail, p.recs);
      return ToSize(total + res);
    }

    /**
     * itm2mem_fill_info: cut and parse lines until none is left, adding up
     * what each parse returns. At most fuel passes are made.
     */
    method FillInfo(ok: nat -> bool, fuel: nat) returns (total: Size)
      requires Valid()
      modifies this, buffer
      ensures Valid() && buffer == old(buffer)
      ensures var f := FillRun(old(State()), ok, fuel); State() == f.st && total == f.total
    {
      ghost var start := State();
      total := 0;
      var n := 0;
      var done := false;
      while n < fuel && !done
        invariant Valid() && buffer == old(buffer)
        invariant n <= fuel
        invariant Fill(State(), total, done) == FillRun(start, ok, n)
        invariant done ==> FillRun(start, ok, fuel) == FillRun(start, ok, n)
      {
        done, total := FillPass(ok(n), total);
        if done {
          FillDone(start, ok, n + 1, fuel);
        }
        n := n + 1;
      }
    }

    /**
     * itm2mem_info_data_in: the low byte of each packet's inst.value is
     * stored at tail, tail advancing modulo 1023, then the lines are drained.
     * values holds inst.value of the packets the message is viewed as.
     */
    method DataIn(values: seq<UInt>, length: Size, pktSize: nat, ok: nat -> bool, fuel: nat) returns (r: Size)
      requires Valid() && pktSize > 0 && PktConverter.PacketCount(length, pktSize) <= |values|
      modifies this, buffer
      ensures Valid() && buffer == old(buffer)
      ensures var f := FillRun(FedState(old(State()), values, PktConverter.PacketCount(length, pktSize)), ok, fuel);
        State() == f.st && r == f.total
    {
      var count := PktConverter.PacketCount(length, pktSize);
      Feed(values, count);
      r := FillInfo(ok, fuel);
    }

    /** The loop of itm2mem_info_data_in that stores the low byte of the first count values from tail on. */
    method Feed(values: seq<UInt>, count: nat)
      requires Valid() && count <= |values|
      modifies this`tail, buffer
      ensures Valid()
      ensures State() == FedState(old(State()), values, count)
    {
      ghost var b0 := buffer[..];
      ghost var t0 := tail;
      var i := 0;
      while i < count
        invariant Valid() && i <= count
        invariant buffer[..] == Fed(b0, t0, values, i) && tail == (t0 + i) % RING
      {
        Put(LowByte(values[i]));
        RingNext(t0 + i);
        i := i + 1;
      }
    }

    /** One character stored at tail, tail moving on modulo 1023. */
    method Put(x: char)
      requires Valid()
      modifies this`tail, buffer
      ensures Valid()
      ensures buffer[..] == old(buffer[..])[old(tail) := x] && tail == (old(tail) + 1) % RING
    {
      buffer[tail] := x;
      tail := (tail + 1) % RING;
    }
  }

  /** A pass that finds a line moves to the cut buffer and the parsed records, adding what the parse returns. */
  lemma FillStepLine(f: Fill, ok: bool, c: LineCut, p: Parsed)
    requires ItmOk(f.st) && !f.done
    requires c == NextLine(f.st.buf, f.st.head, f.st.tail) && c.line.Some?
    requires p == ParseSpec(f.st.recs, CString(c.buf, c.line.value), ok)
    ensures FillStep(f, ok) == Fill(Itm(c.buf, c.head, c.tail, p.recs), ToSize(f.total + p.total), false)
  {
    var start := c.line.value;
    assert c.line == Some(start);
    assert p == ParseSpec(f.st.recs, CString(c.buf, start), ok);
  }

  /** A pass that finds no line keeps the records and the total, and ends the loop. */
  lemma FillStepNone(f: Fill, ok: bool, c: LineCut)
    requires ItmOk(f.st) && !f.done
    requires c == NextLine(f.st.buf, f.st.head, f.st.tail) && c.line.None?
    ensures FillStep(f, ok) == Fill(Itm(c.buf, c.head, c.tail, f.st.recs), f.total, true)
  {
  }

  /** Advancing a ring index by one commutes with reducing it. */
  lemma RingNext(a: nat)
    ensures (a % RING + 1) % RING == (a + 1) % RING
  {
    var q := a / RING;
    assert a == q * RING + a % RING;
    if a % RING + 1 == RING {
      assert a + 1 == (q + 1) * RING;
    }
  }

  /** A finished loop stays as it is. */
  lemma FillStepDone(f: Fill, ok: bool)
    requires ItmOk(f.st) && f.done
    ensures FillStep(f, ok) == f
  {
  }

  /** Once a search has found no line, later passes change nothing. */
  lemma {:induction false} FillDone(s: Itm, ok: nat -> bool, n: nat, m: nat)
    requires ItmOk(s) && n <= m && FillRun(s, ok, n).done
    ensures FillRun(s, ok, m) == FillRun(s, ok, n)
    decreases m
  {
    if m > n {
      FillDone(s, ok, n, m - 1);
      FillStepDone(FillRun(s, ok, m - 1), ok(m - 1));
    }
  }
}
