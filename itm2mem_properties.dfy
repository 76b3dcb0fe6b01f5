/**
 * What the ITM line reassembly promises: a line is the text up to the next
 * '\n', the re-linearisation of a wrapped ring keeps the pending text (and
 * the re-linearisation as written does not), a record is closed by each
 * "alloc " line, and the ring keeps each stored byte where it was put.
 */
module Itm2MemProperties {
  import opened Common
  import opened Text
  import opened Itm2MemInfo

  // ------------------------------------------------------------- C strings

  /** The scan for '\n' meets neither NUL nor '\n' before what it returns, and no '\n' in the string when it finds none. */
  lemma {:induction false} FindNewlineSpec(b: seq<char>, i: nat)
    requires i <= |b|
    ensures var r := FindNewline(b, i);
      (r.Some? ==> forall k :: i <= k < r.value ==> b[k] != NUL && b[k] != '\n') &&
      (r.None? ==> forall k :: i <= k < CStrEnd(b, i) ==> b[k] != '\n')
    decreases |b| - i
  {
    if i < |b| && b[i] != NUL && b[i] != '\n' {
      FindNewlineSpec(b, i + 1);
    }
  }

  /** A C string ends at the first NUL. */
  lemma {:induction false} CStrEndAt(b: seq<char>, i: nat, e: nat)
    requires i <= e < |b| && b[e] == NUL
    requires forall k :: i <= k < e ==> b[k] != NUL
    ensures CStrEnd(b, i) == e
    decreases e - i
  {
    if i < e {
      CStrEndAt(b, i + 1, e);
    }
  }

  // ------------------------------------------------------------- cutting lines

  /**
   * With a '\n' at p as the first one from head, the line handed out starts
   * at head and holds exactly the characters up to the newline, none of
   * them a newline; head moves past it and tail stays.
   */
  lemma LineIsUpToNewline(b: seq<char>, head: nat, tail: nat, p: nat)
    requires BufferOk(b) && head < RING && tail < RING
    requires FindNewline(b, head) == Some(p)
    ensures var c := NextLine(b, head, tail);
      c == LineCut(Some(head), b[p := NUL], (p + 1) % RING, tail) &&
      CString(c.buf, head) == b[head..p] &&
      forall k :: head <= k < p ==> b[k] != '\n'
  {
    FindNewlineSpec(b, head);
    CStrEndAt(b[p := NUL], head, p);
  }

  /** With no '\n' and no wrap, nothing is cut and nothing moves. */
  lemma NoLineKeepsState(b: seq<char>, head: nat, tail: nat)
    requires BufferOk(b) && head <= tail < RING
    requires FindNewline(b, head).None?
    ensures NextLine(b, head, tail) == LineCut(None, b, head, tail)
  {
  }

  /**
   * With no '\n' before a wrap, the search is made once more on the
   * re-linearised ring; that search starts at 0 and does not wrap again.
   */
  lemma WrapSearchesOnce(b: seq<char>, head: nat, tail: nat)
    requires BufferOk(b) && tail < head < RING
    requires FindNewline(b, head).None?
    ensures var r := Rotated(b, head, tail);
      var t := tail + RING - head;
      t < RING && BufferOk(r) &&
      NextLine(b, head, tail) == NextLine(r, 0, t) &&
      (FindNewline(r, 0).None? ==> NextLine(b, head, tail) == LineCut(None, r, 0, t))
  {
  }

  // ------------------------------------------------------------- re-linearisation

  /** The re-linearised ring starts with the pending text, in order. */
  lemma RotationKeepsPending(b: seq<char>, head: nat, tail: nat)
    requires |b| == BUFFER_SIZE && tail < head < RING
    ensures Pending(Rotated(b, head, tail), 0, tail + RING - head) == Pending(b, head, tail)
  {
    var r := Rotated(b, head, tail);
    var m := RING - head;
    assert r[..m + tail] == b[head..RING] + b[..tail];
  }

  /** When the part before the wrap is too short to reach head, the two memmoves as written do rotate the ring. */
  lemma AsWrittenAgreesWithoutOverlap(b: seq<char>, head: nat, tail: nat)
    requires |b| == BUFFER_SIZE && tail < head < RING
    requires RING - head + tail + 1 <= head
    ensures RotatedAsWritten(b, head, tail) == Rotated(b, head, tail)
  {
    var m := RING - head;
    var first := b[..m] + b[..tail + 1] + b[m + tail + 1..];
    assert first[head..RING] == b[head..RING];
    assert first[m..] == b[..tail + 1] + b[m + tail + 1..];
  }

  /**
   * A ring with head 600 and tail 500: the first memmove copies 501
   * characters to index 423, over the pending text from 600 on, so the
   * second memmove moves copies of the wrapped part to the front instead of
   * the pending 'x' at 600, and the pending text is lost.
   */
  lemma RelinearisationClobbers()
    ensures var b := seq(BUFFER_SIZE, i => if i == 600 then 'x' else NUL);
      Rotated(b, 600, 500)[0] == 'x' &&
      RotatedAsWritten(b, 600, 500)[0] == NUL &&
      Pending(RotatedAsWritten(b, 600, 500), 0, 923) != Pending(b, 600, 500) &&
      Pending(Rotated(b, 600, 500), 0, 923) == Pending(b, 600, 500)
  {
    var b := seq(BUFFER_SIZE, i => if i == 600 then 'x' else NUL);
    var first := b[..423] + b[..501] + b[924..];
    assert first[600] == b[177];
    assert RotatedAsWritten(b, 600, 500)[0] == first[600];
    assert Pending(RotatedAsWritten(b, 600, 500), 0, 923)[0] == NUL;
    assert Pending(b, 600, 500)[0] == 'x';
    RotationKeepsPending(b, 600, 500);
  }

  // ------------------------------------------------------------- records

  /** mi_count ^= 3 switches between the two buffers. */
  lemma ToggleSwitches(c: Size)
    requires c == 1 || c == 2
    ensures Toggle(c) == 3 - c && Toggle(c) == ((c as bv64) ^ 3) as int
  {
  }

  /**
   * An "alloc " line after a first one hands the record being filled to the
   * list, with the depth reached as its size, and starts the other buffer
   * at depth 0; the parse returns strlen(line) - 1.
   */
  lemma AllocClosesRecord(r: Records, line: seq<char>)
    requires RecordsOk(r) && IsAlloc(line) && r.miCount > 0
    ensures var p := ParseSpec(r, line, true);
      p.recs.appended == r.appended + [r.mi[r.miCount - 1].(size := r.depth)] &&
      p.recs.miCount == 3 - r.miCount && p.recs.depth == 0 &&
      p.recs.mi[r.miCount - 1] == ZERO_INFO &&
      p.total == ToSize(|line| - 1)
  {
    ToggleSwitches(r.miCount);
  }

  /** The first "alloc " line only starts buffer 1. */
  lemma FirstAllocStartsRecord(r: Records, line: seq<char>, ok: bool)
    requires RecordsOk(r) && IsAlloc(line) && r.miCount == 0
    ensures var p := ParseSpec(r, line, ok);
      p.recs.appended == r.appended && p.recs.miCount == 1 && p.recs.depth == 0 &&
      p.recs.mi[0] == ScanAlloc(r.mi[0], line) && p.total == ToSize(|line| - 1)
  {
  }

  /** A failed append returns -1 and keeps the record (with its size set) in place. */
  lemma FailedAppendKeepsRecord(r: Records, line: seq<char>)
    requires RecordsOk(r) && IsAlloc(line) && r.miCount > 0
    ensures var p := ParseSpec(r, line, false);
      p.total == SIZE_MAX && p.recs.appended == r.appended && p.recs.miCount == r.miCount &&
      p.recs.depth == r.depth && p.recs.mi[r.miCount - 1] == r.mi[r.miCount - 1].(size := r.depth)
  {
  }

  /** Any other line is one more backtrace entry of the record being filled, kept at depth. */
  lemma BacktraceLineDeepens(r: Records, line: seq<char>, ok: bool)
    requires RecordsOk(r) && !IsAlloc(line) && r.miCount > 0
    ensures var p := ParseSpec(r, line, ok);
      var cur := r.miCount - 1;
      p.recs.appended == r.appended && p.recs.miCount == r.miCount &&
      p.recs.depth == (r.depth + 1) % 0x1_0000_0000 &&
      p.recs.mi[cur].strBacktrace == r.mi[cur].strBacktrace[r.depth := line] &&
      p.total == ToSize(|line| - 1)
  {
  }

  /** Before the first "alloc " line, any other line is dropped. */
  lemma LineBeforeAllocDropped(r: Records, line: seq<char>, ok: bool)
    requires RecordsOk(r) && !IsAlloc(line) && r.miCount == 0
    ensures ParseSpec(r, line, ok) == Parsed(SIZE_MAX, r)
  {
  }

  /** The buffer index the backtrace path uses when the "no alloc yet" guard is written as `mi_count - 1 < 0` on a size_t. */
  function BacktraceSlotAsWritten(miCount: Size): (slot: Option<Size>)
    ensures slot == None <==> NoAllocGuardAsWritten(miCount)
  {
    if NoAllocGuardAsWritten(miCount) then None else Some(ToSize(miCount - 1))
  }

  /**
   * The guard as written never holds, so before the first "alloc " line the
   * backtrace path indexes mi[SIZE_MAX], far outside the two buffers.
   */
  lemma NoAllocGuardIsDead(miCount: Size)
    ensures !NoAllocGuardAsWritten(miCount)
    ensures miCount == 0 ==> BacktraceSlotAsWritten(miCount) == Some(SIZE_MAX) && SIZE_MAX >= 2
  {
  }

  // ------------------------------------------------------------- feeding the ring

  /** Two ring positions less than a full turn apart are different. */
  lemma RingDistinct(a: nat, d: nat)
    requires 0 < d < RING
    ensures a % RING != (a + d) % RING
  {
    var q, r := a / RING, a % RING;
    assert a == RING * q + r;
    if r + d < RING {
      ModUnique(a + d, RING, q, r + d);
    } else {
      ModUnique(a + d, RING, q + 1, r + d - RING);
    }
  }

  /** Up to a full turn of the ring, each stored value's low byte is where it was put. */
  lemma {:induction false} FedAt(b: seq<char>, tail: nat, values: seq<UInt>, n: nat, k: nat)
    requires BufferOk(b) && tail < RING && k < n <= |values| && n <= RING
    ensures Fed(b, tail, values, n)[(tail + k) % RING] == LowByte(values[k])
  {
    if k < n - 1 {
      FedAt(b, tail, values, n - 1, k);
      RingDistinct(tail + k, n - 1 - k);
    }
  }

  /** Where the k-th value from tail is stored. */
  function RingIndex(tail: nat, k: nat): (i: nat)
    ensures i < RING
  {
    (tail + k) % RING
  }

  /** Positions the stored values do not reach keep their characters. */
  lemma {:induction false} FedElsewhere(b: seq<char>, tail: nat, values: seq<UInt>, n: nat, i: nat)
    requires BufferOk(b) && tail < RING && n <= |values| && i < BUFFER_SIZE
    requires forall k :: 0 <= k < n ==> RingIndex(tail, k) != i
    ensures Fed(b, tail, values, n)[i] == b[i]
  {
    if n > 0 {
      assert RingIndex(tail, n - 1) != i;
      FedElsewhere(b, tail, values, n - 1, i);
    }
  }
}
