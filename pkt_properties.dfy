/**
 * Properties of the packet conversion: what the getters and the field
 * renderings promise, the exact node each packet type produces, and how the
 * walk over a message's packets ends.
 */
module PktProperties {
  import opened Common
  import opened Text
  import opened PktConverter

  // ------------------------------------------------------------ enum names

  /** Only an unlisted extension source reads "No specific ext". */
  lemma ExtSourceFallback(s: ExtSource)
    ensures ExtSourceName(s) == "No specific ext" <==> s.ExtOther?
  {
  }

  /** Only an unlisted timestamp relation reads "unknown timestamp". */
  lemma LtsRelationFallback(r: LtsRelation)
    ensures LtsRelationText(r) == "unknown timestamp" <==> r.RelOther?
  {
  }

  /** Only an unlisted exception function reads "reserved". */
  lemma ExcFunctionFallback(f: ExcFunction)
    ensures ExcFunctionName(f) == "reserved" <==> f.FuncOther?
  {
  }

  /** The listed values of each enumeration have distinct names. */
  lemma EnumNamesDistinct(a: ExtSource, b: ExtSource, r: LtsRelation, t: LtsRelation, f: ExcFunction, g: ExcFunction)
    ensures !a.ExtOther? && !b.ExtOther? && ExtSourceName(a) == ExtSourceName(b) ==> a == b
    ensures !r.RelOther? && !t.RelOther? && LtsRelationText(r) == LtsRelationText(t) ==> r == t
    ensures !f.FuncOther? && !g.FuncOther? && ExcFunctionName(f) == ExcFunctionName(g) ==> f == g
  {
  }

  // -------------------------------------------------------- exception names

  /** Exception numbers 7 to 10 and 13 are reserved; the other numbers below 16 have their own names. */
  lemma ReservedExceptions(n: UShort)
    requires n < 16
    ensures ExceptionName(n) == "Reserved" <==> (7 <= n <= 10 || n == 13)
  {
  }

  /**
   * A number from 16 on is an external interrupt whose number, n - 16,
   * follows the prefix in decimal and reads back.
   */
  lemma ExternalInterrupt(n: UShort)
    requires n >= 16
    ensures var name := ExceptionName(n);
      |name| > |EXTERNAL_PREFIX| && name[..|EXTERNAL_PREFIX|] == EXTERNAL_PREFIX &&
      ScanInt(name[|EXTERNAL_PREFIX|..], 0, 10) == Some(Scanned(n - 16, |name| - |EXTERNAL_PREFIX|))
  {
    var d := Decimal(n - 16);
    DecimalIsNumeral(n - 16);
    DecimalRoundTrip(n - 16);
    assert ExceptionName(n)[|EXTERNAL_PREFIX|..] == d;
  }

  /** The name starts with the external interrupt prefix exactly when the number is 16 or more. */
  lemma ExternalIffAtLeast16(n: UShort)
    ensures (|ExceptionName(n)| >= |EXTERNAL_PREFIX| &&
      ExceptionName(n)[..|EXTERNAL_PREFIX|] == EXTERNAL_PREFIX) <==> n >= 16
  {
    if n >= 16 {
      ExternalInterrupt(n);
    } else {
      assert |ExceptionName(n)| < |EXTERNAL_PREFIX|;
    }
  }

  // ------------------------------------------------------------- renderings

  /** A HEX field is "0x" and eight lower-case digits that read back as the low 32 bits of the value. */
  lemma HexFieldRoundTrip(o: Out)
    requires o.U? || o.Z?
    ensures var v := if o.U? then o.u else o.z % 0x1_0000_0000;
      Render(THex, o).Str? && |Render(THex, o).str| == 10 &&
      Render(THex, o).str[..2] == "0x" &&
      ScanInt(Render(THex, o).str, 0, 16) == Some(Scanned(v, 10))
  {
    var v: UInt := if o.U? then o.u else o.z % 0x1_0000_0000;
    Hex8Shape(v);
    Hex8RoundTrip(v);
  }

  /** A CHAR field is empty exactly when the low byte is NUL, and otherwise that one character. */
  lemma CharField(o: Out)
    requires o.C? || o.U?
    ensures var b := if o.C? then o.c else o.u % 0x100;
      Render(TChar, o).Str? &&
      (Render(TChar, o).str == "" <==> b == 0) &&
      (b != 0 ==> Render(TChar, o).str == [b as char])
  {
  }

  /** The "size" field of hw, instrumentation and data value packets is the payload size less one. */
  lemma SizeFields(p: Packet)
    requires (p.Hw? || p.Inst? || p.DataValue?)
    ensures var g := if p.Hw? then HwSize else if p.Inst? then InstSize else DvSize;
      var size := if p.DataValue? then p.dvSize else p.size;
      size >= 1 ==> Get(g, p, 0) == Z(size - 1)
  {
  }

  /** A sync packet's size is scaled down to bytes only when it is a whole, non-zero number of bytes. */
  lemma SyncField(size: Size)
    ensures Get(SyncSize, Sync(size), 0) == Z(if size != 0 && size % 8 == 0 then size / 8 else size)
  {
  }

  /** While the core sleeps, a pc sample leaves the destination as it was; otherwise it reads the pc. */
  lemma PcSampleKeepsStale(sleep: bool, pc: UInt, prev: UInt)
    ensures Get(PcSampleValue, PcSample(sleep, pc), prev) == U(if sleep then prev else pc)
  {
  }

  // ------------------------------------------------------------------ nodes

  /** A hw packet becomes ("packet", "hw"), its address and value in hex, the low byte as a char and the size less one. */
  lemma HwNode(size: Size, address: Byte, value: UInt, stale: UInt)
    ensures var b := value % 0x100;
      FullFields(Hw(size, address, value), stale) == [
        Field("packet", Str("hw")), Field("address", Str(Hex8(address))), Field("value", Str(Hex8(value))),
        Field("hw_value", Str(if b == 0 then "" else [b as char])), Field("size", Num(SizeMinusOne(size)))]
  {
    var fs := FullFields(Hw(size, address, value), stale);
    assert |fs| == 5;
  }

  /** A pc sample becomes ("packet", "pc sample") and a hex value: the pc, or while sleeping what json_nbr held. */
  lemma PcSampleNode(sleep: bool, pc: UInt, stale: UInt)
    ensures FullFields(PcSample(sleep, pc), stale) ==
      [Field("packet", Str("pc sample")), Field("value", Str(Hex8(if sleep then stale else pc)))]
  {
    var fs := FullFields(PcSample(sleep, pc), stale);
    assert |fs| == 2;
  }

  /** Unknown and overflow packets have a name and no entries: their node holds the packet name alone. */
  lemma NameOnlyNodes(p: Packet, stale: UInt)
    requires p.Unknown? || p.Overflow?
    ensures FullFields(p, stale) == [Field("packet", Str(Ptis(p).name.value))]
  {
  }

  /** A type value without a table slot writes nothing and succeeds, whatever the allocations would do. */
  lemma UnlistedWritesNothing(code: nat, ok: nat -> bool, stale: UInt)
    ensures WriteSpec(Unlisted(code), ok, stale) == Written(0, [])
  {
  }

  // ------------------------------------------------------------- node writing

  /** Writing a node succeeds exactly when every allocation does, and then adds the node with all its fields. */
  lemma NodeSucceedsIff(name: string, full: seq<Field>, ok: nat -> bool)
    ensures NodeSpec(name, full, ok).rc == 0 <==> forall s :: 0 <= s <= |full| ==> ok(s)
    ensures NodeSpec(name, full, ok).rc == 0 ==> NodeSpec(name, full, ok).added == [Node(name, full)]
  {
    var r := FirstFailure(ok, |full| + 1);
    if r.Some? {
      assert !ok(r.value);
    }
  }

  /** A failed node write leaves at most one node, holding a strict prefix of the fields. */
  lemma NodeFailureKeepsPrefix(name: string, full: seq<Field>, ok: nat -> bool)
    requires NodeSpec(name, full, ok).rc != 0
    ensures var added := NodeSpec(name, full, ok).added;
      |added| <= 1 && forall n :: n in added ==> n.name == name && |n.fields| < |full| && n.fields == full[..|n.fields|]
  {
  }

  // --------------------------------------------------------------- converting

  /** The first n packets hold a packet whose writing fails. */
  predicate SomeFails(ws: seq<Written>, n: nat)
    requires n <= |ws|
  {
    exists k :: 0 <= k < n && ws[k].rc != 0
  }

  /** For CJSON the walk succeeds exactly when every packet does; the other formats always succeed. */
  lemma {:induction false} ConvertSucceedsIff(fmt: int, ws: seq<Written>, n: nat)
    requires n <= |ws|
    ensures ConvertSpec(fmt, ws, n).rc == 0 <==> fmt != PKT_CONVERTER_CJSON || !SomeFails(ws, n)
  {
    if n > 0 {
      ConvertSucceedsIff(fmt, ws, n - 1);
      if SomeFails(ws, n - 1) {
        var k :| 0 <= k < n - 1 && ws[k].rc != 0;
        assert 0 <= k < n && ws[k].rc != 0;
      }
      if ws[n - 1].rc != 0 {
        assert SomeFails(ws, n);
      }
      if SomeFails(ws, n) && !SomeFails(ws, n - 1) {
        var k :| 0 <= k < n && ws[k].rc != 0;
        assert k == n - 1;
      }
    }
  }

  /** Concatenation of what each of the first n packets adds. */
  function AllAdded(ws: seq<Written>, n: nat): seq<Node>
    requires n <= |ws|
  {
    if n == 0 then [] else AllAdded(ws, n - 1) + ws[n - 1].added
  }

  /** When the CJSON walk succeeds, it adds each packet's node in packet order. */
  lemma {:induction false} ConvertAddsInOrder(ws: seq<Written>, n: nat)
    requires n <= |ws|
    requires ConvertSpec(PKT_CONVERTER_CJSON, ws, n).rc == 0
    ensures ConvertSpec(PKT_CONVERTER_CJSON, ws, n).added == AllAdded(ws, n)
  {
    if n > 0 {
      ConvertSucceedsIff(PKT_CONVERTER_CJSON, ws, n);
      ConvertSucceedsIff(PKT_CONVERTER_CJSON, ws, n - 1);
      ConvertAddsInOrder(ws, n - 1);
    }
  }

  /** The number of packets among the first n whose type has a table name. */
  function NamedCount(pkts: seq<Packet>, n: nat): nat
    requires n <= |pkts|
  {
    if n == 0 then 0 else NamedCount(pkts, n - 1) + (if Ptis(pkts[n - 1]).name.Some? then 1 else 0)
  }

  /** A packet written without failure adds one node when its type is named, and none otherwise. */
  lemma WrittenNodes(p: Packet, ok: nat -> bool, stale: UInt)
    requires WriteSpec(p, ok, stale).rc == 0
    ensures |WriteSpec(p, ok, stale).added| == if Ptis(p).name.Some? then 1 else 0
  {
    if Ptis(p).name.Some? {
      NodeSucceedsIff(Ptis(p).name.value, FullFields(p, stale), ok);
    }
  }

  /** A successful CJSON conversion adds exactly one node per named packet. */
  lemma {:induction false} ConvertNodeCount(pkts: seq<Packet>, ok: (nat, nat) -> bool, stale: nat -> UInt,
                                            ws: seq<Written>, n: nat)
    requires n <= |pkts| && IsOutcome(ws, pkts, ok, stale)
    requires ConvertSpec(PKT_CONVERTER_CJSON, ws, n).rc == 0
    ensures |ConvertSpec(PKT_CONVERTER_CJSON, ws, n).added| == NamedCount(pkts, n)
  {
    if n > 0 {
      ConvertSucceedsIff(PKT_CONVERTER_CJSON, ws, n);
      ConvertSucceedsIff(PKT_CONVERTER_CJSON, ws, n - 1);
      ConvertNodeCount(pkts, ok, stale, ws, n - 1);
      assert ws[n - 1] == PacketWritten(pkts, n - 1, ok, stale);
      WrittenNodes(pkts[n - 1], StepsOf(ok, n - 1), stale(n - 1));
    }
  }
}
