/**
 * Conversion of decoded SWO trace packets into named, typed fields: the
 * getters, the exception-name table, the per-type table of fields, the
 * writing of one packet as a JSON node, and the walk over a message's packets.
 * The JSON tree is modelled as the list of nodes added under the root, each a
 * list of (name, value) fields.
 */
module PktConverter {
  import opened Common
  import opened Text

  // ------------------------------------------------------------------ packets

  /** Source of an extension packet. */
  datatype ExtSource = ExtItm | ExtHw | ExtOther(code: nat)

  /** Relation of a local timestamp to the data. */
  datatype LtsRelation = RelSync | RelTs | RelSrc | RelBoth | RelOther(code: nat)

  /** Function of an exception trace packet. */
  datatype ExcFunction = FuncEnter | FuncExit | FuncReturn | FuncOther(code: nat)

  /**
   * A decoded packet, one constructor per packet type with the members the
   * getters read. Unlisted stands for a type value that falls in a gap of the
   * type numbering: its table slot has no initialiser.
   */
  datatype Packet =
    | Unknown
    | Hw(size: Size, address: Byte, value: UInt)
    | Inst(size: Size, address: Byte, value: UInt)
    | Overflow
    | Ext(source: ExtSource, extValue: UInt)
    | Sync(syncSize: Size)
    | Lts(relation: LtsRelation, ltsValue: UInt)
    | Gts1(wrap: bool, clkch: bool, gts1Value: UInt)
    | Gts2(gts2Value: UInt)
    | EvtCnt(cpi: bool, exc: bool, sleepCnt: bool, lsu: bool, fold: bool)
    | ExcTrc(excFunction: ExcFunction, exception: UShort)
    | PcSample(sleep: bool, pc: UInt)
    | PcValue(pcCmpn: Byte, pcValue: UInt)
    | AddrOffset(aoCmpn: Byte, offset: UShort)
    | DataValue(dvCmpn: Byte, wnr: bool, dataValue: UInt, dvSize: Size)
    | Unlisted(code: nat)

  function Bit(b: bool): UInt
  {
    if b then 1 else 0
  }

  // ------------------------------------------------------------------ getters

  /** The value a getter stores through its destination pointer. */
  datatype Out =
    | U(u: UInt)        // an unsigned int
    | Z(z: Size)        // a size_t
    | C(c: Byte)        // a char
    | S(s: string)      // a char pointer

  /** The handle_*_pkt_* getters that the table refers to. */
  datatype Getter =
    | HwAddress | HwValue | HwHwValue | HwSize
    | InstAddress | InstValue | InstHwValue | InstSize
    | ExtExtension | ExtValue
    | SyncSize
    | LtsRelationName | LtsValue
    | Gts1Wrap | Gts1Clkch | Gts1Value
    | Gts2Value
    | EvtCpi | EvtExc | EvtSleep | EvtLsu | EvtFold
    | ExcTrcFunction | ExcTrcException
    | PcSampleValue
    | PcValueComp | PcValueValue
    | AddrOffComp | AddrOffOffset
    | DvComp | DvRw | DvValue | DvSize

  /** The getter reads members of this packet's type. */
  predicate Fits(g: Getter, p: Packet)
  {
    match g
    case HwAddress | HwValue | HwHwValue | HwSize => p.Hw?
    case InstAddress | InstValue | InstHwValue | InstSize => p.Inst?
    case ExtExtension | ExtValue => p.Ext?
    case SyncSize => p.Sync?
    case LtsRelationName | LtsValue => p.Lts?
    case Gts1Wrap | Gts1Clkch | Gts1Value => p.Gts1?
    case Gts2Value => p.Gts2?
    case EvtCpi | EvtExc | EvtSleep | EvtLsu | EvtFold => p.EvtCnt?
    case ExcTrcFunction | ExcTrcException => p.ExcTrc?
    case PcSampleValue => p.PcSample?
    case PcValueComp | PcValueValue => p.PcValue?
    case AddrOffComp | AddrOffOffset => p.AddrOffset?
    case DvComp | DvRw | DvValue | DvSize => p.DataValue?
  }

  /** `size - 1` stored in a size_t: the payload size less one. */
  function SizeMinusOne(size: Size): (r: Size)
    ensures size >= 1 ==> r == size - 1
    ensures size == 0 ==> r == SIZE_MAX
  {
    ToSize(size - 1)
  }

  /** Sync size: the raw size unless it is a multiple of 8, in which case size / 8. */
  function SyncScaled(size: Size): (r: Size)
    ensures r <= size
    ensures r == size <==> size % 8 != 0 || size == 0
    ensures size % 8 == 0 ==> r * 8 == size
  {
    if size % 8 != 0 then size else size / 8
  }

  function ExtSourceName(s: ExtSource): string
  {
    match s
    case ExtItm => "ITM"
    case ExtHw => "HW"
    case ExtOther(_) => "No specific ext"
  }

  function LtsRelationText(r: LtsRelation): string
  {
    match r
    case RelSync => "synchronous"
    case RelTs => "timestamp delayed"
    case RelSrc => "data delayed"
    case RelBoth => "data and timestamp delayed"
    case RelOther(_) => "unknown timestamp"
  }

  function ExcFunctionName(f: ExcFunction): string
  {
    match f
    case FuncEnter => "enter"
    case FuncExit => "exit"
    case FuncReturn => "return"
    case FuncOther(_) => "reserved"
  }

  /** exception_names: section B1.5 of the ARMv7-M Architecture Reference Manual. */
  const EXCEPTION_NAMES: seq<string> := [
    "Thread", "Reset", "NMI", "HardFault", "MemManage", "BusFault", "UsageFault",
    "Reserved", "Reserved", "Reserved", "Reserved",
    "SVCall", "Debug Monitor", "Reserved", "PendSV", "SysTick"]

  const EXTERNAL_PREFIX: string := "External interrupt "

  /** handle_exctrc_pkt_exception: a table name below 16, else the external interrupt number. */
  function ExceptionName(n: UShort): (r: string)
    ensures r != ""
    ensures n < |EXCEPTION_NAMES| ==> |r| < |EXTERNAL_PREFIX|
    ensures n >= |EXCEPTION_NAMES| ==> |r| > |EXTERNAL_PREFIX| && r[..|EXTERNAL_PREFIX|] == EXTERNAL_PREFIX
  {
    if n < |EXCEPTION_NAMES| then EXCEPTION_NAMES[n] else EXTERNAL_PREFIX + Decimal(n - |EXCEPTION_NAMES|)
  }

  /**
   * What a getter stores. `prev` is what the destination held before: the
   * pc sample getter leaves it unchanged while the core sleeps.
   */
  function Get(g: Getter, p: Packet, prev: UInt): (r: Out)
    requires Fits(g, p)
    ensures OfKind(r, Kind(g))
    ensures r.S? ==> r.s != ""
  {
    match g
    case HwAddress => U(p.address)
    case HwValue => U(p.value)
    case HwHwValue => C(p.value % 0x100)
    case HwSize => Z(SizeMinusOne(p.size))
    case InstAddress => U(p.address)
    case InstValue => U(p.value)
    case InstHwValue => C(p.value % 0x100)
    case InstSize => Z(SizeMinusOne(p.size))
    case ExtExtension => S(ExtSourceName(p.source))
    case ExtValue => U(p.extValue)
    case SyncSize => Z(SyncScaled(p.syncSize))
    case LtsRelationName => S(LtsRelationText(p.relation))
    case LtsValue => U(p.ltsValue)
    case Gts1Wrap => U(Bit(p.wrap))
    case Gts1Clkch => U(Bit(p.clkch))
    case Gts1Value => U(p.gts1Value)
    case Gts2Value => U(p.gts2Value)
    case EvtCpi => U(Bit(p.cpi))
    case EvtExc => U(Bit(p.exc))
    case EvtSleep => U(Bit(p.sleepCnt))
    case EvtLsu => U(Bit(p.lsu))
    case EvtFold => U(Bit(p.fold))
    case ExcTrcFunction => S(ExcFunctionName(p.excFunction))
    case ExcTrcException => S(ExceptionName(p.exception))
    case PcSampleValue => if p.sleep then U(prev) else U(p.pc)
    case PcValueComp => U(p.pcCmpn)
    case PcValueValue => U(p.pcValue)
    case AddrOffComp => U(p.aoCmpn)
    case AddrOffOffset => U(p.offset)
    case DvComp => U(p.dvCmpn)
    case DvRw => U(Bit(p.wnr))
    case DvValue => U(p.dataValue)
    case DvSize => Z(SizeMinusOne(p.dvSize))
  }

  // -------------------------------------------------------------------- table

  /** enum pkt_type_value */
  datatype ValueType = TStr | TChar | TSize | TUnsigned | THex

  /** packet_value_info */
  datatype ValueInfo = ValueInfo(name: string, vtype: ValueType, getter: Getter)

  /** packet_type_info: `values` holds the first `count` entries. */
  datatype TypeInfo = TypeInfo(name: Option<string>, values: seq<ValueInfo>)

  /** Capacity of packet_type_info.values. */
  const MAX_VALUES: nat := 5

  /** The initialised entries of ptis, one per packet type. */
  const UNKNOWN_INFO := TypeInfo(Some("unknown"), [])
  const HW_INFO := TypeInfo(Some("hw"), [
    ValueInfo("address", THex, HwAddress), ValueInfo("value", THex, HwValue),
    ValueInfo("hw_value", TChar, HwHwValue), ValueInfo("size", TSize, HwSize)])
  const INST_INFO := TypeInfo(Some("instrumentation"), [
    ValueInfo("address", THex, InstAddress), ValueInfo("value", THex, InstValue),
    ValueInfo("hw_value", TChar, InstHwValue), ValueInfo("size", TSize, InstSize)])
  const OVERFLOW_INFO := TypeInfo(Some("overflow"), [])
  const EXT_INFO := TypeInfo(Some("extension"), [
    ValueInfo("extension", TStr, ExtExtension), ValueInfo("value", THex, ExtValue)])
  const SYNC_INFO := TypeInfo(Some("sync"), [ValueInfo("size", THex, SyncSize)])
  const LTS_INFO := TypeInfo(Some("local_timestamp"), [
    ValueInfo("relation", TStr, LtsRelationName), ValueInfo("value", THex, LtsValue)])
  const GTS1_INFO := TypeInfo(Some("global timestamp (gts1)"), [
    ValueInfo("wrap", TUnsigned, Gts1Wrap), ValueInfo("clkch", TUnsigned, Gts1Clkch),
    ValueInfo("value", THex, Gts1Value)])
  const GTS2_INFO := TypeInfo(Some("global timestamp (gts2)"), [ValueInfo("value", THex, Gts2Value)])
  const EVTCNT_INFO := TypeInfo(Some("event counter"), [
    ValueInfo("cpi", TUnsigned, EvtCpi), ValueInfo("exc", TUnsigned, EvtExc),
    ValueInfo("sleep", TUnsigned, EvtSleep), ValueInfo("LSU", TUnsigned, EvtLsu),
    ValueInfo("fold", TUnsigned, EvtFold)])
  const EXCTRC_INFO := TypeInfo(Some("Exception Trace"), [
    ValueInfo("function", TStr, ExcTrcFunction), ValueInfo("exception", TStr, ExcTrcException)])
  const PC_SAMPLE_INFO := TypeInfo(Some("pc sample"), [ValueInfo("value", THex, PcSampleValue)])
  const PC_VALUE_INFO := TypeInfo(Some("pc comp"), [
    ValueInfo("comp", TUnsigned, PcValueComp), ValueInfo("value", THex, PcValueValue)])
  const ADDR_OFFSET_INFO := TypeInfo(Some("Data Trace address offset"), [
    ValueInfo("comp", TUnsigned, AddrOffComp), ValueInfo("offset", THex, AddrOffOffset)])
  const DATA_VALUE_INFO := TypeInfo(Some("Data Trace address offset"), [
    ValueInfo("comp", TUnsigned, DvComp), ValueInfo("rw", TChar, DvRw),
    ValueInfo("value", THex, DvValue), ValueInfo("size", TSize, DvSize)])

  /** ptis[pkt->type]; a slot without an initialiser is all zero: no name, no values. */
  function Ptis(p: Packet): (r: TypeInfo)
    ensures r.name.None? <==> p.Unlisted?
    ensures |r.values| <= MAX_VALUES
    ensures forall k :: 0 <= k < |r.values| ==> r.values[k].name != "packet"
    ensures forall j, k :: 0 <= j < k < |r.values| ==> r.values[j].name != r.values[k].name
  {
    match p
    case Unknown => UNKNOWN_INFO
    case Hw(_, _, _) => HW_INFO
    case Inst(_, _, _) => INST_INFO
    case Overflow => OVERFLOW_INFO
    case Ext(_, _) => EXT_INFO
    case Sync(_) => SYNC_INFO
    case Lts(_, _) => LTS_INFO
    case Gts1(_, _, _) => GTS1_INFO
    case Gts2(_) => GTS2_INFO
    case EvtCnt(_, _, _, _, _) => EVTCNT_INFO
    case ExcTrc(_, _) => EXCTRC_INFO
    case PcSample(_, _) => PC_SAMPLE_INFO
    case PcValue(_, _) => PC_VALUE_INFO
    case AddrOffset(_, _) => ADDR_OFFSET_INFO
    case DataValue(_, _, _, _) => DATA_VALUE_INFO
    case Unlisted(_) => TypeInfo(None, [])
  }

  // ---------------------------------------------------------------- rendering

  /** A JSON value added to a node. The float conversion of numbers is not modelled. */
  datatype Value = Str(str: string) | Num(num: nat)

  /** One member of a node. */
  datatype Field = Field(name: string, value: Value)

  /** The object added under the root for one packet. */
  datatype Node = Node(name: string, fields: seq<Field>)

  /** The getter stores the kind of value a field of type t reads back. */
  predicate Stores(t: ValueType, o: Out)
  {
    match t
    case TChar => o.C? || o.U?
    case TStr => o.S?
    case TSize => o.Z?
    case TUnsigned => o.U?
    case THex => o.U? || o.Z?
  }

  /**
   * The JSON value for a field of the given type. A char field is the one-byte
   * string json_char holds (empty when the byte is NUL); an unsigned int
   * stored into json_char leaves its low byte first (little-endian). A size_t
   * stored into the unsigned int of a HEX field leaves its low 32 bits.
   */
  function Render(t: ValueType, o: Out): (r: Value)
    requires Stores(t, o)
    ensures t == TChar ==> r.Str? && |r.str| <= 1
    ensures t == TStr ==> r == Str(o.s)
    ensures t == TSize || t == TUnsigned ==> r.Num?
    ensures t == THex ==> r.Str? && |r.str| == 10 && r.str[..2] == "0x"
  {
    match t
    case TChar =>
      var b := if o.C? then o.c else o.u % 0x100;
      Str(if b == 0 then "" else [b as char])
    case TStr => Str(o.s)
    case TSize => Num(o.z)
    case TUnsigned => Num(o.u)
    case THex =>
      var v := if o.U? then o.u else o.z % 0x1_0000_0000;
      Hex8Shape(v);
      Str(Hex8(v))
  }

  /** The field a table entry yields for a packet; `stale` is the uninitialised json_nbr. */
  function FieldOf(vi: ValueInfo, p: Packet, stale: UInt): Field
    requires EntryFits(vi, p)
  {
    Field(vi.name, Render(vi.vtype, Get(vi.getter, p, stale)))
  }

  /** Every entry of vs can be read from p. */
  predicate AllFit(vs: seq<ValueInfo>, p: Packet)
  {
    forall k :: 0 <= k < |vs| ==> EntryFits(vs[k], p)
  }

  /** The fields a node named `name` holds when every allocation succeeds: ("packet", name), then one per entry of vs. */
  function NodeFields(name: string, vs: seq<ValueInfo>, p: Packet, stale: UInt): (fs: seq<Field>)
    requires AllFit(vs, p)
    ensures |fs| == 1 + |vs|
    ensures fs[0] == Field("packet", Str(name))
  {
    [Field("packet", Str(name))] + seq(|vs|, k requires 0 <= k < |vs| => FieldOf(vs[k], p, stale))
  }

  /**
   * full is what NodeFields gives. The trigger keeps the solver from
   * expanding every field into the getters until the field is read.
   */
  predicate IsFields(full: seq<Field>, name: string, vs: seq<ValueInfo>, p: Packet, stale: UInt)
  {
    AllFit(vs, p) && |full| == 1 + |vs| && full[0] == Field("packet", Str(name)) &&
    forall k {:trigger FieldOf(vs[k], p, stale)} :: 0 <= k < |vs| ==> full[k + 1] == FieldOf(vs[k], p, stale)
  }

  /** NodeFields is a field list IsFields accepts ... */
  lemma NodeFieldsFit(name: string, vs: seq<ValueInfo>, p: Packet, stale: UInt)
    requires AllFit(vs, p)
    ensures IsFields(NodeFields(name, vs, p, stale), name, vs, p, stale)
  {
    var nf := NodeFields(name, vs, p, stale);
    forall k | 0 <= k < |vs|
      ensures nf[k + 1] == FieldOf(vs[k], p, stale)
    {
    }
  }

  /** ... and the only one. */
  lemma FieldsUnique(full: seq<Field>, name: string, vs: seq<ValueInfo>, p: Packet, stale: UInt)
    requires IsFields(full, name, vs, p, stale)
    ensures full == NodeFields(name, vs, p, stale)
  {
    var nf := NodeFields(name, vs, p, stale);
    forall k | 0 <= k < |full|
      ensures full[k] == nf[k]
    {
      if k > 0 {
        assert full[k] == FieldOf(vs[k - 1], p, stale);
      }
    }
  }

  /** Every field the table lists for a packet, in table order, behind ("packet", name). */
  function FullFields(p: Packet, stale: UInt): (fs: seq<Field>)
    requires Ptis(p).name.Some?
    ensures |fs| == 1 + |Ptis(p).values|
    ensures fs[0] == Field("packet", Str(Ptis(p).name.value))
    ensures forall k :: 0 <= k < |Ptis(p).values| ==> fs[k + 1].name == Ptis(p).values[k].name
  {
    TableFits(p);
    NodeFields(Ptis(p).name.value, Ptis(p).values, p, stale)
  }

  // ---------------------------------------------------------- writing a packet

  /** The cJSON root of a pkt_to_form: the nodes added under it, in order. */
  class JsonRoot {
    var nodes: seq<Node>

    constructor ()
      ensures nodes == []
    {
      nodes := [];
    }
  }

  /** The first allocation step below n that fails, if any. */
  function FirstFailure(ok: nat -> bool, n: nat): (r: Option<nat>)
    ensures r.Some? ==> r.value < n && !ok(r.value)
    ensures r.Some? ==> forall s :: 0 <= s < r.value ==> ok(s)
    ensures r.None? ==> forall s :: 0 <= s < n ==> ok(s)
  {
    if n == 0 then None
    else match FirstFailure(ok, n - 1)
      case Some(f) => Some(f)
      case None => if ok(n - 1) then None else Some(n - 1)
  }

  /** What pkt_write_to_cjson returns and what it adds under the root. */
  datatype Written = Written(rc: Size, added: seq<Node>)

  /**
   * The outcome of writing a node named `name` whose fields are full. Its
   * allocations are numbered: step 0 creates the node, step s >= 1 adds
   * full[s - 1]. ok(s) says whether step s succeeds; at the first failure the
   * writing stops with -1 and what was already added stays.
   */
  function NodeSpec(name: string, full: seq<Field>, ok: nat -> bool): (w: Written)
    ensures w.rc == 0 || w.rc == SIZE_MAX
  {
    match FirstFailure(ok, |full| + 1)
    case None => Written(0, [Node(name, full)])
    case Some(f) => if f == 0 then Written(SIZE_MAX, []) else Written(SIZE_MAX, [Node(name, full[..f - 1])])
  }

  /** pkt_write_to_cjson as a value: nothing for a table slot without a name, else NodeSpec. */
  function WriteSpec(p: Packet, ok: nat -> bool, stale: UInt): (w: Written)
    ensures w.rc == 0 || w.rc == SIZE_MAX
  {
    var info := Ptis(p);
    if info.name.None? then Written(0, [])
    else NodeSpec(info.name.value, FullFields(p, stale), ok)
  }

  lemma {:induction false} FirstFailureAt(ok: nat -> bool, n: nat, f: nat)
    requires f < n && !ok(f)
    requires forall s :: 0 <= s < f ==> ok(s)
    ensures FirstFailure(ok, n) == Some(f)
  {
    if n - 1 > f {
      FirstFailureAt(ok, n - 1, f);
    } else {
      assert FirstFailure(ok, n - 1).None?;
    }
  }

  lemma NodeSpecFailsAt(name: string, full: seq<Field>, ok: nat -> bool, f: nat)
    requires f < |full| + 1 && !ok(f)
    requires forall s :: 0 <= s < f ==> ok(s)
    ensures f == 0 ==> NodeSpec(name, full, ok) == Written(SIZE_MAX, [])
    ensures f > 0 ==> NodeSpec(name, full, ok) == Written(SIZE_MAX, [Node(name, full[..f - 1])])
  {
    FirstFailureAt(ok, |full| + 1, f);
  }

  /** One pass of the loop of pkt_write_to_cjson: read entry i of vs and add its field to the node. */
  method AddField(root: JsonRoot, before: seq<Node>, name: string, fields: seq<Field>,
                  vs: seq<ValueInfo>, p: Packet, stale: UInt, i: nat, ghost full: seq<Field>)
    returns (more: seq<Field>)
    requires IsFields(full, name, vs, p, stale) && i < |vs| && fields == full[..i + 1]
    modifies root
    ensures more == full[..i + 2]
    ensures root.nodes == before + [Node(name, more)]
  {
    var field := FieldOf(vs[i], p, stale);
    more := fields + [field];
    root.nodes := before + [Node(name, more)];
  }

  /**
   * The body of pkt_write_to_cjson once the name is known: add the node,
   * then ("packet", name), then each entry's field, stopping with -1 at the
   * first allocation that fails. full is the list of fields NodeFields gives.
   */
  method WriteNode(root: JsonRoot, name: string, vs: seq<ValueInfo>, p: Packet, ok: nat -> bool, stale: UInt,
                   ghost full: seq<Field>)
    returns (rc: Size)
    requires IsFields(full, name, vs, p, stale)
    modifies root
    ensures rc == NodeSpec(name, full, ok).rc
    ensures root.nodes == old(root.nodes) + NodeSpec(name, full, ok).added
  {
    if !ok(0) {
      NodeSpecFailsAt(name, full, ok, 0);
      return SIZE_MAX;
    }
    var before := root.nodes;
    root.nodes := root.nodes + [Node(name, [])];
    if !ok(1) {
      NodeSpecFailsAt(name, full, ok, 1);
      return SIZE_MAX;
    }
    var fields := [Field("packet", Str(name))];
    root.nodes := before + [Node(name, fields)];
    var i := 0;
    while i < |vs|
      invariant 0 <= i <= |vs|
      invariant forall s :: 0 <= s < i + 2 ==> ok(s)
      invariant fields == full[..i + 1]
      invariant before == old(root.nodes)
      invariant root.nodes == before + [Node(name, fields)]
    {
      if !ok(i + 2) {
        NodeSpecFailsAt(name, full, ok, i + 2);
        return SIZE_MAX;
      }
      fields := AddField(root, before, name, fields, vs, p, stale, i, full);
      i := i + 1;
    }
    assert fields == full;
    assert FirstFailure(ok, |full| + 1).None?;
    return 0;
  }

  /**
   * pkt_write_to_cjson: 0 for a table slot without a name; otherwise a node
   * named after the packet type holding ("packet", name) and then one field
   * per table entry, or -1 at the first allocation that fails.
   */
  method WritePacket(root: JsonRoot, p: Packet, ok: nat -> bool, stale: UInt) returns (rc: Size)
    modifies root
    ensures rc == WriteSpec(p, ok, stale).rc
    ensures root.nodes == old(root.nodes) + WriteSpec(p, ok, stale).added
  {
    var info := Ptis(p);
    if info.name.None? {
      return 0;
    }
    TableFits(p);
    NodeFieldsFit(info.name.value, info.values, p, stale);
    rc := WriteNode(root, info.name.value, info.values, p, ok, stale, FullFields(p, stale));
  }

  // ------------------------------------------------------- converting a message

  /** pkt_format_output */
  const PKT_CONVERTER_CJSON: int := 0
  const PKT_CONVERTER_MYSQL: int := 1

  /** The allocation outcomes of packet i, numbered as in WriteSpec. */
  function StepsOf(ok: (nat, nat) -> bool, i: nat): nat -> bool
  {
    (s: nat) => ok(i, s)
  }

  /** The outcome of writing packet i of pkts. */
  function PacketWritten(pkts: seq<Packet>, i: nat, ok: (nat, nat) -> bool, stale: nat -> UInt): Written
    requires i < |pkts|
  {
    WriteSpec(pkts[i], StepsOf(ok, i), stale(i))
  }

  /**
   * ws lists what writing each packet of pkts on its own gives. The trigger
   * keeps the solver from expanding every ws[k] into the packet tables.
   */
  predicate IsOutcome(ws: seq<Written>, pkts: seq<Packet>, ok: (nat, nat) -> bool, stale: nat -> UInt)
  {
    |ws| == |pkts| &&
    forall k {:trigger PacketWritten(pkts, k, ok, stale)} :: 0 <= k < |pkts| ==> ws[k] == PacketWritten(pkts, k, ok, stale)
  }

  /** Exactly one outcome list fits a message's packets. */
  lemma OutcomeUnique(ws: seq<Written>, pkts: seq<Packet>, ok: (nat, nat) -> bool, stale: nat -> UInt)
    ensures IsOutcome(ws, pkts, ok, stale) <==>
      ws == seq(|pkts|, k requires 0 <= k < |pkts| => PacketWritten(pkts, k, ok, stale))
  {
    var full := seq(|pkts|, k requires 0 <= k < |pkts| => PacketWritten(pkts, k, ok, stale));
    if IsOutcome(ws, pkts, ok, stale) {
      forall k | 0 <= k < |pkts|
        ensures ws[k] == full[k]
      {
        assert ws[k] == PacketWritten(pkts, k, ok, stale);
      }
    }
    if ws == full {
      forall k | 0 <= k < |pkts|
        ensures ws[k] == PacketWritten(pkts, k, ok, stale)
      {
      }
    }
  }

  /**
   * The loop of pkt_convert over the first n packets for a valid format, ws[i]
   * being what writing packet i gives: MYSQL only warns; CJSON writes each
   * packet and stops at the first failure.
   */
  function ConvertSpec(fmt: int, ws: seq<Written>, n: nat): (r: Written)
    requires n <= |ws|
    ensures fmt != PKT_CONVERTER_CJSON ==> r == Written(0, [])
    ensures r.rc == 0 ==> fmt != PKT_CONVERTER_CJSON || forall k :: 0 <= k < n ==> ws[k].rc == 0
  {
    if n == 0 then Written(0, [])
    else
      var prev := ConvertSpec(fmt, ws, n - 1);
      if prev.rc != 0 || fmt != PKT_CONVERTER_CJSON then prev
      else Written(ws[n - 1].rc, prev.added + ws[n - 1].added)
  }

  /** Number of whole packets in a message of `length` bytes, as the unsigned int pkt_count. */
  function PacketCount(length: Size, pktSize: nat): (r: nat)
    requires pktSize > 0
    ensures r < 0x1_0000_0000 && r * pktSize <= length
    ensures length / pktSize < 0x1_0000_0000 ==> r == length / pktSize
  {
    (length / pktSize) % 0x1_0000_0000
  }

  /** Packet i of pkts written with its own allocation outcomes and stale value. */
  method ConvertPacket(root: JsonRoot, pkts: seq<Packet>, i: nat, ok: (nat, nat) -> bool, stale: nat -> UInt,
                       ghost ws: seq<Written>)
    returns (rc: Size)
    requires i < |pkts| && IsOutcome(ws, pkts, ok, stale)
    modifies root
    ensures rc == ws[i].rc && (rc == 0 || rc == SIZE_MAX)
    ensures root.nodes == old(root.nodes) + ws[i].added
  {
    rc := WritePacket(root, pkts[i], StepsOf(ok, i), stale(i));
    assert ws[i] == PacketWritten(pkts, i, ok, stale);
  }

  /**
   * pkt_convert over a message of `length` bytes viewed as packets of
   * `pktSize` bytes: -1 with no packet, -1 for a format outside [CJSON, MYSQL]
   * (tested inside the loop, so only once there is a packet), -1 at the first
   * packet that fails to convert, and 0 otherwise.
   */
  method PktConvert(root: JsonRoot, fmt: int, pkts: seq<Packet>, length: Size, pktSize: nat,
                    ok: (nat, nat) -> bool, stale: nat -> UInt, ghost ws: seq<Written>) returns (rc: Size)
    requires pktSize > 0 && PacketCount(length, pktSize) <= |pkts|
    requires IsOutcome(ws, pkts, ok, stale)
    modifies root
    ensures var n := PacketCount(length, pktSize);
      if n == 0 || fmt < PKT_CONVERTER_CJSON || fmt > PKT_CONVERTER_MYSQL then
        rc == SIZE_MAX && root.nodes == old(root.nodes)
      else
        rc == ConvertSpec(fmt, ws, n).rc &&
        root.nodes == old(root.nodes) + ConvertSpec(fmt, ws, n).added
  {
    var count := PacketCount(length, pktSize);
    if count == 0 {
      return SIZE_MAX;
    }
    var i := 0;
    while i < count
      invariant 0 <= i <= count
      invariant i > 0 ==> PKT_CONVERTER_CJSON <= fmt <= PKT_CONVERTER_MYSQL
      invariant ConvertSpec(fmt, ws, i).rc == 0
      invariant root.nodes == old(root.nodes) + ConvertSpec(fmt, ws, i).added
    {
      if fmt > PKT_CONVERTER_MYSQL || fmt < PKT_CONVERTER_CJSON {
        return SIZE_MAX;
      }
      if fmt == PKT_CONVERTER_CJSON {
        var w := ConvertPacket(root, pkts, i, ok, stale, ws);
        if w != 0 {
          ConvertStops(fmt, ws, i + 1, count);
          return SIZE_MAX;
        }
      }
      i := i + 1;
    }
    return 0;
  }

  /** Once a packet fails, the later packets are not visited. */
  lemma {:induction false} ConvertStops(fmt: int, ws: seq<Written>, n: nat, m: nat)
    requires n <= m <= |ws|
    requires ConvertSpec(fmt, ws, n).rc != 0
    ensures ConvertSpec(fmt, ws, m) == ConvertSpec(fmt, ws, n)
    decreases m
  {
    if m > n {
      ConvertStops(fmt, ws, n, m - 1);
    }
  }

  // ------------------------------------------------------------ table properties

  /** The kind of destination each getter stores into. */
  datatype OutKind = KU | KZ | KC | KS

  function Kind(g: Getter): OutKind
  {
    match g
    case HwHwValue | InstHwValue => KC
    case HwSize | InstSize | SyncSize | DvSize => KZ
    case ExtExtension | LtsRelationName | ExcTrcFunction | ExcTrcException => KS
    case _ => KU
  }

  predicate OfKind(o: Out, k: OutKind)
  {
    match k
    case KU => o.U?
    case KZ => o.Z?
    case KC => o.C?
    case KS => o.S?
  }

  /** A table entry's getter reads this packet's members and stores what the entry's type reads back. */
  predicate EntryFits(vi: ValueInfo, p: Packet)
  {
    Fits(vi.getter, p) && match vi.vtype
      case TChar => Kind(vi.getter) == KC || Kind(vi.getter) == KU
      case TStr => Kind(vi.getter) == KS
      case TSize => Kind(vi.getter) == KZ
      case TUnsigned => Kind(vi.getter) == KU
      case THex => Kind(vi.getter) == KU || Kind(vi.getter) == KZ
  }

  /** The packet types produced by the data watchpoint and trace unit. */
  predicate IsDwt(p: Packet)
  {
    p.EvtCnt? || p.ExcTrc? || p.PcSample? || p.PcValue? || p.AddrOffset? || p.DataValue?
  }

  lemma ItmTableFits(p: Packet)
    requires !IsDwt(p)
    ensures forall k :: 0 <= k < |Ptis(p).values| ==> EntryFits(Ptis(p).values[k], p)
  {
  }

  lemma DwtTableFits(p: Packet)
    requires IsDwt(p)
    ensures forall k :: 0 <= k < |Ptis(p).values| ==> EntryFits(Ptis(p).values[k], p)
  {
    if p.EvtCnt? || p.ExcTrc? || p.PcSample? {
      DwtEventTableFits(p);
    } else {
      DwtDataTableFits(p);
    }
  }

  lemma DwtEventTableFits(p: Packet)
    requires p.EvtCnt? || p.ExcTrc? || p.PcSample?
    ensures forall k :: 0 <= k < |Ptis(p).values| ==> EntryFits(Ptis(p).values[k], p)
  {
  }

  lemma DwtDataTableFits(p: Packet)
    requires p.PcValue? || p.AddrOffset? || p.DataValue?
    ensures forall k :: 0 <= k < |Ptis(p).values| ==> EntryFits(Ptis(p).values[k], p)
  {
  }

  /** Every getter in a packet's table entry reads that packet's own members, and no entry exceeds the five places of `values`. */
  lemma TableFits(p: Packet)
    ensures |Ptis(p).values| <= MAX_VALUES
    ensures AllFit(Ptis(p).values, p)
  {
    if IsDwt(p) {
      DwtTableFits(p);
    } else {
      ItmTableFits(p);
    }
  }
}
