/**
 * The INI configuration back end: a singleton holding the loaded file and
 * the is_init / is_cfg_init flags, open_cfg that loads the file once, and
 * get_value that fills the caller's cfg_param union from the file. The INI
 * library is modelled by what it hands back: the loaded file as a map from
 * (section, name) to the text after '=', ini_get as a lookup in it, and
 * ini_sget as that lookup followed by one sscanf conversion.
 */
module ConfigIni {
  import opened Common
  import opened Text

  /** config_type_value; Other is any value outside the three the switch handles. */
  datatype ParamType = CfgStr | CfgInt | CfgUnsignedInt | CfgOther

  /** The value union of cfg_param, tagged by the member last written; NoValue before any. */
  datatype Value = NoValue | Str(str: Option<string>) | S32(s32: int) | U32(u32: UInt)

  /** A loaded INI file. */
  type Ini = map<(string, string), string>

  /** ini_get: the text of the key in the section, None for NULL. */
  function IniGet(ini: Ini, section: string, name: string): (r: Option<string>)
    ensures r.Some? <==> (section, name) in ini
  {
    if (section, name) in ini then Some(ini[(section, name)]) else None
  }

  const INT32_MIN: int := -0x8000_0000
  const INT32_MAX: int := 0x7FFF_FFFF

  /** The int that a %d conversion stores: the scanned value wrapped to 32 bits. */
  function ToS32(v: int): (r: int)
    ensures INT32_MIN <= r <= INT32_MAX
    ensures INT32_MIN <= v <= INT32_MAX ==> r == v
  {
    (v - INT32_MIN) % 0x1_0000_0000 + INT32_MIN
  }

  /** sscanf(text, "%d"): the int stored, None when the conversion fails. */
  function ScanS32(text: string): (r: Option<int>)
    ensures r.Some? ==> INT32_MIN <= r.value <= INT32_MAX
  {
    match ScanInt(text, 0, 10)
    case None => None
    case Some(sc) => Some(ToS32(sc.value))
  }

  /** sscanf(text, "%u"): the unsigned int stored (negated values wrap), None when the conversion fails. */
  function ScanU32(text: string): (r: Option<UInt>)
    ensures r.Some? <==> ScanS32(text).Some?
    ensures r.Some? ==> (r.value - ScanS32(text).value) % 0x1_0000_0000 == 0
  {
    match ScanInt(text, 0, 10)
    case None => None
    case Some(sc) => Some(sc.value % 0x1_0000_0000)
  }

  /**
   * The union after ini_sget / ini_get for a handled type: the string (or
   * NULL) for CONFIG_STR; for the integer types the converted value when
   * the key exists and converts, the old union untouched otherwise.
   */
  function Fetched(ini: Ini, section: string, name: string, ptype: ParamType, old_: Value): (v: Value)
    requires ptype != CfgOther
    ensures ptype == CfgStr ==> v.Str?
    ensures ptype == CfgInt ==> v.S32? || v == old_
    ensures ptype == CfgUnsignedInt ==> v.U32? || v == old_
  {
    var text := IniGet(ini, section, name);
    match ptype
    case CfgStr => Str(text)
    case CfgInt =>
      if text.None? then old_
      else (match ScanS32(text.value) case None => old_ case Some(x) => S32(x))
    case CfgUnsignedInt =>
      if text.None? then old_
      else (match ScanU32(text.value) case None => old_ case Some(x) => U32(x))
  }

  /** cfg_param: the section and name to look up, the type, and the value union get_value fills. */
  class CfgParam {
    const section: string
    const name: string
    const ptype: ParamType
    var value: Value

    constructor (section: string, name: string, ptype: ParamType)
      ensures this.section == section && this.name == name && this.ptype == ptype && value == NoValue
    {
      this.section := section;
      this.name := name;
      this.ptype := ptype;
      value := NoValue;
    }
  }

  /** open_cfg, get_value and set_value of a config_ini_obj: never assigned, or installed by init. */
  datatype IniOps = Cleared | Installed

  /** config_ini_obj; pdata points at the singleton or is NULL. */
  class ConfigIniObj {
    var ops: IniOps
    var pdata: Option<ConfigIniData>

    constructor ()
      ensures ops == Cleared && pdata == None
    {
      ops := Cleared;
      pdata := None;
    }
  }

  /** config_ini_priv_data: the singleton ci_pdata. */
  class ConfigIniData {
    var ini: Option<Ini>
    var pathCfg: Option<string>
    var isInit: bool
    var isCfgInit: bool

    /** A loaded file is there whenever is_cfg_init is set, and only an initialised object has one. */
    predicate Valid()
      reads this
    {
      isCfgInit ==> ini.Some? && isInit
    }

    /** The static singleton starts zeroed. */
    constructor ()
      ensures Valid() && ini == None && pathCfg == None && !isInit && !isCfgInit
    {
      ini := None;
      pathCfg := None;
      isInit := false;
      isCfgInit := false;
    }

    /**
     * config_ini_init; configInitRc is what config_init returns. There is no
     * guard against a second init: it succeeds again and keeps a loaded file.
     */
    method Init(obj: ConfigIniObj, configInitRc: int) returns (rc: int)
      requires Valid()
      modifies this`isInit, obj
      ensures Valid()
      ensures rc == 0 <==> configInitRc == 0
      ensures rc == 0 || rc == -1
      ensures rc == 0 ==> isInit && obj.ops == Installed && obj.pdata == Some(this)
      ensures rc != 0 ==> isInit == old(isInit) && obj.ops == old(obj.ops) && obj.pdata == old(obj.pdata)
    {
      if configInitRc != 0 {
        return -1;
      }
      obj.pdata := Some(this);
      obj.ops := Installed;
      isInit := true;
      return 0;
    }

    /**
     * config_ini_open_config; loaded is what ini_load returns for the path.
     * Refused before init and after a successful load; the path and the
     * load result are recorded even when the load fails.
     */
    method OpenConfig(path: string, loaded: Option<Ini>) returns (rc: int)
      requires Valid()
      modifies this`ini, this`pathCfg, this`isCfgInit
      ensures Valid()
      ensures rc == 0 <==> old(isInit) && !old(isCfgInit) && loaded.Some?
      ensures rc == 0 || rc == -1
      ensures old(isInit) && !old(isCfgInit) ==> ini == loaded && pathCfg == Some(path) && isCfgInit == loaded.Some?
      ensures !(old(isInit) && !old(isCfgInit)) ==>
        ini == old(ini) && pathCfg == old(pathCfg) && isCfgInit == old(isCfgInit)
    {
      if !isInit {
        return -1;
      }
      if isCfgInit {
        return -1;
      }
      pathCfg := Some(path);
      ini := loaded;
      if ini.None? {
        return -1;
      }
      isCfgInit := true;
      return 0;
    }

    /**
     * config_ini_get_value: NULL (false) before a file is loaded and for an
     * unhandled type, leaving the union alone; otherwise the union member of
     * the type is filled from the file and the param is returned (true).
     */
    method GetValue(param: CfgParam) returns (found: bool)
      requires Valid()
      modifies param`value
      ensures found <==> isCfgInit && param.ptype != CfgOther
      ensures found ==> param.value == Fetched(ini.value, param.section, param.name, param.ptype, old(param.value))
      ensures !found ==> param.value == old(param.value)
    {
      if !isCfgInit {
        return false;
      }
      var cfg := ini.value;
      match param.ptype {
        case CfgInt =>
          var text := IniGet(cfg, param.section, param.name);
          if text.Some? {
            var x := ScanS32(text.value);
            if x.Some? {
              param.value := S32(x.value);
            }
          }
        case CfgUnsignedInt =>
          var text := IniGet(cfg, param.section, param.name);
          if text.Some? {
            var x := ScanU32(text.value);
            if x.Some? {
              param.value := U32(x.value);
            }
          }
        case CfgStr =>
          param.value := Str(IniGet(cfg, param.section, param.name));
        case CfgOther =>
          return false;
      }
      return true;
    }

    /** config_ini_set_value: setting a value is not possible; 0 and nothing changes. */
    method SetValue(param: CfgParam) returns (rc: int)
      ensures rc == 0
    {
      rc := 0;
    }

    /**
     * config_ini_fini; configFiniRc is what config_fini returns. Refused
     * when that fails or before init; otherwise the file is freed and both
     * flags are cleared.
     */
    method Fini(configFiniRc: int) returns (rc: int)
      requires Valid()
      modifies this`isInit, this`isCfgInit
      ensures Valid()
      ensures rc == 0 <==> configFiniRc == 0 && old(isInit)
      ensures rc == 0 || rc == -1
      ensures rc == 0 ==> !isInit && !isCfgInit
      ensures rc != 0 ==> isInit == old(isInit) && isCfgInit == old(isCfgInit)
    {
      if configFiniRc != 0 {
        return -1;
      }
      if !isInit {
        return -1;
      }
      isCfgInit := false;
      isInit := false;
      return 0;
    }
  }

  // ------------------------------------------------------------- properties

  /** A string parameter reads back the key's text, or NULL when the file has no such key. */
  lemma StrReadBack(ini: Ini, section: string, name: string, old_: Value)
    ensures (section, name) in ini ==> Fetched(ini, section, name, CfgStr, old_) == Str(Some(ini[(section, name)]))
    ensures (section, name) !in ini ==> Fetched(ini, section, name, CfgStr, old_) == Str(None)
  {
  }

  /** A missing key leaves an integer parameter's union as it was. */
  lemma MissingKeyKeepsValue(ini: Ini, section: string, name: string, ptype: ParamType, old_: Value)
    requires ptype == CfgInt || ptype == CfgUnsignedInt
    requires (section, name) !in ini
    ensures Fetched(ini, section, name, ptype, old_) == old_
  {
  }

  /** %u reads a decimal numeral back as its value. */
  lemma ScanU32Decimal(n: UInt)
    ensures ScanU32(Decimal(n)) == Some(n)
  {
    assert n % 0x1_0000_0000 == n;
    DecimalRoundTrip(n);
  }

  /** %d reads a decimal numeral within the int range back as its value. */
  lemma ScanS32Decimal(n: nat)
    requires n <= INT32_MAX
    ensures ScanS32(Decimal(n)) == Some(n)
  {
    DecimalRoundTrip(n);
  }

  /** An unsigned value written in decimal reads back as itself. */
  lemma UnsignedReadBack(ini: Ini, section: string, name: string, n: UInt, old_: Value)
    requires (section, name) in ini && ini[(section, name)] == Decimal(n)
    ensures Fetched(ini, section, name, CfgUnsignedInt, old_) == U32(n)
  {
    ScanU32Decimal(n);
  }

  /** A non-negative int written in decimal reads back as itself. */
  lemma SignedReadBack(ini: Ini, section: string, name: string, n: nat, old_: Value)
    requires n <= INT32_MAX
    requires (section, name) in ini && ini[(section, name)] == Decimal(n)
    ensures Fetched(ini, section, name, CfgInt, old_) == S32(n)
  {
    ScanS32Decimal(n);
  }

  /** %d on '-' followed by digits reads the negated value of the digits, when it fits an int. */
  lemma ScanNegative(s: string, v: nat)
    requires |s| > 1 && s[0] == '-' && forall k :: 1 <= k < |s| ==> IsDigit(s[k], 10)
    requires Val(s[1..], 10) == v <= -INT32_MIN
    ensures ScanS32(s) == Some(0 - v)
  {
    assert SkipSpace(s, 0) == 0 by { assert !IsSpace(s[0]); }
    RunEndOfDigits(s, 1, 10);
    assert s[1..|s|] == s[1..];
  }

  /** A negative int written as '-' and its magnitude reads back as itself, down to INT32_MIN. */
  lemma NegativeReadBack(n: int)
    requires 0 < n <= -INT32_MIN
    ensures ScanS32("-" + Decimal(n)) == Some(-n)
  {
    var d := Decimal(n);
    var s := "-" + d;
    DecimalIsNumeral(n);
    assert s[1..] == d;
    assert forall k :: 1 <= k < |s| ==> IsDigit(s[k], 10) by {
      assert forall k :: 1 <= k < |s| ==> s[k] == d[k - 1];
    }
    ScanNegative(s, n);
  }

  /** A %u parameter holding a negative number gets it modulo 2^32, as strtoul does. */
  lemma NegativeUnsignedWraps()
    ensures ScanU32("-1") == Some(0xFFFF_FFFF)
  {
    var s := "-1";
    assert !IsSpace(s[0]);
    assert SkipSpace(s, 0) == 0;
    assert RunEnd(s, 1, 10) == 2;
    assert s[1..2] == "1";
    assert Val("1", 10) == 1 by { assert "1"[..0] == ""; }
  }
}
