/**
 * The SWD controller: a constant table of openocd configurations matched by
 * name pattern, the singleton that records the chosen interface and CPU
 * commands and the forked openocd process, and the init / fini guards.
 * fork, kill, waitpid and openocd_main are outside the model: their
 * outcomes are parameters.
 */
module SwdCtrl {
  import opened Common
  import opened Text

  /** enum config_type */
  datatype ConfigType = Interface | Cpu

  /** The index of a configuration type in cfgs[]. */
  function Index(t: ConfigType): (i: nat)
    ensures i < 2
    ensures t == Interface <==> i == 0
  {
    if t == Interface then 0 else 1
  }

  /** swd_ctrl_config: a table entry. */
  datatype SwdConfig = SwdConfig(ctype: ConfigType, cfgName: string, cmd: string)

  /**
   * swd_ctrl_cfgs; ifPath and cpuPath stand for the openocd script
   * directories the build defines.
   */
  function Table(ifPath: string, cpuPath: string): (t: seq<SwdConfig>)
    ensures |t| == 2 && t[0].ctype == Interface && t[1].ctype == Cpu
  {
    [ SwdConfig(Interface, "stlink*", "-f" + ifPath + "/stlink.cfg"),
      SwdConfig(Cpu, "stm32f4*", "-f" + cpuPath + "/stm32f4x.cfg") ]
  }

  // ------------------------------------------------------------- pattern matching

  /** The first index at or after i whose character is (or, with star false, is not) a '*'. */
  function StarScan(s: string, i: nat, star: bool): (j: nat)
    requires i <= |s|
    ensures i <= j <= |s|
    ensures forall k :: i <= k < j ==> (s[k] == '*') != star
    ensures j < |s| ==> (s[j] == '*') == star
    decreases |s| - i
  {
    if i == |s| || (s[i] == '*') == star then i else StarScan(s, i + 1, star)
  }

  /** strtok(s, "*"): the first run of non-'*' characters, None when there is none. */
  function FirstToken(s: string): (t: Option<string>)
    ensures t.Some? ==> |t.value| > 0 && forall k :: 0 <= k < |t.value| ==> t.value[k] != '*'
  {
    var b := StarScan(s, 0, false);
    if b == |s| then None else Some(s[b..StarScan(s, b, true)])
  }

  /** The pattern of a table entry: its first token, or the whole name when it is all '*'. */
  function Pattern(cfgName: string): string
  {
    match FirstToken(cfgName)
    case None => cfgName
    case Some(t) => t
  }

  /** A name of '*' only is its own pattern; any other name gives a non-empty pattern without '*'. */
  lemma PatternShape(cfgName: string)
    ensures (forall k :: 0 <= k < |cfgName| ==> cfgName[k] == '*') ==> Pattern(cfgName) == cfgName
    ensures (exists k :: 0 <= k < |cfgName| && cfgName[k] != '*') ==>
      var p := Pattern(cfgName);
      p != "" && forall k :: 0 <= k < |p| ==> p[k] != '*'
  {
  }

  /** strncmp(match, name, strnlen(match, 254)) == 0. */
  predicate Matches(pattern: string, name: string)
    ensures Matches(pattern, name) ==> pattern[..Min(|pattern|, STRING_MAX_LENGTH - 1)] <= name
    ensures |pattern| <= STRING_MAX_LENGTH - 1 ==> (Matches(pattern, name) <==> pattern <= name)
  {
    var k := Min(|pattern|, STRING_MAX_LENGTH - 1);
    k <= |name| && name[..k] == pattern[..k]
  }

  /** An entry that get_cfg accepts for the name and type. */
  predicate Accepts(e: SwdConfig, name: string, t: ConfigType)
  {
    e.ctype == t && Matches(Pattern(e.cfgName), name)
  }

  /** swd_ctrl_get_cfg from index i: the first entry of the type whose pattern matches. */
  function GetCfgFrom(table: seq<SwdConfig>, name: string, t: ConfigType, i: nat): (r: Option<nat>)
    requires i <= |table|
    ensures r.Some? ==> i <= r.value < |table| && Accepts(table[r.value], name, t)
    ensures r.Some? ==> forall j :: i <= j < r.value ==> !Accepts(table[j], name, t)
    ensures r.None? <==> forall j :: i <= j < |table| ==> !Accepts(table[j], name, t)
    decreases |table| - i
  {
    if i == |table| then None
    else if Accepts(table[i], name, t) then Some(i)
    else GetCfgFrom(table, name, t, i + 1)
  }

  /** swd_ctrl_get_cfg: the index of the entry returned, None for NULL. */
  function GetCfg(table: seq<SwdConfig>, name: string, t: ConfigType): (r: Option<nat>)
    ensures r.Some? ==> r.value < |table| && Accepts(table[r.value], name, t)
  {
    GetCfgFrom(table, name, t, 0)
  }

  /** swd_ctrl_find_param_gbl_cfg; paramStr is the string the global configuration holds (None for NULL). */
  function FindParam(table: seq<SwdConfig>, paramStr: Option<string>, t: ConfigType): (cmd: Option<string>)
    ensures cmd.Some? <==> paramStr.Some? && GetCfg(table, paramStr.value, t).Some?
    ensures cmd.Some? ==> exists j :: 0 <= j < |table| && Accepts(table[j], paramStr.value, t) && cmd.value == table[j].cmd
  {
    if paramStr.None? then None
    else match GetCfg(table, paramStr.value, t)
      case None => None
      case Some(j) => Some(table[j].cmd)
  }

  // ------------------------------------------------------------- argv

  /**
   * An argv entry: a string, a NULL pointer, or one of the two openocd
   * command macros SWD_CTRL_OPENOCD_INIT and SWD_CTRL_OPENOCD_RESET_START,
   * whose text openocd.h defines.
   */
  datatype Arg = Str(s: string) | Null | OpenocdInit | OpenocdResetStart

  function ArgOf(c: Option<string>): Arg
  {
    if c.Some? then Str(c.value) else Null
  }

  /**
   * The argv swd_ctrl_start hands to openocd_main (without DEBUG_OPENOCD):
   * the program, the interface and CPU commands, then init and reset-run.
   */
  function Argv(prog: string, cfgs: seq<Option<string>>): (argv: seq<Arg>)
    requires |cfgs| == 2
    ensures |argv| == 5 && argv[0] == Str(prog)
    ensures argv[1 + Index(Interface)] == ArgOf(cfgs[Index(Interface)])
    ensures argv[1 + Index(Cpu)] == ArgOf(cfgs[Index(Cpu)])
    ensures argv[3..] == [OpenocdInit, OpenocdResetStart]
  {
    [Str(prog), ArgOf(cfgs[0]), ArgOf(cfgs[1]), OpenocdInit, OpenocdResetStart]
  }

  // ------------------------------------------------------------- init and fini

  /** A call of swd_ctrl_init or swd_ctrl_fini. */
  datatype Call = InitCall | FiniCall

  /** The return code and the new is_init of one call, from is_init. */
  function Step(isInit: bool, c: Call): (r: (int, bool))
    ensures r.0 == 0 || r.0 == -1
  {
    match c
    case InitCall => if isInit then (-1, true) else (0, true)
    case FiniCall => if isInit then (-1, true) else (0, false)
  }

  /** The return codes of a sequence of calls, and the final is_init. */
  function Run(isInit: bool, calls: seq<Call>): (r: (seq<int>, bool))
    ensures |r.0| == |calls|
    decreases |calls|
  {
    if calls == [] then ([], isInit)
    else
      var s := Step(isInit, calls[0]);
      var rest := Run(s.1, calls[1..]);
      ([s.0] + rest.0, rest.1)
  }

  /** The callbacks of a swd_ctrl_obj: left as they were, the working ones, or the defaults that return -1. */
  datatype SwdOps = Cleared | Installed | Defaults

  /** swd_ctrl_obj; pdata points at the singleton or is NULL. */
  class SwdCtrlObj {
    var ops: SwdOps
    var pdata: Option<SwdCtrlData>

    constructor ()
      ensures ops == Cleared && pdata == None
    {
      ops := Cleared;
      pdata := None;
    }
  }

  /** swd_ctrl_priv_data: the singleton swd_ctrl_pdata. */
  class SwdCtrlData {
    var cfgs: seq<Option<string>>
    var forkPid: int
    var isInit: bool

    predicate Valid()
      reads this
    {
      |cfgs| == 2
    }

    /** The static singleton starts zeroed. */
    constructor ()
      ensures Valid() && cfgs == [None, None] && forkPid == 0 && !isInit
    {
      cfgs := [None, None];
      forkPid := 0;
      isInit := false;
    }

    /** swd_ctrl_init */
    method Init(obj: SwdCtrlObj) returns (rc: int)
      modifies this`isInit, obj
      ensures (rc, isInit) == Step(old(isInit), InitCall)
      ensures rc == 0 ==> obj.ops == Installed && obj.pdata == Some(this)
      ensures rc != 0 ==> obj.ops == old(obj.ops) && obj.pdata == old(obj.pdata)
    {
      if isInit {
        return -1;
      }
      obj.ops := Installed;
      isInit := true;
      obj.pdata := Some(this);
      return 0;
    }

    /** swd_ctrl_fini, with its guard as written: it refuses an initialised singleton. */
    method Fini(obj: SwdCtrlObj) returns (rc: int)
      requires obj.pdata == Some(this)
      modifies this`isInit, obj
      ensures (rc, isInit) == Step(old(isInit), FiniCall)
      ensures rc == 0 ==> obj.ops == Defaults && obj.pdata == None
      ensures rc != 0 ==> obj.ops == old(obj.ops) && obj.pdata == old(obj.pdata)
    {
      if isInit {
        return -1;
      }
      obj.ops := Defaults;
      isInit := false;
      obj.pdata := None;
      return 0;
    }

    /**
     * swd_ctrl_set_from_gbl_cfg: looks the configured name up in the table
     * and stores the matching command in cfgs[type]; -1 and no change when
     * there is none.
     */
    method SetFromGblCfg(table: seq<SwdConfig>, paramStr: Option<string>, t: ConfigType) returns (rc: int)
      requires Valid()
      modifies this`cfgs
      ensures Valid()
      ensures var cmd := FindParam(table, paramStr, t);
        && (rc == 0 <==> cmd.Some?) && (rc == 0 || rc == -1)
        && cfgs == if cmd.Some? then old(cfgs)[Index(t) := cmd] else old(cfgs)
    {
      var cmd := FindParam(table, paramStr, t);
      if cmd.None? {
        return -1;
      }
      cfgs := cfgs[Index(t) := cmd];
      return 0;
    }

    /**
     * swd_ctrl_start; pid is what fork() returns and childRc what
     * openocd_main returns in the child. The child runs openocd with argv
     * and returns its code; the parent records the pid and fails when the
     * fork did.
     */
    method Start(prog: string, pid: int, childRc: int) returns (rc: int, argv: seq<Arg>)
      requires Valid()
      modifies this`forkPid
      ensures argv == Argv(prog, cfgs)
      ensures pid == 0 ==> rc == childRc && forkPid == old(forkPid)
      ensures pid != 0 ==> forkPid == pid && (rc == 0 <==> pid > 0) && (rc == 0 || rc == -1)
    {
      argv := Argv(prog, cfgs);
      if pid == 0 {
        return childRc, argv;
      }
      forkPid := pid;
      if pid < 0 {
        return -1, argv;
      }
      return 0, argv;
    }

    /** swd_ctrl_stop: fails when no process was forked; otherwise signals fork_pid (returned as target) and waits for it. */
    method Stop() returns (rc: int, target: Option<int>)
      ensures rc == 0 <==> forkPid >= 0
      ensures rc == 0 || rc == -1
      ensures target == (if rc == 0 then Some(forkPid) else None)
    {
      if forkPid < 0 {
        return -1, None;
      }
      return 0, Some(forkPid);
    }
  }

  /** swd_ctr_set_cfg_todo: setting a configuration by name is not implemented. */
  method SetCfg(name: string) returns (rc: int)
    ensures rc == -1
  {
    rc := -1;
  }

  // ------------------------------------------------------------- properties

  /** "stlink-v2" selects the stlink interface and "stm32f407" the stm32f4 CPU script, and neither matches the other type. */
  lemma TableLookups(ifPath: string, cpuPath: string)
    ensures var t := Table(ifPath, cpuPath);
      GetCfg(t, "stlink-v2", Interface) == Some(0) &&
      GetCfg(t, "stm32f407", Cpu) == Some(1) &&
      GetCfg(t, "stm32f407", Interface) == None &&
      GetCfg(t, "stlink", Cpu) == None &&
      GetCfg(t, "stm32", Cpu) == None
  {
    var t := Table(ifPath, cpuPath);
    assert StarScan("stlink*", 0, false) == 0;
    assert StarScan("stlink*", 0, true) == 6;
    assert Pattern("stlink*") == "stlink";
    assert StarScan("stm32f4*", 0, false) == 0;
    assert StarScan("stm32f4*", 0, true) == 7;
    assert Pattern("stm32f4*") == "stm32f4";
    assert "stlink-v2"[..6] == "stlink";
    assert "stm32f407"[..7] == "stm32f4";
  }

  /** A pattern's first token is what precedes the first '*' when the name does not start with one. */
  lemma {:induction false} PatternIsTextBeforeStar(cfgName: string, e: nat)
    requires 0 < e <= |cfgName|
    requires forall k :: 0 <= k < e ==> cfgName[k] != '*'
    requires e < |cfgName| ==> cfgName[e] == '*'
    ensures Pattern(cfgName) == cfgName[..e]
  {
    StarScanStops(cfgName, 0, e);
  }

  /** The scan for a '*' from i stops at e when none of the characters before e is one. */
  lemma {:induction false} StarScanStops(s: string, i: nat, e: nat)
    requires i <= e <= |s|
    requires forall k :: i <= k < e ==> s[k] != '*'
    requires e < |s| ==> s[e] == '*'
    ensures StarScan(s, i, true) == e
    decreases e - i
  {
    if i < e {
      StarScanStops(s, i + 1, e);
    }
  }

  /** Configuring both types from names the table knows puts both commands in argv, interface first. */
  lemma ConfiguredArgv(table: seq<SwdConfig>, ifName: string, cpuName: string, prog: string)
    requires GetCfg(table, ifName, Interface).Some? && GetCfg(table, cpuName, Cpu).Some?
    ensures var cfgs := [FindParam(table, Some(ifName), Interface), FindParam(table, Some(cpuName), Cpu)];
      var argv := Argv(prog, cfgs);
      argv[1] == Str(table[GetCfg(table, ifName, Interface).value].cmd) &&
      argv[2] == Str(table[GetCfg(table, cpuName, Cpu).value].cmd) &&
      table[GetCfg(table, ifName, Interface).value].ctype == Interface &&
      table[GetCfg(table, cpuName, Cpu).value].ctype == Cpu
  {
  }

  /**
   * With fini's guard as written, once the singleton is initialised every
   * later init and fini returns -1 and it stays initialised.
   */
  lemma {:induction false} InitialisedIsStuck(calls: seq<Call>)
    ensures var r := Run(true, calls);
      r.1 && forall k :: 0 <= k < |r.0| ==> r.0[k] == -1
  {
    if calls != [] {
      InitialisedIsStuck(calls[1..]);
    }
  }

  /** From the zeroed singleton the first init succeeds and a second one is refused. */
  lemma SecondInitRefused()
    ensures Run(false, [InitCall, InitCall]) == ([0, -1], true)
    ensures Run(false, [InitCall, FiniCall]) == ([0, -1], true)
  {
    assert [InitCall, InitCall][1..] == [InitCall] && [InitCall][1..] == [];
    assert [InitCall, FiniCall][1..] == [FiniCall] && [FiniCall][1..] == [];
    assert Run(true, []) == ([], true);
    assert [-1] + [] == [-1] && [0] + [-1] == [0, -1];
  }
}
