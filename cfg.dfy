/** The simulator's configuration: override-tracked values, memory-region
    descriptors, the debug-module capability record and the aggregate `cfg_t`. */
module RiscvCfg {
  import opened Machine

  /** `debug_module_config_t`: a plain record of debug-unit capabilities. */
  datatype DebugModuleConfig = DebugModuleConfig(
    progbufsize: Uint32,          // program buffer size in 32-bit words
    maxSbaDataWidth: Uint32,
    requireAuthentication: bool,
    abstractRti: Uint32,
    supportHasel: bool,
    supportAbstractCsrAccess: bool,
    supportAbstractFprAccess: bool,
    supportHaltgroups: bool,
    supportImpebreak: bool)

  /** `default_dm_config`: the one canonical, immutable default record. */
  const DefaultDmConfig: DebugModuleConfig := DebugModuleConfig(
    progbufsize := 2,
    maxSbaDataWidth := 0,
    requireAuthentication := false,
    abstractRti := 0,
    supportHasel := true,
    supportAbstractCsrAccess := true,
    supportAbstractFprAccess := true,
    supportHaltgroups := true,
    supportImpebreak := true)

  /** The literal field values of `default_dm_config`. */
  lemma DefaultDmConfigValues()
    ensures DefaultDmConfig.progbufsize == 2
    ensures DefaultDmConfig.maxSbaDataWidth == 0
    ensures !DefaultDmConfig.requireAuthentication
    ensures DefaultDmConfig.abstractRti == 0
    ensures DefaultDmConfig.supportHasel && DefaultDmConfig.supportAbstractCsrAccess
    ensures DefaultDmConfig.supportAbstractFprAccess && DefaultDmConfig.supportHaltgroups
    ensures DefaultDmConfig.supportImpebreak
  {
  }

  /** `endianness_t` */
  datatype Endianness = Little | Big

  /** What a `cfg_arg_t<T>` holds at one moment: its value and whether it was assigned. */
  datatype Tracked<T> = Tracked(value: T, overridden: bool)

  /** `cfg_arg_t<T>`: a value that always has a default and records whether
      a caller has since assigned it. */
  class CfgArg<T> {
    var value: T
    var wasSet: bool

    constructor (defaultVal: T)
      ensures Get() == defaultVal && !Overridden()
    {
      value := defaultVal;
      wasSet := false;
    }

    /** `overridden()`, a const read. */
    function Overridden(): bool
      reads this
    {
      wasSet
    }

    /** `operator()()`, a const read. */
    function Get(): T
      reads this
    {
      value
    }

    /** Both fields at once, for stating what an operation leaves unchanged. */
    function State(): Tracked<T>
      reads this
    {
      Tracked(value, wasSet)
    }

    /** `operator=`: replaces the value and marks it overridden, even when `v`
        equals the current value; returns the new value. */
    method Set(v: T) returns (r: T)
      modifies this
      ensures Get() == v && Overridden()
      ensures r == v
    {
      value := v;
      wasSet := true;
      r := value;
    }
  }

  /** The life of one `cfg_arg_t`: a fresh one reads back its default and is
      not overridden; assigning `v` returns `v`, after which it reads back `v`
      and is overridden, also when `v` is the default. Reads change nothing. */
  method CfgArgLifecycle<T>(d: T, v: T) returns (before: T, wasOverridden: bool, returned: T,
                                                 after: T, nowOverridden: bool, again: T)
    ensures before == d && !wasOverridden
    ensures returned == v && after == v && nowOverridden
    ensures again == after
  {
    var arg := new CfgArg(d);
    before, wasOverridden := arg.Get(), arg.Overridden();
    returned := arg.Set(v);
    after, nowOverridden := arg.Get(), arg.Overridden();
    again := arg.Get();
  }

  /** `mem_cfg_t`: one memory region, (base, size). */
  datatype MemCfg = MemCfg(base: RegT, size: RegT)

  /** The `mem_cfg_t` constructor. `supported` stands for
      `mem_cfg_t::check_if_supported`, whose rules belong to the platform; the
      constructor only accepts pairs it approves. */
  function MakeMemCfg(supported: (RegT, RegT) -> bool, base: RegT, size: RegT): (m: MemCfg)
    requires supported(base, size)
    ensures m.base == base && m.size == size
    ensures supported(m.base, m.size)
  {
    MemCfg(base, size)
  }

  /** Construction with the legality check made explicit: a rejected pair
      yields no region at all, an accepted one yields exactly that region. */
  function TryMemCfg(supported: (RegT, RegT) -> bool, base: RegT, size: RegT): (r: Option<MemCfg>)
    ensures r.Some? <==> supported(base, size)
    ensures r.Some? ==> r.value.base == base && r.value.size == size
  {
    if supported(base, size) then Some(MakeMemCfg(supported, base, size)) else None
  }

  /** Every region of a layout satisfies the platform's legality check. */
  predicate LayoutSupported(supported: (RegT, RegT) -> bool, layout: seq<MemCfg>)
  {
    forall i :: 0 <= i < |layout| ==> supported(layout[i].base, layout[i].size)
  }

  /** Every member of a `cfg_t` at one moment. */
  datatype CfgState = CfgState(
    initrdBounds: Tracked<(RegT, RegT)>,
    bootargs: Tracked<Option<string>>,
    isa: Tracked<Option<string>>,
    priv: Tracked<Option<string>>,
    varch: Tracked<Option<string>>,
    misaligned: bool,
    endianness: Endianness,
    dirtyEnabled: bool,
    pmpregions: RegT,
    memLayout: Tracked<seq<MemCfg>>,
    startPc: Option<RegT>,
    hartids: Tracked<seq<Int32>>,
    explicitHartids: bool,
    realTimeClint: Tracked<bool>,
    dmConfig: DebugModuleConfig)

  /** `cfg_t`. Its `cfg_arg_t` members are embedded objects that are changed
      only through their own `Set`; its plain members are assigned directly. */
  class Cfg {
    const initrdBounds: CfgArg<(RegT, RegT)>
    const bootargs: CfgArg<Option<string>>
    const isa: CfgArg<Option<string>>
    const priv: CfgArg<Option<string>>
    const varch: CfgArg<Option<string>>
    var misaligned: bool
    var endianness: Endianness
    var dirtyEnabled: bool
    var pmpregions: RegT
    const memLayout: CfgArg<seq<MemCfg>>
    var startPc: Option<RegT>
    const hartids: CfgArg<seq<Int32>>
    var explicitHartids: bool
    const realTimeClint: CfgArg<bool>
    var dmConfig: DebugModuleConfig

    /** The embedded members are distinct objects, so assigning one leaves
        the others alone. */
    ghost predicate Valid()
    {
      && bootargs != isa && bootargs != priv && bootargs != varch
      && isa != priv && isa != varch
      && priv != varch
    }

    constructor (defaultInitrdBounds: (RegT, RegT),
                 defaultBootargs: Option<string>,
                 defaultIsa: Option<string>,
                 defaultPriv: Option<string>,
                 defaultVarch: Option<string>,
                 defaultMisaligned: bool,
                 defaultEndianness: Endianness,
                 defaultDirtyEnabled: bool,
                 defaultPmpregions: RegT,
                 defaultMemLayout: seq<MemCfg>,
                 defaultHartids: seq<Int32>,
                 defaultRealTimeClint: bool,
                 defaultDmConfig: DebugModuleConfig,
                 ghost supported: (RegT, RegT) -> bool)
      requires LayoutSupported(supported, defaultMemLayout)
      ensures Valid()
      ensures fresh(initrdBounds) && fresh(bootargs) && fresh(isa) && fresh(priv) && fresh(varch)
      ensures fresh(memLayout) && fresh(hartids) && fresh(realTimeClint)
      ensures initrdBounds.Get() == defaultInitrdBounds && !initrdBounds.Overridden()
      ensures bootargs.Get() == defaultBootargs && !bootargs.Overridden()
      ensures isa.Get() == defaultIsa && !isa.Overridden()
      ensures priv.Get() == defaultPriv && !priv.Overridden()
      ensures varch.Get() == defaultVarch && !varch.Overridden()
      ensures memLayout.Get() == defaultMemLayout && !memLayout.Overridden()
      ensures hartids.Get() == defaultHartids && !hartids.Overridden()
      ensures realTimeClint.Get() == defaultRealTimeClint && !realTimeClint.Overridden()
      ensures misaligned == defaultMisaligned && endianness == defaultEndianness
      ensures dirtyEnabled == defaultDirtyEnabled && pmpregions == defaultPmpregions
      ensures startPc == None
      ensures !explicitHartids
      ensures dmConfig == defaultDmConfig
      ensures NProcs() == |defaultHartids|
      ensures LayoutSupported(supported, memLayout.Get())
    {
      initrdBounds := new CfgArg(defaultInitrdBounds);
      bootargs := new CfgArg(defaultBootargs);
      isa := new CfgArg(defaultIsa);
      priv := new CfgArg(defaultPriv);
      varch := new CfgArg(defaultVarch);
      misaligned := defaultMisaligned;
      endianness := defaultEndianness;
      dirtyEnabled := defaultDirtyEnabled;
      pmpregions := defaultPmpregions;
      memLayout := new CfgArg(defaultMemLayout);
      startPc := None;
      hartids := new CfgArg(defaultHartids);
      explicitHartids := false;
      realTimeClint := new CfgArg(defaultRealTimeClint);
      dmConfig := defaultDmConfig;
    }

    /** The whole configuration as a value. */
    function State(): CfgState
      reads this, initrdBounds, bootargs, isa, priv, varch, memLayout, hartids, realTimeClint
    {
      CfgState(initrdBounds.State(), bootargs.State(), isa.State(), priv.State(), varch.State(),
               misaligned, endianness, dirtyEnabled, pmpregions, memLayout.State(), startPc,
               hartids.State(), explicitHartids, realTimeClint.State(), dmConfig)
    }

    /** `nprocs()`: the number of harts, read from `hartids` each time. */
    function NProcs(): nat
      reads hartids
    {
      |hartids.Get()|
    }
  }

  /** `cfg.hartids = ids`: the hart list is replaced and marked overridden,
      `nprocs()` follows it, and every other member, `explicitHartids`
      included, is unchanged. */
  method OverrideHartids(cfg: Cfg, ids: seq<Int32>)
    requires cfg.Valid()
    modifies cfg.hartids
    ensures cfg.Valid()
    ensures cfg.State() == old(cfg.State()).(hartids := Tracked(ids, true))
    ensures cfg.NProcs() == |ids|
  {
    var _ := cfg.hartids.Set(ids);
  }

  /** `cfg.initrd_bounds = b`: only the initrd bounds change, and they are overridden. */
  method OverrideInitrdBounds(cfg: Cfg, b: (RegT, RegT))
    requires cfg.Valid()
    modifies cfg.initrdBounds
    ensures cfg.Valid()
    ensures cfg.State() == old(cfg.State()).(initrdBounds := Tracked(b, true))
  {
    var _ := cfg.initrdBounds.Set(b);
  }

  /** `cfg.bootargs = s`: the boot arguments are replaced and marked
      overridden; the other string members are unchanged. */
  method OverrideBootargs(cfg: Cfg, s: Option<string>)
    requires cfg.Valid()
    modifies cfg.bootargs
    ensures cfg.Valid()
    ensures cfg.State() == old(cfg.State()).(bootargs := Tracked(s, true))
  {
    var _ := cfg.bootargs.Set(s);
  }

  /** `cfg.isa = s`: the ISA string is replaced and marked overridden; the
      other string members, embedded objects of the same type, are unchanged. */
  method OverrideIsa(cfg: Cfg, s: Option<string>)
    requires cfg.Valid()
    modifies cfg.isa
    ensures cfg.Valid()
    ensures cfg.State() == old(cfg.State()).(isa := Tracked(s, true))
  {
    var _ := cfg.isa.Set(s);
  }

  /** `cfg.priv = s`: the privilege-mode string is replaced and marked
      overridden; the other string members are unchanged. */
  method OverridePriv(cfg: Cfg, s: Option<string>)
    requires cfg.Valid()
    modifies cfg.priv
    ensures cfg.Valid()
    ensures cfg.State() == old(cfg.State()).(priv := Tracked(s, true))
  {
    var _ := cfg.priv.Set(s);
  }

  /** `cfg.varch = s`: the vector-architecture string is replaced and marked
      overridden; the other string members are unchanged. */
  method OverrideVarch(cfg: Cfg, s: Option<string>)
    requires cfg.Valid()
    modifies cfg.varch
    ensures cfg.Valid()
    ensures cfg.State() == old(cfg.State()).(varch := Tracked(s, true))
  {
    var _ := cfg.varch.Set(s);
  }

  /** `cfg.mem_layout = layout`: the layout is replaced and marked overridden,
      everything else is unchanged, and a layout of regions that passed the
      legality check keeps the configuration's layout legal. */
  method OverrideMemLayout(cfg: Cfg, layout: seq<MemCfg>, ghost supported: (RegT, RegT) -> bool)
    requires cfg.Valid()
    requires LayoutSupported(supported, layout)
    modifies cfg.memLayout
    ensures cfg.Valid()
    ensures cfg.State() == old(cfg.State()).(memLayout := Tracked(layout, true))
    ensures LayoutSupported(supported, cfg.memLayout.Get())
  {
    var _ := cfg.memLayout.Set(layout);
  }

  /** `cfg.real_time_clint = b`: only the real-time CLINT flag changes, and it is overridden. */
  method OverrideRealTimeClint(cfg: Cfg, b: bool)
    requires cfg.Valid()
    modifies cfg.realTimeClint
    ensures cfg.Valid()
    ensures cfg.State() == old(cfg.State()).(realTimeClint := Tracked(b, true))
  {
    var _ := cfg.realTimeClint.Set(b);
  }
}
