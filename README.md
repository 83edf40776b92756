# RISC-V simulator configuration model

A Dafny model of the configuration layer of a RISC-V instruction-set simulator
(Spike), with proofs. The layer has four parts.

- **`cfg_arg_t<T>`** is a value that always has a default and records whether a
  caller has assigned it since.
- **`mem_cfg_t`** is a memory region given by (base, size). A region exists only
  if the platform's legality check accepts the pair.
- **`debug_module_config_t`** is the debug-module capability record.
  `default_dm_config` is its canonical default.
- **`cfg_t`** is the aggregate configuration. It is built from one explicit
  default per member and then overridden member by member. `nprocs()` is always
  the length of the hart list.

It also models the helper `make_mems` from the CI test program. `make_mems` turns
a layout into (base, backing store) pairs, and the test program's `main` is the
end-to-end scenario.

Files:
- `machine.dfy` (module `Machine`): `reg_t` as the 64-bit newtype `RegT`, C++
  `unsigned` and `int` as 32-bit newtypes, and `Option` for `std::optional` and
  for `const char *` values that may be null.
- `cfg.dfy` (module `RiscvCfg`): everything in `riscv/cfg.h`.
  - `CfgArg<T>` is a class with the fields `value` and `wasSet`. `Get` and
    `Overridden` are read-only functions, and `Set` is a method that
    `modifies this`.
  - `Cfg` is a class. Its `cfg_arg_t` members are `const` references to
    embedded `CfgArg` objects, and its plain members are mutable fields.
    `State()` gives the whole configuration as a `CfgState` value, so
    "nothing else changes" can be stated as a single datatype update.
- `testlib.dfy` (module `Testlib`): `mem_t` as the class `Mem`, `make_mems` as
  the method `MakeMems` with a loop, the reference function `Regions` with
  lemmas about it, and the test program's configuration as `TestlibMain`.

`mem_cfg_t::check_if_supported` is declared in the source but has no visible
body. The model therefore takes it as a parameter `supported: (RegT, RegT) -> bool`,
a policy the platform supplies. No alignment or range rules are assumed.

## Model

| member | source | states |
|---|---|---|
| `RiscvCfg.DefaultDmConfigValues` | riscv/cfg.h:25-35 | The default debug-module record has progbufsize 2, max SBA data width 0 and abstract RTI 0. It does not require authentication. It supports hasel, abstract CSR access, abstract FPR access, halt groups and implicit ebreak. |
| `RiscvCfg.CfgArg.constructor` | riscv/cfg.h:45-46 | A newly built override-tracked value reads back its default and is not overridden. |
| `RiscvCfg.CfgArg.Overridden` | riscv/cfg.h:48 | `overridden()` is a read-only function of the object's fields that gives `wasSet`. Being a function, it cannot change `value` or `wasSet`. |
| `RiscvCfg.CfgArg.Get` | riscv/cfg.h:50 | `operator()()` is a read-only function of the object's fields that gives `value`. Being a function, it cannot change `value` or `wasSet`. |
| `RiscvCfg.CfgArg.Set` | riscv/cfg.h:52-56 | After assignment the value is `v` and it is overridden, with no condition on the old value. The assignment returns `v`. |
| `RiscvCfg.CfgArgLifecycle` | riscv/cfg.h:45-56 | Over the whole life of one value: construction gives the default and not overridden. Assigning `v` returns `v`, then the value reads `v` and is overridden, even when `v` is the default. Reading again gives the same value, so reads change nothing. |
| `RiscvCfg.MakeMemCfg` | riscv/cfg.h:67-72 | A region can only be built from a pair the legality check accepts. It exposes exactly that base and size, and the region it gives satisfies the check. |
| `RiscvCfg.TryMemCfg` | riscv/cfg.h:67-69 | A region is produced if and only if the legality check accepts (base, size), and then it carries exactly that base and size. A rejected pair gives no region. |
| `RiscvCfg.Cfg.constructor` | riscv/cfg.h:78-104 | Every override-tracked member (initrd bounds, bootargs, isa, priv, varch, memory layout, hart ids, real-time CLINT) holds its given default and is not overridden. Every plain member holds its given default. `explicit_hartids` is false, `start_pc` is empty, `nprocs()` is the number of default hart ids, and the embedded members are distinct fresh objects. The layout passed in consists of regions that the legality check accepted, and the configuration's layout is legal. |
| `RiscvCfg.Cfg.NProcs` | riscv/cfg.h:122 | `nprocs()` is the length of the current hart list, read from `hartids` on every call and never cached, so it follows every override of `hartids`. The constructor and `OverrideHartids` state this for their results. |
| `RiscvCfg.OverrideHartids` | riscv/cfg.h:117-122 | Assigning `hartids` replaces the hart list and marks it overridden. `nprocs()` becomes the new list's length. Every other member is unchanged, including the separate `explicit_hartids` flag. |
| `RiscvCfg.OverrideInitrdBounds` | riscv/cfg.h:106 | Assigning `initrd_bounds` replaces the bounds and marks them overridden. Every other member is unchanged. |
| `RiscvCfg.OverrideBootargs` | riscv/cfg.h:107 | Assigning `bootargs` replaces the boot arguments and marks them overridden. Every other member is unchanged, including the other string members of the same type. |
| `RiscvCfg.OverrideIsa` | riscv/cfg.h:108 | Assigning `isa` replaces the ISA string and marks it overridden. Every other member is unchanged, including the other string members of the same type. |
| `RiscvCfg.OverridePriv` | riscv/cfg.h:109 | Assigning `priv` replaces the privilege-mode string and marks it overridden. Every other member is unchanged. |
| `RiscvCfg.OverrideVarch` | riscv/cfg.h:110 | Assigning `varch` replaces the vector-architecture string and marks it overridden. Every other member is unchanged. |
| `RiscvCfg.OverrideMemLayout` | riscv/cfg.h:115 | Assigning `mem_layout` replaces the layout and marks it overridden. Every other member is unchanged. A layout of regions that passed the legality check leaves the configuration's layout legal. |
| `RiscvCfg.OverrideRealTimeClint` | riscv/cfg.h:119 | Assigning `real_time_clint` replaces the flag and marks it overridden. Every other member is unchanged. |
| `Testlib.Mem.constructor` | ci-tests/testlib.c:10 | A new backing store has the requested size. |
| `Testlib.RegionsAt` | ci-tests/testlib.c:7-12 | The pairs produced for a layout have the layout's length, and entry i is (base, size) of region i, so order is preserved. |
| `Testlib.RegionsAppend` | ci-tests/testlib.c:9-11 | Instantiating a concatenation of layouts equals instantiating each part in order. The loop proof of `MakeMems` uses this for each appended region. |
| `Testlib.MakeMems` | ci-tests/testlib.c:5-13 | The result has one pair per region, in layout order. Pair i has region i's base and a backing store of region i's size. Every store is freshly allocated and no two are the same object. The loop invariant is that after k steps the result matches the first k regions. |
| `Testlib.TestlibMain` | ci-tests/testlib.c:17-34 | The test program's configuration has one hart, so `nprocs()` is 1. Its layout is the single region (0x80000000, 0x10000000), which the legality check accepts. isa is "rv64gcv", priv is "MSU", bootargs is null and pmpregions is 16. None of the eight override-tracked members is overridden, and `explicit_hartids` is false. `make_mems` of the layout gives one pair with base 0x80000000 and a store of 0x10000000 bytes. |

## Left out

- The datatype constructor `MemCfg(base, size)` can be called directly, bypassing the legality check. A raw `MemCfg` value is therefore not always legal. The tie to the policy is kept only where a layout enters a configuration: `Cfg`'s constructor and `OverrideMemLayout` take the policy as a ghost parameter and require `LayoutSupported`.
- The body of `mem_cfg_t::check_if_supported` and of the `mem_cfg_t` constructor (riscv/cfg.h:67-69) are not part of this model. Legality is an injected predicate. `MakeMemCfg` requires it. The real constructor's behaviour on a rejected pair is not visible. `TryMemCfg` models that rejection as an absent region.
- The contents of `decode.h` are not part of this model, apart from `reg_t` being a 64-bit unsigned integer.
- The internals of `mem_t` and the release of the stores `make_mems` allocates are left out. Ownership passes to the simulation engine, which is not part of this model.
- MakeMems: does not model allocation failure. In the source, `new mem_t(cfg.size)` can throw, which stops `make_mems` part-way and leaves the stores already allocated unreleased. Allocation with `new` in Dafny cannot fail, so `MakeMems` always completes.
- `mems.reserve(layout.size())` is left out, because it changes capacity only and nothing observable.
- `main`'s construction of `sim_t`, the plugin devices, the host-target arguments and `sim.run()` (ci-tests/testlib.c:32-45) are left out. They belong to the simulation engine and host I/O, which are not part of this model.
- `TestlibMain`: the policy is a parameter, and the scenario requires only that it accept the one region the program builds.
- `const char *` members are modelled as string values or `None` for null. Pointer identity and lifetime are not modelled.
- The fields `value` and `was_set` of `cfg_arg_t` are private in the source. In the model `value` and `wasSet` are public fields, so access to them is not restricted. A caller could assign them directly without going through `Set`.
- The implicit copy constructor and copy assignment of `cfg_arg_t` and `cfg_t` are not modelled. Each assignment in the model goes through `operator=` from a `T`.
- `nprocs()` returns `size_t`. The model returns an unbounded `nat`, because a vector's length always fits in `size_t`.
- Cross-field validation (unique hart ids, non-empty layout, non-overlapping regions) is not claimed, because the source does none.
- The plain members of `cfg_t` (`misaligned`, `endianness`, `dirty_enabled`, `pmpregions`, `start_pc`, `explicit_hartids`, `dm_config`) are public (riscv/cfg.h:77, 111-120), so callers may assign them directly. The model keeps them as public mutable fields of `Cfg`. Assigning one changes only that member of `State()`, so the model has no override methods for them.
