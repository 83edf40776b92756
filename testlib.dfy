/** The helper that stands up simulated memory from a configuration's
    layout, and the end-to-end configuration of the test program. */
module Testlib {
  import opened Machine
  import opened RiscvCfg

  /** `mem_t`: a backing store of `size` bytes. Its contents are not part of this model. */
  class Mem {
    const size: RegT

    constructor (size: RegT)
      ensures this.size == size
    {
      this.size := size;
    }
  }

  /** The (base, size) pairs that `make_mems` hands out for `layout`, in the
      order its loop appends them. */
  function Regions(layout: seq<MemCfg>): seq<(RegT, RegT)>
    decreases |layout|
  {
    if layout == [] then []
    else Regions(layout[..|layout| - 1]) + [(layout[|layout| - 1].base, layout[|layout| - 1].size)]
  }

  /** The (base, size) pairs actually described by a result of `make_mems`. */
  function Shape(mems: seq<(RegT, Mem)>): seq<(RegT, RegT)>
  {
    seq(|mems|, i requires 0 <= i < |mems| => (mems[i].0, mems[i].1.size))
  }

  /** `Regions` keeps the length of the layout and puts region i at index i. */
  lemma {:induction false} RegionsAt(layout: seq<MemCfg>, i: nat)
    requires i < |layout|
    ensures |Regions(layout)| == |layout|
    ensures Regions(layout)[i] == (layout[i].base, layout[i].size)
  {
    var n := |layout| - 1;
    if i < n {
      RegionsAt(layout[..n], i);
    } else if n > 0 {
      RegionsAt(layout[..n], 0);
    }
  }

  /** Instantiating a concatenated layout is instantiating each part in turn. */
  lemma {:induction false} RegionsAppend(a: seq<MemCfg>, b: seq<MemCfg>)
    ensures Regions(a + b) == Regions(a) + Regions(b)
    decreases |b|
  {
    if b == [] {
      assert a + b == a;
    } else {
      var n := |b| - 1;
      assert (a + b)[..|a + b| - 1] == a + b[..n];
      RegionsAppend(a, b[..n]);
    }
  }

  /** `make_mems`: one freshly allocated backing store per region, in layout
      order, each sized to its region and paired with the region's base. */
  method MakeMems(layout: seq<MemCfg>) returns (mems: seq<(RegT, Mem)>)
    ensures Shape(mems) == Regions(layout)
    ensures |mems| == |layout|
    ensures forall i :: 0 <= i < |mems| ==> mems[i].0 == layout[i].base && mems[i].1.size == layout[i].size
    ensures forall i :: 0 <= i < |mems| ==> fresh(mems[i].1)
    ensures forall i, j :: 0 <= i < j < |mems| ==> mems[i].1 != mems[j].1
  {
    mems := [];
    var k := 0;
    while k < |layout|
      invariant 0 <= k <= |layout|
      invariant |mems| == k
      invariant Shape(mems) == Regions(layout[..k])
      invariant forall i :: 0 <= i < k ==> fresh(mems[i].1)
      invariant forall i, j :: 0 <= i < j < k ==> mems[i].1 != mems[j].1
    {
      var cfg := layout[k];
      var m := new Mem(cfg.size);
      assert layout[..k + 1] == layout[..k] + [cfg];
      RegionsAppend(layout[..k], [cfg]);
      mems := mems + [(cfg.base, m)];
      k := k + 1;
    }
    assert layout[..k] == layout;
    forall i | 0 <= i < |mems|
      ensures mems[i].0 == layout[i].base && mems[i].1.size == layout[i].size
    {
      RegionsAt(layout, i);
      assert Shape(mems)[i] == (mems[i].0, mems[i].1.size);
    }
  }

  /** The configuration built by the test program's `main`, and the memory
      it instantiates from that configuration's layout. */
  method TestlibMain(supported: (RegT, RegT) -> bool) returns (cfg: Cfg, mems: seq<(RegT, Mem)>)
    requires supported(0x8000_0000, 0x1000_0000)
    ensures cfg.Valid()
    ensures cfg.NProcs() == 1
    ensures |cfg.memLayout.Get()| == 1
    ensures cfg.memLayout.Get()[0].base == 0x8000_0000 && cfg.memLayout.Get()[0].size == 0x1000_0000
    ensures LayoutSupported(supported, cfg.memLayout.Get())
    ensures cfg.isa.Get() == Some("rv64gcv") && cfg.priv.Get() == Some("MSU")
    ensures cfg.bootargs.Get() == None
    ensures !cfg.initrdBounds.Overridden() && !cfg.bootargs.Overridden() && !cfg.isa.Overridden()
    ensures !cfg.priv.Overridden() && !cfg.varch.Overridden() && !cfg.memLayout.Overridden()
    ensures !cfg.hartids.Overridden() && !cfg.realTimeClint.Overridden() && !cfg.explicitHartids
    ensures cfg.dmConfig == DefaultDmConfig && cfg.pmpregions == 16
    ensures |mems| == 1 && mems[0].0 == 0x8000_0000 && mems[0].1.size == 0x1000_0000
  {
    var memCfg := [MakeMemCfg(supported, 0x8000_0000, 0x1000_0000)];
    var hartids: seq<Int32> := [0];
    cfg := new Cfg((0, 0), None, Some("rv64gcv"), Some("MSU"), Some("vlen:128,elen:64"),
                   false, Little, false, 16, memCfg, hartids, false, DefaultDmConfig, supported);
    mems := MakeMems(cfg.memLayout.Get());
  }
}
