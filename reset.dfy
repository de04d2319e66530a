/** The reset sequence `_Reset_Handler` of the LM3S6965 image.

    Memory is word-addressed: flash and SRAM are arrays of 32-bit words, and
    each linker symbol (`_flash_sdata`, `_sram_sdata`, `_sram_edata`,
    `_sram_sbss`, `_sram_ebss`) is the index of the word it labels. The
    handler copies the initialised-data image from flash into
    [sdata, edata) of SRAM, zeroes [sbss, ebss), and then calls `main`; the
    model ends at that call. */
module Reset {

  /** The word indices the linker supplies. */
  datatype Layout = Layout(flashSdata: nat, sdata: nat, edata: nat, sbss: nat, ebss: nat)

  /** The data region is empty or lies in SRAM, and its image lies in flash. */
  predicate DataFits(l: Layout, flashLen: nat, sramLen: nat)
  {
    l.sdata < l.edata ==> l.edata <= sramLen && l.flashSdata + (l.edata - l.sdata) <= flashLen
  }

  /** The bss region is empty or lies in SRAM. */
  predicate BssFits(l: Layout, sramLen: nat)
  {
    l.sbss < l.ebss ==> l.ebss <= sramLen
  }

  /** Word i of SRAM belongs to the data region. */
  predicate InData(l: Layout, i: nat)
  {
    l.sdata <= i < l.edata
  }

  /** Word i of SRAM belongs to the bss region. */
  predicate InBss(l: Layout, i: nat)
  {
    l.sbss <= i < l.ebss
  }

  /** No word belongs to both regions. */
  predicate Disjoint(l: Layout)
  {
    l.edata <= l.sbss || l.ebss <= l.sdata || l.edata <= l.sdata || l.ebss <= l.sbss
  }

  /** The indices lo, lo + 1, ..., hi - 1 in increasing order; empty when
      lo >= hi, as a pointer walk guarded by `p < end` visits them. */
  function Range(lo: nat, hi: nat): (r: seq<nat>)
    decreases hi
    ensures |r| == if lo < hi then hi - lo else 0
    ensures forall k :: 0 <= k < |r| ==> r[k] == lo + k
  {
    if lo >= hi then [] else Range(lo, hi - 1) + [hi - 1]
  }

  /** n zero words. */
  function Zeros(n: nat): (z: seq<bv32>)
    ensures |z| == n
    ensures forall k :: 0 <= k < n ==> z[k] == 0
  {
    if n == 0 then [] else Zeros(n - 1) + [0]
  }

  /** SRAM after the data loop of `_Reset_Handler` (`*pDest = *pSrc` while
      pDest < &_sram_edata): the data region holds the
      flash image word for word, every other word is as before. */
  function CopyData(sram: seq<bv32>, flash: seq<bv32>, l: Layout): (r: seq<bv32>)
    requires DataFits(l, |flash|, |sram|)
    ensures |r| == |sram|
    ensures forall i :: 0 <= i < |sram| && InData(l, i) ==> r[i] == flash[l.flashSdata + (i - l.sdata)]
    ensures forall i :: 0 <= i < |sram| && !InData(l, i) ==> r[i] == sram[i]
  {
    if l.sdata < l.edata then
      sram[..l.sdata] + flash[l.flashSdata .. l.flashSdata + (l.edata - l.sdata)] + sram[l.edata..]
    else
      sram
  }

  /** SRAM after the bss loop of `_Reset_Handler` (`*pDest = 0` while
      pDest < &_sram_ebss): every bss word is zero, every
      other word is as before. */
  function ZeroBss(sram: seq<bv32>, l: Layout): (r: seq<bv32>)
    requires BssFits(l, |sram|)
    ensures |r| == |sram|
    ensures forall i :: 0 <= i < |sram| && InBss(l, i) ==> r[i] == 0
    ensures forall i :: 0 <= i < |sram| && !InBss(l, i) ==> r[i] == sram[i]
  {
    if l.sbss < l.ebss then sram[..l.sbss] + Zeros(l.ebss - l.sbss) + sram[l.ebss..] else sram
  }

  /** SRAM as `main` finds it: a bss word is zero, a data word outside bss
      holds its flash image word, and every other word is as at reset. */
  function BootImage(sram: seq<bv32>, flash: seq<bv32>, l: Layout): (r: seq<bv32>)
    requires DataFits(l, |flash|, |sram|) && BssFits(l, |sram|)
    ensures |r| == |sram|
    ensures forall i :: 0 <= i < |sram| && InBss(l, i) ==> r[i] == 0
    ensures forall i :: 0 <= i < |sram| && InData(l, i) && !InBss(l, i) ==>
              r[i] == flash[l.flashSdata + (i - l.sdata)]
    ensures forall i :: 0 <= i < |sram| && !InData(l, i) && !InBss(l, i) ==> r[i] == sram[i]
  {
    ZeroBss(CopyData(sram, flash, l), l)
  }

  /** When the two regions are disjoint, `main` finds the data region equal
      to the flash image, the bss region zero and every other word of SRAM as
      it was at reset. */
  lemma BootImageCorrect(sram: seq<bv32>, flash: seq<bv32>, l: Layout)
    requires DataFits(l, |flash|, |sram|) && BssFits(l, |sram|)
    requires Disjoint(l)
    ensures |BootImage(sram, flash, l)| == |sram|
    ensures l.sdata < l.edata ==>
              BootImage(sram, flash, l)[l.sdata..l.edata]
                == flash[l.flashSdata .. l.flashSdata + (l.edata - l.sdata)]
    ensures forall i :: 0 <= i < |sram| && InBss(l, i) ==> BootImage(sram, flash, l)[i] == 0
    ensures forall i :: 0 <= i < |sram| && !InData(l, i) && !InBss(l, i) ==>
              BootImage(sram, flash, l)[i] == sram[i]
  {
  }

  /** When the regions overlap, the bss loop runs last and wins: an
      overlapping word is zero when `main` is called. */
  lemma OverlapIsZeroed(sram: seq<bv32>, flash: seq<bv32>, l: Layout, i: nat)
    requires DataFits(l, |flash|, |sram|) && BssFits(l, |sram|)
    requires i < |sram| && InData(l, i) && InBss(l, i)
    ensures BootImage(sram, flash, l)[i] == 0
  {
  }

  /** `_Reset_Handler` up to the call of `main`. The data loop walks pDest
      from sdata while pDest < edata, copying from pSrc which starts at
      flashSdata; the bss loop walks pDest from sbss while pDest < ebss,
      storing 0. The ghost out-parameter `stores` lists the SRAM indices
      stored to, in the order of the stores. */
  method ResetHandler(flash: array<bv32>, sram: array<bv32>, l: Layout) returns (ghost stores: seq<nat>)
    requires flash != sram
    requires DataFits(l, flash.Length, sram.Length) && BssFits(l, sram.Length)
    modifies sram
    ensures sram[..] == BootImage(old(sram[..]), flash[..], l)
    ensures stores == Range(l.sdata, l.edata) + Range(l.sbss, l.ebss)
  {
    ghost var initial := sram[..];
    stores := [];

    // Copy the data segment from flash to SRAM.
    var src := l.flashSdata;
    var dest := l.sdata;
    while dest < l.edata
      invariant l.sdata <= dest && (dest <= l.edata || dest == l.sdata)
      invariant src == l.flashSdata + (dest - l.sdata)
      invariant stores == Range(l.sdata, dest)
      invariant forall i :: 0 <= i < sram.Length ==>
                  sram[i] == if l.sdata <= i < dest then flash[l.flashSdata + (i - l.sdata)] else initial[i]
    {
      sram[dest] := flash[src];
      stores := stores + [dest];
      dest := dest + 1;
      src := src + 1;
    }
    ghost var copied := CopyData(initial, flash[..], l);
    assert sram[..] == copied;
    ghost var dataStores := stores;

    // Zero the bss segment.
    dest := l.sbss;
    while dest < l.ebss
      invariant l.sbss <= dest && (dest <= l.ebss || dest == l.sbss)
      invariant stores == dataStores + Range(l.sbss, dest)
      invariant forall i :: 0 <= i < sram.Length ==>
                  sram[i] == if l.sbss <= i < dest then 0 else copied[i]
    {
      sram[dest] := 0;
      stores := stores + [dest];
      dest := dest + 1;
    }
    assert sram[..] == ZeroBss(copied, l);
  }

  /** The two loops store to each word of their regions exactly once, in
      increasing order: `edata - sdata` stores, or none when sdata >= edata,
      then `ebss - sbss` stores, or none; and no index outside the two
      regions is ever stored to. */
  lemma StoresStayInRegions(l: Layout, stores: seq<nat>)
    requires stores == Range(l.sdata, l.edata) + Range(l.sbss, l.ebss)
    ensures |stores| == (if l.sdata < l.edata then l.edata - l.sdata else 0)
                      + (if l.sbss < l.ebss then l.ebss - l.sbss else 0)
    ensures forall k :: 0 <= k < |stores| ==> InData(l, stores[k]) || InBss(l, stores[k])
  {
  }
}
