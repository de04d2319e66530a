/** The hard-fault path of the LM3S6965 image: the assembly trampoline
    `_Hard_Fault_Handler`, which picks the stack the hardware pushed the
    exception frame on, and the classifier `__Hard_Fault_Handler`, which
    either requests a system reset or rewrites the frame so that the
    exception return resumes in `blorp`.

    Register layouts follow the ARMv7-M Architecture Reference Manual:
    EXC_RETURN (section B1.5.8), the xPSR (section B1.4.2), the stacked frame
    (section B1.5.6), CFSR (section B3.2.15) and AIRCR (section B3.2.6). */
module HardFault {

  // ---------------------------------------------------------------------
  // Register fields and constants
  // ---------------------------------------------------------------------

  /** `usage_fault_mask`: the UsageFault status halfword of CFSR. */
  const UsageFaultMask: bv32 := 0xFFFF_0000

  /** The value stored to AIRCR to reboot: VECTKEY 0x05FA in the top
      halfword and the SYSRESETREQ bit (bit 2). */
  const ResetRequest: bv32 := (0x05FA << 16) | (1 << 2)

  /** The link register value planted in the rewritten frame: a branch to it
      faults. */
  const LrSentinel: bv32 := 0xDEAD_BEEF

  /** The xPSR planted in the rewritten frame: only the Thumb bit (bit 24). */
  const ThumbOnlyXpsr: bv32 := 1 << 24

  /** MemManage fault status byte, CFSR bits 7:0. */
  function MemManageStatus(cfsr: bv32): bv32 { cfsr & 0xFF }

  /** BusFault status byte, CFSR bits 15:8. */
  function BusFaultStatus(cfsr: bv32): bv32 { (cfsr >> 8) & 0xFF }

  /** The exception-number field of a saved xPSR as the classifier reads it:
      its low 8 bits. Zero means the fault was taken in Thread mode. */
  function ActiveException(xpsr: bv32): bv32 { xpsr & 0xFF }

  /** The SPSEL bit of an EXC_RETURN value (bit 2): set when the exception
      returns to the process stack, so the frame was pushed on PSP. */
  predicate ReturnsToProcessStack(excReturn: bv32)
  {
    (excReturn >> 2) & 1 == 1
  }

  /** The fields of an AIRCR store: the value the classifier stores carries
      the register key and requests a system reset and nothing else (no
      VECTRESET, no VECTCLRACTIVE, no priority grouping). */
  lemma ResetRequestEncoding()
    ensures ResetRequest == 0x05FA_0004
    ensures ResetRequest >> 16 == 0x05FA
    ensures (ResetRequest >> 2) & 1 == 1
    ensures ResetRequest & 0xFFFB == 0
  {
  }

  // ---------------------------------------------------------------------
  // The trampoline
  // ---------------------------------------------------------------------

  /** The core registers the trampoline touches or passes on. */
  datatype CoreRegs = CoreRegs(r0: bv32, r1: bv32, lr: bv32, msp: bv32, psp: bv32)

  /** `HARDFAULT_HANDLING_ASM`, the body of `_Hard_Fault_Handler`, up to its
      branch to the classifier: `tst lr, #4` sets Z when bit 2 of lr is clear, `mrseq`
      then copies MSP to r0 and `mrsne` copies PSP. The first argument of the
      classifier (r0) is the stack the frame was pushed on; the second (r1)
      is whatever r1 held, since the shim never sets it; no other register
      changes. */
  function Trampoline(c: CoreRegs): (e: CoreRegs)
    ensures e.r0 == if ReturnsToProcessStack(c.lr) then c.psp else c.msp
    ensures e.r1 == c.r1
    ensures e.lr == c.lr && e.msp == c.msp && e.psp == c.psp
  {
    var z := c.lr & 4 == 0;
    if z then c.(r0 := c.msp) else c.(r0 := c.psp)
  }

  // ---------------------------------------------------------------------
  // The decision
  // ---------------------------------------------------------------------

  /** What the classifier does. Reboot stands for the store to AIRCR
      followed by the loop that the reset never lets finish. */
  datatype Decision = Reboot | Recover

  /** The decision of `__Hard_Fault_Handler` (its `if` on
      `faulted_from_exception || non_usage_fault_occurred`): reboot when CFSR
      has a bit outside the UsageFault halfword or when the fault was taken
      inside an exception. Recovery is chosen exactly when neither the
      MemManage nor the BusFault status byte has a bit set and the fault was
      taken in Thread mode. */
  function Classify(cfsr: bv32, xpsr: bv32): (d: Decision)
    ensures d == Recover <==>
              MemManageStatus(cfsr) == 0 && BusFaultStatus(cfsr) == 0 && ActiveException(xpsr) == 0
  {
    var nonUsageFaultOccurred := cfsr & !UsageFaultMask != 0;
    var faultedFromException := xpsr & 0xFF != 0;
    if faultedFromException || nonUsageFaultOccurred then Reboot else Recover
  }

  /** A nested fault reboots even when only UsageFault bits are set: nesting
      dominates the fault category. */
  lemma NestedFaultReboots(cfsr: bv32, xpsr: bv32)
    requires ActiveException(xpsr) != 0
    ensures Classify(cfsr, xpsr) == Reboot
  {
  }

  /** Any MemManage or BusFault status bit reboots, whatever the mode. */
  lemma NonUsageFaultReboots(cfsr: bv32, xpsr: bv32)
    requires cfsr & 0x0000_FFFF != 0
    ensures Classify(cfsr, xpsr) == Reboot
  {
  }

  /** A Thread-mode fault with only UsageFault bits set (including none at
      all) is recovered, whatever those bits are. */
  lemma ThreadUsageFaultRecovers(cfsr: bv32, xpsr: bv32)
    requires cfsr & UsageFaultMask == cfsr
    requires ActiveException(xpsr) == 0
    ensures Classify(cfsr, xpsr) == Recover
  {
  }

  // ---------------------------------------------------------------------
  // The fault status register
  // ---------------------------------------------------------------------

  /** CFSR after a store of `written` over `current`: its bits are
      write-one-to-clear, so the stored ones are cleared and the others
      kept. */
  function WriteOneToClear(current: bv32, written: bv32): (r: bv32)
    ensures r & written == 0
    ensures r | written == current | written
  {
    current & !written
  }

  /** The clear idiom `*cfsr |= *cfsr` stores exactly the value read, and
      that store leaves CFSR at zero; on a register that is already clear
      it stores 0 and leaves it clear. */
  lemma ClearIdiom(cfsr: bv32)
    ensures cfsr | cfsr == cfsr
    ensures WriteOneToClear(cfsr, cfsr | cfsr) == 0
    ensures cfsr == 0 ==> cfsr | cfsr == 0
  {
  }

  // ---------------------------------------------------------------------
  // State: the stacked frame and the two system registers
  // ---------------------------------------------------------------------

  /** `ExceptionFrame`: the eight words the processor stacks on exception
      entry, in stack order. */
  class ExceptionFrame {
    var r0: bv32
    var r1: bv32
    var r2: bv32
    var r3: bv32
    var r12: bv32
    var lr: bv32
    var pc: bv32
    var xpsr: bv32

    constructor (r0: bv32, r1: bv32, r2: bv32, r3: bv32, r12: bv32, lr: bv32, pc: bv32, xpsr: bv32)
      ensures this.r0 == r0 && this.r1 == r1 && this.r2 == r2 && this.r3 == r3
      ensures this.r12 == r12 && this.lr == lr && this.pc == pc && this.xpsr == xpsr
    {
      this.r0, this.r1, this.r2, this.r3 := r0, r1, r2, r3;
      this.r12, this.lr, this.pc, this.xpsr := r12, lr, pc, xpsr;
    }
  }

  /** CFSR (memory-mapped at 0xE000ED28) and AIRCR (at 0xE000ED0C). `cfsr`
      is what a load of CFSR returns; every store to
      either register is recorded, in order, in `cfsrStores` and
      `aircrStores`. */
  class SystemRegs {
    var cfsr: bv32
    ghost var cfsrStores: seq<bv32>
    ghost var aircrStores: seq<bv32>

    constructor (cfsr: bv32)
      ensures this.cfsr == cfsr && cfsrStores == [] && aircrStores == []
    {
      this.cfsr := cfsr;
      cfsrStores, aircrStores := [], [];
    }

    /** A store to CFSR: write-one-to-clear. */
    method StoreCfsr(v: bv32)
      modifies this
      ensures cfsr == WriteOneToClear(old(cfsr), v)
      ensures cfsrStores == old(cfsrStores) + [v]
      ensures aircrStores == old(aircrStores)
    {
      cfsr := cfsr & !v;
      cfsrStores := cfsrStores + [v];
    }

    /** A store to AIRCR. The reset it may request is not modelled. */
    method StoreAircr(v: bv32)
      modifies this
      ensures aircrStores == old(aircrStores) + [v]
      ensures cfsr == old(cfsr) && cfsrStores == old(cfsrStores)
    {
      aircrStores := aircrStores + [v];
    }
  }

  // ---------------------------------------------------------------------
  // The classifier and the whole fault entry
  // ---------------------------------------------------------------------

  /** `__Hard_Fault_Handler`, from the CFSR load to the xPSR rewrite. `resume` is the address of
      `blorp`; `reason` is passed in r1 and only printed. On Reboot the
      reset key is stored to AIRCR and nothing else changes; on Recover the
      value read from CFSR is stored back (clearing it), AIRCR is not
      touched, and the frame is redirected to `resume` with the sentinel lr
      and a Thumb-only xPSR, its argument registers kept. */
  method HardFaultHandler(frame: ExceptionFrame, reason: bv32, sys: SystemRegs, resume: bv32)
    returns (d: Decision)
    modifies frame, sys
    ensures d == Classify(old(sys.cfsr), old(frame.xpsr))
    ensures d == Reboot ==>
              && sys.aircrStores == old(sys.aircrStores) + [ResetRequest]
              && sys.cfsrStores == old(sys.cfsrStores)
              && sys.cfsr == old(sys.cfsr)
              && unchanged(frame)
    ensures d == Recover ==>
              && sys.cfsrStores == old(sys.cfsrStores) + [old(sys.cfsr)]
              && sys.cfsr == 0
              && sys.aircrStores == old(sys.aircrStores)
    ensures d == Recover ==>
              && frame.pc == resume
              && frame.lr == LrSentinel
              && frame.xpsr == ThumbOnlyXpsr
              && ActiveException(frame.xpsr) == 0
              && frame.r0 == old(frame.r0) && frame.r1 == old(frame.r1)
              && frame.r2 == old(frame.r2) && frame.r3 == old(frame.r3)
              && frame.r12 == old(frame.r12)
  {
    var status := sys.cfsr;
    var nonUsageFaultOccurred := status & !UsageFaultMask != 0;
    var faultedFromException := frame.xpsr & 0xFF != 0;

    if faultedFromException || nonUsageFaultOccurred {
      sys.StoreAircr(ResetRequest);
      return Reboot;
    }

    // Clear the CFSR: read it twice, store the bitwise or.
    var first := sys.cfsr;
    var second := sys.cfsr;
    ClearIdiom(first);
    sys.StoreCfsr(first | second);

    frame.pc := resume;
    frame.lr := LrSentinel;
    frame.xpsr := ThumbOnlyXpsr;
    d := Recover;
  }

  /** The hard-fault vector end to end. The processor has pushed the frame
      on the main stack or on the process stack; `mainFrame` and
      `processFrame` are the frames at the tops of the two stacks (the same
      frame when the two stack pointers are equal). The trampoline passes the
      stack pointer that bit 2 of EXC_RETURN in lr selects, and the
      classifier then decides on the frame at that address, with the r1 the
      fault left behind. */
  method HardFaultEntry(core: CoreRegs, mainFrame: ExceptionFrame, processFrame: ExceptionFrame,
                        sys: SystemRegs, resume: bv32)
    returns (d: Decision, ghost frame: ExceptionFrame)
    requires core.msp == core.psp ==> mainFrame == processFrame
    modifies mainFrame, processFrame, sys
    ensures frame == if ReturnsToProcessStack(core.lr) then processFrame else mainFrame
    ensures frame != mainFrame ==> unchanged(mainFrame)
    ensures frame != processFrame ==> unchanged(processFrame)
    ensures d == Classify(old(sys.cfsr), old(frame.xpsr))
    ensures d == Reboot ==>
              && sys.aircrStores == old(sys.aircrStores) + [ResetRequest]
              && sys.cfsrStores == old(sys.cfsrStores)
              && sys.cfsr == old(sys.cfsr)
              && unchanged(frame)
    ensures d == Recover ==>
              && sys.cfsrStores == old(sys.cfsrStores) + [old(sys.cfsr)]
              && sys.cfsr == 0
              && sys.aircrStores == old(sys.aircrStores)
              && frame.pc == resume && frame.lr == LrSentinel && frame.xpsr == ThumbOnlyXpsr
              && ActiveException(frame.xpsr) == 0
              && frame.r0 == old(frame.r0) && frame.r1 == old(frame.r1)
              && frame.r2 == old(frame.r2) && frame.r3 == old(frame.r3)
              && frame.r12 == old(frame.r12)
  {
    var shim := Trampoline(core);
    var selected := if shim.r0 == core.msp then mainFrame else processFrame;
    frame := selected;
    d := HardFaultHandler(selected, shim.r1, sys, resume);
  }
}
