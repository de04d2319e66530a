# LM3S6965 boot-and-fault layer, modelled in Dafny

This project models the startup file of a bare-metal Cortex-M3 (TI
LM3S6965) image, `startup_lm3s6965.c`, and proves properties of that model.
The file has three parts:

- **The exception vector table** `_exceptions` (module `VectorTable`,
  `vector_table.dfy`). This is sixteen words as laid out in section B1.5.3 of
  the ARMv7-M Architecture Reference Manual. The table is modelled twice: as
  the symbols the source writes, and as the words the linker emits once each
  weak alias is bound to `_Unused_Handler`. Nothing else in the image defines
  those seven aliases.
- **The reset sequence** `_Reset_Handler` (module `Reset`, `reset.dfy`).
  Flash and SRAM are arrays of 32-bit words. The linker symbols are word
  indices, collected in a `Layout`. The method keeps both pointer-walking
  loops of the source and is proved against the pure functions `CopyData`
  and `ZeroBss`. A ghost out-parameter records which SRAM words it stores to,
  in order. The model ends where `main` is called.
- **The hard-fault path** (module `HardFault`, `hard_fault.dfy`):
  - `Trampoline` models the assembly shim. It chooses MSP or PSP from bit 2
    of EXC_RETURN (section B1.5.8).
  - `Classify` models the pure decision of `__Hard_Fault_Handler`. It reads
    CFSR (section B3.2.15) and the IPSR field of the stacked xPSR (section
    B1.4.2).
  - `HardFaultHandler` carries out the decision on the state:
    - the stacked frame is a class `ExceptionFrame` with eight `bv32` fields
      (section B1.5.6);
    - CFSR and AIRCR (section B3.2.6) are a class `SystemRegs`;
    - CFSR stores are write-one-to-clear;
    - every store to either register is logged, so "not written" can be
      stated.
  - The reboot path never returns, so it becomes the value `Reboot` of the
    datatype `Decision`.

In three places the code is narrower than a reader might expect, and the model
follows the code:

- A data region and a bss region that overlap are not ruled out. The data
  word survives to `main` only under `Disjoint` (`BootImageCorrect`). In an
  overlap, the bss zeroing wins (`OverlapIsZeroed`).
- The copy is one 32-bit word at a time, not byte by byte.
- The nesting test reads the low 8 bits of the stacked xPSR. The IPSR
  exception number of ARMv7-M is 9 bits wide. The LM3S6965 has fewer than
  256 exceptions, so the two tests agree on this part.

## Model

| member | source | states |
|---|---|---|
| VectorTable.Declaration | startup_lm3s6965.c:44-53 | Exactly the reset, hard-fault, bus-fault and unused handlers are strong definitions. Every weak alias names `_Unused_Handler`. |
| VectorTable.DeclaredTable | startup_lm3s6965.c:56-73 | The initializer has one slot per exception number (16). Slot 0 is the stack-top word, and every later slot names a handler symbol. |
| VectorTable.Resolve | startup_lm3s6965.c:44-53 | Each symbol binds to its strong definition. A weak alias binds to the fallback. A symbol reaches the fallback exactly when it is not the reset, hard-fault or bus-fault symbol. Each dedicated handler is reached from its own symbol only. |
| VectorTable.LinkAll | startup_lm3s6965.c:56-73 | Linking a table keeps its length and links each slot in place. |
| VectorTable.ExceptionTable | startup_lm3s6965.c:56-73 | The linked `_exceptions` has 16 words. Word 0 is `_sram_stacktop`, and every later word is a handler entry point, never null. |
| VectorTable.ExceptionTableLayout | startup_lm3s6965.c:56-73 | The table has 16 words. Word 0 is the stack top. Words 1, 3 and 5 are the reset, hard-fault and bus-fault handlers. Every other word is `_Unused_Handler`. Every word from 1 on is a handler entry, so none is null or unassigned. |
| VectorTable.DedicatedHandlersAreUnique | startup_lm3s6965.c:56-73 | The reset, hard-fault and bus-fault handlers are each reached from exactly one index: 1, 3 and 5 respectively. |
| Reset.Range | startup_lm3s6965.c:141-153 | A walk from lo while the pointer is below hi visits lo, lo+1, ..., hi-1 in order. That is hi-lo indices, or none when lo >= hi. |
| Reset.CopyData | startup_lm3s6965.c:138-145 | After the data loop, the word at sdata+i equals flash word flashSdata+i for every i < edata-sdata. Every SRAM word outside [sdata, edata) is unchanged. |
| Reset.ZeroBss | startup_lm3s6965.c:147-153 | After the bss loop, every word in [sbss, ebss) is 0. Every other word is unchanged. |
| Reset.BootImage | startup_lm3s6965.c:136-156 | SRAM when `main` is called: a bss word is 0; a data word outside bss holds its flash image word; every other word is as it was at reset. |
| Reset.BootImageCorrect | startup_lm3s6965.c:136-156 | If the data and bss regions are disjoint, then when `main` is called: the data region equals the flash image, the bss region is zero, and every other SRAM word is as it was at reset. |
| Reset.OverlapIsZeroed | startup_lm3s6965.c:141-153 | If the two regions overlap, a word in both is zero when `main` is called, because the bss loop runs second. |
| Reset.ResetHandler | startup_lm3s6965.c:136-156 | The two loops leave SRAM equal to the data copy followed by the bss zeroing of the initial SRAM. Flash is not written. The stores go to Range(sdata, edata) and then Range(sbss, ebss), in that order. |
| Reset.StoresStayInRegions | startup_lm3s6965.c:141-153 | The data loop runs exactly edata-sdata times, or zero times when sdata >= edata. The bss loop runs likewise. No store leaves the two regions. |
| HardFault.ResetRequestEncoding | startup_lm3s6965.c:94-95 | The value stored to AIRCR is 0x05FA0004. VECTKEY 0x05FA is in bits 31:16, SYSRESETREQ (bit 2) is set, and no other bit of the low halfword is set. |
| HardFault.Trampoline | startup_lm3s6965.c:112-118 | r0 becomes PSP when bit 2 of lr (EXC_RETURN) is set, and MSP otherwise. r1 (`reason`) and every other register are passed through unset. |
| HardFault.Classify | startup_lm3s6965.c:84-91 | Recover is chosen exactly when the MemManage and BusFault status bytes of CFSR are zero and the xPSR exception number is 0. Reboot is chosen otherwise. |
| HardFault.NestedFaultReboots | startup_lm3s6965.c:87-91 | A fault taken while an exception was active reboots, even when CFSR has only UsageFault bits. |
| HardFault.NonUsageFaultReboots | startup_lm3s6965.c:85-91 | Any CFSR bit in the low halfword reboots, whatever the mode. |
| HardFault.ThreadUsageFaultRecovers | startup_lm3s6965.c:85-91 | A Thread-mode fault whose CFSR has only UsageFault bits is recovered. |
| HardFault.WriteOneToClear | startup_lm3s6965.c:100-101 | A store to CFSR clears exactly the bits stored as one and keeps every other bit. |
| HardFault.ClearIdiom | startup_lm3s6965.c:100-101 | `*cfsr \|= *cfsr` stores exactly the value read. That store leaves CFSR at 0. On a register that is already clear, it stores 0 and leaves the register clear. |
| HardFault.ExceptionFrame.constructor | startup_lm3s6965.c:18-27 | A frame holds the eight stacked words r0-r3, r12, lr, pc and xpsr. |
| HardFault.SystemRegs.StoreCfsr | startup_lm3s6965.c:101 | A CFSR store clears the stored bits and is logged. AIRCR is untouched. |
| HardFault.SystemRegs.StoreAircr | startup_lm3s6965.c:94-95 | An AIRCR store is logged. CFSR is untouched. |
| HardFault.HardFaultHandler | startup_lm3s6965.c:80-110 | The decision equals `Classify` of the CFSR and xPSR read on entry. On Reboot: exactly one AIRCR store, of 0x05FA0004; no CFSR store; the frame is unchanged. On Recover: exactly one CFSR store, of the value read; CFSR ends at 0; no AIRCR store; the frame's pc is `blorp`, lr is 0xDEADBEEF, xpsr is 0x01000000 (exception number 0); r0-r3 and r12 are unchanged. |
| HardFault.HardFaultEntry | startup_lm3s6965.c:112-122 | The classifier runs on the frame of the stack that EXC_RETURN bit 2 selects: PSP when set, MSP when clear. The frame on the other stack is untouched. The decision is `Classify` of the CFSR and the selected frame's xPSR. On Reboot: one AIRCR store of 0x05FA0004; no CFSR store; CFSR keeps its value; the selected frame is unchanged. On Recover: one CFSR store of the value read; CFSR ends at 0; no AIRCR store; the selected frame resumes at `blorp` in Thread mode (exception number 0), with lr 0xDEADBEEF and r0-r3 and r12 unchanged. |

## Left out

- Diagnostic output is not modelled: `printf`, `uart0_print` and `_putchar` are byte stores to the UART and carry no state that the model needs.
- The infinite halt loops are not modelled. These are `_Unused_Handler`, `blorp`, `_Bus_Fault_Handler`, the loop after the AIRCR store, and the loop after `main` returns. The reboot loop is the value `Reboot`; the others are outside the model, whose exits are `Reboot`, `Recover` and "main is called". The bodies of the three handlers only print and halt, so only their identity as vector targets or as the resume address appears.
- `main.c` is not modelled. It deliberately calls the raw address 0x8004000 to cause a fault, and it records a stack address.
- Processor mechanics are not modelled: exception entry and stacking, exception return, and the reset that an AIRCR store triggers. The model stops at "the frame now holds X" and "AIRCR was stored Y". The hardware's own setting of CFSR bits is not modelled either.
- HardFault.HardFaultHandler: the three volatile reads of CFSR are taken to return the same value. A bit the hardware sets between the reads is not modelled.
- HardFault.Trampoline: assumes `_Hard_Fault_Handler` runs with no compiler prologue. The function is not declared `naked`, so a prologue that pushes would move MSP before `mrseq r0, msp`, and on the MSP path the classifier would read a shifted frame.
- HardFault.ActiveException: follows the code's 8-bit mask. It does not model the ninth IPSR bit of ARMv7-M, which no exception of this part uses.
- The numeric addresses of the linker symbols and of `blorp` are parameters: `Layout` indices, `stackTop` and `resume`. So are linker sections and the Thumb bit of a function address. The `reason` argument is only printed, so it is passed and otherwise unused.
