/** The Cortex-M3 exception vector table of the LM3S6965 image.

    The table is sixteen words placed at the start of flash (section B1.5.3 of
    the ARMv7-M Architecture Reference Manual): word 0 is the initial value of
    the main stack pointer and word n (1 <= n < 16) is the entry point of the
    handler for exception number n.

    The source declares one symbol per exception. Four of them are defined in
    the startup file (the reset, hard-fault and bus-fault handlers and the
    shared fallback); the other seven are weak aliases of the fallback, and no
    other file of the image defines them, so the linker binds each of them to
    the fallback. This module models the table as written (a sequence of
    symbols) and the linker's resolution of it (a sequence of vectors). */
module VectorTable {

  /** Number of words in the table (CORTEX_M3_EXCEPTIONS). */
  const ExceptionCount: nat := 16

  /** The handler symbols the table names, as declared in the startup file. */
  datatype Symbol =
    | ResetSym
    | NmiSym
    | HardFaultSym
    | MemoryMgmtSym
    | BusFaultSym
    | UsageFaultSym
    | SvCallSym
    | DebugMonitorSym
    | PendSvSym
    | SysTickSym
    | UnusedSym

  /** The code a vector can reach once symbols are bound: the four handlers
      that have a body in the image (`_Reset_Handler`, the assembly shim
      `_Hard_Fault_Handler`, `_Bus_Fault_Handler` and `_Unused_Handler`). */
  datatype Handler = ResetEntry | HardFaultShim | BusFaultEntry | UnusedFallback

  /** How a symbol is declared: with a body of its own, or as a weak alias of
      another symbol. */
  datatype Binding = Strong(body: Handler) | WeakAliasOf(target: Symbol)

  /** A slot of the table as written: the stack-top word or a handler symbol. */
  datatype Slot = StackTopSlot | SymbolSlot(sym: Symbol)

  /** A word of the table once linked: the initial main stack pointer, or the
      entry point of a handler. No other kind of word (in particular no null
      entry) can appear. */
  datatype Vector = InitialSp(top: bv32) | Entry(handler: Handler)

  /** The declaration of each symbol in the startup file: exactly the four
      handlers with a body are strong definitions, and every weak alias names
      `_Unused_Handler`. */
  function Declaration(s: Symbol): (b: Binding)
    ensures b.Strong? <==> s in {ResetSym, HardFaultSym, BusFaultSym, UnusedSym}
    ensures b.WeakAliasOf? ==> b.target == UnusedSym
  {
    match s
    case ResetSym => Strong(ResetEntry)
    case HardFaultSym => Strong(HardFaultShim)
    case BusFaultSym => Strong(BusFaultEntry)
    case UnusedSym => Strong(UnusedFallback)
    case NmiSym => WeakAliasOf(UnusedSym)
    case MemoryMgmtSym => WeakAliasOf(UnusedSym)
    case UsageFaultSym => WeakAliasOf(UnusedSym)
    case SvCallSym => WeakAliasOf(UnusedSym)
    case DebugMonitorSym => WeakAliasOf(UnusedSym)
    case PendSvSym => WeakAliasOf(UnusedSym)
    case SysTickSym => WeakAliasOf(UnusedSym)
  }

  /** The linker's binding of a symbol: a strong definition is taken as is; a
      weak alias, which no other file overrides, binds to what its target is
      defined as (every alias target is itself strongly defined). */
  function Resolve(s: Symbol): (h: Handler)
    ensures Declaration(s).Strong? ==> h == Declaration(s).body
    ensures h == UnusedFallback <==> s !in {ResetSym, HardFaultSym, BusFaultSym}
    ensures s == ResetSym <==> h == ResetEntry
    ensures s == HardFaultSym <==> h == HardFaultShim
    ensures s == BusFaultSym <==> h == BusFaultEntry
  {
    match Declaration(s)
    case Strong(body) => body
    case WeakAliasOf(target) =>
      match Declaration(target)
      case Strong(body) => body
      case WeakAliasOf(_) => UnusedFallback
  }

  /** The initializer of `_exceptions`, slot by slot as the source lists
      it: one word per exception number, the stack-top word first and a
      handler symbol in every other slot. */
  function DeclaredTable(): (t: seq<Slot>)
    ensures |t| == ExceptionCount
    ensures t[0] == StackTopSlot
    ensures forall i :: 1 <= i < |t| ==> t[i].SymbolSlot?
  {
    [
      StackTopSlot,                  // 00: initial main stack pointer
      SymbolSlot(ResetSym),          // 01: reset
      SymbolSlot(NmiSym),            // 02: NMI
      SymbolSlot(HardFaultSym),      // 03: hard fault
      SymbolSlot(MemoryMgmtSym),     // 04: memory management fault
      SymbolSlot(BusFaultSym),       // 05: bus fault
      SymbolSlot(UsageFaultSym),     // 06: usage fault
      SymbolSlot(UnusedSym),         // 07: reserved
      SymbolSlot(UnusedSym),         // 08: reserved
      SymbolSlot(UnusedSym),         // 09: reserved
      SymbolSlot(UnusedSym),         // 10: reserved
      SymbolSlot(SvCallSym),         // 11: supervisor call
      SymbolSlot(DebugMonitorSym),   // 12: debug monitor
      SymbolSlot(UnusedSym),         // 13: reserved
      SymbolSlot(PendSvSym),         // 14: PendSV
      SymbolSlot(SysTickSym)         // 15: SysTick
    ]
  }

  /** The word the linker emits for one slot, given the address of the
      stack-top symbol. */
  function LinkSlot(stackTop: bv32, slot: Slot): Vector
  {
    match slot
    case StackTopSlot => InitialSp(stackTop)
    case SymbolSlot(s) => Entry(Resolve(s))
  }

  /** Links every slot of a table, in order. */
  function LinkAll(stackTop: bv32, slots: seq<Slot>): (vs: seq<Vector>)
    ensures |vs| == |slots|
    ensures forall i :: 0 <= i < |slots| ==> vs[i] == LinkSlot(stackTop, slots[i])
  {
    if slots == [] then []
    else [LinkSlot(stackTop, slots[0])] + LinkAll(stackTop, slots[1..])
  }

  /** The linked vector table (`_exceptions`), for a given `_sram_stacktop`.
      It has one word per exception number; word 0 is the stack top and
      every later word is the entry point of a handler, never null. */
  function ExceptionTable(stackTop: bv32): (t: seq<Vector>)
    ensures |t| == ExceptionCount
    ensures t[0] == InitialSp(stackTop)
    ensures forall i :: 1 <= i < |t| ==> t[i].Entry?
  {
    LinkAll(stackTop, DeclaredTable())
  }

  /** The layout of the linked table: sixteen words, word 0 the stack top,
      words 1, 3 and 5 the reset, hard-fault and bus-fault handlers, and every
      other word the shared fallback; so every word from 1 on is a handler
      entry and none is left unassigned. */
  lemma ExceptionTableLayout(stackTop: bv32)
    ensures |ExceptionTable(stackTop)| == ExceptionCount
    ensures ExceptionTable(stackTop)[0] == InitialSp(stackTop)
    ensures ExceptionTable(stackTop)[1] == Entry(ResetEntry)
    ensures ExceptionTable(stackTop)[3] == Entry(HardFaultShim)
    ensures ExceptionTable(stackTop)[5] == Entry(BusFaultEntry)
    ensures forall i :: 1 <= i < ExceptionCount && i != 1 && i != 3 && i != 5 ==>
              ExceptionTable(stackTop)[i] == Entry(UnusedFallback)
    ensures forall i :: 1 <= i < ExceptionCount ==> ExceptionTable(stackTop)[i].Entry?
  {
  }

  /** Each handler that has a body of its own is reached from exactly one
      word of the table, and the fallback from all the others. */
  lemma DedicatedHandlersAreUnique(stackTop: bv32, i: nat)
    requires i < ExceptionCount
    ensures ExceptionTable(stackTop)[i] == Entry(ResetEntry) <==> i == 1
    ensures ExceptionTable(stackTop)[i] == Entry(HardFaultShim) <==> i == 3
    ensures ExceptionTable(stackTop)[i] == Entry(BusFaultEntry) <==> i == 5
  {
  }
}
