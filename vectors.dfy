/**
 * The SAM4S interrupt vector table and the handlers it points to
 * (cpu/sam4s/startup.c).
 *
 * The table is a constant array read by the hardware: slot 0 is the initial
 * stack pointer, slot 1 the reset entry, slots 2..15 the Cortex-M system
 * exceptions (ARMv7-M Architecture Reference Manual, sections B1.5.2 and
 * B1.5.3) and slots 16..50 the 35 SAM4S peripheral interrupts IRQ 0..34.
 * Six peripheral slots depend on which optional instances the chip variant
 * has; an absent instance leaves the reserved marker 0 in its slot.
 *
 * Handlers that startup.c defines itself are either panic handlers or spin
 * handlers. Every other handler is a weak alias of `dummy_handler`: another
 * part of the image may override it, and otherwise it panics with the
 * DUMMY_HANDLER cause.
 */
module Vectors {
  import opened Wrappers
  import Panic

  /** The named interrupt service routines that can occupy a table slot. */
  datatype Isr =
    // Cortex-M system exceptions
    | Nmi | HardFault | MemManage | BusFault | UsageFault
    | Svc | DebugMon | PendSv | SysTick
    // SAM4S peripherals
    | Supc | Rstc | Rtc | Rtt | Wdt | Pmc | Efc0 | Efc1
    | Uart0 | Uart1 | Smc | Pioa | Piob | Pioc | Usart0 | Usart1
    | Hsmci | Twi0 | Twi1 | Spi0 | Ssc
    | Tc0 | Tc1 | Tc2 | Tc3 | Tc4 | Tc5
    | Adc | Dacc | Pwm | Crccu | Acc | Udp

  /** One word of the table: the stack top, the reset entry, a handler, or the reserved marker 0. */
  datatype Entry = StackTop | Reset | Handler(isr: Isr) | Reserved

  /**
   * The chip-variant flags that select the optional peripheral slots:
   * _SAM4S_EFC1_INSTANCE_, _SAM4S_PIOC_INSTANCE_, _SAM4S_USART1_INSTANCE_,
   * _SAM4S_HSMCI_INSTANCE_, _SAM4S_TC1_INSTANCE_ and _SAM4S_DACC_INSTANCE_.
   */
  datatype Variant = Variant(efc1: bool, pioc: bool, usart1: bool, hsmci: bool, tc1: bool, dacc: bool)

  /** Number of words in the table: 16 Cortex-M slots and 35 peripheral slots. */
  const TABLE_SIZE: nat := 51
  /** Number of Cortex-M slots; peripheral IRQ n sits in slot CORE_SLOTS + n. */
  const CORE_SLOTS: nat := 16

  /**
   * The slot each handler belongs to: the ARMv7-M exception number for the
   * system exceptions, 16 plus the peripheral identifier for the SAM4S
   * peripherals. This is the chip's interrupt map, independent of the table.
   */
  function ExceptionNumber(h: Isr): (n: nat)
    ensures 2 <= n < TABLE_SIZE
    ensures n < CORE_SLOTS <==> h in {Nmi, HardFault, MemManage, BusFault, UsageFault, Svc, DebugMon, PendSv, SysTick}
  {
    match h
    case Nmi => 2
    case HardFault => 3
    case MemManage => 4
    case BusFault => 5
    case UsageFault => 6
    case Svc => 11
    case DebugMon => 12
    case PendSv => 14
    case SysTick => 15
    case Supc => CORE_SLOTS + 0
    case Rstc => CORE_SLOTS + 1
    case Rtc => CORE_SLOTS + 2
    case Rtt => CORE_SLOTS + 3
    case Wdt => CORE_SLOTS + 4
    case Pmc => CORE_SLOTS + 5
    case Efc0 => CORE_SLOTS + 6
    case Efc1 => CORE_SLOTS + 7
    case Uart0 => CORE_SLOTS + 8
    case Uart1 => CORE_SLOTS + 9
    case Smc => CORE_SLOTS + 10
    case Pioa => CORE_SLOTS + 11
    case Piob => CORE_SLOTS + 12
    case Pioc => CORE_SLOTS + 13
    case Usart0 => CORE_SLOTS + 14
    case Usart1 => CORE_SLOTS + 15
    case Hsmci => CORE_SLOTS + 18
    case Twi0 => CORE_SLOTS + 19
    case Twi1 => CORE_SLOTS + 20
    case Spi0 => CORE_SLOTS + 21
    case Ssc => CORE_SLOTS + 22
    case Tc0 => CORE_SLOTS + 23
    case Tc1 => CORE_SLOTS + 24
    case Tc2 => CORE_SLOTS + 25
    case Tc3 => CORE_SLOTS + 26
    case Tc4 => CORE_SLOTS + 27
    case Tc5 => CORE_SLOTS + 28
    case Adc => CORE_SLOTS + 29
    case Dacc => CORE_SLOTS + 30
    case Pwm => CORE_SLOTS + 31
    case Crccu => CORE_SLOTS + 32
    case Acc => CORE_SLOTS + 33
    case Udp => CORE_SLOTS + 34
  }

  /** Whether the variant has the peripheral instance behind a handler. */
  predicate Present(v: Variant, h: Isr)
  {
    match h
    case Efc1 => v.efc1
    case Pioc => v.pioc
    case Usart1 => v.usart1
    case Hsmci => v.hsmci
    case Tc3 | Tc4 | Tc5 => v.tc1
    case Dacc => v.dacc
    case _ => true
  }

  /** The table `interrupt_vector[]` as the preprocessor lays it out for a variant. */
  function InterruptVector(v: Variant): (t: seq<Entry>)
    ensures |t| == TABLE_SIZE
    ensures t[0] == StackTop && t[1] == Reset
  {
    CortexVectors() + PeripheralVectors(v)
  }

  /** Slots 0..15: the stack top, the reset entry and the Cortex-M system exceptions. */
  function CortexVectors(): (t: seq<Entry>)
    ensures |t| == CORE_SLOTS
  {
    [ StackTop, Reset, Handler(Nmi), Handler(HardFault),
      Handler(MemManage), Handler(BusFault), Handler(UsageFault), Reserved ] +
    [ Reserved, Reserved, Reserved, Handler(Svc),
      Handler(DebugMon), Reserved, Handler(PendSv), Handler(SysTick) ]
  }

  /** Slots 16..50: the SAM4S peripheral IRQs 0..34, eight to a line. */
  function PeripheralVectors(v: Variant): (t: seq<Entry>)
    ensures |t| == TABLE_SIZE - CORE_SLOTS
  {
    [ Handler(Supc), Handler(Rstc), Handler(Rtc), Handler(Rtt),
      Handler(Wdt), Handler(Pmc), Handler(Efc0), if v.efc1 then Handler(Efc1) else Reserved ] +
    [ Handler(Uart0), Handler(Uart1), Handler(Smc), Handler(Pioa),
      Handler(Piob), if v.pioc then Handler(Pioc) else Reserved,
      Handler(Usart0), if v.usart1 then Handler(Usart1) else Reserved ] +
    [ Reserved, Reserved, if v.hsmci then Handler(Hsmci) else Reserved, Handler(Twi0),
      Handler(Twi1), Handler(Spi0), Handler(Ssc), Handler(Tc0) ] +
    [ Handler(Tc1), Handler(Tc2), if v.tc1 then Handler(Tc3) else Reserved,
      if v.tc1 then Handler(Tc4) else Reserved, if v.tc1 then Handler(Tc5) else Reserved,
      Handler(Adc), if v.dacc then Handler(Dacc) else Reserved, Handler(Pwm) ] +
    [ Handler(Crccu), Handler(Acc), Handler(Udp) ]
  }

  /**
   * Every handler sits in the slot the interrupt map gives it when its
   * peripheral is present, and that slot holds the reserved marker otherwise.
   */
  lemma HandlersAtTheirSlots(v: Variant)
    ensures forall h :: InterruptVector(v)[ExceptionNumber(h)] == if Present(v, h) then Handler(h) else Reserved
  {
    CoreHandlersAtTheirSlots(v);
    HandlersAtIrq0To7(v);
    HandlersAtIrq8To15(v);
    HandlersAtIrq16To23(v);
    HandlersAtIrq24To31(v);
    HandlersAtIrq32To34(v);
  }

  /**
   * Every slot from 2 on holds a handler or the reserved marker, and a
   * handler only ever sits in its own slot of the interrupt map.
   */
  lemma SlotsHoldOwnHandlers(v: Variant)
    ensures forall i :: 2 <= i < TABLE_SIZE ==> InterruptVector(v)[i].Handler? || InterruptVector(v)[i].Reserved?
    ensures forall i :: 0 <= i < TABLE_SIZE && InterruptVector(v)[i].Handler? ==>
              ExceptionNumber(InterruptVector(v)[i].isr) == i && Present(v, InterruptVector(v)[i].isr)
  {
    CoreSlotsHoldOwnHandlers(v);
    SlotsOwnIrq0To7(v);
    SlotsOwnIrq8To15(v);
    SlotsOwnIrq16To23(v);
    SlotsOwnIrq24To31(v);
    SlotsOwnIrq32To34(v);
  }

  // The two lemmas above are proved a few slots at a time, to keep each proof small.

  lemma CoreHandlersAtTheirSlots(v: Variant)
    ensures forall h :: ExceptionNumber(h) < CORE_SLOTS ==> InterruptVector(v)[ExceptionNumber(h)] == Handler(h) && Present(v, h)
  {
    forall h | ExceptionNumber(h) < CORE_SLOTS
      ensures InterruptVector(v)[ExceptionNumber(h)] == Handler(h) && Present(v, h)
    {
      match h
      case Nmi =>
      case HardFault =>
      case MemManage =>
      case BusFault =>
      case UsageFault =>
      case Svc =>
      case DebugMon =>
      case PendSv =>
      case SysTick =>
      case _ =>
    }
  }

  lemma CoreSlotsHoldOwnHandlers(v: Variant)
    ensures forall i :: 2 <= i < CORE_SLOTS ==> InterruptVector(v)[i].Handler? || InterruptVector(v)[i].Reserved?
    ensures forall i :: 0 <= i < CORE_SLOTS && InterruptVector(v)[i].Handler? ==>
              ExceptionNumber(InterruptVector(v)[i].isr) == i && Present(v, InterruptVector(v)[i].isr)
  {
  }

  lemma HandlersAtIrq0To7(v: Variant)
    ensures forall h :: 16 <= ExceptionNumber(h) < 24 ==>
              InterruptVector(v)[ExceptionNumber(h)] == if Present(v, h) then Handler(h) else Reserved
  {
    forall h | 16 <= ExceptionNumber(h) < 24
      ensures InterruptVector(v)[ExceptionNumber(h)] == if Present(v, h) then Handler(h) else Reserved
    {
      match h
      case Supc =>
      case Rstc =>
      case Rtc =>
      case Rtt =>
      case Wdt =>
      case Pmc =>
      case Efc0 =>
      case Efc1 =>
      case _ =>
    }
  }

  lemma SlotsOwnIrq0To7(v: Variant)
    ensures forall i :: 16 <= i < 24 ==> InterruptVector(v)[i].Handler? || InterruptVector(v)[i].Reserved?
    ensures forall i :: 16 <= i < 24 && InterruptVector(v)[i].Handler? ==>
              ExceptionNumber(InterruptVector(v)[i].isr) == i && Present(v, InterruptVector(v)[i].isr)
  {
    forall i | 16 <= i < 24
      ensures InterruptVector(v)[i].Handler? || InterruptVector(v)[i].Reserved?
      ensures InterruptVector(v)[i].Handler? ==> ExceptionNumber(InterruptVector(v)[i].isr) == i && Present(v, InterruptVector(v)[i].isr)
    {
      if i == 16 { } else if i == 17 { } else if i == 18 { } else if i == 19 { }
      else if i == 20 { } else if i == 21 { } else if i == 22 { }
      else { }
    }
  }

  lemma HandlersAtIrq8To15(v: Variant)
    ensures forall h :: 24 <= ExceptionNumber(h) < 32 ==>
              InterruptVector(v)[ExceptionNumber(h)] == if Present(v, h) then Handler(h) else Reserved
  {
    forall h | 24 <= ExceptionNumber(h) < 32
      ensures InterruptVector(v)[ExceptionNumber(h)] == if Present(v, h) then Handler(h) else Reserved
    {
      match h
      case Uart0 =>
      case Uart1 =>
      case Smc =>
      case Pioa =>
      case Piob =>
      case Pioc =>
      case Usart0 =>
      case Usart1 =>
      case _ =>
    }
  }

  lemma SlotsOwnIrq8To15(v: Variant)
    ensures forall i :: 24 <= i < 32 ==> InterruptVector(v)[i].Handler? || InterruptVector(v)[i].Reserved?
    ensures forall i :: 24 <= i < 32 && InterruptVector(v)[i].Handler? ==>
              ExceptionNumber(InterruptVector(v)[i].isr) == i && Present(v, InterruptVector(v)[i].isr)
  {
    forall i | 24 <= i < 32
      ensures InterruptVector(v)[i].Handler? || InterruptVector(v)[i].Reserved?
      ensures InterruptVector(v)[i].Handler? ==> ExceptionNumber(InterruptVector(v)[i].isr) == i && Present(v, InterruptVector(v)[i].isr)
    {
      if i == 24 { } else if i == 25 { } else if i == 26 { } else if i == 27 { }
      else if i == 28 { } else if i == 29 { } else if i == 30 { }
      else { }
    }
  }

  lemma HandlersAtIrq16To23(v: Variant)
    ensures forall h :: 32 <= ExceptionNumber(h) < 40 ==>
              InterruptVector(v)[ExceptionNumber(h)] == if Present(v, h) then Handler(h) else Reserved
  {
    forall h | 32 <= ExceptionNumber(h) < 40
      ensures InterruptVector(v)[ExceptionNumber(h)] == if Present(v, h) then Handler(h) else Reserved
    {
      match h
      case Hsmci =>
      case Twi0 =>
      case Twi1 =>
      case Spi0 =>
      case Ssc =>
      case Tc0 =>
      case _ =>
    }
  }

  lemma SlotsOwnIrq16To23(v: Variant)
    ensures forall i :: 32 <= i < 40 ==> InterruptVector(v)[i].Handler? || InterruptVector(v)[i].Reserved?
    ensures forall i :: 32 <= i < 40 && InterruptVector(v)[i].Handler? ==>
              ExceptionNumber(InterruptVector(v)[i].isr) == i && Present(v, InterruptVector(v)[i].isr)
  {
    forall i | 32 <= i < 40
      ensures InterruptVector(v)[i].Handler? || InterruptVector(v)[i].Reserved?
      ensures InterruptVector(v)[i].Handler? ==> ExceptionNumber(InterruptVector(v)[i].isr) == i && Present(v, InterruptVector(v)[i].isr)
    {
      if i == 32 { } else if i == 33 { } else if i == 34 { } else if i == 35 { }
      else if i == 36 { } else if i == 37 { } else if i == 38 { }
      else { }
    }
  }

  lemma HandlersAtIrq24To31(v: Variant)
    ensures forall h :: 40 <= ExceptionNumber(h) < 48 ==>
              InterruptVector(v)[ExceptionNumber(h)] == if Present(v, h) then Handler(h) else Reserved
  {
    forall h | 40 <= ExceptionNumber(h) < 48
      ensures InterruptVector(v)[ExceptionNumber(h)] == if Present(v, h) then Handler(h) else Reserved
    {
      match h
      case Tc1 =>
      case Tc2 =>
      case Tc3 =>
      case Tc4 =>
      case Tc5 =>
      case Adc =>
      case Dacc =>
      case Pwm =>
      case _ =>
    }
  }

  lemma SlotsOwnIrq24To31(v: Variant)
    ensures forall i :: 40 <= i < 48 ==> InterruptVector(v)[i].Handler? || InterruptVector(v)[i].Reserved?
    ensures forall i :: 40 <= i < 48 && InterruptVector(v)[i].Handler? ==>
              ExceptionNumber(InterruptVector(v)[i].isr) == i && Present(v, InterruptVector(v)[i].isr)
  {
    forall i | 40 <= i < 48
      ensures InterruptVector(v)[i].Handler? || InterruptVector(v)[i].Reserved?
      ensures InterruptVector(v)[i].Handler? ==> ExceptionNumber(InterruptVector(v)[i].isr) == i && Present(v, InterruptVector(v)[i].isr)
    {
      if i == 40 { } else if i == 41 { } else if i == 42 { } else if i == 43 { }
      else if i == 44 { } else if i == 45 { } else if i == 46 { }
      else { }
    }
  }

  lemma HandlersAtIrq32To34(v: Variant)
    ensures forall h :: 48 <= ExceptionNumber(h) < 51 ==>
              InterruptVector(v)[ExceptionNumber(h)] == if Present(v, h) then Handler(h) else Reserved
  {
    forall h | 48 <= ExceptionNumber(h) < 51
      ensures InterruptVector(v)[ExceptionNumber(h)] == if Present(v, h) then Handler(h) else Reserved
    {
      match h
      case Crccu =>
      case Acc =>
      case Udp =>
      case _ =>
    }
  }

  lemma SlotsOwnIrq32To34(v: Variant)
    ensures forall i :: 48 <= i < 51 ==> InterruptVector(v)[i].Handler? || InterruptVector(v)[i].Reserved?
    ensures forall i :: 48 <= i < 51 && InterruptVector(v)[i].Handler? ==>
              ExceptionNumber(InterruptVector(v)[i].isr) == i && Present(v, InterruptVector(v)[i].isr)
  {
    forall i | 48 <= i < 51
      ensures InterruptVector(v)[i].Handler? || InterruptVector(v)[i].Reserved?
      ensures InterruptVector(v)[i].Handler? ==> ExceptionNumber(InterruptVector(v)[i].isr) == i && Present(v, InterruptVector(v)[i].isr)
    {
      if i == 48 { } else if i == 49 { }
      else { }
    }
  }

  /** No handler appears in two slots, whatever the variant. */
  lemma NoHandlerTwice(v: Variant)
    ensures forall i, j :: 0 <= i < j < TABLE_SIZE && InterruptVector(v)[i].Handler? && InterruptVector(v)[j].Handler? ==>
              InterruptVector(v)[i].isr != InterruptVector(v)[j].isr
  {
    SlotsHoldOwnHandlers(v);
  }

  /** The interrupt map gives no two handlers the same slot. */
  lemma InterruptMapInjective(h1: Isr, h2: Isr)
    requires ExceptionNumber(h1) == ExceptionNumber(h2)
    ensures h1 == h2
  {
    var full := Variant(true, true, true, true, true, true);
    HandlersAtTheirSlots(full);
    assert InterruptVector(full)[ExceptionNumber(h1)] == Handler(h1);
    assert InterruptVector(full)[ExceptionNumber(h2)] == Handler(h2);
  }

  /**
   * The slots reserved by the architecture (7..10 and 13) and peripheral
   * IRQs 16 and 17 are reserved for every variant.
   */
  lemma FixedReservedSlots(v: Variant)
    ensures forall i :: i in {7, 8, 9, 10, 13, CORE_SLOTS + 16, CORE_SLOTS + 17} ==> InterruptVector(v)[i] == Reserved
  {
  }

  /** What running a slot's handler does. */
  datatype Behaviour =
    | Halt(cause: Panic.Cause, message: string)  // calls core_panic, which never returns
    | Spin                                        // `while (1) nop` forever
    | Boot                                        // reset_handler
    | Delegated(isr: Isr)                         // a strong definition elsewhere in the image

  /** What `dummy_handler` does. */
  const DUMMY_HANDLER: Behaviour := Halt(Panic.DummyHandler, "DUMMY HANDLER")

  /**
   * The handlers startup.c defines with a body of its own; every other
   * handler is a weak alias of dummy_handler.
   */
  function StartupBody(h: Isr): (b: Option<Behaviour>)
    ensures b.Some? ==> b.value != DUMMY_HANDLER && !b.value.Delegated? && !b.value.Boot?
  {
    match h
    case Nmi => Some(Spin)
    case MemManage => Some(Spin)
    case DebugMon => Some(Spin)
    case HardFault => Some(Halt(Panic.HardFault, "HARD FAULT"))
    case BusFault => Some(Halt(Panic.BusFault, "BUS FAULT"))
    case UsageFault => Some(Halt(Panic.UsageFault, "USAGE FAULT"))
    case _ => None
  }

  /**
   * The behaviour a handler symbol resolves to once the image is linked:
   * the startup body if there is one, otherwise a strong definition from
   * `overrides` if one exists, otherwise the weak alias to dummy_handler.
   */
  function Resolve(overrides: set<Isr>, h: Isr): (b: Behaviour)
    ensures b.Delegated? <==> StartupBody(h).None? && h in overrides
    ensures b.Delegated? ==> b.isr == h
    ensures b == DUMMY_HANDLER <==> StartupBody(h).None? && h !in overrides
  {
    match StartupBody(h)
    case Some(body) => body
    case None => if h in overrides then Delegated(h) else DUMMY_HANDLER
  }

  /**
   * What the core does when exception number `n` is taken: the table's
   * entry for `n` resolved to a behaviour; None where the table gives no
   * handler (the stack-pointer word, a reserved slot, or beyond the table).
   * Only the reset slot boots; every other slot runs a handler.
   */
  function Dispatch(v: Variant, overrides: set<Isr>, n: nat): (b: Option<Behaviour>)
    ensures b.Some? ==> 1 <= n < TABLE_SIZE
    ensures b == Some(Boot) <==> n == 1
  {
    if n >= TABLE_SIZE then None
    else match InterruptVector(v)[n]
      case StackTop => None
      case Reserved => None
      case Reset => SlotsHoldOwnHandlers(v); Some(Boot)
      case Handler(h) => Some(Resolve(overrides, h))
  }

  /** Dispatch gives no handler exactly at the stack word, the reserved slots and beyond the table. */
  lemma DispatchUndefinedExactlyOnReserved(v: Variant, overrides: set<Isr>, n: nat)
    ensures Dispatch(v, overrides, n).None? <==> n == 0 || n >= TABLE_SIZE || InterruptVector(v)[n] == Reserved
    ensures n == 1 ==> Dispatch(v, overrides, n) == Some(Boot)
  {
    if 2 <= n < TABLE_SIZE {
      SlotsHoldOwnHandlers(v);
      assert InterruptVector(v)[n].Handler? || InterruptVector(v)[n].Reserved?;
    }
  }

  /**
   * The fault handlers panic with their own causes and the NMI, memory
   * management and debug monitor handlers spin, for every variant and
   * whatever the rest of the image defines.
   */
  lemma ArchitecturalHandlers(v: Variant, overrides: set<Isr>)
    ensures Dispatch(v, overrides, ExceptionNumber(HardFault)) == Some(Halt(Panic.HardFault, "HARD FAULT"))
    ensures Dispatch(v, overrides, ExceptionNumber(BusFault)) == Some(Halt(Panic.BusFault, "BUS FAULT"))
    ensures Dispatch(v, overrides, ExceptionNumber(UsageFault)) == Some(Halt(Panic.UsageFault, "USAGE FAULT"))
    ensures Dispatch(v, overrides, ExceptionNumber(Nmi)) == Some(Spin)
    ensures Dispatch(v, overrides, ExceptionNumber(MemManage)) == Some(Spin)
    ensures Dispatch(v, overrides, ExceptionNumber(DebugMon)) == Some(Spin)
  {
  }

  /** Spin happens exactly at the NMI, memory-management and debug-monitor slots. */
  lemma SpinOnlyAtSpinSlots(v: Variant, overrides: set<Isr>, n: nat)
    ensures Dispatch(v, overrides, n) == Some(Spin) <==> n in {2, 4, 12}
  {
    SlotsHoldOwnHandlers(v);
  }

  /**
   * A taken exception panics with DUMMY_HANDLER exactly when its slot holds
   * a weak alias that nothing else in the image overrides.
   */
  lemma UnhandledInterruptPanics(v: Variant, overrides: set<Isr>, n: nat)
    ensures Dispatch(v, overrides, n) == Some(DUMMY_HANDLER) <==>
              n < TABLE_SIZE && InterruptVector(v)[n].Handler? &&
              StartupBody(InterruptVector(v)[n].isr).None? && InterruptVector(v)[n].isr !in overrides
  {
  }

  /**
   * A panic cause other than DUMMY_HANDLER identifies the exception that
   * raised it: two slots that panic with the same such cause are one slot.
   */
  lemma FaultCausesIdentifySlot(v: Variant, overrides: set<Isr>, n1: nat, n2: nat)
    requires Dispatch(v, overrides, n1).Some? && Dispatch(v, overrides, n1).value.Halt?
    requires Dispatch(v, overrides, n2).Some? && Dispatch(v, overrides, n2).value.Halt?
    requires Dispatch(v, overrides, n1).value.cause == Dispatch(v, overrides, n2).value.cause != Panic.DummyHandler
    ensures n1 == n2
  {
    SlotsHoldOwnHandlers(v);
  }
}
