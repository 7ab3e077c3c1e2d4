/** Address arithmetic: device registers and the words that serve as semaphores (phase2/devices.c, phase2/syscall.c). */
module Addresses {
  import opened Basics

  const DEVREG_START: u32 := 0x10000054
  const TERMREG_START: u32 := 0x10000254
  const TERMREG_END: u32 := 0x10000264
  const DEVREG_SIZE := 16
  const TERM_INTLINE := 7
  const SYSIO_SIZE := 12

  /** The words that name semaphores. Equality stands for pointer equality; see AddrInjective. */
  datatype Sem =
    | Clock         // g_pseudo_clock
    | Mut(d: Dev)   // g_sysiostates[d].sem_mut
    | Sync(d: Dev)  // g_sysiostates[d].sem_sync
    | User(a: u32)  // any other word

  predicate OfDevice(k: Sem) { k.Mut? || k.Sync? }

  /** Where the linker placed g_sysiostates and g_pseudo_clock. */
  datatype Layout = Layout(sysio: u32, clock: u32) {

    predicate InSysio(a: u32) {
      sysio <= a < sysio + SYSIO_SIZE * DEVICE_NUMBER
    }

    predicate Valid() {
      0 < sysio && sysio + SYSIO_SIZE * DEVICE_NUMBER <= 0x1_0000_0000 && 0 < clock && !InSysio(clock)
    }

    /** Semaphores a caller may name: a user word is neither NULL nor part of the kernel's own. */
    predicate Names(k: Sem) {
      k.User? ==> 0 < k.a && k.a != clock && !InSysio(k.a)
    }

    function Addr(k: Sem): u32
      requires Valid()
    {
      match k
      case Clock => clock
      case Mut(d) => sysio + SYSIO_SIZE * d as int
      case Sync(d) => sysio + SYSIO_SIZE * d as int + 4
      case User(a) => a
    }

    function ResolveSemAddr(a: u32): int {
      if InSysio(a) then (a - sysio) / SYSIO_SIZE else -1
    }

    predicate IsDeviceSemaphore(a: u32) {
      var offset := (a - sysio) % 0x1_0000_0000 % SYSIO_SIZE;
      offset <= 8 && InSysio(a)
    }
  }

  /** Distinct semaphores have distinct, non-NULL addresses. */
  lemma AddrInjective(l: Layout, k: Sem, m: Sem)
    requires l.Valid() && l.Names(k) && l.Names(m)
    ensures l.Addr(k) == l.Addr(m) <==> k == m
    ensures l.Addr(k) != 0
  {
  }

  /** The two classifiers used when a blocked process is killed single out the two semaphores of each device and
      recover its index. */
  lemma DeviceSemaphores(l: Layout, k: Sem)
    requires l.Valid() && l.Names(k)
    ensures l.IsDeviceSemaphore(l.Addr(k)) <==> OfDevice(k)
    ensures l.ResolveSemAddr(l.Addr(k)) == if OfDevice(k) then k.d as int else -1
  {
  }

  /** The offset test of isDeviceSemaphore never rejects a word of the table: the third word, waiting_process,
      passes as well. Only the range test does any work. */
  lemma OffsetTestIsVacuous(l: Layout, a: u32)
    requires l.Valid() && l.InSysio(a) && (a - l.sysio) % 4 == 0
    ensures l.IsDeviceSemaphore(a)
  {
  }

  /** The device that owns a register address, or -1. A device owns four words; the two halves of terminal 0, devices
      32 and 33, own two each. */
  function ResolveDeviceAddress(a: u32): (r: int)
    ensures -1 <= r < DEVICE_NUMBER
    ensures r == -1 <==> !(DEVREG_START <= a < TERMREG_END)
    ensures 0 <= r < 32 <==> DEVREG_START <= a < TERMREG_START
    ensures 0 <= r < 32 ==> DEVREG_START + DEVREG_SIZE * r <= a < DEVREG_START + DEVREG_SIZE * (r + 1)
    ensures r >= 32 ==> TERMREG_START + DEVREG_SIZE / 2 * (r - 32) <= a < TERMREG_START + DEVREG_SIZE / 2 * (r - 31)
  {
    if a < DEVREG_START then -1
    else if a < TERMREG_START then (a - DEVREG_START) / DEVREG_SIZE
    else if a < TERMREG_END then
      (TERMREG_START - DEVREG_START) / DEVREG_SIZE + (a - TERMREG_START) / (DEVREG_SIZE / 2)
    else -1
  }

  /** DEVADDR: the register block of device i on an interrupt line. */
  function DevAddr(line: int, i: int): u32
    requires 3 <= line <= TERM_INTLINE && 0 <= i < 8
  {
    DEVREG_START + (line - 3) * 0x80 + i * DEVREG_SIZE
  }

  /** Number of registers copied by an I/O command. */
  function GetNumRegister(a: u32): int {
    if DEVREG_START <= a < TERMREG_START then 4
    else if TERMREG_START <= a < TERMREG_END then 2
    else -1
  }

  /** Finds the lowest device with a pending interrupt; on a terminal the transmitter goes first. */
  method FindDevRegAddr(line: int, bitmap: seq<bool>, transmitted: bool) returns (r: Option<u32>, ghost i: nat)
    requires 3 <= line <= TERM_INTLINE && |bitmap| == 8
    ensures r.None? <==> true !in bitmap
    ensures r.Some? ==> i < 8 && bitmap[i] && forall j :: 0 <= j < i ==> !bitmap[j]
    ensures r.Some? ==>
      r.value == DevAddr(line, i) + if TERMREG_START <= DevAddr(line, i) < TERMREG_END && transmitted then 8 else 0
  {
    r, i := None, 0;
    for k := 0 to 8
      invariant r.None?
      invariant forall j :: 0 <= j < k ==> !bitmap[j]
    {
      if bitmap[k] {
        i := k;
        var base := DevAddr(line, k);
        if TERMREG_START <= base < TERMREG_END && transmitted {
          base := base + 8;
        }
        return Some(base), i;
      }
    }
  }

  /** An interrupt reaches the same entry of g_sysiostates as the command that started the operation: every register
      of a disk, flash or printer resolves to one device, distinct blocks to distinct devices. */
  lemma RegistersOfOneDevice(line: int, i: int, reg: int)
    requires 3 <= line < TERM_INTLINE && 0 <= i < 8 && 0 <= reg < 4
    ensures ResolveDeviceAddress(DevAddr(line, i) + 4 * reg) == (line - 3) * 8 + i
    ensures GetNumRegister(DevAddr(line, i) + 4 * reg) == 4
  {
  }

  /** Terminals: the receiver and the transmitter of terminal 0 are devices 32 and 33, and no other terminal is
      covered. */
  lemma TerminalRegisters(i: int, half: int, reg: int)
    requires 0 <= i < 8 && 0 <= half < 2 && 0 <= reg < 2
    ensures var a := DevAddr(TERM_INTLINE, i) + 8 * half + 4 * reg;
      && (ResolveDeviceAddress(a) != -1 <==> i == 0)
      && (i == 0 ==> ResolveDeviceAddress(a) == 32 + half && GetNumRegister(a) == 2)
  {
  }
}
