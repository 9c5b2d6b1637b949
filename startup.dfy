/**
 * `reset_handler` of the SAM4S (cpu/sam4s/startup.c): load the initialised
 * data image from flash into RAM, zero the BSS, then hand over to
 * `board_init`, `__libc_init_array` and `kernel_init`, in that order.
 *
 * Memory is one word-addressed space: an array of 32-bit words indexed by
 * word address, holding flash and RAM alike, so that the source's `src != dst`
 * test compares two addresses in the same space. The linker symbols
 * `__etext`, `__data_start__`, `__data_end__`, `__bss_start__` and
 * `__bss_end__` become the word addresses of a `Layout`.
 */
module Startup {
  import SystemClock

  /** A 32-bit memory word. */
  newtype Word = x: int | 0 <= x < 0x1_0000_0000

  /** The linker symbols reset_handler reads, as word addresses. */
  datatype Layout = Layout(etext: nat, dataStart: nat, dataEnd: nat, bssStart: nat, bssEnd: nat)
  {
    /** The number of words the copy loop writes: it runs while `dst < __data_end__`. */
    function DataWords(): nat
    {
      if dataStart < dataEnd then dataEnd - dataStart else 0
    }

    /** The number of words the BSS loop writes. */
    function BssWords(): nat
    {
      if bssStart < bssEnd then bssEnd - bssStart else 0
    }

    /** The guard of the copy loop: a non-empty data section whose image is not already in place. */
    predicate CopiesData()
    {
      dataStart != dataEnd && etext != dataStart
    }

    /** Every word the two loops read or write lies in a memory of `size` words. */
    predicate FitsIn(size: nat)
    {
      etext + DataWords() <= size && dataStart + DataWords() <= size && bssStart + BssWords() <= size
    }

    /**
     * A word-by-word copy in increasing address order reproduces the image:
     * the destination lies below the source or above the end of the image.
     */
    predicate CopySafe()
    {
      dataStart <= etext || etext + DataWords() <= dataStart
    }

    predicate InData(i: nat)
    {
      dataStart <= i < dataStart + DataWords()
    }

    predicate InBss(i: nat)
    {
      bssStart <= i < bssStart + BssWords()
    }
  }

  /**
   * `for (k = 0; k < n; k++) m[dst + k] = m[src + k];` done in order, each
   * word read after the previous stores, as the loop at lines 59-61 does.
   * Only the `n` destination words change.
   */
  function CopyWords(m: seq<Word>, src: nat, dst: nat, n: nat): (r: seq<Word>)
    requires src + n <= |m| && dst + n <= |m|
    ensures |r| == |m|
    ensures forall i :: 0 <= i < |m| && !(dst <= i < dst + n) ==> r[i] == m[i]
    decreases n
  {
    if n == 0 then m else CopyWords(m[dst := m[src]], src + 1, dst + 1, n - 1)
  }

  /** Copying in increasing address order is a faithful copy when it does not overrun its own source. */
  lemma {:induction false} CopyWordsCopies(m: seq<Word>, src: nat, dst: nat, n: nat)
    requires src + n <= |m| && dst + n <= |m|
    requires dst <= src || src + n <= dst
    ensures forall i :: dst <= i < dst + n ==> CopyWords(m, src, dst, n)[i] == m[src + (i - dst)]
    decreases n
  {
    if n > 0 {
      var m' := m[dst := m[src]];
      CopyWordsCopies(m', src + 1, dst + 1, n - 1);
      forall i | dst + 1 <= i < dst + n
        ensures CopyWords(m, src, dst, n)[i] == m[src + (i - dst)]
      {
        assert m'[src + 1 + (i - (dst + 1))] == m[src + (i - dst)];
      }
    }
  }

  /** Copying a region onto itself changes nothing. */
  lemma {:induction false} CopyWordsInPlace(m: seq<Word>, p: nat, n: nat)
    requires p + n <= |m|
    ensures CopyWords(m, p, p, n) == m
    decreases n
  {
    if n > 0 {
      assert m[p := m[p]] == m;
      CopyWordsInPlace(m, p + 1, n - 1);
    }
  }

  /**
   * A copy whose destination starts one word into its own source image does
   * not reproduce the image: every destination word receives the image's
   * first word.
   */
  lemma {:induction false} OverlappingCopySmears(m: seq<Word>, src: nat, dst: nat, n: nat)
    requires dst == src + 1 && dst + n <= |m|
    ensures forall i :: dst <= i < dst + n ==> CopyWords(m, src, dst, n)[i] == m[src]
    decreases n
  {
    if n > 0 {
      var m' := m[dst := m[src]];
      OverlappingCopySmears(m', dst, dst + 1, n - 1);
      assert CopyWords(m, src, dst, n) == CopyWords(m', dst, dst + 1, n - 1);
    }
  }

  /** Memory after the data-load step of lines 58-62. */
  function DataLoaded(m: seq<Word>, l: Layout): (r: seq<Word>)
    requires l.FitsIn(|m|)
    ensures |r| == |m|
    ensures forall i :: 0 <= i < |m| && !l.InData(i) ==> r[i] == m[i]
    ensures l.CopySafe() ==> forall i: nat :: l.InData(i) ==> r[i] == m[l.etext + (i - l.dataStart)]
  {
    if l.CopiesData() then
      var r := CopyWords(m, l.etext, l.dataStart, l.DataWords());
      assert l.CopySafe() ==> forall i :: l.dataStart <= i < l.dataStart + l.DataWords() ==> r[i] == m[l.etext + (i - l.dataStart)] by {
        if l.CopySafe() {
          CopyWordsCopies(m, l.etext, l.dataStart, l.DataWords());
        }
      }
      r
    else
      m
  }

  /**
   * The guard at line 58 only skips copies that would change nothing: the
   * data-load step is always the plain word copy of the image.
   */
  lemma DataLoadGuardSkipsOnlyNoOps(m: seq<Word>, l: Layout)
    requires l.FitsIn(|m|)
    ensures DataLoaded(m, l) == CopyWords(m, l.etext, l.dataStart, l.DataWords())
  {
    if !l.CopiesData() {
      if l.etext == l.dataStart {
        CopyWordsInPlace(m, l.etext, l.DataWords());
      }
    }
  }

  /** Memory after `m[i] = 0` for every `from <= i < to`, in increasing order. */
  function ZeroWords(m: seq<Word>, from: nat, to: nat): (r: seq<Word>)
    requires from < to ==> to <= |m|
    ensures |r| == |m|
    ensures forall i :: 0 <= i < |m| ==> r[i] == (if from <= i < to then 0 else m[i])
    decreases if from < to then to - from else 0
  {
    if from >= to then m else ZeroWords(m[from := 0], from + 1, to)
  }

  /** Memory after both initialisation steps of reset_handler. */
  function InitialisedMemory(m: seq<Word>, l: Layout): (r: seq<Word>)
    requires l.FitsIn(|m|)
    ensures |r| == |m|
    ensures forall i :: 0 <= i < |m| && !l.InData(i) && !l.InBss(i) ==> r[i] == m[i]
    ensures forall i: nat :: l.InBss(i) ==> i < |m| && r[i] == 0
  {
    ZeroWords(DataLoaded(m, l), l.bssStart, l.bssEnd)
  }

  /**
   * What memory initialisation does: no word outside the data and BSS
   * sections changes, every BSS word is 0, and when the image can be copied
   * forward every data word outside the BSS holds its image word. When the
   * copy is skipped only the BSS changes; with an empty BSS nothing is
   * written after the copy.
   */
  lemma MemoryInitialisation(m: seq<Word>, l: Layout)
    requires l.FitsIn(|m|)
    ensures var r := InitialisedMemory(m, l);
      && (forall i :: 0 <= i < |m| && !l.InData(i) && !l.InBss(i) ==> r[i] == m[i])
      && (forall i: nat :: l.InBss(i) ==> i < |m| && r[i] == 0)
      && (l.CopySafe() ==> forall i: nat :: l.InData(i) && !l.InBss(i) ==> r[i] == m[l.etext + (i - l.dataStart)])
      && (!l.CopiesData() ==> forall i :: 0 <= i < |m| && !l.InBss(i) ==> r[i] == m[i])
      && (l.BssWords() == 0 ==> r == DataLoaded(m, l))
  {
    var d := DataLoaded(m, l);
    var r := InitialisedMemory(m, l);
    if l.CopiesData() && l.CopySafe() {
      CopyWordsCopies(m, l.etext, l.dataStart, l.DataWords());
    }
    if l.BssWords() == 0 {
      assert forall i :: 0 <= i < |m| ==> r[i] == d[i];
    }
  }

  /** The steps of reset_handler: the two memory loops, then the three calls. */
  datatype Stage = DataLoad | BssClear | BoardInit | LibcInitArray | KernelInit

  /** Where reset_handler ends: in the kernel, or hung in SystemInit waiting on a status bit. */
  datatype BootOutcome = KernelEntered | HungInBoardInit(bit: SystemClock.StatusBit)

  /** Loads the data image, lines 54-62. */
  method LoadData(mem: array<Word>, l: Layout)
    requires l.FitsIn(mem.Length)
    modifies mem
    ensures mem[..] == DataLoaded(old(mem[..]), l)
  {
    if l.dataStart != l.dataEnd && l.etext != l.dataStart {
      var dst, src := l.dataStart, l.etext;
      while dst < l.dataEnd
        invariant l.dataStart <= dst && dst - l.dataStart <= l.DataWords()
        invariant src == l.etext + (dst - l.dataStart)
        invariant CopyWords(mem[..], src, dst, l.DataWords() - (dst - l.dataStart)) ==
                  CopyWords(old(mem[..]), l.etext, l.dataStart, l.DataWords())
        decreases l.dataEnd - dst
      {
        mem[dst] := mem[src];
        dst, src := dst + 1, src + 1;
      }
    }
  }

  /** Zeroes the BSS, lines 65-69. */
  method ClearBss(mem: array<Word>, l: Layout)
    requires l.FitsIn(mem.Length)
    modifies mem
    ensures mem[..] == ZeroWords(old(mem[..]), l.bssStart, l.bssEnd)
  {
    if l.bssStart != l.bssEnd {
      var dst := l.bssStart;
      while dst < l.bssEnd
        invariant l.bssStart <= dst && dst - l.bssStart <= l.BssWords()
        invariant ZeroWords(mem[..], dst, l.bssEnd) == ZeroWords(old(mem[..]), l.bssStart, l.bssEnd)
        decreases l.bssEnd - dst
      {
        mem[dst] := 0;
        dst := dst + 1;
      }
    }
  }

  /** Both memory steps of reset_handler, lines 54-69: the data load, then the BSS clear. */
  method InitialiseMemory(mem: array<Word>, l: Layout)
    requires l.FitsIn(mem.Length)
    modifies mem
    ensures mem[..] == InitialisedMemory(old(mem[..]), l)
  {
    LoadData(mem, l);
    ClearBss(mem, l);
  }

  /**
   * board_init (boards/sam4s-xpld/board.c:30-40) as far as this model goes:
   * its first call, SystemInit. `found` is memory as board_init finds it,
   * and board_init leaves memory as it was.
   */
  method RunBoardInit(mem: array<Word>, clock: SystemClock.ClockController)
    returns (r: SystemClock.InitResult, ghost found: seq<Word>)
    requires clock.Valid()
    modifies clock
    ensures found == old(mem[..]) && mem[..] == old(mem[..])
    ensures clock.Valid()
    ensures var plan := SystemClock.Plan(clock.efc1Present, old(clock.ckgrMor).xtalSelect, old(clock.pmcMckr));
            var run := SystemClock.Execute(plan, clock.status, old(clock.statusReads));
            && clock.bus == old(clock.bus) + plan[..run.steps]
            && clock.Registers() == SystemClock.ApplyAll(old(clock.Registers()), plan[..run.steps])
            && clock.statusReads == run.polls
            && (r.Done? <==> run.steps == |plan|)
            && (r.Stuck? ==> plan[run.steps] == SystemClock.StatusWait(r.bit))
            && (r.Stuck? ==> forall j :: run.waitFrom <= j < |clock.status| ==> r.bit !in clock.status[j])
    ensures r.Done? ==> clock.systemCoreClock == SystemClock.CLOCK_12MHZ && clock.pmcMckr == SystemClock.MCKR_PLLB
    ensures r.Stuck? ==> clock.systemCoreClock == old(clock.systemCoreClock)
  {
    found := mem[..];
    r := clock.SystemInit();
  }

  /**
   * reset_handler: the data image is loaded and the BSS zeroed, then
   * board_init runs SystemInit, then `__libc_init_array` and `kernel_init`
   * follow, each exactly once. `memAtBoardInit` is memory as board_init
   * finds it: already initialised, and not changed afterwards. When
   * SystemInit hangs on a status bit nothing after board_init happens.
   */
  method ResetHandler(mem: array<Word>, l: Layout, clock: SystemClock.ClockController)
    returns (trace: seq<Stage>, boot: BootOutcome, ghost memAtBoardInit: seq<Word>)
    requires l.FitsIn(mem.Length) && clock.Valid()
    modifies mem, clock
    ensures memAtBoardInit == InitialisedMemory(old(mem[..]), l)
    ensures mem[..] == memAtBoardInit
    ensures boot.KernelEntered? ==> trace == [DataLoad, BssClear, BoardInit, LibcInitArray, KernelInit]
    ensures boot.HungInBoardInit? ==> trace == [DataLoad, BssClear, BoardInit]
    ensures var plan := SystemClock.Plan(clock.efc1Present, old(clock.ckgrMor).xtalSelect, old(clock.pmcMckr));
            var run := SystemClock.Execute(plan, clock.status, old(clock.statusReads));
            && clock.bus == old(clock.bus) + plan[..run.steps]
            && clock.Registers() == SystemClock.ApplyAll(old(clock.Registers()), plan[..run.steps])
            && clock.statusReads == run.polls
    ensures var plan := SystemClock.Plan(clock.efc1Present, old(clock.ckgrMor).xtalSelect, old(clock.pmcMckr));
            var run := SystemClock.Execute(plan, clock.status, old(clock.statusReads));
            && (boot.KernelEntered? <==> run.steps == |plan|)
            && (boot.HungInBoardInit? ==> plan[run.steps] == SystemClock.StatusWait(boot.bit))
    ensures boot.KernelEntered? ==>
              clock.Registers() == SystemClock.ApplyAll(old(clock.Registers()), SystemClock.Plan(clock.efc1Present, old(clock.ckgrMor).xtalSelect, old(clock.pmcMckr)))
    ensures boot.KernelEntered? ==> clock.systemCoreClock == SystemClock.CLOCK_12MHZ && clock.pmcMckr == SystemClock.MCKR_PLLB
    ensures boot.HungInBoardInit? ==> clock.systemCoreClock == old(clock.systemCoreClock)
  {
    ghost var plan := SystemClock.Plan(clock.efc1Present, clock.ckgrMor.xtalSelect, clock.pmcMckr);
    InitialiseMemory(mem, l);

    // board_init, entered once memory holds its initial values
    trace := [DataLoad, BssClear, BoardInit];
    var r;
    r, memAtBoardInit := RunBoardInit(mem, clock);
    if r.Stuck? {
      boot := HungInBoardInit(r.bit);
      return;
    }
    assert plan[..|plan|] == plan;

    // __libc_init_array, then kernel_init
    trace := [DataLoad, BssClear, BoardInit, LibcInitArray, KernelInit];
    boot := KernelEntered;
  }
}
