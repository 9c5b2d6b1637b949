/**
 * The SAM4S clock bring-up `SystemInit` and the global `SystemCoreClock`
 * (boards/sam4s-xpld/system_sam4s.c).
 *
 * The flash controllers' mode registers (EEFC_FMR), the clock generator's
 * main-oscillator and PLLB registers (CKGR_MOR, CKGR_PLLBR) and the master
 * clock register (PMC_MCKR) are fields of a class. Their bit layouts come
 * from the chip header and are kept abstract: each register is a record of
 * named fields. The status register PMC_SR is not stored: the hardware is an
 * injected script `status` of the values successive reads of PMC_SR return.
 * A busy-wait that never sees its bit in the rest of the script stands for
 * the source's unbounded wait that never exits.
 *
 * Every register store and every completed wait is appended to a bus log.
 * `Plan` is the expected log of a complete run and `Execute` runs a plan
 * against the status script; `SystemInit` is proved to produce exactly the
 * prefix of the plan that `Execute` reaches.
 */
module SystemClock {
  import opened Wrappers

  /** SystemCoreClock before SystemInit: the internal fast RC oscillator, 4 MHz. */
  const CLOCK_4MHZ: nat := 4_000_000
  /** The value SystemInit publishes as its last step. */
  const CLOCK_12MHZ: nat := 12_000_000
  /** The board's nominal core clock F_CPU (board.h), which SystemInit does not publish. */
  const F_CPU: nat := 120_000_000

  /** The flash wait-state count FWS written to both flash controllers. */
  const FLASH_WAIT_STATES: nat := 5
  /** The prescaler PRES_CLK_1, as the division factor it selects. */
  const PRES_CLK_1: nat := 1

  /** The two enhanced embedded flash controllers. */
  datatype Efc = Efc0 | Efc1

  /** EEFC_FMR, of which only the wait-state field FWS is set. */
  datatype Fmr = Fmr(fws: nat)

  /** CKGR_MOR as SystemInit writes it: the key, the start-up time MOSCXTST and three enable/select bits. */
  datatype Mor = Mor(keyPasswd: bool, xtalStartup: nat, rcEnable: bool, xtalEnable: bool, xtalSelect: bool)

  /** The master clock source field CSS of PMC_MCKR. */
  datatype ClockSource = SlowClk | MainClk | PllaClk | PllbClk

  /** PMC_MCKR: the source CSS, the prescaler PRES, and every other bit of the register in `otherBits`. */
  datatype Mckr = Mckr(css: ClockSource, pres: nat, otherBits: nat)

  /** CKGR_PLLBR: multiplier MULB, lock counter PLLBCOUNT and divider DIVB. */
  datatype Pllbr = Pllbr(mul: nat, count: nat, div: nat)

  /** The PMC_SR bits SystemInit waits on. */
  datatype StatusBit = Moscxts | Moscsels | Mckrdy | Lockb

  /** One value read from PMC_SR: the set of status bits that are set. */
  type StatusWord = set<StatusBit>

  /** CKGR_MOR with the crystal oscillator enabled (line 29). */
  const MOR_XTAL_ON: Mor := Mor(true, 8, true, true, false)
  /** CKGR_MOR with the crystal oscillator enabled and selected (line 34). */
  const MOR_XTAL_SELECTED: Mor := Mor(true, 8, true, true, true)
  /** PMC_MCKR = PRES_CLK_1 | CSS_MAIN_CLK (line 45). */
  const MCKR_MAIN: Mckr := Mckr(MainClk, PRES_CLK_1, 0)
  /** PMC_MCKR = PRES_CLK_1 | CSS_PLLB_CLK (line 48). */
  const MCKR_PLLB: Mckr := Mckr(PllbClk, PRES_CLK_1, 0)
  /** CKGR_PLLBR = MULB(29) | PLLBCOUNT(1) | DIVB(3) (line 41). */
  const PLLBR_CONFIG: Pllbr := Pllbr(29, 1, 3)

  /** One step SystemInit takes on the bus. */
  datatype BusOp =
    | FmrWrite(bank: Efc, fmr: Fmr)
    | MorWrite(mor: Mor)
    | MckrWrite(mckr: Mckr)
    | PllbrWrite(pllbr: Pllbr)
    | StatusWait(bit: StatusBit)     // a busy-wait on PMC_SR that has seen its bit
    | ClockPublish(hz: nat)          // the store to SystemCoreClock

  /** The storage locations a step can change. */
  datatype Location = FlashMode(bank: Efc) | MainOsc | MasterClock | PllB | CoreClock

  /** The registers and SystemCoreClock, as one value. */
  datatype Snapshot = Snapshot(efc0Fmr: Fmr, efc1Fmr: Fmr, mor: Mor, mckr: Mckr, pllbr: Pllbr, coreClock: nat)

  /** The location a step stores to, if any. */
  function Target(op: BusOp): (loc: Option<Location>)
    ensures loc.None? <==> op.StatusWait?
  {
    match op
    case FmrWrite(bank, _) => Some(FlashMode(bank))
    case MorWrite(_) => Some(MainOsc)
    case MckrWrite(_) => Some(MasterClock)
    case PllbrWrite(_) => Some(PllB)
    case StatusWait(_) => None
    case ClockPublish(_) => Some(CoreClock)
  }

  /** Whether two snapshots hold the same value at a location. */
  predicate Agree(s: Snapshot, t: Snapshot, loc: Location)
  {
    match loc
    case FlashMode(Efc0) => s.efc0Fmr == t.efc0Fmr
    case FlashMode(Efc1) => s.efc1Fmr == t.efc1Fmr
    case MainOsc => s.mor == t.mor
    case MasterClock => s.mckr == t.mckr
    case PllB => s.pllbr == t.pllbr
    case CoreClock => s.coreClock == t.coreClock
  }

  /** The effect of one step on the registers. */
  function Apply(s: Snapshot, op: BusOp): (r: Snapshot)
    ensures forall loc :: Target(op) != Some(loc) ==> Agree(r, s, loc)
  {
    match op
    case FmrWrite(Efc0, v) => s.(efc0Fmr := v)
    case FmrWrite(Efc1, v) => s.(efc1Fmr := v)
    case MorWrite(v) => s.(mor := v)
    case MckrWrite(v) => s.(mckr := v)
    case PllbrWrite(v) => s.(pllbr := v)
    case StatusWait(_) => s
    case ClockPublish(hz) => s.(coreClock := hz)
  }

  /** The effect of a sequence of steps, applied in order. */
  function ApplyAll(s: Snapshot, ops: seq<BusOp>): (r: Snapshot)
    ensures forall loc :: (forall i :: 0 <= i < |ops| ==> Target(ops[i]) != Some(loc)) ==> Agree(r, s, loc)
    decreases |ops|
  {
    if ops == [] then s else Apply(ApplyAll(s, ops[..|ops| - 1]), ops[|ops| - 1])
  }

  /** The last store to a location decides its final value. */
  lemma {:induction false} LastStoreWins(s: Snapshot, ops: seq<BusOp>, k: nat, loc: Location)
    requires k < |ops| && Target(ops[k]) == Some(loc)
    requires forall i :: k < i < |ops| ==> Target(ops[i]) != Some(loc)
    ensures Agree(ApplyAll(s, ops), Apply(ApplyAll(s, ops[..k]), ops[k]), loc)
    decreases |ops|
  {
    var n := |ops| - 1;
    var init := ops[..n];
    assert ApplyAll(s, ops) == Apply(ApplyAll(s, init), ops[n]);
    if k == n {
      assert init == ops[..k];
    } else {
      assert init[..k] == ops[..k] && init[k] == ops[k];
      LastStoreWins(s, init, k, loc);
      assert Target(ops[n]) != Some(loc);
    }
  }

  /** Lines 20-24: FWS(5) into EFC0, and into EFC1 when the chip has it (ID_EFC1). */
  function FlashSetup(efc1Present: bool): (p: seq<BusOp>)
    ensures |p| == if efc1Present then 2 else 1
    ensures forall i :: 0 <= i < |p| ==> p[i].FmrWrite? && p[i].fmr == Fmr(FLASH_WAIT_STATES)
    ensures p[0].bank == Efc0 && p[|p| - 1].bank == (if efc1Present then Efc1 else Efc0)
  {
    [FmrWrite(Efc0, Fmr(FLASH_WAIT_STATES))] + if efc1Present then [FmrWrite(Efc1, Fmr(FLASH_WAIT_STATES))] else []
  }

  /** Lines 27-31: start the crystal oscillator unless MOSCSEL is already set. */
  function OscillatorStart(xtalSelected: bool): (p: seq<BusOp>)
    ensures p == [] <==> xtalSelected
    ensures forall i :: 0 <= i < |p| ==> Target(p[i]) == None || Target(p[i]) == Some(MainOsc)
    ensures forall i :: 0 <= i < |p| && p[i].MorWrite? ==> !p[i].mor.xtalSelect && i + 1 < |p| && p[i + 1] == StatusWait(Moscxts)
  {
    if xtalSelected then [] else [MorWrite(MOR_XTAL_ON), StatusWait(Moscxts)]
  }

  /** Lines 34-51: select the crystal, move the master clock to it, lock PLLB, move to PLLB, publish. */
  function ClockSwitch(mckr: Mckr): (p: seq<BusOp>)
    ensures |p| == 11 && p[10] == ClockPublish(CLOCK_12MHZ)
    ensures forall i :: 0 <= i < 10 ==> (p[i].StatusWait? <==> i % 2 == 1)
    ensures forall i :: 0 <= i < 10 ==> Target(p[i]) != Some(CoreClock)
  {
    [ MorWrite(MOR_XTAL_SELECTED), StatusWait(Moscsels),
      MckrWrite(mckr.(css := MainClk)), StatusWait(Mckrdy),
      PllbrWrite(PLLBR_CONFIG), StatusWait(Lockb),
      MckrWrite(MCKR_MAIN), StatusWait(Mckrdy),
      MckrWrite(MCKR_PLLB), StatusWait(Mckrdy),
      ClockPublish(CLOCK_12MHZ) ]
  }

  /**
   * The steps of a complete SystemInit, given whether EFC1 exists, whether
   * MOSCSEL is set on entry and PMC_MCKR on entry.
   */
  function Plan(efc1Present: bool, xtalSelected: bool, mckr: Mckr): (p: seq<BusOp>)
    ensures |p| == |FlashSetup(efc1Present)| + |OscillatorStart(xtalSelected)| + 11
    ensures p[0].FmrWrite? && p[|p| - 1] == ClockPublish(CLOCK_12MHZ)
    ensures forall i :: 0 <= i < |p| && p[i].StatusWait? ==> 0 < i && !p[i - 1].StatusWait?
  {
    FlashSetup(efc1Present) + OscillatorStart(xtalSelected) + ClockSwitch(mckr)
  }

  /**
   * How far a plan gets: the number of steps completed, the number of PMC_SR
   * reads used and, for a run that stops at a wait, the read at which that
   * wait began.
   */
  datatype Run = Run(steps: nat, polls: nat, waitFrom: nat)

  /** The first read at or after `from` that shows `b` set, if there is one. */
  function FirstSet(status: seq<StatusWord>, from: nat, b: StatusBit): (r: Option<nat>)
    ensures r.Some? ==> from <= r.value < |status| && b in status[r.value]
    ensures r.Some? ==> forall j :: from <= j < r.value ==> b !in status[j]
    ensures r.None? ==> forall j :: from <= j < |status| ==> b !in status[j]
    decreases |status| - from
  {
    if from >= |status| then None
    else if b in status[from] then Some(from)
    else FirstSet(status, from + 1, b)
  }

  /**
   * Runs a plan against the status script from read `pos` on: stores always
   * complete, a wait completes at the first read that shows its bit, and a
   * wait whose bit never shows stops the run there with every read used.
   */
  function Execute(plan: seq<BusOp>, status: seq<StatusWord>, pos: nat): (r: Run)
    ensures r.steps <= |plan|
    ensures pos <= |status| ==> pos <= r.polls <= |status|
    ensures r.steps < |plan| ==> plan[r.steps].StatusWait? && r.polls == |status|
    ensures r.steps < |plan| ==> pos <= r.waitFrom
    ensures r.steps < |plan| ==> forall j :: r.waitFrom <= j < |status| ==> plan[r.steps].bit !in status[j]
    decreases |plan|
  {
    if plan == [] then Run(0, pos, pos)
    else match plan[0]
      case StatusWait(b) =>
        (match FirstSet(status, pos, b)
         case None => Run(0, |status|, pos)
         case Some(k) =>
           var rest := Execute(plan[1..], status, k + 1);
           Run(1 + rest.steps, rest.polls, rest.waitFrom))
      case _ =>
        var rest := Execute(plan[1..], status, pos);
        Run(1 + rest.steps, rest.polls, rest.waitFrom)
  }

  /**
   * A wait on a bit that no remaining read shows is never passed: the run
   * stops before the end of the plan, at a wait.
   */
  lemma {:induction false} NeverReadyNeverCompletes(plan: seq<BusOp>, status: seq<StatusWord>, pos: nat, b: StatusBit)
    requires StatusWait(b) in plan
    requires forall j :: pos <= j < |status| ==> b !in status[j]
    ensures Execute(plan, status, pos).steps < |plan|
    decreases |plan|
  {
    if plan[0] != StatusWait(b) {
      assert StatusWait(b) in plan[1..];
      if plan[0].StatusWait? {
        match FirstSet(status, pos, plan[0].bit) {
          case None =>
          case Some(k) => NeverReadyNeverCompletes(plan[1..], status, k + 1, b);
        }
      } else {
        NeverReadyNeverCompletes(plan[1..], status, pos, b);
      }
    }
  }

  /**
   * A wait whose bit no read from `pos` on shows is not passed: the run
   * stops at that wait or at an earlier one, provided no earlier step waits
   * on the same bit.
   */
  lemma {:induction false} StopsAtNeverReadyWait(plan: seq<BusOp>, status: seq<StatusWord>, pos: nat, b: StatusBit, w: nat)
    requires w < |plan| && plan[w] == StatusWait(b)
    requires forall i :: 0 <= i < w ==> plan[i] != StatusWait(b)
    requires forall j :: pos <= j < |status| ==> b !in status[j]
    ensures Execute(plan, status, pos).steps <= w
    decreases |plan|
  {
    if w > 0 {
      assert forall i :: 0 <= i < w - 1 ==> plan[1..][i] == plan[i + 1];
      if plan[0].StatusWait? {
        match FirstSet(status, pos, plan[0].bit) {
          case None =>
          case Some(k) =>
            StopsAtNeverReadyWait(plan[1..], status, k + 1, b, w - 1);
            assert Execute(plan, status, pos).steps == 1 + Execute(plan[1..], status, k + 1).steps;
        }
      } else {
        StopsAtNeverReadyWait(plan[1..], status, pos, b, w - 1);
        assert Execute(plan, status, pos).steps == 1 + Execute(plan[1..], status, pos).steps;
      }
    }
  }

  /**
   * A plan run to its end hands its read position on: running `a + b` is
   * running `a`, then `b` from the read where `a` finished.
   */
  lemma {:induction false} ExecuteAppend(a: seq<BusOp>, b: seq<BusOp>, status: seq<StatusWord>, pos: nat)
    requires Execute(a, status, pos).steps == |a|
    ensures var rb := Execute(b, status, Execute(a, status, pos).polls);
            Execute(a + b, status, pos) == Run(|a| + rb.steps, rb.polls, rb.waitFrom)
    decreases |a|
  {
    if a == [] {
      assert a + b == b;
    } else {
      assert (a + b)[0] == a[0] && (a + b)[1..] == a[1..] + b;
      if a[0].StatusWait? {
        match FirstSet(status, pos, a[0].bit) {
          case None =>
          case Some(k) => ExecuteAppend(a[1..], b, status, k + 1);
        }
      } else {
        ExecuteAppend(a[1..], b, status, pos);
      }
    }
  }

  /** A run of `a + b` that gets past `a` has run `a` to its end. */
  lemma {:induction false} ExecuteTruncate(a: seq<BusOp>, b: seq<BusOp>, status: seq<StatusWord>, pos: nat)
    requires |a| <= Execute(a + b, status, pos).steps
    ensures Execute(a, status, pos).steps == |a|
    decreases |a|
  {
    if a != [] {
      assert (a + b)[0] == a[0] && (a + b)[1..] == a[1..] + b;
      if a[0].StatusWait? {
        match FirstSet(status, pos, a[0].bit) {
          case None =>
          case Some(k) => ExecuteTruncate(a[1..], b, status, k + 1);
        }
      } else {
        ExecuteTruncate(a[1..], b, status, pos);
      }
    }
  }

  /**
   * A run that stops began its final wait exactly where the steps before
   * that wait left the read position; with Execute's own contract, the wait
   * stops the run only because its bit shows in no read from there on.
   */
  lemma WaitBeganAfterPrefix(plan: seq<BusOp>, status: seq<StatusWord>, pos: nat)
    requires Execute(plan, status, pos).steps < |plan|
    ensures var r := Execute(plan, status, pos);
            var before := Execute(plan[..r.steps], status, pos);
            before.steps == r.steps && r.waitFrom == before.polls
  {
    var r := Execute(plan, status, pos);
    var s := r.steps;
    assert plan[..s] + plan[s..] == plan;
    ExecuteTruncate(plan[..s], plan[s..], status, pos);
    ExecuteAppend(plan[..s], plan[s..], status, pos);
    assert plan[s..][0] == plan[s];
  }

  /**
   * Any wait the run reaches, and not only the first on its bit (MCKRDY is
   * awaited three times): the run is never stopped before it, and it stops
   * there exactly when the wait's bit shows in no read from where the wait
   * began.
   */
  lemma StopsAtWaitIffNeverReadyAgain(plan: seq<BusOp>, status: seq<StatusWord>, pos: nat, w: nat)
    requires w < |plan| && plan[w].StatusWait? && Execute(plan[..w], status, pos).steps == w
    ensures Execute(plan, status, pos).steps >= w
    ensures Execute(plan, status, pos).steps == w <==>
              forall j :: Execute(plan[..w], status, pos).polls <= j < |status| ==> plan[w].bit !in status[j]
  {
    var q := Execute(plan[..w], status, pos).polls;
    ExecuteAppend(plan[..w], plan[w..], status, pos);
    assert plan[..w] + plan[w..] == plan;
    assert plan[w..][0] == plan[w];
    match FirstSet(status, q, plan[w].bit) {
      case None =>
      case Some(k) => assert plan[w].bit in status[k];
    }
  }

  /** Every FMR store of the plan writes FWS(5) and comes before every store to CKGR_MOR, PMC_MCKR or CKGR_PLLBR. */
  lemma FlashWaitStatesFirst(efc1Present: bool, xtalSelected: bool, mckr: Mckr)
    ensures var p := Plan(efc1Present, xtalSelected, mckr);
      && p[0] == FmrWrite(Efc0, Fmr(FLASH_WAIT_STATES))
      && (forall i :: 0 <= i < |p| && p[i].FmrWrite? ==> p[i].fmr == Fmr(FLASH_WAIT_STATES))
      && (forall i, j :: (0 <= i < |p| && 0 <= j < |p| && p[i].FmrWrite? &&
            (p[j].MorWrite? || p[j].MckrWrite? || p[j].PllbrWrite?)) ==> i < j)
  {
  }

  /** EFC1's mode register is stored exactly when the chip has EFC1. */
  lemma Efc1WrittenIffPresent(efc1Present: bool, xtalSelected: bool, mckr: Mckr)
    ensures var p := Plan(efc1Present, xtalSelected, mckr);
      (exists i :: 0 <= i < |p| && p[i] == FmrWrite(Efc1, Fmr(FLASH_WAIT_STATES))) <==> efc1Present
  {
    var p := Plan(efc1Present, xtalSelected, mckr);
    if efc1Present {
      assert p[1] == FmrWrite(Efc1, Fmr(FLASH_WAIT_STATES));
    }
  }

  /**
   * The oscillator-enable store and its MOSCXTS wait happen exactly when
   * MOSCSEL is clear on entry, and the wait follows the store directly.
   */
  lemma OscillatorEnabledIffNotSelected(efc1Present: bool, xtalSelected: bool, mckr: Mckr)
    ensures var p := Plan(efc1Present, xtalSelected, mckr);
      && ((exists i :: 0 <= i < |p| && p[i] == MorWrite(MOR_XTAL_ON)) <==> !xtalSelected)
      && ((exists i :: 0 <= i < |p| && p[i] == StatusWait(Moscxts)) <==> !xtalSelected)
      && (forall i :: 0 <= i < |p| && p[i] == MorWrite(MOR_XTAL_ON) ==> i + 1 < |p| && p[i + 1] == StatusWait(Moscxts))
  {
    var p := Plan(efc1Present, xtalSelected, mckr);
    var f := |FlashSetup(efc1Present)|;
    if !xtalSelected {
      assert p[f] == MorWrite(MOR_XTAL_ON);
      assert p[f + 1] == StatusWait(Moscxts);
    }
  }

  /**
   * The store selecting the crystal is directly followed by the MOSCSELS
   * wait, which completes before PMC_MCKR is first stored to.
   */
  lemma CrystalSelectedBeforeMasterClock(efc1Present: bool, xtalSelected: bool, mckr: Mckr)
    ensures var p := Plan(efc1Present, xtalSelected, mckr);
      && (exists i :: 0 <= i < |p| - 1 && p[i] == MorWrite(MOR_XTAL_SELECTED) && p[i + 1] == StatusWait(Moscsels))
      && (forall i, j :: 0 <= i < |p| && 0 <= j < |p| && p[i] == StatusWait(Moscsels) && p[j].MckrWrite? ==> i < j)
  {
    var p := Plan(efc1Present, xtalSelected, mckr);
    var c := |FlashSetup(efc1Present)| + |OscillatorStart(xtalSelected)|;
    assert p[c] == MorWrite(MOR_XTAL_SELECTED) && p[c + 1] == StatusWait(Moscsels);
  }

  /**
   * The first store to PMC_MCKR is a read-modify-write of its value on
   * entry: CSS becomes MAIN_CLK and every other bit is kept.
   */
  lemma FirstMasterClockStoreKeepsOtherBits(efc1Present: bool, xtalSelected: bool, mckr: Mckr)
    ensures var p := Plan(efc1Present, xtalSelected, mckr);
      forall i :: 0 <= i < |p| && p[i].MckrWrite? && (forall j :: 0 <= j < i ==> !p[j].MckrWrite?) ==>
        p[i].mckr.css == MainClk && p[i].mckr.pres == mckr.pres && p[i].mckr.otherBits == mckr.otherBits
  {
    var p := Plan(efc1Present, xtalSelected, mckr);
    PlanLayout(efc1Present, xtalSelected, mckr);
    assert p[|p| - 9] == MckrWrite(mckr.(css := MainClk));
  }

  /** PLLB is configured and LOCKB awaited before PMC_MCKR selects PLLB. */
  lemma PllbLockedBeforeSwitch(efc1Present: bool, xtalSelected: bool, mckr: Mckr)
    ensures var p := Plan(efc1Present, xtalSelected, mckr);
      && (exists i :: 0 <= i < |p| && p[i] == PllbrWrite(PLLBR_CONFIG))
      && (exists i :: 0 <= i < |p| && p[i] == StatusWait(Lockb))
      && (forall i, j :: (0 <= i < |p| && 0 <= j < |p| && (p[i].PllbrWrite? || p[i] == StatusWait(Lockb)) &&
            p[j].MckrWrite? && p[j].mckr.css == PllbClk) ==> i < j)
  {
    var p := Plan(efc1Present, xtalSelected, mckr);
    var c := |FlashSetup(efc1Present)| + |OscillatorStart(xtalSelected)|;
    assert p[c + 4] == PllbrWrite(PLLBR_CONFIG);
    assert p[c + 5] == StatusWait(Lockb);
  }

  /** Every store to PMC_MCKR is followed directly by a wait on MCKRDY. */
  lemma MasterClockStoresAwaitReady(efc1Present: bool, xtalSelected: bool, mckr: Mckr)
    ensures var p := Plan(efc1Present, xtalSelected, mckr);
      forall i :: 0 <= i < |p| && p[i].MckrWrite? ==> i + 1 < |p| && p[i + 1] == StatusWait(Mckrdy)
  {
  }

  /** SystemCoreClock is stored once, by the last step of the plan. */
  lemma ClockPublishedLast(efc1Present: bool, xtalSelected: bool, mckr: Mckr)
    ensures var p := Plan(efc1Present, xtalSelected, mckr);
      && p[|p| - 1] == ClockPublish(CLOCK_12MHZ)
      && (forall i :: 0 <= i < |p| ==> (Target(p[i]) == Some(CoreClock) <==> i == |p| - 1))
  {
  }

  /** A run that stops before the end of the plan leaves SystemCoreClock as it was. */
  lemma UnfinishedRunKeepsClock(s: Snapshot, efc1Present: bool, xtalSelected: bool, mckr: Mckr, k: nat)
    requires k < |Plan(efc1Present, xtalSelected, mckr)|
    ensures ApplyAll(s, Plan(efc1Present, xtalSelected, mckr)[..k]).coreClock == s.coreClock
  {
    var p := Plan(efc1Present, xtalSelected, mckr);
    ClockPublishedLast(efc1Present, xtalSelected, mckr);
    assert forall i :: 0 <= i < k ==> p[..k][i] == p[i];
    assert Agree(ApplyAll(s, p[..k]), s, CoreClock);
  }

  /**
   * The plan is the flash and oscillator steps, which store only to the
   * flash controllers and CKGR_MOR, followed by the eleven steps of the
   * clock switch.
   */
  lemma PlanLayout(efc1Present: bool, xtalSelected: bool, mckr: Mckr)
    ensures var p := Plan(efc1Present, xtalSelected, mckr);
      && |p| - 11 == |FlashSetup(efc1Present)| + |OscillatorStart(xtalSelected)|
      && (forall i :: 0 <= i < |p| - 11 ==> p[i].FmrWrite? || p[i] == MorWrite(MOR_XTAL_ON) || p[i] == StatusWait(Moscxts))
      && (forall i :: 0 <= i < |p| - 11 ==> (p[i].FmrWrite? <==> i < |FlashSetup(efc1Present)|))
      && (forall i :: |p| - 11 <= i < |p| ==> p[i] == ClockSwitch(mckr)[i - (|p| - 11)])
  {
  }

  // The final value of each location after a complete run, one location at a time.

  lemma FinalEfc0Mode(s: Snapshot, efc1Present: bool, xtalSelected: bool, mckr: Mckr)
    ensures ApplyAll(s, Plan(efc1Present, xtalSelected, mckr)).efc0Fmr == Fmr(FLASH_WAIT_STATES)
  {
    var p := Plan(efc1Present, xtalSelected, mckr);
    PlanLayout(efc1Present, xtalSelected, mckr);
    assert forall i :: 0 < i < |p| ==> Target(p[i]) != Some(FlashMode(Efc0));
    LastStoreWins(s, p, 0, FlashMode(Efc0));
  }

  lemma FinalEfc1Mode(s: Snapshot, efc1Present: bool, xtalSelected: bool, mckr: Mckr)
    ensures ApplyAll(s, Plan(efc1Present, xtalSelected, mckr)).efc1Fmr ==
            if efc1Present then Fmr(FLASH_WAIT_STATES) else s.efc1Fmr
  {
    var p := Plan(efc1Present, xtalSelected, mckr);
    PlanLayout(efc1Present, xtalSelected, mckr);
    if efc1Present {
      assert forall i :: 1 < i < |p| ==> Target(p[i]) != Some(FlashMode(Efc1));
      LastStoreWins(s, p, 1, FlashMode(Efc1));
    } else {
      assert forall i :: 0 <= i < |p| ==> Target(p[i]) != Some(FlashMode(Efc1));
      assert Agree(ApplyAll(s, p), s, FlashMode(Efc1));
    }
  }

  lemma FinalMainOsc(s: Snapshot, efc1Present: bool, xtalSelected: bool, mckr: Mckr)
    ensures ApplyAll(s, Plan(efc1Present, xtalSelected, mckr)).mor == MOR_XTAL_SELECTED
  {
    var p := Plan(efc1Present, xtalSelected, mckr);
    PlanLayout(efc1Present, xtalSelected, mckr);
    var c := |p| - 11;
    assert forall i :: c < i < |p| ==> Target(p[i]) != Some(MainOsc);
    LastStoreWins(s, p, c, MainOsc);
  }

  lemma FinalPllb(s: Snapshot, efc1Present: bool, xtalSelected: bool, mckr: Mckr)
    ensures ApplyAll(s, Plan(efc1Present, xtalSelected, mckr)).pllbr == PLLBR_CONFIG
  {
    var p := Plan(efc1Present, xtalSelected, mckr);
    PlanLayout(efc1Present, xtalSelected, mckr);
    var c := |p| - 11;
    assert forall i :: c + 4 < i < |p| ==> Target(p[i]) != Some(PllB);
    LastStoreWins(s, p, c + 4, PllB);
  }

  lemma FinalMasterClock(s: Snapshot, efc1Present: bool, xtalSelected: bool, mckr: Mckr)
    ensures ApplyAll(s, Plan(efc1Present, xtalSelected, mckr)).mckr == MCKR_PLLB
  {
    var p := Plan(efc1Present, xtalSelected, mckr);
    PlanLayout(efc1Present, xtalSelected, mckr);
    var c := |p| - 11;
    assert p[c + 8] == MckrWrite(MCKR_PLLB);
    assert forall i :: c + 8 < i < |p| ==> Target(p[i]) != Some(MasterClock);
    LastStoreWins(s, p, c + 8, MasterClock);
  }

  lemma FinalCoreClock(s: Snapshot, efc1Present: bool, xtalSelected: bool, mckr: Mckr)
    ensures ApplyAll(s, Plan(efc1Present, xtalSelected, mckr)).coreClock == CLOCK_12MHZ
  {
    var p := Plan(efc1Present, xtalSelected, mckr);
    PlanLayout(efc1Present, xtalSelected, mckr);
    LastStoreWins(s, p, |p| - 1, CoreClock);
  }

  /**
   * After a complete run the flash controllers that exist have FWS(5), the
   * crystal is selected, PLLB is configured, PMC_MCKR is
   * PRES_CLK_1 | CSS_PLLB_CLK and SystemCoreClock is 12 MHz.
   */
  lemma CompletedRunState(s: Snapshot, efc1Present: bool, xtalSelected: bool, mckr: Mckr)
    ensures var r := ApplyAll(s, Plan(efc1Present, xtalSelected, mckr));
      && r.efc0Fmr == Fmr(FLASH_WAIT_STATES)
      && r.efc1Fmr == (if efc1Present then Fmr(FLASH_WAIT_STATES) else s.efc1Fmr)
      && r.mor == MOR_XTAL_SELECTED
      && r.pllbr == PLLBR_CONFIG
      && r.mckr == MCKR_PLLB
      && r.coreClock == CLOCK_12MHZ
  {
    FinalEfc0Mode(s, efc1Present, xtalSelected, mckr);
    FinalEfc1Mode(s, efc1Present, xtalSelected, mckr);
    FinalMainOsc(s, efc1Present, xtalSelected, mckr);
    FinalPllb(s, efc1Present, xtalSelected, mckr);
    FinalMasterClock(s, efc1Present, xtalSelected, mckr);
    FinalCoreClock(s, efc1Present, xtalSelected, mckr);
  }

  /** The outcome of SystemInit: it returned, or it is stuck in the wait on `bit`. */
  datatype InitResult = Done | Stuck(bit: StatusBit)

  /** Proof bookkeeping fixed when SystemInit starts: its plan, its run, the bus log and registers on entry. */
  datatype Ledger = Ledger(planned: seq<BusOp>, target: Run, busAtEntry: seq<BusOp>, atEntry: Snapshot)

  /** The EFC and PMC registers SystemInit drives, the SystemCoreClock global and the PMC_SR script. */
  class ClockController {
    /** Whether the chip has a second flash controller (ID_EFC1). */
    const efc1Present: bool
    /** The values successive reads of PMC_SR return. */
    const status: seq<StatusWord>

    var efc0Fmr: Fmr
    var efc1Fmr: Fmr
    var ckgrMor: Mor
    var pmcMckr: Mckr
    var ckgrPllbr: Pllbr
    /** The SystemCoreClock global. */
    var systemCoreClock: nat
    /** How many reads of PMC_SR have happened. */
    var statusReads: nat
    /** Every store and completed wait, in order. */
    var bus: seq<BusOp>

    ghost var ledger: Ledger
    ghost var emitted: nat
    ghost var pending: seq<BusOp>

    /** The registers and SystemCoreClock as one value. */
    function Registers(): Snapshot
      reads this
    {
      Snapshot(efc0Fmr, efc1Fmr, ckgrMor, pmcMckr, ckgrPllbr, systemCoreClock)
    }

    ghost predicate Valid()
      reads this
    {
      statusReads <= |status|
    }

    /**
     * SystemInit has done the first `emitted` steps of its plan and the rest
     * of its run is what Execute predicts from the current read position.
     */
    ghost predicate OnPlan()
      reads this
    {
      && Valid()
      && emitted <= |ledger.planned|
      && pending == ledger.planned[emitted..]
      && bus == ledger.busAtEntry + ledger.planned[..emitted]
      && Registers() == ApplyAll(ledger.atEntry, ledger.planned[..emitted])
      && ledger.target.steps == emitted + Execute(pending, status, statusReads).steps
      && ledger.target.polls == Execute(pending, status, statusReads).polls
    }

    /** The chip after reset: registers as given, SystemCoreClock at 4 MHz, nothing read or stored yet. */
    constructor (efc1Present: bool, status: seq<StatusWord>, fmr0: Fmr, fmr1: Fmr, mor: Mor, mckr: Mckr, pllbr: Pllbr)
      ensures Valid()
      ensures this.efc1Present == efc1Present && this.status == status
      ensures Registers() == Snapshot(fmr0, fmr1, mor, mckr, pllbr, CLOCK_4MHZ)
      ensures statusReads == 0 && bus == []
    {
      this.efc1Present := efc1Present;
      this.status := status;
      efc0Fmr, efc1Fmr, ckgrMor, pmcMckr, ckgrPllbr := fmr0, fmr1, mor, mckr, pllbr;
      systemCoreClock := CLOCK_4MHZ;
      statusReads := 0;
      bus := [];
    }

    /** SystemInit is stuck in the wait on `b`: that wait is the next planned step and the run ends here. */
    ghost predicate StoppedAt(b: StatusBit)
      reads this
    {
      pending != [] && pending[0] == StatusWait(b) && ledger.target.steps == emitted && ledger.target.polls == statusReads
    }

    /** Stores to a register (or to SystemCoreClock): the next step of the plan. */
    method Store(op: BusOp)
      requires OnPlan() && pending != [] && pending[0] == op && !op.StatusWait?
      modifies this
      ensures OnPlan() && ledger == old(ledger)
      ensures emitted == old(emitted) + 1 && pending == old(pending)[1..]
      ensures Registers() == Apply(old(Registers()), op)
      ensures bus == old(bus) + [op] && statusReads == old(statusReads)
    {
      if op.FmrWrite? {
        if op.bank == Efc0 { efc0Fmr := op.fmr; } else { efc1Fmr := op.fmr; }
      } else if op.MorWrite? {
        ckgrMor := op.mor;
      } else if op.MckrWrite? {
        pmcMckr := op.mckr;
      } else if op.PllbrWrite? {
        ckgrPllbr := op.pllbr;
      } else {
        systemCoreClock := op.hz;
      }
      bus := bus + [op];
      ghost var planned := ledger.planned;
      assert planned[..emitted + 1] == planned[..emitted] + [planned[emitted]];
      emitted := emitted + 1;
      pending := pending[1..];
    }

    /**
     * `for ( ; !(PMC->PMC_SR & bit) ; ) ;`: reads PMC_SR until it shows
     * `b`. Returns false when no remaining read shows it, the case in which
     * the source never leaves the loop.
     */
    method Await(b: StatusBit) returns (ready: bool)
      requires OnPlan() && pending != [] && pending[0] == StatusWait(b)
      modifies this
      ensures OnPlan() && ledger == old(ledger) && Registers() == old(Registers())
      ensures ready <==> FirstSet(status, old(statusReads), b).Some?
      ensures ready ==> statusReads == FirstSet(status, old(statusReads), b).value + 1
      ensures ready ==> emitted == old(emitted) + 1 && pending == old(pending)[1..] && bus == old(bus) + [StatusWait(b)]
      ensures !ready ==> statusReads == |status| && emitted == old(emitted) && bus == old(bus)
      ensures !ready ==> StoppedAt(b)
    {
      var polled := statusReads;
      while polled < |status| && b !in status[polled]
        invariant statusReads <= polled <= |status|
        invariant FirstSet(status, polled, b) == FirstSet(status, statusReads, b)
        decreases |status| - polled
      {
        polled := polled + 1;
      }
      ready := polled < |status|;
      if ready {
        statusReads := polled + 1;
        bus := bus + [StatusWait(b)];
        ghost var planned := ledger.planned;
        assert planned[..emitted + 1] == planned[..emitted] + [planned[emitted]];
        emitted := emitted + 1;
        pending := pending[1..];
      } else {
        statusReads := polled;
      }
    }

    /** A store followed by the busy-wait on the status bit that acknowledges it. */
    method StoreThenAwait(op: BusOp, b: StatusBit, ghost rest: seq<BusOp>) returns (r: InitResult)
      requires OnPlan() && pending == [op, StatusWait(b)] + rest && !op.StatusWait?
      modifies this
      ensures OnPlan() && ledger == old(ledger)
      ensures Registers() == Apply(old(Registers()), op)
      ensures r.Done? ==> pending == rest
      ensures r.Stuck? ==> r.bit == b && StoppedAt(b)
    {
      Store(op);
      assert pending == [StatusWait(b)] + rest;
      var ready := Await(b);
      r := if ready then Done else Stuck(b);
    }

    /** Lines 20-24: FWS(5) into EFC0, and into EFC1 when the chip has it. */
    method SetFlashWaitStates(ghost rest: seq<BusOp>)
      requires OnPlan() && pending == FlashSetup(efc1Present) + rest
      modifies this
      ensures OnPlan() && ledger == old(ledger) && pending == rest
      ensures ckgrMor == old(ckgrMor) && pmcMckr == old(pmcMckr)
    {
      Store(FmrWrite(Efc0, Fmr(FLASH_WAIT_STATES)));
      if efc1Present {
        Store(FmrWrite(Efc1, Fmr(FLASH_WAIT_STATES)));
      }
    }

    /** Lines 27-31: enable the crystal oscillator and wait for MOSCXTS, unless MOSCSEL is already set. */
    method StartOscillator(ghost rest: seq<BusOp>) returns (r: InitResult)
      requires OnPlan() && pending == OscillatorStart(ckgrMor.xtalSelect) + rest
      modifies this
      ensures OnPlan() && ledger == old(ledger) && pmcMckr == old(pmcMckr)
      ensures r.Done? ==> pending == rest
      ensures r.Stuck? ==> StoppedAt(r.bit)
    {
      r := Done;
      if !ckgrMor.xtalSelect {
        r := StoreThenAwait(MorWrite(MOR_XTAL_ON), Moscxts, rest);
      }
    }

    /** Lines 34-38: select the crystal, then move the master clock to the main clock keeping its other bits. */
    method SwitchToCrystal(ghost rest: seq<BusOp>) returns (r: InitResult)
      requires OnPlan() && pending == ClockSwitch(pmcMckr)[..4] + rest
      modifies this
      ensures OnPlan() && ledger == old(ledger)
      ensures r.Done? ==> pending == rest
      ensures r.Stuck? ==> StoppedAt(r.bit)
    {
      ghost var second := [MckrWrite(pmcMckr.(css := MainClk)), StatusWait(Mckrdy)];
      assert ClockSwitch(pmcMckr)[..4] == [MorWrite(MOR_XTAL_SELECTED), StatusWait(Moscsels)] + second;
      assert pending == [MorWrite(MOR_XTAL_SELECTED), StatusWait(Moscsels)] + (second + rest);
      r := StoreThenAwait(MorWrite(MOR_XTAL_SELECTED), Moscsels, second + rest);
      if r.Stuck? { return; }
      r := StoreThenAwait(MckrWrite(pmcMckr.(css := MainClk)), Mckrdy, rest);
    }

    /** Lines 41-51: lock PLLB, move the master clock to the main clock and then to PLLB, publish the clock. */
    method SwitchToPllb(ghost mckr: Mckr) returns (r: InitResult)
      requires OnPlan() && pending == ClockSwitch(mckr)[4..]
      modifies this
      ensures OnPlan() && ledger == old(ledger)
      ensures r.Done? ==> pending == []
      ensures r.Stuck? ==> StoppedAt(r.bit)
    {
      ghost var publish := [ClockPublish(CLOCK_12MHZ)];
      ghost var toPllb := [MckrWrite(MCKR_PLLB), StatusWait(Mckrdy)] + publish;
      ghost var toMain := [MckrWrite(MCKR_MAIN), StatusWait(Mckrdy)] + toPllb;
      assert pending == [PllbrWrite(PLLBR_CONFIG), StatusWait(Lockb)] + toMain;
      r := StoreThenAwait(PllbrWrite(PLLBR_CONFIG), Lockb, toMain);
      if r.Stuck? { return; }
      r := StoreThenAwait(MckrWrite(MCKR_MAIN), Mckrdy, toPllb);
      if r.Stuck? { return; }
      r := StoreThenAwait(MckrWrite(MCKR_PLLB), Mckrdy, publish);
      if r.Stuck? { return; }
      Store(ClockPublish(CLOCK_12MHZ));
    }

    /** The steps of SystemInit once its plan is fixed; stops at the first wait that never completes. */
    method BringUp() returns (r: InitResult)
      requires OnPlan() && pending == Plan(efc1Present, ckgrMor.xtalSelect, pmcMckr)
      modifies this
      ensures OnPlan() && ledger == old(ledger)
      ensures r.Done? ==> pending == []
      ensures r.Stuck? ==> StoppedAt(r.bit)
    {
      ghost var mckr := pmcMckr;
      ghost var oscillator := OscillatorStart(ckgrMor.xtalSelect);
      ghost var switch := ClockSwitch(mckr);
      assert pending == FlashSetup(efc1Present) + (oscillator + switch);
      SetFlashWaitStates(oscillator + switch);
      r := StartOscillator(switch);
      if r.Stuck? { return; }
      assert pending == switch[..4] + switch[4..];
      r := SwitchToCrystal(switch[4..]);
      if r.Stuck? { return; }
      r := SwitchToPllb(mckr);
    }

    /**
     * SystemInit: the bus log grows by exactly the part of the plan that
     * Execute reaches on the PMC_SR script; it returns exactly when the whole
     * plan runs, and otherwise stops at a wait whose bit never shows.
     */
    method SystemInit() returns (r: InitResult)
      requires Valid()
      modifies this
      ensures Valid()
      ensures var plan := Plan(efc1Present, old(ckgrMor).xtalSelect, old(pmcMckr));
              var run := Execute(plan, status, old(statusReads));
              && bus == old(bus) + plan[..run.steps]
              && Registers() == ApplyAll(old(Registers()), plan[..run.steps])
              && statusReads == run.polls
              && (r.Done? <==> run.steps == |plan|)
              && (r.Stuck? ==> plan[run.steps] == StatusWait(r.bit))
              && (r.Stuck? ==> forall j :: run.waitFrom <= j < |status| ==> r.bit !in status[j])
      ensures r.Done? ==> systemCoreClock == CLOCK_12MHZ && pmcMckr == MCKR_PLLB
      ensures r.Stuck? ==> systemCoreClock == old(systemCoreClock)
    {
      ghost var xtal := ckgrMor.xtalSelect;
      ghost var mckr := pmcMckr;
      ghost var plan := Plan(efc1Present, xtal, mckr);
      ghost var entry := Registers();
      ledger := Ledger(plan, Execute(plan, status, statusReads), bus, entry);
      emitted := 0;
      pending := plan;
      assert plan[..0] == [];
      r := BringUp();
      if r.Done? {
        assert plan[..|plan|] == plan;
        CompletedRunState(entry, efc1Present, xtal, mckr);
      } else {
        UnfinishedRunKeepsClock(entry, efc1Present, xtal, mckr, emitted);
      }
    }
  }
}
