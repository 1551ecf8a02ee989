/** The clock-driven CPU of the newer core (src/n64/cpu/cpu.rs): a queue of
    at most five in-flight pipelines. Each tick admits a new pipeline on even
    clock phases, runs every queued pipeline once from the oldest to the
    newest, and retires the oldest once it is complete.

    The behaviour of a tick on values is `TickQueue`, which reads memory
    through `fetch`, the word the bus returns at each program counter; the
    class `Cpu` keeps the pipelines as objects and is proved to follow it
    whenever `fetch` is what its bus returns. */
module N64Cpu {
  import opened Faults
  import opened Words
  import N64Registers
  import N64Bus
  import opened N64Pipeline

  const PIPELINE_LENGTH: nat := 5
  const PIF_ROM_START: u64 := 0xFFFF_FFFF_BFC0_0000
  const MAX_U64: u64 := 0xFFFF_FFFF_FFFF_FFFF

  /** The program counter and the general-purpose registers. */
  datatype Core = Core(pc: u64, gprs: seq<bv64>)

  // ---------------------------------------------------------------------------
  // A tick on values

  /** `setup_pipeline` on even clock phases: a new pipeline at the back when
      fewer than five are queued. */
  function Admit(phase: u64, queue: seq<Snapshot>): (r: seq<Snapshot>)
  {
    if phase % 2 == 0 && |queue| < PIPELINE_LENGTH then queue + [Fresh()] else queue
  }

  /** `end_tick`: the oldest pipeline is complete; false for an empty
      queue. */
  predicate FrontComplete(queue: seq<Snapshot>)
  {
    |queue| > 0 && queue[0].stage == COMPLETE(0)
  }

  /** The queue after `pop_front` when the oldest pipeline is complete. */
  function Retire(queue: seq<Snapshot>): seq<Snapshot>
  {
    if FrontComplete(queue) then queue[1..] else queue
  }

  /** Every pipeline of `queue` runs one cycle, oldest first, each seeing the
      program counter and registers the previous one left and fetching
      through `fetch`; the first panic ends the run. */
  function RunQueue(fetch: u64 -> Result<bv32>, queue: seq<Snapshot>, core: Core): Result<(seq<Snapshot>, Core)>
    decreases |queue|
  {
    if |queue| == 0 then Ok(([], core))
    else
      match RunQueue(fetch, queue[..|queue| - 1], core)
      case Err(f) => Err(f)
      case Ok(r) =>
        match Cycle(Machine(queue[|queue| - 1], r.1.pc, r.1.gprs), fetch(r.1.pc))
        case Err(f) => Err(f)
        case Ok(m) => Ok((r.0 + [m.pipe], Core(m.pc, m.gprs)))
  }

  /** `tick`: admit, run everything, retire, and count the clock phase,
      which panics past the largest `u64`. */
  function TickQueue(fetch: u64 -> Result<bv32>, phase: u64, queue: seq<Snapshot>, core: Core): Result<(seq<Snapshot>, Core)>
  {
    match RunQueue(fetch, Admit(phase, queue), core)
    case Err(f) => Err(f)
    case Ok(r) =>
      if phase == MAX_U64 then Err(ArithmeticOverflow)
      else Ok((Retire(r.0), r.1))
  }

  // ---------------------------------------------------------------------------
  // Properties of a tick

  /** A tick is the run of the admitted queue, then the retirement and the
      clock phase count. */
  lemma TickOfRun(fetch: u64 -> Result<bv32>, phase: u64, queue: seq<Snapshot>, core: Core)
    ensures var r := RunQueue(fetch, Admit(phase, queue), core);
      var t := TickQueue(fetch, phase, queue, core);
      (r.Err? ==> t == Err(r.fault)) &&
      (r.Ok? && phase == MAX_U64 ==> t == Err(ArithmeticOverflow)) &&
      (r.Ok? && phase < MAX_U64 ==> t == Ok((Retire(r.value.0), r.value.1)))
  {
  }

  /** A pipeline is admitted exactly on even phases with fewer than five
      queued, as a new pipeline behind the others, so the queue never grows
      past five. */
  lemma AdmitBounded(phase: u64, queue: seq<Snapshot>)
    requires |queue| <= PIPELINE_LENGTH
    ensures |Admit(phase, queue)| <= PIPELINE_LENGTH
    ensures Admit(phase, queue)[..|queue|] == queue
    ensures |Admit(phase, queue)| == |queue| + 1 <==> phase % 2 == 0 && |queue| < PIPELINE_LENGTH
    ensures |Admit(phase, queue)| == |queue| + 1 ==> Admit(phase, queue)[|queue|] == Fresh()
    ensures |Admit(phase, queue)| != |queue| + 1 ==> Admit(phase, queue) == queue
  {
  }

  /** At most the oldest pipeline leaves, and only when it is complete; the
      others keep their order. An empty queue has nothing to retire. */
  lemma RetireFront(queue: seq<Snapshot>)
    ensures Retire(queue) == queue || (FrontComplete(queue) && Retire(queue) == queue[1..])
    ensures !FrontComplete(queue) ==> Retire(queue) == queue
    ensures !FrontComplete([])
  {
  }

  /** A run of the whole queue is the run of all but the newest, then the
      newest's cycle. */
  lemma RunQueueLast(fetch: u64 -> Result<bv32>, queue: seq<Snapshot>, core: Core)
    requires RunQueue(fetch, queue, core).Ok? && |queue| > 0
    ensures RunQueue(fetch, queue[..|queue| - 1], core).Ok?
    ensures var r := RunQueue(fetch, queue[..|queue| - 1], core).value;
      var c := Cycle(Machine(queue[|queue| - 1], r.1.pc, r.1.gprs), fetch(r.1.pc));
      c.Ok? && RunQueue(fetch, queue, core).value == (r.0 + [c.value.pipe], Core(c.value.pc, c.value.gprs))
  {
  }

  /** Running one more pipeline extends the run by that pipeline's cycle. */
  lemma RunQueueStep(fetch: u64 -> Result<bv32>, queue: seq<Snapshot>, core: Core, i: nat, done: seq<Snapshot>, now: Core)
    requires i < |queue| && RunQueue(fetch, queue[..i], core) == Ok((done, now))
    ensures var c := Cycle(Machine(queue[i], now.pc, now.gprs), fetch(now.pc));
      (c.Err? ==> RunQueue(fetch, queue[..i + 1], core) == Err(c.fault)) &&
      (c.Ok? ==> RunQueue(fetch, queue[..i + 1], core) == Ok((done + [c.value.pipe], Core(c.value.pc, c.value.gprs))))
  {
    assert queue[..i + 1][..i] == queue[..i];
  }

  /** One step of the loop of `tick` on values: pipeline `i` runs after
      the `i` before it, and either its cycle panics, which is the panic of
      the whole run, or the first `i + 1` have run. */
  lemma RunQueueNext(fetch: u64 -> Result<bv32>, queue: seq<Snapshot>, core: Core, i: nat, done: seq<Snapshot>, now: Core)
    requires i < |queue| && |done| == i && RunQueue(fetch, queue[..i], core) == Ok((done, now))
    ensures var c := Cycle(Machine(queue[i], now.pc, now.gprs), fetch(now.pc));
      (c.Err? ==> RunQueue(fetch, queue, core) == Err(c.fault)) &&
      (c.Ok? ==> RunQueue(fetch, queue[..i + 1], core) == Ok((done + [c.value.pipe], Core(c.value.pc, c.value.gprs))))
  {
    RunQueueStep(fetch, queue, core, i, done, now);
    if Cycle(Machine(queue[i], now.pc, now.gprs), fetch(now.pc)).Err? {
      RunQueueErrPrefix(fetch, queue, core, i + 1);
    }
  }

  /** Before the loop of `tick` nothing has run. */
  lemma RanNothing(fetch: u64 -> Result<bv32>, queue: seq<Snapshot>, core: Core)
    ensures RunQueue(fetch, queue[..0], core) == Ok(([], core))
    ensures [] + queue[0..] == queue
  {
    assert queue[..0] == [];
  }

  /** Once every pipeline has run, the prefix run is the whole run. */
  lemma RanEverything(fetch: u64 -> Result<bv32>, queue: seq<Snapshot>, core: Core, done: seq<Snapshot>, now: Core)
    requires |done| == |queue| && RunQueue(fetch, queue[..|done|], core) == Ok((done, now))
    ensures RunQueue(fetch, queue, core) == Ok((done, now))
    ensures done + queue[|done|..] == done
  {
    assert queue[..|done|] == queue;
  }

  /** Replacing the first queued snapshot after `done` moves it to `done`. */
  lemma UpdateNext(done: seq<Snapshot>, queue: seq<Snapshot>, i: nat, x: Snapshot)
    requires i == |done| && i < |queue|
    ensures (done + queue[i..])[i] == queue[i]
    ensures (done + queue[i..])[i := x] == done + [x] + queue[i + 1..]
  {
  }

  /** A panic in a prefix of the queue is the panic of the whole run. */
  lemma {:induction false} RunQueueErrPrefix(fetch: u64 -> Result<bv32>, queue: seq<Snapshot>, core: Core, j: nat)
    requires j <= |queue| && RunQueue(fetch, queue[..j], core).Err?
    ensures RunQueue(fetch, queue, core) == RunQueue(fetch, queue[..j], core)
    decreases |queue| - j
  {
    if j < |queue| {
      var n := |queue| - 1;
      assert queue[..n][..j] == queue[..j];
      RunQueueErrPrefix(fetch, queue[..n], core, j);
    } else {
      assert queue[..j] == queue;
    }
  }

  /** Running the queue runs each pipeline exactly once: a stalled one is
      left as it was and every other moves one stage on. */
  lemma {:induction false} RunQueueStepsEach(fetch: u64 -> Result<bv32>, queue: seq<Snapshot>, core: Core, k: nat)
    requires RunQueue(fetch, queue, core).Ok? && k < |queue|
    ensures |RunQueue(fetch, queue, core).value.0| == |queue|
    ensures queue[k].stalled ==> RunQueue(fetch, queue, core).value.0[k] == queue[k]
    ensures !queue[k].stalled ==> RunQueue(fetch, queue, core).value.0[k].stage == NextStage(queue[k].stage)
    decreases |queue|
  {
    var n := |queue| - 1;
    RunQueueLast(fetch, queue, core);
    var r := RunQueue(fetch, queue[..n], core).value;
    if k < n {
      RunQueueStepsEach(fetch, queue[..n], core, k);
    } else {
      if n > 0 {
        RunQueueStepsEach(fetch, queue[..n], core, 0);
      }
      var m := Machine(queue[n], r.1.pc, r.1.gprs);
      if queue[n].stalled {
        StalledDoesNothing(m, fetch(r.1.pc));
      } else {
        CycleAdvancesStage(m, fetch(r.1.pc));
      }
    }
  }

  /** A tick that does not panic keeps at most five pipelines, admits only
      on even phases, and removes at most one, the oldest, once complete. */
  lemma TickKeepsQueue(fetch: u64 -> Result<bv32>, phase: u64, queue: seq<Snapshot>, core: Core)
    requires |queue| <= PIPELINE_LENGTH
    requires TickQueue(fetch, phase, queue, core).Ok?
    ensures |TickQueue(fetch, phase, queue, core).value.0| <= PIPELINE_LENGTH
    ensures phase % 2 == 1 ==> |TickQueue(fetch, phase, queue, core).value.0| <= |queue|
    ensures |TickQueue(fetch, phase, queue, core).value.0| >= |queue| - 1
    ensures phase < MAX_U64
  {
    AdmitBounded(phase, queue);
    var admitted := Admit(phase, queue);
    if |admitted| > 0 {
      RunQueueStepsEach(fetch, admitted, core, 0);
    }
  }

  /** Over an empty queue on an even phase, a tick admits one new pipeline
      and runs its first phase, which does nothing but advance it. */
  lemma FirstTick(fetch: u64 -> Result<bv32>, phase: u64, core: Core)
    requires phase % 2 == 0 && phase < MAX_U64
    ensures TickQueue(fetch, phase, [], core) == Ok(([Fresh().(stage := IF(2))], core))
  {
    var q := [Fresh()];
    assert Admit(phase, []) == q;
    var m := Machine(Fresh(), core.pc, core.gprs);
    IdlePhase(m, fetch(core.pc));
    assert NextStage(IF(1)) == IF(2);
    assert q[..0] == [];
    assert RunQueue(fetch, q[..0], core) == Ok(([], core));
    var n := m.(pipe := Fresh().(stage := IF(2)));
    assert Cycle(Machine(q[0], core.pc, core.gprs), fetch(core.pc)) == Ok(n);
    assert [] + [n.pipe] == [Fresh().(stage := IF(2))];
    assert RunQueue(fetch, q, core) == Ok(([Fresh().(stage := IF(2))], core));
  }

  // ---------------------------------------------------------------------------
  // The CPU object

  /** The snapshots of a queue of pipelines, oldest first. */
  function Snaps(ps: seq<Pipeline>): (r: seq<Snapshot>)
    reads ps
    ensures |r| == |ps|
    ensures forall i :: 0 <= i < |ps| ==> r[i] == ps[i].Slots()
  {
    seq(|ps|, i requires 0 <= i < |ps| reads ps => ps[i].Slots())
  }

  /** `Cpu`: the registers, the bus, the in-flight pipelines and the clock
      phase. The coprocessor 0 argument of `run_cycle` is not part of this
      model. */
  class Cpu {
    const reg: N64Registers.Registers
    const bus: N64Bus.Bus
    var pipelines: seq<Pipeline>
    var pcyclePhase: u64

    /** At most five pipelines, all distinct objects. */
    ghost predicate Valid()
      reads this
    {
      |pipelines| <= PIPELINE_LENGTH &&
      forall i, j :: 0 <= i < j < |pipelines| ==> pipelines[i] != pipelines[j]
    }

    /** The program counter and registers as a value. */
    function CoreState(): Core
      reads this, reg, reg.gprs
    {
      Core(reg.pc, reg.gprs[..])
    }

    /** `Cpu::new`: default registers with the program counter at the PIF
        ROM's kseg1 address, no pipelines, clock phase 0. */
    constructor New(b: N64Bus.Bus)
      ensures Valid() && bus == b && fresh(reg) && fresh(reg.gprs)
      ensures reg.pc == PIF_ROM_START && reg.gprs.Length == N64Registers.NUM_GPREG
      ensures forall i :: 0 <= i < N64Registers.NUM_GPREG ==> N64Registers.ReadGpr(reg.gprs[..], i) == Ok(0)
      ensures pipelines == [] && pcyclePhase == 0
    {
      var r := new N64Registers.Registers.Default();
      r.pc := PIF_ROM_START;
      reg := r;
      bus := b;
      pipelines := [];
      pcyclePhase := 0;
    }

    /** `end_tick`. */
    predicate EndTick()
      reads this, pipelines
      ensures EndTick() <==> FrontComplete(Snaps(pipelines))
    {
      |pipelines| > 0 && pipelines[0].IsComplete()
    }

    /** `setup_pipeline`: a new pipeline at the back when fewer than five
        are queued. */
    method SetupPipeline()
      requires Valid()
      modifies this`pipelines
      ensures Valid()
      ensures |old(pipelines)| < PIPELINE_LENGTH ==>
        |pipelines| == |old(pipelines)| + 1 && pipelines[..|old(pipelines)|] == old(pipelines) &&
        fresh(pipelines[|old(pipelines)|])
      ensures |old(pipelines)| >= PIPELINE_LENGTH ==> pipelines == old(pipelines)
      ensures Snaps(pipelines) == Admit(0, old(Snaps(pipelines)))
    {
      if |pipelines| < PIPELINE_LENGTH {
        var p := new Pipeline.New();
        ghost var before := pipelines;
        pipelines := pipelines + [p];
        assert Snaps(pipelines) == Snaps(before) + [Fresh()];
      }
    }

    /** The start of `tick`: a new pipeline on even clock phases. */
    method StartTickPhase()
      requires Valid()
      modifies this`pipelines
      ensures Valid()
      ensures pipelines == old(pipelines) ||
        (|pipelines| == |old(pipelines)| + 1 && pipelines[..|old(pipelines)|] == old(pipelines) &&
         fresh(pipelines[|old(pipelines)|]))
      ensures Snaps(pipelines) == Admit(pcyclePhase, old(Snaps(pipelines)))
    {
      if pcyclePhase % 2 == 0 {
        SetupPipeline();
      }
    }

    /** The end of `tick`: the oldest pipeline leaves once complete, then
        the clock phase counts on, a panic past the largest `u64`. */
    method EndTickPhase() returns (out: Outcome)
      requires Valid()
      modifies this
      ensures Valid() && CoreState() == old(CoreState())
      ensures pipelines == old(pipelines) || (|old(pipelines)| > 0 && pipelines == old(pipelines)[1..])
      ensures Snaps(pipelines) == Retire(old(Snaps(pipelines)))
      ensures out.Pass? <==> old(pcyclePhase) < MAX_U64
      ensures out.Pass? ==> pcyclePhase == old(pcyclePhase) + 1
      ensures out.Fail? ==> out.fault == ArithmeticOverflow
    {
      if EndTick() {
        ghost var before := pipelines;
        pipelines := pipelines[1..];
        assert Snaps(pipelines) == Snaps(before)[1..];
      }
      if pcyclePhase == MAX_U64 {
        return Fail(ArithmeticOverflow);
      }
      pcyclePhase := pcyclePhase + 1;
      out := Pass;
    }

    /** `fetch` gives, at every program counter, the word the bus returns
        there now: the view of memory a tick runs against, since nothing in a
        tick writes to the bus. */
    ghost predicate Serves(fetch: u64 -> Result<bv32>)
      reads bus, bus.pif, bus.pif.ram, bus.rsp, bus.vi, bus.ai, bus.si, bus.rdram, bus.rdram.mem
    {
      forall pc: u64 {:trigger Fetch(bus, pc)} :: fetch(pc) == Fetch(bus, pc)
    }

    /** Pipeline `i` runs one cycle against the memory `fetch`; the other
        pipelines are left as they were. */
    method CycleAt(i: nat, lastUsed: Option<Hazard>, ghost fetch: u64 -> Result<bv32>) returns (out: Outcome)
      requires Valid() && Serves(fetch) && i < |pipelines|
      modifies reg`pc, reg.gprs, pipelines[i]
      ensures Serves(fetch)
      ensures var c := Cycle(Machine(old(Snaps(pipelines))[i], old(reg.pc), old(reg.gprs[..])), fetch(old(reg.pc)));
        (out.Pass? <==> c.Ok?) &&
        (c.Ok? ==> pipelines[i].Slots() == c.value.pipe && CoreState() == Core(c.value.pc, c.value.gprs)) &&
        (c.Err? ==> out.fault == c.fault)
      ensures Snaps(pipelines) == old(Snaps(pipelines))[i := pipelines[i].Slots()]
    {
      ghost var before := Snaps(pipelines);
      out := pipelines[i].RunCycle(reg, bus, lastUsed);
      assert Snaps(pipelines) == before[i := pipelines[i].Slots()];
    }

    /** The first `|done|` pipelines of `queue0` have run from `core0`,
        leaving `done` and the registers now held, and the rest are still
        queued as they were. */
    ghost predicate Ran(fetch: u64 -> Result<bv32>, queue0: seq<Snapshot>, core0: Core, done: seq<Snapshot>)
      reads this, pipelines, reg, reg.gprs
    {
      |done| <= |queue0| == |pipelines| &&
      RunQueue(fetch, queue0[..|done|], core0) == Ok((done, CoreState())) &&
      Snaps(pipelines) == done + queue0[|done|..]
    }

    /** One turn of the loop of `tick`: the next pipeline runs one cycle. */
    method RunOne(i: nat, lastUsed: Option<Hazard>, ghost fetch: u64 -> Result<bv32>, ghost queue0: seq<Snapshot>,
                  ghost core0: Core, ghost done: seq<Snapshot>)
      returns (out: Outcome, ghost done': seq<Snapshot>)
      requires Valid() && Serves(fetch) && Ran(fetch, queue0, core0, done) && i == |done| < |pipelines|
      modifies reg`pc, reg.gprs, pipelines[i]
      ensures Serves(fetch)
      ensures out.Pass? ==> |done'| == |done| + 1 && Ran(fetch, queue0, core0, done')
      ensures out.Fail? ==> RunQueue(fetch, queue0, core0) == Err(out.fault)
    {
      ghost var now := CoreState();
      out := CycleAt(i, lastUsed, fetch);
      done' := done + [pipelines[i].Slots()];
      UpdateNext(done, queue0, i, pipelines[i].Slots());
      RunQueueNext(fetch, queue0, core0, i, done, now);
    }

    /** The loop of `tick`: every queued pipeline runs one cycle, oldest
        first, and is handed the registers used by the one ahead of it. */
    method RunPipelines(ghost fetch: u64 -> Result<bv32>) returns (out: Outcome)
      requires Valid() && Serves(fetch)
      modifies reg`pc, reg.gprs, pipelines
      ensures var r := RunQueue(fetch, old(Snaps(pipelines)), old(CoreState()));
        (out.Pass? <==> r.Ok?) &&
        (r.Ok? ==> Snaps(pipelines) == r.value.0 && CoreState() == r.value.1) &&
        (r.Err? ==> out.fault == r.fault)
    {
      ghost var queue0 := Snaps(pipelines);
      ghost var core0 := CoreState();
      ghost var done: seq<Snapshot> := [];
      var lastUsed: Option<Hazard> := None;
      var i := 0;
      RanNothing(fetch, queue0, core0);
      while i < |pipelines|
        invariant Valid() && Serves(fetch) && i == |done| && Ran(fetch, queue0, core0, done)
      {
        out, done := RunOne(i, lastUsed, fetch, queue0, core0, done);
        if out.Fail? {
          return;
        }
        lastUsed := pipelines[i].regUsed;
        i := i + 1;
      }
      RanEverything(fetch, queue0, core0, done, CoreState());
      out := Pass;
    }

    /** The rest of `tick` once the new pipeline is admitted: run the queue,
        then retire and count the clock phase. */
    method RunAndRetire(ghost fetch: u64 -> Result<bv32>) returns (out: Outcome)
      requires Valid() && Serves(fetch)
      modifies this, reg`pc, reg.gprs, pipelines
      ensures Valid()
      ensures var r := RunQueue(fetch, old(Snaps(pipelines)), old(CoreState()));
        (r.Err? ==> out == Fail(r.fault)) &&
        (r.Ok? ==> (out.Pass? <==> old(pcyclePhase) < MAX_U64) &&
                   (out.Fail? ==> out.fault == ArithmeticOverflow) &&
                   (out.Pass? ==> Snaps(pipelines) == Retire(r.value.0) && CoreState() == r.value.1 &&
                                  pcyclePhase == old(pcyclePhase) + 1))
    {
      out := RunPipelines(fetch);
      if out.Fail? {
        return;
      }
      out := EndTickPhase();
    }

    /** `tick` against the memory `fetch`. */
    method Tick(ghost fetch: u64 -> Result<bv32>) returns (out: Outcome)
      requires Valid() && Serves(fetch)
      modifies this, reg`pc, reg.gprs, pipelines
      ensures Valid()
      ensures var t := TickQueue(fetch, old(pcyclePhase), old(Snaps(pipelines)), old(CoreState()));
        (out.Pass? <==> t.Ok?) &&
        (t.Ok? ==> Snaps(pipelines) == t.value.0 && CoreState() == t.value.1) &&
        (t.Err? ==> out.fault == t.fault)
      ensures out.Pass? ==> pcyclePhase == old(pcyclePhase) + 1
    {
      ghost var phase0, queue0, core0 := pcyclePhase, Snaps(pipelines), CoreState();
      StartTickPhase();
      out := RunAndRetire(fetch);
      TickOfRun(fetch, phase0, queue0, core0);
    }
  }
}
