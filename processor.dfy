/**
 * The CPU: its register file, the status-flag operations, the reset sequence,
 * the cycle-countdown clock and the handlers the dispatch table refers to.
 *
 * The object `Cpu` holds the state the C code keeps in its file-static record;
 * `CpuState` is the value of that record, and `ResetState`, `Tick` and `Run`
 * say, as functions of that value and of the memory contents, what the
 * methods `Cpu.Reset` and `Cpu.Clock` do to it.
 */
module Processor {

  import opened FixedWidth
  import opened CpuTypes
  import opened MemoryBus

  /** The register file and transient decode state, as one value. */
  datatype CpuState = CpuState(
    a: u8, x: u8, y: u8,
    status: bv8,
    pc: u16,
    opcode: u8,
    clockCount: u32,
    cycles: u8,
    fetchedAddress: u16,
    fetchedData: u8)

  /** Every field zero: the state `cpu_init` establishes. */
  const Cleared: CpuState := CpuState(0, 0, 0, 0, 0, 0, 0, 0, 0, 0)

  // ---------------------------------------------------------------------------
  // Status flags

  /**
   * The status byte after setting (`on`) or clearing (`!on`) flag `f`: that
   * flag's bit becomes `on` and every other bit keeps its value.
   */
  function WithFlag(status: bv8, f: Flag, on: bool): (r: bv8)
    ensures (r & Mask(f) != 0) == on
    ensures r & !Mask(f) == status & !Mask(f)
  {
    if on then status | Mask(f) else status & !Mask(f)
  }

  /** Setting or clearing one flag leaves every other named flag as it was. */
  lemma OtherFlagsKept(status: bv8, f: Flag, g: Flag, on: bool)
    requires f != g
    ensures WithFlag(status, f, on) & Mask(g) == status & Mask(g)
  {
    MasksDisjoint(f, g);
    assert Mask(g) & !Mask(f) == Mask(g);
  }

  // ---------------------------------------------------------------------------
  // Reset

  /**
   * The program counter the reset sequence loads: the byte at 0xFFFC is taken
   * as the HIGH byte and the byte at 0xFFFD as the LOW byte.
   * (`(high << 8) | low` on two bytes is `high * 0x100 + low`.)
   */
  function ResetVector(mem: seq<u8>): (r: u16)
    requires |mem| == RAM_SIZE
    ensures r / 0x100 == mem[0xFFFC] && r % 0x100 == mem[0xFFFD]
  {
    mem[0xFFFC] as int * 0x100 + mem[0xFFFD] as int
  }

  /** With the bytes 0x80, 0x00 at 0xFFFC, 0xFFFD the program counter becomes 0x8000; the little-endian layout 0x00, 0x80 gives 0x0080. */
  lemma ResetVectorByteOrder(mem: seq<u8>)
    requires |mem| == RAM_SIZE
    ensures mem[0xFFFC] == 0x80 && mem[0xFFFD] == 0x00 ==> ResetVector(mem) == 0x8000
    ensures mem[0xFFFC] == 0x00 && mem[0xFFFD] == 0x80 ==> ResetVector(mem) == 0x0080
  {
  }

  /**
   * The state after `cpu_reset`: the program counter comes from the reset
   * vector; A, X, Y, status, clock count and the fetch state are zero; the
   * cycle budget grows by 8 (wrapping at 8 bits) instead of being set to 8;
   * the opcode is kept.
   */
  function ResetState(s: CpuState, mem: seq<u8>): (r: CpuState)
    requires |mem| == RAM_SIZE
    ensures r.pc == ResetVector(mem)
    ensures r.a == 0 && r.x == 0 && r.y == 0 && r.status == 0 && r.clockCount == 0
    ensures r.fetchedAddress == 0 && r.fetchedData == 0
    ensures r.cycles == (s.cycles + 8) % 0x100
    ensures r.opcode == s.opcode
  {
    CpuState(
      a := 0, x := 0, y := 0, status := 0,
      pc := ResetVector(mem),
      opcode := s.opcode,
      clockCount := 0,
      cycles := Wrap8(s.cycles + 8),
      fetchedAddress := 0, fetchedData := 0)
  }

  // ---------------------------------------------------------------------------
  // Handlers named by the dispatch table

  /** The illegal-opcode handler: does nothing and asks for no extra cycles. */
  function Ill(): (extra: u8)
    ensures extra == 0
  {
    0x00
  }

  /** The accumulator addressing mode: does nothing and asks for no extra cycles. */
  function ModeAcc(): (extra: u8)
    ensures extra == 0
  {
    0x00
  }

  /** What an addressing-mode handler does to the state: implied mode copies A into the fetched data. */
  function AddressModeEffect(s: CpuState, m: AddressMode): (r: CpuState)
    ensures r.fetchedData == if m == IMP then s.a else s.fetchedData
    ensures r == s.(fetchedData := r.fetchedData)
  {
    match m
    case IMP => s.(fetchedData := s.a)
    case ACC => s
  }

  /** What an opcode handler does to the state: the illegal opcode changes nothing. */
  function OpcodeEffect(s: CpuState, op: Opcode): (r: CpuState)
    ensures r == s
  {
    match op
    case ILL => s
  }

  /**
   * The guard in `fetch`: "the mode is not implied, or the mode is not
   * accumulator". No mode is both, so it always holds and `fetch` always reads.
   */
  function FetchGuard(m: AddressMode): (r: bool)
    ensures r
  {
    !(m == IMP) || !(m == ACC)
  }

  // ---------------------------------------------------------------------------
  // Clock

  /** The outcome of one clock tick: the new state and whether an instruction began. */
  datatype Step = Step(state: CpuState, started: bool)

  /** A tick can run: it either fetches from inside the buffer or fetches nothing. */
  predicate CanFetch(s: CpuState, mem: seq<u8>)
  {
    s.cycles != 0 || s.pc < |mem|
  }

  /** The bookkeeping every tick ends with: one cycle consumed, one more counted. */
  function Elapse(s: CpuState): CpuState
  {
    s.(cycles := Wrap8(s.cycles - 1), clockCount := Wrap32(s.clockCount + 1))
  }

  /**
   * One call of `cpu_clock`. With cycles left it only counts one down. With
   * none left it fetches the opcode at PC, advances PC, charges the table's
   * base cost and runs the entry's two handlers, whose extra-cycle results
   * are dropped. Every tick then consumes a cycle and counts it.
   */
  function Tick(s: CpuState, mem: seq<u8>): (r: Step)
    requires CanFetch(s, mem)
    ensures r.started <==> s.cycles == 0
    ensures r.state.clockCount == (s.clockCount + 1) % 0x1_0000_0000
    ensures !r.started ==>
      r.state.cycles == s.cycles - 1 &&
      r.state == s.(cycles := r.state.cycles, clockCount := r.state.clockCount)
    ensures r.started ==>
      r.state.opcode == mem[s.pc] &&
      r.state.pc == (s.pc + 1) % 0x1_0000 &&
      r.state.cycles == Lookup(r.state.opcode).cycles - 1 == 6 &&
      r.state.fetchedData == s.a &&
      r.state == s.(opcode := r.state.opcode, pc := r.state.pc, cycles := r.state.cycles,
                    clockCount := r.state.clockCount, fetchedData := r.state.fetchedData)
  {
    if s.cycles == 0 then
      var opcode := mem[s.pc];
      var entry := Lookup(opcode);
      var fetched := s.(opcode := opcode, pc := Wrap16(s.pc + 1), cycles := Wrap8(s.cycles + entry.cycles));
      Step(Elapse(OpcodeEffect(AddressModeEffect(fetched, entry.mode), entry.op)), true)
    else
      Step(Elapse(s), false)
  }

  /** Whether n consecutive ticks from `s` can all run. */
  predicate CanRun(s: CpuState, mem: seq<u8>, n: nat)
    decreases n
  {
    n == 0 || (CanFetch(s, mem) && CanRun(Tick(s, mem).state, mem, n - 1))
  }

  /** The state after some ticks, with the number of instructions they began. */
  datatype Trace = Trace(state: CpuState, started: nat)

  /**
   * n consecutive ticks. Each adds one to the 32-bit clock count, and at most
   * one instruction begins per tick.
   */
  function Run(s: CpuState, mem: seq<u8>, n: nat): (r: Trace)
    requires CanRun(s, mem, n)
    ensures r.state.clockCount == (s.clockCount + n) % 0x1_0000_0000
    ensures r.started <= n
    decreases n
  {
    if n == 0 then Trace(s, 0)
    else
      var t := Tick(s, mem);
      var rest := Run(t.state, mem, n - 1);
      Trace(rest.state, rest.started + if t.started then 1 else 0)
  }

  /** Running m ticks and then n more is running m + n ticks. */
  lemma {:induction false} RunAppend(s: CpuState, mem: seq<u8>, m: nat, n: nat)
    requires CanRun(s, mem, m) && CanRun(Run(s, mem, m).state, mem, n)
    ensures CanRun(s, mem, m + n)
    ensures Run(s, mem, m + n) ==
      Trace(Run(Run(s, mem, m).state, mem, n).state,
            Run(s, mem, m).started + Run(Run(s, mem, m).state, mem, n).started)
    decreases m
  {
    if m > 0 {
      RunAppend(Tick(s, mem).state, mem, m - 1, n);
    }
  }

  /** While cycles remain, ticks only count down: n <= cycles ticks begin nothing and change nothing else. */
  lemma {:induction false} Countdown(s: CpuState, mem: seq<u8>, n: nat)
    requires n <= s.cycles
    ensures CanRun(s, mem, n)
    ensures Run(s, mem, n).started == 0
    ensures Run(s, mem, n).state ==
      s.(cycles := s.cycles - n, clockCount := (s.clockCount + n) % 0x1_0000_0000)
    decreases n
  {
    if n > 0 {
      Countdown(Tick(s, mem).state, mem, n - 1);
    }
  }

  /**
   * From an instruction boundary, seven ticks begin exactly one instruction,
   * on the first tick, and end at the next boundary with PC one further on.
   */
  lemma SevenTickWindow(s: CpuState, mem: seq<u8>)
    requires |mem| == RAM_SIZE && s.cycles == 0 && s.pc < RAM_SIZE
    ensures forall j :: 1 <= j <= 7 ==> CanRun(s, mem, j) && Run(s, mem, j).started == 1
    ensures CanRun(s, mem, 7) && Run(s, mem, 7).state.cycles == 0
    ensures CanRun(s, mem, 7) && Run(s, mem, 7).state.pc == s.pc + 1
  {
    var t := Tick(s, mem).state;
    forall j | 1 <= j <= 7
      ensures CanRun(s, mem, j) && Run(s, mem, j).started == 1
    {
      Countdown(t, mem, j - 1);
    }
    Countdown(t, mem, 6);
  }

  /**
   * Starting at an instruction boundary, 7 * k ticks begin exactly k
   * instructions (every one of them costs 7 cycles) and end at a boundary,
   * provided the k fetches stay inside the buffer.
   */
  lemma {:induction false} InstructionEverySevenTicks(s: CpuState, mem: seq<u8>, k: nat)
    requires |mem| == RAM_SIZE && s.cycles == 0 && s.pc + k <= RAM_SIZE
    ensures CanRun(s, mem, 7 * k)
    ensures Run(s, mem, 7 * k).started == k
    ensures Run(s, mem, 7 * k).state.cycles == 0
    ensures Run(s, mem, 7 * k).state.pc == s.pc + k
    decreases k
  {
    if k > 0 {
      SevenTickWindow(s, mem);
      var next := Run(s, mem, 7).state;
      InstructionEverySevenTicks(next, mem, k - 1);
      RunAppend(s, mem, 7, 7 * (k - 1));
    }
  }

  /**
   * From the cleared state, a reset adds 8 to the empty cycle budget, so the
   * first eight ticks begin nothing and the ninth fetches the opcode at the
   * reset vector.
   */
  lemma FirstInstructionAfterReset(mem: seq<u8>)
    requires |mem| == RAM_SIZE && ResetVector(mem) < RAM_SIZE
    ensures CanRun(ResetState(Cleared, mem), mem, 9)
    ensures Run(ResetState(Cleared, mem), mem, 8).started == 0
    ensures Run(ResetState(Cleared, mem), mem, 9).started == 1
    ensures Run(ResetState(Cleared, mem), mem, 9).state.opcode == mem[ResetVector(mem)]
  {
    var s := ResetState(Cleared, mem);
    Countdown(s, mem, 8);
    RunAppend(s, mem, 8, 1);
  }

  // ---------------------------------------------------------------------------
  // The CPU object

  class Cpu {
    var a: u8
    var x: u8
    var y: u8
    var status: bv8
    var pc: u16
    var opcode: u8
    var clockCount: u32
    var cycles: u8
    var fetchedAddress: u16
    var fetchedData: u8
    var bus: Bus?

    /** The register file as a value. */
    function State(): CpuState
      reads this
    {
      CpuState(a, x, y, status, pc, opcode, clockCount, cycles, fetchedAddress, fetchedData)
    }

    /** A bus with a RAM_SIZE buffer is attached. */
    ghost predicate Connected()
      reads this, bus
    {
      bus != null && bus.Valid()
    }

    /** `cpu_init`: every field zero and no bus attached. */
    constructor Init()
      ensures State() == Cleared && bus == null
    {
      a, x, y := 0, 0, 0;
      status := 0;
      bus := null;
      opcode := 0;
      pc := 0;
      clockCount := 0;
      cycles := 0;
      fetchedAddress := 0;
      fetchedData := 0;
    }

    /** `cpu_connect_bus`: the bus must not be null; attaches it and changes nothing else. */
    method ConnectBus(b: Bus?)
      requires b != null
      modifies this`bus
      ensures bus == b
    {
      bus := b;
    }

    /** `cpu_free`: detaches the bus. */
    method Free()
      modifies this`bus
      ensures bus == null
    {
      bus := null;
    }

    /** `cpu_read`: reads through the attached bus; changes nothing. */
    method Read(address: u16) returns (data: u8)
      requires Connected() && address < RAM_SIZE
      ensures data == bus.ram[address]
    {
      data := bus.Read(address);
    }

    /** `cpu_write`: writes through the attached bus; only that cell changes. */
    method Write(address: u16, data: u8)
      requires Connected() && address < RAM_SIZE
      modifies bus.ram
      ensures bus.ram[..] == old(bus.ram[..])[address := data]
    {
      bus.Write(address, data);
    }

    /** `set_flag`: sets or clears one status bit; nothing else changes. */
    method SetFlag(f: Flag, on: bool)
      modifies this`status
      ensures status == WithFlag(old(status), f, on)
      ensures GetFlag(f) == if on then 1 else 0
    {
      if on {
        status := status | Mask(f);
      } else {
        status := status & !Mask(f);
      }
      assert status == WithFlag(old(status), f, on);
      assert (status & Mask(f) != 0) == on;
    }

    /** `get_flag`: 1 when the flag's bit of the status byte is set, 0 otherwise. */
    function GetFlag(f: Flag): (r: u8)
      reads this
      ensures r == 1 <==> status & Mask(f) != 0
      ensures r == 0 <==> status & Mask(f) == 0
    {
      if status & Mask(f) > 0 then 1 else 0
    }

    /** `cpu_reset`. */
    method Reset()
      requires Connected()
      modifies this
      ensures bus == old(bus)
      ensures State() == ResetState(old(State()), bus.ram[..])
    {
      ghost var mem := bus.ram[..];
      var high := Read(0xFFFC);
      var low := Read(0xFFFD);
      pc := high as int * 0x100 + low as int;
      assert pc == ResetVector(mem);
      a := 0;
      x := 0;
      y := 0;
      status := 0;
      clockCount := 0;
      cycles := Wrap8(cycles + 8);
      fetchedAddress := 0;
      fetchedData := 0;
      assert bus.ram[..] == mem;
    }

    /** `MODE_IMP`: copies A into the fetched data; no extra cycles. */
    method ModeImp() returns (extra: u8)
      modifies this`fetchedData
      ensures State() == AddressModeEffect(old(State()), IMP)
      ensures extra == 0
    {
      fetchedData := a;
      extra := 0x00;
    }

    /** Calls the addressing-mode handler a table entry names. */
    method RunAddressMode(m: AddressMode) returns (extra: u8)
      modifies this`fetchedData
      ensures State() == AddressModeEffect(old(State()), m)
    {
      match m
      case IMP =>
        extra := ModeImp();
      case ACC =>
        extra := ModeAcc();
    }

    /** Calls the opcode handler a table entry names. */
    method RunOpcode(op: Opcode) returns (extra: u8)
      ensures State() == OpcodeEffect(old(State()), op)
    {
      match op
      case ILL =>
        extra := Ill();
    }

    /** `fetch`: its guard always holds, so it loads the byte at the fetched address and returns it. */
    method Fetch() returns (data: u8)
      requires Connected() && fetchedAddress < RAM_SIZE
      modifies this`fetchedData
      ensures fetchedData == bus.ram[fetchedAddress]
      ensures data == fetchedData
    {
      if FetchGuard(Lookup(opcode).mode) {
        fetchedData := Read(fetchedAddress);
      }
      data := fetchedData;
    }

    /** `cpu_clock`: one tick; returns whether an instruction began. */
    method Clock() returns (executed: bool)
      requires Connected() && CanFetch(State(), bus.ram[..])
      modifies this
      ensures bus == old(bus)
      ensures Step(State(), executed) == Tick(old(State()), bus.ram[..])
    {
      ghost var mem, s := bus.ram[..], State();
      executed := false;
      if cycles == 0 {
        opcode := Read(pc);
        pc := Wrap16(pc + 1);
        var entry := Lookup(opcode);
        cycles := Wrap8(cycles + entry.cycles);
        ghost var fetched := State();
        var additional := RunAddressMode(entry.mode);
        var fromOpcode := RunOpcode(entry.op);
        additional := Wrap8(additional as int + fromOpcode as int);  // computed, then dropped
        executed := true;
        assert State() == OpcodeEffect(AddressModeEffect(fetched, entry.mode), entry.op);
      }
      cycles := Wrap8(cycles - 1);
      clockCount := Wrap32(clockCount + 1);
      assert bus.ram[..] == mem;
    }
  }
}
