# emulator6502 skeleton, modelled in Dafny

This project models the core of an early snapshot of a MOS 6502-style CPU
emulator written in C. The snapshot has three parts, and the model has one
Dafny module for each, plus a module for the C fixed-width integer types:

- `FixedWidth` (`fixed_width.dfy`): the `uint8_t`, `uint16_t` and `uint32_t`
  field types as integer subset types `u8`, `u16`, `u32`. Storing a result
  back into one of them wraps it explicitly (`Wrap8`, `Wrap16`, `Wrap32`).
- `CpuTypes` (`cpu_types.dfy`, from `include/cpu.h`) holds the constant data:
  - the eight status-flag masks C = 0x01 through N = 0x80;
  - the instruction descriptor: addressing mode, opcode handler and base
    cycle cost;
  - the 256-entry dispatch table, laid out as sixteen rows of sixteen.
  Handler function pointers become the enum tags `IMP`/`ACC` and `ILL`.
  `Lookup` is the table as a total function of the opcode byte.
- `MemoryBus` (`memory_bus.dfy`, from `src/bus.c`): the class `Bus` wraps an
  `array<u8>` of `RAM_SIZE` = 0xFFFF cells. It has zero-fill on creation,
  range-checked `Read` and `Write`, and the range check `AddressInRange`.
- `Processor` (`processor.dfy`, from `src/cpu.c`) has two layers:
  - The class `Cpu` holds the register file, the decode state and a
    reference to a `Bus`. Its methods are `Init`, `ConnectBus`, `Free`,
    `Read`, `Write`, `SetFlag`, `GetFlag`, `Reset`, `Fetch`, `Clock` and the
    handlers.
  - The datatype `CpuState` is the value of those fields. The functions
    `ResetState`, `Tick` and `Run` specify, on values, what `Reset` does,
    what one `Clock` call does and what n calls do. `Cpu.Reset` and
    `Cpu.Clock` are proved equal to them.
  - Lemmas about `Tick` and `Run` give the cycle-countdown behaviour. For
    example, from an instruction boundary every seven ticks begin exactly
    one instruction.

The C code keeps its CPU behind a file-static pointer (`src/cpu.c:5`). None
of the modelled functions assigns that pointer. The model uses an explicit
`Cpu` object instead.

The model keeps these behaviours of the code as written:

- Reset takes the byte at 0xFFFC as the high byte and the byte at 0xFFFD as
  the low byte of the program counter (`ResetVectorByteOrder`).
- Reset adds 8 to `cycles` (wrapping at 8 bits) instead of setting it to 8.
- Reset leaves `opcode` as it was.
- The extra-cycle values that the handlers return are computed and then
  dropped.
- The guard in `fetch` always holds (`FetchGuard`).
- `MODE_IMP` copies A into the fetched data. `MODE_ACC` does nothing.
- The bus range check accepts 0xFFFF, but the buffer has only 0xFFFF cells.
  Reads and writes therefore require `address < RAM_SIZE`, because address
  0xFFFF would index one past the buffer
  (`RangeCheckAdmitsAddressPastBuffer`).

Where this snapshot differs from a real 6502, the model follows the code:

- a real 6502 addresses 65536 bytes, where the code has 0xFFFF cells;
- a real 6502 reads its reset vector little-endian, low byte at 0xFFFC;
- after a real reset the stack pointer is 0xFD and the unused status bit is
  set, where the code has no stack pointer and clears status;
- a real 6502 charges extra cycles on page crossings, which the code drops;
- a real 6502 has many assigned opcodes and addressing modes, where this
  snapshot has only `ILL`, `MODE_IMP` and `MODE_ACC`.

## Model

| member | source | states |
|---|---|---|
| `CpuTypes.Mask` | include/cpu.h:21-30 | each flag's mask, C = 0x01 through N = 0x80, is a single nonzero bit |
| `CpuTypes.MaskIsSingleBit` | include/cpu.h:21-30 | each flag mask is exactly one bit, `1 << position`, C at bit 0 through N at bit 7 |
| `CpuTypes.MasksDisjoint` | include/cpu.h:21-30 | two flags share a bit if and only if they are the same flag |
| `CpuTypes.MasksCover` | include/cpu.h:21-30 | the eight masks OR, and also sum, to 0xFF: together they cover every bit of `status` once |
| `CpuTypes.TableShape` | include/cpu.h:69-87 | the table is 16 rows of 16 = 256 entries, and every entry is `{MODE_IMP, ILL, 7}` |
| `CpuTypes.Lookup` | include/cpu.h:69-87 | every 8-bit opcode indexes the table, and decodes to implied mode, the `ILL` handler and base cost 7 |
| `MemoryBus.AddressInRange` | src/bus.c:31-33 | the range check holds for every 16-bit address |
| `MemoryBus.RangeCheckAdmitsAddressPastBuffer` | src/bus.c:20-33 | the range check accepts an address that names no cell of the buffer if and only if that address is 0xFFFF |
| `MemoryBus.Bus.Init` | src/bus.c:6-14 | allocates a fresh buffer of `RAM_SIZE` cells, all zero |
| `MemoryBus.Bus.Write` | src/bus.c:20-23 | the new memory is the old one with only cell `address` replaced by `data`, so reading that cell gives `data` |
| `MemoryBus.Bus.Read` | src/bus.c:25-29 | returns the byte stored at `address` and changes nothing; the `0x00` fallback is never returned |
| `MemoryBus.WriteThenRead` | src/bus.c:20-29 | `Bus.Write` of `d` at `a` followed by `Bus.Read` at `b` returns `d` when `b` is `a`, and otherwise the byte `b` held before the write |
| `Processor.WithFlag` | src/cpu.c:77-80 | setting makes the flag's bit 1, clearing makes it 0, and all bits outside the mask keep their value |
| `Processor.OtherFlagsKept` | src/cpu.c:77-80 | setting or clearing one flag leaves every other named flag's bit unchanged |
| `Processor.Cpu.SetFlag` | src/cpu.c:77-80 | `status` becomes `WithFlag(old status, f, on)` and only `status` changes; afterwards `GetFlag(f)` is 1 if `on` and 0 otherwise |
| `Processor.Cpu.GetFlag` | src/cpu.c:82-84 | returns 1 if and only if the flag's bit of `status` is set, and 0 if and only if it is clear |
| `Processor.ResetVector` | src/cpu.c:22-24 | the program counter built from the two vector bytes has the byte at 0xFFFC as its high byte and the byte at 0xFFFD as its low byte |
| `Processor.ResetVectorByteOrder` | src/cpu.c:22-24 | bytes 0x80, 0x00 at 0xFFFC, 0xFFFD give PC 0x8000, while the little-endian layout 0x00, 0x80 gives 0x0080 |
| `Processor.ResetState` | src/cpu.c:21-33 | after reset: PC is the reset vector; A, X, Y, status, clock count, fetched address and fetched data are 0; cycles is (old + 8) mod 256; opcode is unchanged |
| `Processor.Cpu.Reset` | src/cpu.c:21-33 | the new register file is `ResetState` of the old one and of the memory; only the CPU's fields change, not memory or the bus reference |
| `Processor.Cpu.Init` | src/cpu.c:7-19 | every register and decode field is zero and no bus is attached |
| `Processor.Cpu.ConnectBus` | src/cpu.c:43-49 | the bus must be non-null; it becomes the attached bus and nothing else changes |
| `Processor.Cpu.Free` | src/cpu.c:35-37 | detaches the bus and changes nothing else |
| `Processor.Cpu.Read` | src/cpu.c:69-71 | returns the attached bus's byte at `address` and changes nothing |
| `Processor.Cpu.Write` | src/cpu.c:73-75 | the attached bus's memory changes at `address` only, to `data` |
| `Processor.AddressModeEffect` | src/cpu.c:96-103 | the implied mode sets the fetched data to A, the accumulator mode leaves it alone, and neither changes any other field |
| `Processor.OpcodeEffect` | src/cpu.c:92-94 | the illegal-opcode handler leaves every field of the state as it was |
| `Processor.Ill` | src/cpu.c:92-94 | the illegal-opcode handler asks for no extra cycles and touches no state |
| `Processor.ModeAcc` | src/cpu.c:101-103 | the accumulator-mode handler asks for no extra cycles and touches no state |
| `Processor.Cpu.ModeImp` | src/cpu.c:96-99 | the implied-mode handler sets the fetched data to A, changes nothing else and asks for no extra cycles |
| `Processor.Cpu.RunAddressMode` | src/cpu.c:58 | calling the addressing-mode handler a table entry names has exactly that handler's effect |
| `Processor.Cpu.RunOpcode` | src/cpu.c:59 | calling the opcode handler a table entry names has exactly that handler's effect |
| `Processor.FetchGuard` | src/cpu.c:87 | the guard "not implied or not accumulator" holds for every addressing mode |
| `Processor.Cpu.Fetch` | src/cpu.c:86-90 | always loads the byte at the fetched address into the fetched data and returns it |
| `Processor.Tick` | src/cpu.c:51-67 | instruction begins if and only if cycles was 0; clock count +1 mod 2^32. Mid-instruction: cycles -1 and nothing else changes. On a start: opcode = mem[PC], PC +1 mod 2^16, cycles = table cost - 1 = 6 (extra cycles dropped), fetched data = A, nothing else changes |
| `Processor.Cpu.Clock` | src/cpu.c:51-67 | the new register file and the returned flag are exactly `Tick` of the old register file and the memory; memory is not modified |
| `Processor.Run` | src/cpu.c:51-67 | after n ticks the clock count has grown by n mod 2^32 and at most n instructions began |
| `Processor.RunAppend` | src/cpu.c:51-67 | m ticks followed by n ticks are m + n ticks, and the instructions begun add up |
| `Processor.Countdown` | src/cpu.c:64-65 | while cycles remain, n <= cycles ticks begin nothing and only lower cycles by n and raise the clock count by n |
| `Processor.SevenTickWindow` | src/cpu.c:54-66 | from cycles = 0, each of the first 1..7 ticks has begun exactly one instruction, on the first tick; after 7 ticks cycles is 0 again and PC has advanced by one |
| `Processor.InstructionEverySevenTicks` | src/cpu.c:54-66 | from cycles = 0, 7k ticks begin exactly k instructions, end with cycles = 0 and PC advanced by k, provided the k fetches stay inside the buffer |
| `Processor.FirstInstructionAfterReset` | src/cpu.c:21-33 | after init and reset, the first 8 ticks begin nothing, and the 9th begins an instruction with the opcode at the reset vector |

## Left out

- `src/main.c` is not part of this model. It is the driver loop, the
  printing of PC and the RAM fill loop.
- Allocation failure and process exit are not modelled. This covers `malloc`,
  `exit` and the error message in `bus_init`, and `bus_free`. In Dafny,
  allocation cannot fail and there is no manual free.
- `cpu_connect_bus` prints an error and exits on a NULL bus. The model turns
  this check into the precondition `b != null`.
- `get_cpu` is not modelled. It returns the file-static CPU pointer, and the
  model passes an explicit `Cpu` object instead.
- The `name` mnemonic of each table entry is not modelled. It is diagnostic
  text only.
- `MemoryBus.Bus.Read` requires `address < RAM_SIZE`. The C range check also
  lets 0xFFFF through, but that reads one past the 0xFFFF-cell buffer.
- `MemoryBus.Bus.Write` requires `address < RAM_SIZE` for the same reason:
  writing 0xFFFF writes one past the buffer.
- `Processor.Cpu.Read` and `Processor.Cpu.Write` pass on the same
  requirement.
- `Processor.Cpu.Fetch` requires the fetched address to be below `RAM_SIZE`,
  for the same reason.
- `Processor.Tick` requires `CanFetch`: on a tick that begins an instruction,
  PC must be below the buffer size. `Processor.Cpu.Clock` and
  `Processor.Run` inherit this. The driver in `src/main.c` keeps ticking only
  while `pc < RAM_SIZE`.
- `Processor.InstructionEverySevenTicks` assumes the k fetched addresses stay
  inside the buffer. Its statement does not cover a program counter that
  reaches 0xFFFF.
- `Processor.Run` states only the clock count and a bound on instructions
  begun. The exact number begun is given by `Countdown`, `SevenTickWindow`
  and `InstructionEverySevenTicks`.
