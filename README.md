# Game Boy CPU core (Sharp LR35902) in Dafny

This project models the instruction-execution core of a Game Boy emulator written in Rust:

- the **register file**: eight byte registers A, B, C, D, E, F, H, L, the 16-bit `pc` and `sp`, and the BC/DE/HL pairs, which are composed from two byte registers on every access;
- the **flag accessors** for Z, N, H and C in bits 7 to 4 of F;
- the **memory bus**, a flat array of 0xFFFF bytes with `read` and `write`;
- the **CPU**, which owns the registers and reads and writes through the bus. It provides `fetch`, `fetch16`, `decode` and `step`, and the decode table has exactly four opcodes: 0x31 `LD SP,d16`, 0xAF `XOR A`, 0x21 `LD HL,d16` and 0x32 `LD (HL-),A`.

Layout:

- `registers.dfy` (module `Registers`): byte and word types, the `Regs` snapshot value and the `Register` class.
- `bus.dfy` (module `MemoryBus`): the `Bus` class over an `array`.
- `bits.dfy` (module `Bits`): bits of a byte. `(x >> k) & 1`, `x | (1 << k)` and `x ^ y` are written with arithmetic, and the lemmas about them are proved by induction.
- `flags.dfy` (module `Flags`): the flags and their positions in F.
- `semantics.dfy` (module `Semantics`): the reference semantics on values. It covers fetch, the four opcode handlers and one step.
- `cpu.dfy` (module `Processor`): the `Cpu` class. `Fetch`, `Fetch16`, `Decode` and `Step` are proved to change the registers and the memory exactly as `Semantics.Fetch`, `Semantics.Fetch16`, `Semantics.Execute` and `Semantics.Step` say. `SetFlag` is specified by `Flags.Raise`, `Write` by a one-cell update of the memory, and `Read` and `GetFlag` are functions.
- `runs.dfy` (module `Runs`): repeated steps, as the driving loop performs them. It holds the flag-register invariant and the first instructions of the Game Boy boot ROM.

Modelling decisions:

- Registers are integers in range (`u8`, `u16`). The source's shifts, masks, `|` and `^` are written as arithmetic on them. `Bit`, `SetBit` and `Xor` define the bit operations, and lemmas prove what they do bit by bit.
- The CPU gets its bus in its constructor and keeps a plain reference to it. The source creates the CPU with a null pointer and connects the two objects through raw pointers later.
- Run-time failures of the source become preconditions (`Semantics.CanFetch`, `CanFetch16`, `CanExecute`, `CanStep`). Two kinds are ruled out. The first is the array bounds check in `Bus::read` and `Bus::write`: it panics at address 0xFFFF in every build. The second is the debug-mode overflow check of `pc += 1`, `addr + 1` and `addr - 1`. In a release build those three expressions wrap around instead, and that wrap-around is not modelled.
- The source panics on an opcode outside the decode table. Here `decode` and `step` return the status `UnknownOpcode(op)` instead. The machine is then left as the opcode fetch left it: `pc` is one past the opcode and nothing else has changed.
- The decode table of this revision has four opcodes and no cycle counter. Opcodes the LR35902 has but this code lacks are not modelled.
- On the LR35902, `XOR A` also clears N, H and C. This code only sets Z: its handler (src/cpu.rs:156-161) calls `set_flag` for Z alone and never touches N, H or C, and the model does the same.
- The Game Boy has 0x10000 addresses. This code's memory array has 0xFFFF cells, so address 0xFFFF cannot be read or written.

## Model

| member | source | states |
|---|---|---|
| `Registers.Register.constructor` | src/cpu.rs:14-31 | Every register, `pc` and `sp` is zero at creation. |
| `Registers.Register.GetBC` | src/cpu.rs:33-36 | The high byte of BC is B and its low byte is C, so BC = B*256 + C. |
| `Registers.Register.SetBC` | src/cpu.rs:38-43 | `GetBC()` afterwards returns the value set (round trip). B becomes `data / 256` and C `data % 256`. No other register changes, including `pc`, `sp` and F. |
| `Registers.Register.GetDE` | src/cpu.rs:44-47 | The high byte of DE is D and its low byte is E. |
| `Registers.Register.SetDE` | src/cpu.rs:49-54 | Round trip through `GetDE`. Only D and E change. |
| `Registers.Register.GetHL` | src/cpu.rs:55-58 | The high byte of HL is H and its low byte is L. |
| `Registers.Register.SetHL` | src/cpu.rs:60-65 | Round trip through `GetHL`. Only H and L change. |
| `Registers.JoinSplit` | src/cpu.rs:60-65 | Splitting any 16-bit value into high and low bytes and joining them gives the value back. |
| `Registers.SplitJoin` | src/cpu.rs:55-58 | Joining two bytes and splitting the word gives back both bytes. |
| `MemoryBus.Bus.constructor` | src/bus.rs:14-19 | The new memory has exactly 0xFFFF cells, all zero. |
| `MemoryBus.Bus.Read` | src/bus.rs:25-27 | Requires `addr < 0xFFFF`, because address 0xFFFF is past the array. Returns the stored byte. As a function it cannot change memory. |
| `MemoryBus.Bus.Write` | src/bus.rs:29-31 | Afterwards `Read(addr)` returns the value written. Every other cell keeps its value. |
| `Bits.Bit` | src/cpu.rs:116-123 | `(x >> k) & 1`, defined by shifting right one place at a time. It is always 0 or 1. |
| `Bits.SetBit` | src/cpu.rs:127-132 | Or-ing `1 << k` into a byte: bit `k` is set and every other bit keeps its value. |
| `Bits.AddPowerKeepsOtherBits` | src/cpu.rs:127-132 | Adding `2^k` to a number whose bit `k` is clear changes no other bit, because nothing carries. |
| `Bits.AddPowerSetsBit` | src/cpu.rs:127-132 | Adding `2^k` to a number whose bit `k` is clear sets that bit. |
| `Bits.AddPowerInRange` | src/cpu.rs:127-132 | Or-ing a clear bit into a byte keeps the result a byte. |
| `Bits.XorBit` | src/cpu.rs:157 | Each bit of `x ^ y` is the sum modulo 2 of the two input bits. |
| `Bits.XorSelf` | src/cpu.rs:157 | `a ^ a` is zero for every `a`. |
| `Flags.Position` | src/cpu.rs:116-123 | Z, N, H and C are bits 7, 6, 5 and 4, all inside the high nibble. |
| `Flags.Raise` | src/cpu.rs:125-134 | With `conditional` false, F is unchanged, so a flag is never cleared. With it true, the flag's bit is set. In both cases the other seven bits keep their values, and a clear low nibble stays clear. |
| `Flags.RaiseIdempotent` | src/cpu.rs:125-134 | Setting an already-set flag again changes nothing. |
| `Processor.Cpu.constructor` | src/cpu.rs:75-84 | The CPU starts at power-on (all registers zero) and is connected to the given bus. |
| `Processor.Cpu.Read` | src/cpu.rs:86-90 | Returns the bus byte at `addr`. Requires `addr < 0xFFFF`. |
| `Processor.Cpu.Write` | src/cpu.rs:92-96 | The memory afterwards is the old memory with cell `addr` replaced by `data`. |
| `Processor.Cpu.GetFlag` | src/cpu.rs:116-123 | Returns 0 or 1: bit 7, 6, 5 or 4 of F for Z, N, H or C. |
| `Processor.Cpu.SetFlag` | src/cpu.rs:125-134 | F becomes `Raise(old F, flag, conditional)`. When `conditional` holds, the flag then reads 1. The other seven bits of F and every other register are unchanged. |
| `Processor.Cpu.Fetch` | src/cpu.rs:136-141 | Returns `memory[addr]` and increases `pc` by exactly 1. No other register and no memory cell changes. Requires `addr < 0xFFFF` and `pc < 0xFFFF`. |
| `Processor.Cpu.Fetch16` | src/cpu.rs:143-148 | Returns `memory[addr] + 256 * memory[addr + 1]` (little-endian) and increases `pc` by exactly 2. Memory is unchanged. |
| `Processor.Cpu.Decode` | src/cpu.rs:150-176 | The registers, the memory and the status afterwards are exactly those of `Semantics.Execute` on the state before. |
| `Processor.Cpu.Step` | src/cpu.rs:178-184 | Fetching the opcode at `pc` and decoding it changes the state exactly as `Semantics.Step`. |
| `Semantics.Fetch16` | src/cpu.rs:143-148 | The two fetches yield the little-endian word at `addr`. `pc` advances by 2, and nothing else changes. |
| `Semantics.Execute` | src/cpu.rs:150-176 | Status `Executed` holds exactly for 0x31, 0xAF, 0x21 and 0x32. Any other opcode gives `UnknownOpcode(op)` and no change. 0x31 and 0x21 load SP or HL with the little-endian word at `pc` and advance `pc` by 2, changing nothing else. 0xAF makes A zero and sets Z whatever A was. N, H, C and the low nibble keep their bits, and nothing else changes. 0x32 stores the old A at the old HL, and HL becomes old HL − 1; nothing else changes. |
| `Semantics.Step` | src/cpu.rs:178-184 | `pc` advances by the instruction's length: 3 for the two loads and 1 otherwise. So `XOR A` and `LD (HL-),A` do not move `pc` past the opcode. F either stays the same or gains Z. An unknown opcode only advances `pc` by 1. |
| `Runs.Run` | src/main.rs:42-44 | The machine after up to `n` steps. The run stops at an unknown opcode or before a step that would fault, and memory keeps its size. |
| `Runs.RunOnlyRaisesZ` | src/cpu.rs:150-184 | Along any run, F either keeps its value or gains the Z bit. No flag is ever cleared, and N, H and C are never set. |
| `Runs.PowerOnFlags` | src/cpu.rs:14-31 | From power-on, with any memory image, every reached state has F's low nibble zero and N = H = C = 0. |
| `Runs.BootRomStart` | src/main.rs:36-44 | With the boot ROM bytes `31 FE FF AF 21 FF 9F 32 CB` at address 0, four steps give SP = 0xFFFE, A = 0 with Z set, HL = 0x9FFE, 0 stored at 0x9FFF and `pc` = 8. The fifth opcode (0xCB) is unknown, so every longer run stops with `pc` = 9. |

## Left out

- `Cpu::debug` and its call at the start of `step` only print the registers. This is console output and is not modelled.
- `bus_connect`, `cpu_connect` and the null-pointer fields are not modelled. The CPU takes its bus in its constructor. The bus's back-pointer to the CPU is never used by the core.
- A step that would fault is excluded by a precondition, and `Runs.Run` stops before such a step. What the source does before aborting is therefore not modelled: for example, `LD (HL-),A` with HL = 0 writes memory and then panics on `addr - 1`.
- Release-build wrap-around of `pc += 1`, `addr + 1` and `addr - 1` is not modelled. Such a step is excluded, as in a debug build, where it panics.
- An unknown opcode is reported as a status. The source instead ends the process with a panic.
- `src/main.rs` reads the command line and the ROM file and copies its first 256 bytes to address 0. Only the result is modelled: a power-on machine over any memory image.
- `src/tests/mod.rs` (a JSON fixture loader), `src/win_sdl/mod.rs` (an SDL debugger window) and `src/utils/` (wall-clock frame and FPS counters) are I/O and timing, outside the core.
- Cycle counts, and the opcodes and flag rules absent from this revision's `decode` (0xCB prefix, JR, CALL, PUSH and others), do not exist in this code and are not invented.
