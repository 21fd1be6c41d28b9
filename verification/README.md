# A model of `sdb` and of `libmini`'s non-local jumps

`sdb` (HW4) is a ptrace debugger. It patches `0xcc` into a running program through eight-byte word
writes, saves the byte it overwrites, moves `rip` back on a hit, disarms the breakpoint that was hit, and
re-arms every breakpoint after the next single step. `libmini` (HW3) has hand-written `setjmp` and
`longjmp` that also keep the signal mask, and `sigset_t` operations on a 64-bit word. This project models
both and proves what they keep over whole runs.

Modules, in the order they build on each other:

- `Tracee`: mapped byte memory with word peeks and pokes, registers, wrap-around 64-bit addresses, and a
  processor given only by what an instruction does and which addresses can influence it. A processor is
  `Lawful` when nothing outside that footprint matters; this is the only law assumed of it.
- `Patch`: the word arithmetic of `change_byte`.
- `Sdb`: every command as a function on the debugger's whole state. `Session` is the outcome of a command:
  back at the prompt, still waiting for the process, or quit (`exit`, or a fatal ptrace error).
- `Instrumented`, `Simulation`, `Stepping`, `Editing`, `Dump`: how a patched process relates to the same
  program without a debugger, command by command.
- `Sessions`: sequences of commands of every kind. `Reference` says which undebugged program a session is
  about: a launch makes it the image's registers and memory, `set` assigns its register, `si`, `cont` and
  `run` move it on by the instructions retired, and nothing else changes it. It mentions no saved byte.
- `Transparency`, `History`, `Restart`, `Numbering`: more about sequences of commands.
- `Launches`: what the command lines alone say about a session, namely the program it loaded and the base of
  each launch, and that the debugger's state agrees, with no assumption at all.
- `Limits`: a program of two kinds of instructions, with a breakpoint where every hypothesis holds and
  with one where a single hypothesis fails.
- `Debugger`: the source's form, with fields, patches and loops in place. Each method is proved equal to
  its function in `Sdb`, so `ExecuteScript` carries every theorem about `ExecuteAll`.
- `SignalSet`, `Masks`, `NonLocalJump`, `JumpProperties`: HW3. `Masks` is the kernel's part: which bits of a
  signal mask it installs.

## Hypotheses of the debugger theorems

They are about the undebugged program, at the states of its own run, and are stated in `Simulation`.

- `UntouchedRun`: it has no int3 of its own on that run, and no instruction reads, covers or writes a
  breakpoint byte, except that the byte may be the first one of the instruction at `rip`. The theorems
  about all sessions (`SessionInvariant`, `SessionQuits`, `EverySession`, `UninstrumentAnywhere`) ask this
  of the reference program, and only at commands that let the process run.
- `LandsFair`: it reaches the address just after a breakpoint only by stepping from that breakpoint. Only
  `Transparent`, `SiAdvances`, `StepHitsExactly` and `FairNeverOvershoots` use it. `TransparentExactly`
  replaces it by an exact condition, and `ContStopsExactly` and `RunStopsExactly` need that condition of
  their leading step alone; the theorems about all sessions, the history and the numbering need nothing of
  the kind. Where a step does overshoot, the reference program has its `rip` moved back with the process.

`Tracks(s, c)` says that the stopped process of `s` is the undebugged state `c` with breakpoints planted.
`fuel` is how many hardware steps a resumed process is observed for; a process that has not stopped by
then leaves the session `Waiting`. The theorems hold for every `fuel`.

## Where the code does not do what one would expect

- A stop is taken for a hit when the byte before `rip` is an armed breakpoint, also when the program
  jumped there. `TransparentExactly` gives the exact condition, `JumpPastIsMistaken` a program.
- If the leading single step of `cont` or `si` ends the process, the debugger exits with it
  (`SiQuitsOnExit`, `ContQuitsOnExit`). `si` with no process does the same.
- `cont` with extra arguments reports an error and then continues without checking the program state.
- `longjmp` leaves the stack pointer eight below the value `setjmp` first returned with. It does not drift
  further on later jumps (`StackPointerEightLow`, `RepeatedJumps`).
- `longjmp` tests the whole of `rsi`, not the `int` in it: value 0 in a register with a non-zero upper half
  makes `setjmp` return 0 (`ReturnedValue`).
- `sigismember` squeezes the mask through an `int`: for signals 32 to 64 it can be wrong. `AnswerIsMembership`
  says exactly when. Signals 1 to 31, the ones the header names, are always right.

## Model

| member | source | states |
|---|---|---|
| Patch.PatchWordIsByteStore | HW4/util.cpp:21-30 | the masked eight-byte read-modify-write changes the addressed byte and no neighbour |
| Patch.PatchesCommute | HW4/util.cpp:21-30 | patches at two addresses commute even when their word windows overlap |
| Debugger.Debugger.ChangeByte | HW4/util.cpp:21-30 | patches one byte in place and returns the byte it replaced; the debugger exits exactly when the word cannot be accessed |
| Instrumented.ArmAllEffect | HW4/ins.cpp:112-113 | the re-arming loop succeeds exactly when every breakpoint word is readable, and then arms all and touches nothing else |
| Instrumented.ArmOrderIrrelevant | HW4/ins.cpp:112-113 | re-arming a permuted list gives the same memory |
| Instrumented.CheckBpEffect | HW4/ins.cpp:100-128 | `checkbp` answers i if and only if breakpoint i was armed at the byte before `rip`, judged before re-arming; memory stays planted and is fully armed |
| Instrumented.RestoreEffect | HW4/ins.cpp:130-155 | after `restore` the hit breakpoint alone holds its clean byte and `rip` is one back |
| Debugger.Debugger.CheckBp | HW4/ins.cpp:100-128 | the two loops compute the specified state and id, or exit |
| Debugger.Debugger.Restore | HW4/ins.cpp:130-155 | patches and rewinds the stopped process in place, logging the hit |
| Simulation.StepEffect | HW4/ins.cpp:167-170 | one step of the patched process traps at an armed breakpoint and otherwise does what the undebugged program does, leaving breakpoint bytes alone |
| Simulation.FreeRunEffect | HW4/ins.cpp:175-179 | a fully armed process resumed freely stops at the first breakpoint on its path, or follows the undebugged run to its end |
| Stepping.ReportHit | HW4/ins.cpp:194-196 | a stop behind breakpoint id's int3 returns to the breakpoint, reports that id, and leaves it the only one disarmed |
| Stepping.ReportMiss | HW4/ins.cpp:172-194 | a stop with no armed breakpoint behind it is not a hit and leaves everything armed |
| Stepping.SecondCheckAgrees | HW4/ins.cpp:172-194 | when the first `checkbp` of `cont` hits, the second returns the same id |
| Stepping.FairNeverOvershoots | HW4/ins.cpp:109-121 | stepping off a disarmed breakpoint, by a one-byte instruction too, is never taken for a hit |
| Stepping.StepHitsExactly | HW4/ins.cpp:100-128 | after a single step `checkbp` answers i if and only if the step executed breakpoint i's int3, when the program lands fairly |
| Stepping.TrapHitsExactly | HW4/ins.cpp:100-128 | after a free resumption that trapped `checkbp` answers i if and only if the undebugged run stands at breakpoint i |
| Stepping.SiAtBreakpoint | HW4/ins.cpp:635-664 | `si` at an armed breakpoint executes nothing, reports it, keeps `rip` and disarms it alone |
| Stepping.SiElsewhere | HW4/ins.cpp:635-664 | elsewhere `si` is one step of the undebugged run if and only if that step does not end just past an armed breakpoint |
| Stepping.SiAdvances | HW4/ins.cpp:635-664 | every `si` advances the undebugged run by one step, or by none exactly at an armed breakpoint, or ends the debugger with the process |
| Stepping.SiQuitsOnExit | HW4/ins.cpp:640-645 | `si` ends the debugger exactly when the stepped instruction ends the process |
| Stepping.ContElsewhere | HW4/ins.cpp:156-203 | away from armed breakpoints `cont` stops at the first breakpoint of the run, reports its exit, or is still waiting with none met |
| Stepping.ContAtBreakpoint | HW4/ins.cpp:172-196 | `cont` at an armed breakpoint executes nothing and reports it |
| Stepping.ContOvershoots | HW4/ins.cpp:167-196 | when the leading step ends just past an armed breakpoint `cont` stops there, one byte short and off the run |
| Stepping.ContLogs | HW4/ins.cpp:167-196 | away from armed breakpoints the history of `cont` is its step, the re-arming pass and the free resumption, in this order, and after a stop one more pass and the hit reported |
| Stepping.ContQuitsOnExit | HW4/ins.cpp:167-172 | `cont` ends the debugger exactly when its leading step ends the process |
| Stepping.ContStopsExactly | HW4/ins.cpp:156-203 | `cont` stops after n instructions if and only if the n-th state is the first at a breakpoint, counting the current one when armed |
| Transparency.RunStopsExactly | HW4/ins.cpp:480-505 | the same for `run`, from the entry point of the new image, under the same condition on the leading step alone |
| Editing.BreakEffect | HW4/ins.cpp:55-79 | a new breakpoint joins the end of the list armed with the clean byte saved, the program underneath unchanged; fatal exactly when unreadable |
| Editing.DeleteEffect | HW4/ins.cpp:204-226 | deleting gives the clean byte back, keeps the others armed and in order, and is never fatal |
| Editing.SetAssigns | HW4/ins.cpp:563-634 | `set` gives the named register the value, in the process and in the debugger's copy, and keeps every other register, memory and the rest of the debugger; an unknown name changes no register |
| Editing.KnownRegisters | HW4/ins.cpp:584-620 | which names besides `rip` are known |
| Editing.GetRefreshes | HW4/ins.cpp:327-344 | `get` copies the registers of the stopped process and changes nothing else |
| Editing.SetThenGet | HW4/ins.cpp:327-389 | `get` after `set` shows the value for a known name, nothing for an unknown one, and every other register as before |
| Editing.SetEffect | HW4/ins.cpp:563-634 | the undebugged program gets exactly that assignment, and no breakpoint is disturbed |
| Editing.PlantAllEffect | HW4/start.cpp:59-65 | for distinct addresses the planting loop saves the image's own bytes and arms all |
| Editing.StartEffect | HW4/start.cpp:28-69 | a restart with any image and base runs that image with every saved address planted and leaves the kind of program loaded alone; fatal exactly when one is unreadable |
| Launches.EveryPrompt | HW4/load.cpp:55-70 | at every prompt of a new debugger the status is not loaded exactly until the first usable `load`, then running exactly while there is a process; what that `load` said never changes, the base is that of the latest launch, and the copied registers are those of a process stopped since |
| Launches.EveryLaunch | HW4/start.cpp:57-65 | every launch of a session, each later one too, runs at the image's base if the first usable `load` was of a position-independent program and at 0 otherwise, with each listed breakpoint planted there; fatal exactly when one of those words is unreadable |
| Restart.RestartIsFresh | HW4/start.cpp:57-65 | restarting with a saved list equals an empty start and setting each breakpoint again, if and only if no address is saved twice |
| Restart.DeletingAllRestores | HW4/ins.cpp:222-223 | deleting all breakpoints in any order leaves the undebugged memory and registers and an empty list |
| Restart.UninstrumentAnywhere | HW4/ins.cpp:204-226 | from wherever any session of a new debugger has stopped a process, deleting all breakpoints leaves exactly the memory and registers of the reference program: the launched image, the assigned registers and the retired instructions, nothing of saved bytes |
| Transparency.TransparentExactly | HW4/ins.cpp:55-226 | any sequence of break, delete, cont, si and reading commands keeps the process on the undebugged run at every prompt, if and only if no command's single step ends just past an armed breakpoint |
| Transparency.Transparent | HW4/ins.cpp:55-226 | it always does when the program arrives just after a breakpoint only from it |
| Transparency.NeverBack | HW4/main.cpp:18-30 | a session on the undebugged run only moves forward along it: it stands at an index of the run at every earlier moment and at the same or a later one at the end |
| Sessions.CleanUnique | HW4/ins.cpp:55-79 | a patched process stands for exactly one undebugged state, recovered by putting the saved bytes back |
| Sessions.CommandFollows | HW4/ins.cpp:55-226 | one command of any kind keeps the session on the reference program, and ends the debugger exactly when it is fatal |
| Sessions.SessionInvariant | HW4/ins.cpp:55-226 | over all command sequences a stopped process is the reference program with breakpoints planted: distinct addresses, every saved byte that program's byte, at most one disarmed and that one the last hit; a process let run is it fully armed; and there is no process exactly when that program is dead |
| Sessions.SessionQuits | HW4/util.cpp:15-19 | a session ends the debugger if and only if it reaches `exit`, a new `break` or a launch on an unreadable word, a leading step that ends the process, or a resumption with no process |
| Sessions.RefusedChangesNothing | HW4/ins.cpp:204-220 | a command that is refused (wrong state, no such breakpoint, a breakpoint already there, extra arguments to `run`) leaves process, list, status and history exactly as they were |
| Sessions.RefusedDropped | HW4/main.cpp:18-30 | a session with a refused command anywhere in it ends as the one without it |
| Sessions.EverySession | HW4/main.cpp:65-91 | both for every session of a new debugger, restarts and register assignments included |
| Stepping.ResumesFullyArmed | HW4/ins.cpp:167-175 | with no assumption on the program, `cont` issues PTRACE_CONT only in a state where every breakpoint is armed |
| History.UnbrokenIsSafe | HW4/ins.cpp:112-175 | a history that never breaks the protocol has the safety property stated on its events |
| History.SessionSafe | HW4/ins.cpp:112-175 | over whole runs of any program: no free resumption, no second disarming and at most one step between a hit and the next re-arming |
| History.SafeFromTheStart | HW4/main.cpp:65-91 | the same for every session of a new debugger |
| Numbering.IdIsRank | HW4/ins.cpp:117-123 | an id is the number of surviving addresses set earlier |
| Numbering.IdsTrackSurvivors | HW4/ins.cpp:68-76 | over every session the list is the surviving addresses, once each, in the order they were set |
| Numbering.IdsFromTheStart | HW4/main.cpp:65-91 | the same for every session of a new debugger, from an empty list |
| Debugger.Debugger.SetBreak | HW4/ins.cpp:55-79 | the duplicate scan and the patch: -1 exactly for a listed address, 0 otherwise |
| Debugger.Debugger.InsDelete | HW4/ins.cpp:204-226 | the in-place deletion is the specified one; with nothing running or an id past the list nothing changes |
| Debugger.Debugger.InsSi | HW4/ins.cpp:635-664 | the in-place `si` is the specified one |
| Debugger.Debugger.InsCont | HW4/ins.cpp:156-203 | the in-place `cont` is the specified one, the skipped state check included |
| Debugger.Debugger.InsRun | HW4/ins.cpp:480-505 | `run` continues a running program, starts and continues a loaded one, and does nothing else |
| Debugger.Debugger.InsSet | HW4/ins.cpp:563-634 | assigns the named register of the stopped process and no other, or only refreshes the saved registers |
| Debugger.Debugger.InsGet | HW4/ins.cpp:327-389 | shows the named register of the stopped process, nothing for an unknown name |
| Debugger.Debugger.PlantAll | HW4/start.cpp:59-65 | the loop of `start` overwrites each saved byte while patching, as specified |
| Debugger.Debugger.Start | HW4/start.cpp:28-69 | launch, base address by the kind of program loaded, which is kept, and planting in place |
| Debugger.Debugger.InsDump | HW4/ins.cpp:264-315 | the nested loops produce the bytes of ten consecutive word peeks |
| Debugger.Debugger.InsList | HW4/ins.cpp:444-454 | prints each id with the address at that place in the list |
| Debugger.Debugger.ExecuteScript | HW4/main.cpp:18-30 | running commands one after another in place reaches the session the specification gives |
| Dump.DumpedByte | HW4/ins.cpp:299-303 | byte k of a dump is the memory byte k past the start, or all ones when its word is unreadable |
| Dump.DumpShowsProgram | HW4/ins.cpp:264-315 | each dumped byte of a readable word is the undebugged program's, except int3 at each armed breakpoint |
| Limits.JumpPastIsMistaken | HW4/ins.cpp:117-123 | a program with a jump over its breakpoint, which touches no breakpoint byte, is still moved off its run by one `si` |
| Limits.HypothesesMet | HW4/ins.cpp:100-128 | the same program meets every hypothesis for each breakpoint considered, except fair landing exactly at the byte jumped over |
| SignalSet.AddedMembers | HW3/libmini.c:319-328 | or-ing the mask in adds that signal and no other |
| SignalSet.TestSees | HW3/libmini.c:309-310 | which bits the test of `sigismember` looks at once the mask has gone through an `int` |
| SignalSet.AnswerIsMembership | HW3/libmini.c:302-311 | `sigismember` is right exactly for signals 1 to 31 and in the stated cases above |
| SignalSet.CollectedMembers | HW3/libmini.c:302-328 | after emptying and any additions the set is the valid signals added, signals 1 to 31 are answered exactly, and exactly the numbers below 1 or above 64 are refused |
| SignalSet.SigSet.SigAddSet | HW3/libmini.c:319-328 | inserts 1 to 64, refuses the rest with `EINVAL` and the set unchanged |
| SignalSet.SigSet.SigIsMember | HW3/libmini.c:302-311 | answers 0, 1 or -1, the last exactly for an invalid number, which also sets `errno` |
| Masks.BlockableReinstalls | HW3/libmini.c:375-379 | a mask that is installed keeps every bit but those of SIGKILL and SIGSTOP, which are cleared, and is unchanged exactly when it has neither |
| SignalSet.SigSet.SigEmptySet | HW3/libmini.c:313-317 | leaves no bit set |
| NonLocalJump.Thread.SigSetJmp | HW3/libmini.c:367-373 | keeps the current mask in the buffer and changes no other memory but its stack and `errno` |
| NonLocalJump.Thread.SigLongJmp | HW3/libmini.c:375-379 | installs the mask kept in the buffer, every bit of it that can be installed |
| NonLocalJump.Thread.Setjmp | HW3/libmini64.asm:117-135 | fills the buffer with the caller's callee-saved registers, entry stack pointer, return address and mask, returns 0, and keeps all other memory from the entry slot up |
| NonLocalJump.Thread.Longjmp | HW3/libmini64.asm:139-163 | lands at the saved address with the saved registers, stack pointer and mask, and the value, 1 for 0; all memory it may change is named |
| JumpProperties.RepeatedJumps | HW3/libmini64.asm:117-163 | any number of jumps on one buffer, arbitrary code between, resume the `setjmp` with the same instruction, registers and stack pointer, each with the value of its own jump; the mask is the one at `setjmp`, less SIGKILL and SIGSTOP if it had them |
| JumpProperties.FramesSurvive | HW3/libmini64.asm:117-163 | a chain of jumps from deeper frames leaves memory from the entry slot up as it was when the chain began |
| JumpProperties.StackPointerEightLow | HW3/libmini64.asm:156-163 | that stack pointer is eight below the one `setjmp` first returned with |
| JumpProperties.JumpFrame | HW3/libmini64.asm:139-163 | a jump from a deeper frame changes nothing from the entry slot up; from the same depth it overwrites that slot |
| JumpProperties.ReturnedValue | HW3/libmini64.asm:150-154 | the `int` returned is the value, or 1 for 0, exactly when a zero value fills its whole register |

## Left out

- Tokenising, number parsing, printing, `help`, `vmmap`, `disasm` and ELF parsing: a command arrives parsed, and `load` is told whether the file was usable and position-independent. A failed `sscanf`, which leaves its target uninitialised, is not modelled.
- `fork`, `execvp` and `/proc`: `start` is given the image, the registers and the base address the kernel would provide. A failed `execvp` is not modelled.
- What the kernel refuses or masks when registers are written back, such as reserved bits of `flags`.
- Stops for signals other than the trap, faults included, and a program unmapping or remapping pages under a breakpoint.
- Negative ids given to `delete`, which index outside the list.
- A failing wait after PTRACE_CONT while the process exists.
- Two processors or threads in the traced process.
- Debugger.TracedProcess.Continue: a process that never stops is seen only through the `Waiting` outcome for each number of observed steps.
- NonLocalJump.Thread.Setjmp: memory is in aligned eight-byte slots, and slots never written read as zero; page faults on the stack or the buffer are not modelled. A C function is given by its ABI: it keeps callee-saved registers, may leave anything in caller-saved ones and in the stack below its caller, and the kernel calls it makes succeed.
- `memset` inside `sigemptyset`: the set is one word here, cleared at once.
- HW3's system-call wrappers, `perror`, `sleep`, string helpers and `signal`; HW1 and HW2: thin wrappers and formatting that would only add easy members.
