# A verified model of the kernel

A model of the small real-mode kernel in three parts that rest on each other, and of the printing
routines of its user library.

**Nested execution.** A program enters the kernel by `int 80h`; service 7 loads another program
into a free 64K segment and far-calls it, and that program may do the same. All nesting levels
share one set of globals (`spbak`, `ssbak`, `suserp`, `dsuser`, `params`, the save areas). `Machine`
is the step machine, `Invariant` what holds of it, `Steps` that every step keeps it, `Runs` what
follows for runs of any length and nesting, `Launches` what a launched program finds and what its
caller is told, `Nesting` how deep runs can nest, `Example` a disk on which they do. `Kernel` is the
code itself, a class over registers, stack words, globals and tables; its invariant is that it is at
the end of a run of `Machine`, and each of its entry points is proved to take exactly one step.
`Segments` and `Processes` are the two first-fit tables; `Services` is the switch of `dispatch` over
the descriptor tables and what it writes into the kernel's data, `Listings` the records of service 9.

**The floppy block layer.** `Floppy` relates the CHS conversion and the sector loop to reading a
slice of a flat 1440K image. `Descriptors` and `KernelIo` add the descriptor tables and the
recursive read through parent descriptors.

**Read-only FAT12.** `Fat12` has the section layout and 12-bit entries, `Chains` the loader's walk
and the loaded image, `Loading` when that is the file, `Directory` entries, names, listing and
lookup, `Layouts` boot sectors and entries field by field, `FatFs` the code of fs.c over the descriptors. The format is Microsoft's "FAT: General Overview of On-Disk Format" v1.03, sections
"FAT Data Structure", "FAT Type Determination" and "FAT Directory Structure". `CString` holds the
string helpers.

**Printing.** `Decimal` and `Format`: `itoa`, `ultoa`, `vfprintf`.

Functions specify, methods are the source's loops and assignments proved against them, lemmas relate
the functions. `dafny verify dfyconfig.toml` checks everything.

## What the code does that its comments and documents do not say

- The head is computed from `lba + 1`, so a read that starts on the last sector of a track goes to
  the wrong side. The sector count ignores the starting offset, so some unaligned reads miss their
  last bytes. `Floppy.ReadIsFlatIff` states exactly which requests are right, for all of them.
- A FAT entry whose second byte lies in the next sector is completed from the stack
  (`Fat12.StraddlingEntry`), and one in the last sector of a track is read from the other side;
  `Fat12.NextClusterRoundTripIff` has both conditions.
- The root directory's sector count is rounded down where the format rounds up
  (`Fat12.DataStartIsStandardIff`). With one reserved sector, one two-sector FAT, 224 root entries
  and eight-sector clusters the data starts at sector 17 and the first cluster is read from the
  wrong side (`Fat12.FirstClusterOfCommonLayout`). The loader comes back all the same and the
  program is started with other sectors' bytes (`Example.InitIsMisread`, `Example.InitNests`); a
  file is loaded whole exactly when all its clusters are readable (`Loading.LoadsWholeIff`).
- Nothing ends the string in the request block of service 7. Without a NUL it runs on over `service`
  and `spbak` to the zero low byte of `ssbak`, is upper-cased there, and no file matches
  (`Steps.RequestIs`).
- Service 13 reads as many bytes as the block asks for, and behind the 576 bytes of the block lie
  the kernel's saved stacks. Up to 584 bytes no suspended caller's words are hit; from 585 on the
  outermost caller's stack pointer is (`Steps.ServeKeepsIff`). Reading 640 bytes from the start of
  the floppy makes `sysexit` resume with a stack read from it
  (`Services.OversizedReadLosesStack`).
- Services 11 to 13 index the descriptor tables with a number from the block without a check, and
  service 8 prints process sizes through a buffer for six digits.
- `read` decides by the kernel's table whatever the pid. "/" read for a process is right for every
  disk exactly when nothing is read or the drive's own position is the root position, give or take
  the 256 cylinders its byte can hold (`Descriptors.RootForProcessIff`); drive A delivers keystrokes
  (`Descriptors.DriveADeliversKeys`).
- `fd_list` and the processes' tables are declared with five slots while "/" is descriptor 5. Six
  are modelled.
- `list_root_files` does not stop at an end mark. The listing is the format's exactly when the
  buffer is full at the first mark or no file follows it (`Directory.ListingEndsAtMarkIff`;
  `Directory.FilesAfterMarkAreListed` is a directory where one does). Lookup ignores the extension
  and never finds a name stored with a lower-case letter.
- `strncpy` copies n+1 bytes, and its padding loop never ends once entered.
- A file of more than 16 clusters wraps around in its segment (`Chains.LaidBlocks`), and CALL FAR
  stores four bytes at 0xFFFA of the new segment, over the end of a full image.
- "%%" in a template does not print a percent sign, and `itoa` has room for six characters while
  `int` is 32 bits wide.

## Assumptions

- The run theorems are about orderly runs: every request served other than service 7 is confined.
  For services 11 to 13 the descriptor is one of 0 to 5; for service 13 the size is at most 584
  unless the descriptor is standard output; service 8 is asked for only while every live program's
  file is at most 999999 bytes long. `Steps.ServeKeepsIff` shows that, with the other two, the size
  cannot be relaxed; what a request that breaks one of the other two does is not followed.
- The volume is the one the boot sector of drive B describes (`Mountable`), with 512-byte sectors,
  eight of them a cluster, at most 256 root entries, no root sector that ends a track, the root
  directory on the disk, at most 1024 FAT sectors in all, and no file whose name or extension holds
  a NUL that keeps `strncpy` from returning (`Servable`).
- A launch needs a free segment: with none, `get_free_seg` returns an unset value, as its own comment
  says. It needs a loader that comes back: no drive error, on which the kernel halts, and a walk that
  ends. The stack bytes behind the sector buffer, which only table entries that straddle two sectors
  take in, are a parameter, the same for every read of the loader.
- How many stack words each compiled C function keeps is a parameter; `Fits` says how many there may
  be. Calls and returns, and `int` and `iret`, are balanced. What C functions leave below the stack
  pointer and in the registers is arbitrary; that it does not reach the kernel's data, which shares
  the stack's segment, is assumed.
- A program writes only its own segment and enters the kernel with its own data segment.
- A drive returns the sector asked for, or an error on which the kernel halts; keys typed are a queue.

## Model

| member | source | states |
|---|---|---|
| `Runs.SystemCallsResume` | arch/8088/kernel/dispatch.asm:104-173 | for every orderly run and every system call in it, whatever programs and system calls ran in between, its return resumes the caller with the SS, SP and DS of `int 80h`, the kernel stack globals and `suserp` as at the call, the same segments in use, the same processes in the same states, every ancestor's memory untouched, its own memory changed in the request block only, and for service 7 the right result code in that block |
| `Runs.FarCallsReturn` | arch/8088/kernel/dispatch.asm:213-283 | for every orderly run and every program launched in it, its far return brings `farcall` back with exactly the registers, SS and SP it had when entered |
| `Runs.EveryReturnResumes` | arch/8088/kernel/dispatch.asm:134-173 | every return in an orderly run ends a system call of that run and resumes its caller as above |
| `Runs.EveryExitReturns` | arch/8088/kernel/dispatch.asm:263-283 | every far return in an orderly run ends a launch of that run and restores its registers as above |
| `Runs.NeverLost` | arch/8088/kernel/dispatch.asm:104-113 | in every state of an orderly run control is not lost, at most eight programs are live, system calls never outnumber programs, `suserp` is at most 16 and so inside the ten words, and a request being served carries a pid from 1 to 8 |
| `Runs.UserModeFacts` | kernel/sched.c:13-53 | in every user-mode state of an orderly run at depth d exactly pids 1..d are live, the k-th has parent k-1 and segment 0x1000*(k+1), only the innermost is RUNNING and equals `running_proc`, exactly the first d+2 segments are used, and (`ssbak`,`spbak`) are what the innermost far call stored, `ssbak` the segment `init_seg` gives the kernel |
| `Runs.KernelSegmentIs` | arch/8088/kernel/dispatch.asm:66-110 | in every state of an orderly run the segment `init_seg` gives the kernel is taken and is none of the eight for programs; the kernel has its stack and its data there whenever it runs, ES too while it serves, and finds its stack there again from user mode |
| `Runs.KernelMemoryStays` | mm/mm.c:5-10 | over any orderly run, whatever programs write and wherever they are loaded, the memory of that segment stays as it was |
| `Runs.DispatchIsCalled` | arch/8088/kernel/dispatch.asm:104-128 | in any orderly run `int 80h` leads to `dispatch` with the service from DX and the address of the block as its arguments, the caller's 576 bytes in the block, and the kernel stack untouched above where the innermost launch left it |
| `Launches.Service7LaunchesIff` | kernel/kernel.c:131-134 | in any orderly run, the step after `int 80h` with service 7 starts a program if and only if the block holds a name, NUL included, that the directory has a file for, and otherwise returns to the caller |
| `Launches.CallerIsTold` | arch/8088/kernel/io.c:134-138 | in any orderly run, whatever happens before the matching return, the byte the user library's `run_program` returns is 0 if a program was started and 1 if not |
| `Launches.LaunchedProgramIsLoaded` | kernel/kernel.c:169-202 | in any orderly run, a program that starts at depth d finds the image the loader built, right or wrong, in the segment of that depth, four bytes of return address apart, is registered under the upper-cased request with the size from the directory, and has its stack there |
| `Launches.LaunchedFileIsRead` | fs/msdos/fs.c:330-357 | the first directory entry that is a file's and stored under the upper-cased request decides: if the loader's walk from the cluster in it takes at most 15 clusters, the start of that segment is what was read of them, in order, and the process has the size in it |
| `Launches.LaunchedFileIsWhole` | fs/msdos/fs.c:330-357 | if moreover all clusters of the chain from that cluster are readable, that is the disk bytes of its clusters in chain order |
| `Runs.WritesConfined` | kernel/kernel.c:101-202 | one step of any orderly run changes no segment of memory but one: the innermost program's, by itself or by the copy back of its block, or the first free one, by a launch; a suspended ancestor is never written |
| `Runs.IdleIsClean` | kernel/kernel.c:95-98 | in an orderly run, whenever the loop of `startk` goes round, all program segments and process slots are free again |
| `Runs.NoNinthLaunch` | mm/mm.c:36-48 | with eight programs live every segment is taken, and a request for a ninth is where the run ends |
| `Nesting.NestsIff` | kernel/kernel.c:95-98 | for every d from 1 on, there is an orderly run in which d programs are live at once and which comes back to the loop of `startk`, if and only if d is at most eight, init is in the directory and the loader's walk over it ends |
| `Nesting.StaysIdle` | kernel/kernel.c:95-98 | if init cannot be loaded, every state of every orderly run is in that loop |
| `Nesting.Unwinds` | kernel/kernel.c:302-322 | from any user state a run has come to, whatever its depth, the run goes on to end every program and back into the loop |
| `Example.InitNests` | Makefile:46-48 | the assumptions about volume and compiler can be met by a disk laid out as the Makefile does it, with its label and init as mcopy leaves it, and on it, whatever lies on the stack, programs nest to every depth |
| `Example.InitIsMisread` | Makefile:46 | on that disk init is read from the wrong sectors |
| `Runs.RunInv` | kernel/kernel.c:101-322 | the invariant over stacks, tables and snapshots holds after every step of every orderly run, of any length and nesting |
| `Runs.CallerStays` | arch/8088/kernel/dispatch.asm:104-120 | in an orderly run, between a system call and its return the call stays outstanding on its level, unchanged |
| `Runs.CallStays` | arch/8088/kernel/dispatch.asm:237-239 | in an orderly run, between a launch and its exit the registers that far call saved stay outstanding on their level |
| `Runs.HistoryStep` | arch/8088/kernel/dispatch.asm:104-173 | what a step adds to or removes from the outstanding calls |
| `Invariant.FitsIff` | arch/8088/kernel/dispatch.asm:25-32 | the kernel stack has room for eight nested programs and a system call exactly when the compiled frames satisfy one linear inequality |
| `Steps.StepKeeps` | arch/8088/kernel/dispatch.asm:40-283 | every step of the machine keeps the invariant and does not lose control, a served request being confined |
| `Steps.SyscallKeeps` | arch/8088/kernel/dispatch.asm:40-132 | `int 80h` keeps the invariant: the caller's stack is saved in a slot of its own |
| `Steps.ServeKeeps` | kernel/kernel.c:101-167 | a service other than 7 keeps the invariant when its request is confined |
| `Steps.ServeKeepsIff` | kernel/kernel.c:101-167 | serving a request inside the tables keeps the invariant whatever is read into the kernel's data if and only if at most 584 bytes are read |
| `Steps.RequestIs` | kernel/kernel.c:131-132 | service 7 looks up the string that starts in its caller's block; one that runs on behind the block matches no file |
| `Steps.StringFromBlock` | lib/utils.c:12-18 | the string a request starts with is the one in the block, or at least as long as the block |
| `Machine.InitIsSpelled` | kernel/kernel.c:97 | the first program asked for is "init" |
| `Steps.ReturnKeeps` | arch/8088/kernel/dispatch.asm:134-173 | the return of a system call keeps the invariant |
| `Steps.ExitKeeps` | arch/8088/kernel/dispatch.asm:263-283 | a program's far return keeps the invariant |
| `Steps.ExitRestoresCall` | arch/8088/kernel/dispatch.asm:263-283 | a far return from any state with the invariant restores the registers of the innermost outstanding far call |
| `Steps.BootKeeps` | kernel/kernel.c:95-98 | a round of the loop of `startk` keeps the invariant |
| `Steps.RunKeeps` | kernel/kernel.c:131-134 | service 7 keeps the invariant, found or not found |
| `Steps.LaunchKeeps` | kernel/kernel.c:272-322 | with a free segment a launch is refused and changes nothing, or leads one level deeper, and is refused exactly when the request is not found |
| `Steps.LaunchNeverBreaks` | kernel/kernel.c:169-202 | with a free segment the launch gets segment d+2 and process slot d, so `register_proc` never fails, and the stack has room |
| `Steps.FinishKeeps` | kernel/kernel.c:302-322 | the rest of `run_program` and its caller after a program ended keeps the invariant: its process and segment are released, the caller runs again with result 0 |
| `Kernel.Kernel.constructor` | kernel/kernel.c:86 | the kernel with its segment table initialised and no process is where the machine starts |
| `Kernel.MountAll` | kernel/kernel.c:81-92 | opening standard output, mounting, opening standard input leaves the configured volume mounted and "/" where its boot sector says |
| `Kernel.LoadFile` | kernel/kernel.c:181-193 | on the configured volume the file system's code comes to LoadProgram, clusters that are misread included, and is ready for the next launch |
| `Kernel.OpenStreams` | kernel/kernel.c:300-301 | opens standard input and output in the new process's table and nothing else |
| `Kernel.Kernel.Int80` | arch/8088/kernel/dispatch.asm:40-132 | the handler takes exactly the machine's system call step, from every reachable state |
| `Kernel.Kernel.SysExit` | arch/8088/kernel/dispatch.asm:128-173 | the way back from dispatch takes exactly the machine's return step |
| `Kernel.Kernel.Exit` | arch/8088/kernel/dispatch.asm:263-283 | the code after CALL FAR takes exactly the machine's exit step |
| `Kernel.Kernel.Boot` | kernel/kernel.c:95-98 | a round of the loop takes exactly the machine's boot step |
| `Kernel.Kernel.Serve` | kernel/kernel.c:101-167 | a service other than 7 with a confined request takes exactly the machine's serving step; what it does to the descriptor tables and leaves from the block on is what Effected and, for service 9, WithListing say, and the volume stays mounted for the next launch |
| `Kernel.Kernel.StoreData` | arch/8088/kernel/dispatch.asm:290-298 | bytes written from the block on go to the block, then to `spbak`, `ssbak`, the save areas, `suserp` and `dsuser` in the order declared |
| `Kernel.Kernel.Run` | kernel/kernel.c:131-134 | service 7, found, misread or refused, takes exactly the machine's launch step |
| `Kernel.Kernel.Finish` | kernel/kernel.c:302-322 | `run_program` after its program takes exactly the machine's finishing step |
| `Kernel.Kernel.Work` | arch/8088/kernel/dispatch.asm:241-257 | a program between two kernel entries changes its registers and its own segment |
| `Kernel.Kernel.CopyIn` | arch/8088/kernel/dispatch.asm:81-85 | the first word-copy loop leaves the caller's 576 bytes in the block, the source offset wrapping in its segment |
| `Kernel.Kernel.CopyOut` | arch/8088/kernel/dispatch.asm:137-146 | the second word-copy loop changes the caller's segment in those 576 places only |
| `Kernel.Kernel.SwitchToKernelStack` | arch/8088/kernel/dispatch.asm:104-114 | the program's SS and SP go to a new slot of the save areas, the kernel's come from its globals |
| `Kernel.Kernel.SwitchToUserStack` | arch/8088/kernel/dispatch.asm:158-167 | the kernel's SS and SP go to its globals, the program's come back from the top slot, which is freed |
| `Kernel.Kernel.FarCall` | arch/8088/kernel/dispatch.asm:213-257 | what `farcall` leaves on the stack, in its globals and in the program's segment |
| `Kernel.Kernel.RestoreRegisters` | arch/8088/kernel/dispatch.asm:263-283 | every register comes back from the place it was pushed to |
| `Kernel.Kernel.LoadProcess` | kernel/kernel.c:169-202 | `load` over the segment table, the process table and the file system: a segment is taken whatever happens; a process and the image only when the file was found |
| `Kernel.Kernel.RunProgram` | kernel/kernel.c:272-302 | `run_program` up to the far call comes to the machine's launch, the new process's streams opened on the way |
| `Kernel.Kernel.EndService7` | kernel/kernel.c:131-134 | the result goes into the block and the caller's pid, kept on its own stack frame, runs again |
| `Kernel.Kernel.FreeProgram` | kernel/kernel.c:317-321 | pid and segment kept on the stack are the ones freed |
| `Segments.SegsArePushedAndPopped` | mm/mm.c:37-69 | on a table whose first n segments are used, first fit takes the n-th, release of the newest undoes it, and take then release is the identity |
| `Segments.FirstFree` | mm/mm.c:40-45 | the lowest-index free segment, none exactly when all are used |
| `Segments.SegmentTable.InitSeg` | mm/mm.c:5-35 | the table after `init_seg`: ten addresses, two segments taken |
| `Segments.SegmentTable.GetFreeSeg` | mm/mm.c:37-48 | takes the lowest-index free segment; with none free nothing changes and the uninitialised variable is returned |
| `Segments.SegmentTable.ReleaseSeg` | mm/mm.c:50-69 | frees the first segment at that address, and nothing when there is none |
| `Processes.FirstSlot` | kernel/sched.c:36-37 | the lowest-index free slot, none exactly when all nine are taken |
| `Processes.ProcessTable.InitProcesses` | kernel/sched.c:13-19 | every slot free, nobody running, the rest of the slots unchanged |
| `Processes.ProcessTable.SetRunningProc` | kernel/sched.c:21-28 | the process running before becomes READY, the named one RUNNING |
| `Processes.ProcessTable.RegisterProc` | kernel/sched.c:34-53 | the lowest-index slot gets the process with pid index + 1; -1 and no change exactly when all are taken |
| `Processes.ProcessTable.UnregisterProc` | kernel/sched.c:55-58 | frees the slot of that pid and nothing else |
| `Steps.ProcsPushed` | kernel/sched.c:34-53 | registering and running the next program extends the chain of parents by one |
| `Steps.ProcsPopped` | kernel/sched.c:21-58 | unregistering the last and running its parent shortens it by one |
| `Floppy.ReadIsFlatIff` | kernel/kernio.c:189-261 | a device read equals a slice of the flat image for every disk, every old buffer and every stack content if and only if it is empty, or starts off the last sector of a track and its offset does not push it into one more sector than the loop fetches |
| `Floppy.ExactRequestReadsSlice` | kernel/kernio.c:189-261 | on those requests the buffer receives image[pos..pos+count] and keeps the rest |
| `Floppy.ReadStaysInside` | kernel/kernio.c:214-260 | exact or not, a read never changes the buffer from index `count` on |
| `Floppy.ChsExactIff` | kernel/kernio.c:9-14 | for every geometry whose cylinder fits a byte, the conversion reassembles to the block exactly when there is one head or the block is not the last of its track |
| `Floppy.StartExactIff` | kernel/kernio.c:9-14 | for the 18-sector two-head drive the start is exact except on the last sector of a track, where the other side is named |
| `Floppy.CarryVisitsNext` | kernel/kernio.c:214-236 | from a cursor denoting block l the carry and read deliver block l, and the next cursor denotes l+1, across heads and cylinders |
| `Floppy.FetchIsConsecutive` | kernel/kernio.c:214-260 | n passes from a cursor denoting block l fetch blocks l..l+n of the flat image |
| `Floppy.AssembleIsSlice` | kernel/kernio.c:247-259 | the copies made from fetched sectors are exactly the wanted slice, stale tails being overwritten by the next pass |
| `Floppy.PassesKeepTail` | kernel/kernio.c:247-259 | bytes past what the fetched sectors cover keep their old contents |
| `Floppy.BadStartIsWrong` | kernel/kernio.c:9-14 | a request starting on the last sector of a track is answered wrongly for some disk |
| `Floppy.BadSpanIsWrong` | kernel/kernio.c:198-209 | a request needing one more sector than is fetched is answered wrongly for some disk and buffer |
| `Floppy.ReadDevice` | kernel/kernio.c:189-261 | the device branch of `read` in place: the buffer is what the specification gives, or the BIOS failed |
| `Floppy.SectorLoop` | kernel/kernio.c:214-260 | the sector loop in place, one BIOS call and one copy a pass |
| `Floppy.ReadOneSector` | kernel/kernio.c:214-259 | one pass: carry, sector read, copy of at most 512 bytes, counters |
| `Floppy.NextTrack` | kernel/kernio.c:216-222 | the carry as the code performs it is the specified one |
| `Services.ReadStaysBelowIff` | kernel/kernel.c:153-156 | a drive read of a given size never changes anything from a bound on, for every disk, stack and position, exactly when the size is at most the bound: 576 for the block, 584 for what suspended callers rely on |
| `Services.ReadServiceIsServe` | kernel/kernel.c:153-156 | what service 13 leaves in memory from the block on, the saved stacks included, is where the machine's serving step leads, on any descriptor |
| `Services.OverwrittenIsWrite` | arch/8088/kernel/dispatch.asm:290-298 | writing any number of bytes from the block on changes exactly the variables declared behind it |
| `Services.ReadWritesAtMost` | kernel/kernio.c:116-273 | no descriptor changes the buffer past the requested count |
| `Services.FieldsOfRequest` | include/sysdef.h:28-40 | size, descriptor and offset of a request laid out as the library does are what the kernel reads at 512, 516 and 520 |
| `Services.AcceptedRequests` | kernel/kernel.c:150-156 | which requests the machine follows, in the numbers of the request: descriptors below six, process sizes that print in six characters; and a read writes as far as its size asks, 576 bytes at least, standard output excepted |
| `Services.StreamEffects` | kernel/kernel.c:150-156 | services 11, 12 and 13 close, seek and read the descriptor stored, at the offset and with the size stored, all of them full 32-bit numbers |
| `Services.OpenEffect` | kernel/kernel.c:145-149 | service 10 opens the path the request starts with and stores its descriptor, -1 as four bytes 0xFF, where the library looks for it |
| `Services.PathInRequest` | kernel/kernel.c:146 | that path is the string at the start of the data |
| `Services.OtherEffects` | kernel/kernel.c:105-167 | service 6 puts the first key typed into the first byte of the block; 1 and 2 do not come back; the rest but 7 and 9 change neither tables nor memory |
| `Services.EffectIsCall` | kernel/kernel.c:144-156 | for a request laid out as the library does, services 10 to 13 act on the tables as the open, close, seek and read of the table runs with those numbers, and come back exactly when those do |
| `Services.EffectKeepsRoot` | kernel/kernel.c:101-167 | whatever service a process asks for, the parent links stay and descriptor 5 stays at the root directory |
| `Services.ServeTables` | kernel/kernel.c:101-167 | the switch of `dispatch` for every service but 7 and 9: tables and memory from the block on are as specified, or the call does not come back |
| `Services.ListRoot` | kernel/kernel.c:138-143 | service 9 opens the root directory anew and lists the first files of it, as many as fit the buffer, wherever descriptor 5 stood before |
| `Services.ListingInBlock` | kernel/kernel.c:138-143 | after service 9 the block holds the number of records, at most 18, and as its k-th record the k-th entry of the directory that is a file's; nothing behind is touched |
| `Services.ServeListing` | kernel/kernel.c:138-143 | that is what the service leaves, in place |
| `Listings.RecordReadsBack` | include/sysdef.h:42-55 | a program gets back every field of a record: both strings, both flags, the size and the six numbers of the date and time |
| `Listings.RecordInBlock` | fs/msdos/fs.c:185-246 | the i-th record lies at 28*i whatever is stored after it |
| `Listings.PutRecord` | fs/msdos/fs.c:211-238 | the assignments of one record change exactly its fields |
| `Listings.PutRecords` | fs/msdos/fs.c:185-246 | record after record they give the laid out listing |
| `Services.ViewsLie` | arch/8088/kernel/dispatch.asm:290-298 | the strings and requests services work on are the kernel's memory from the block on |
| `Services.Dispatch` | kernel/kernel.c:101-167 | the same with service 9; "/" stays where the volume has it |
| `Services.OversizedReadLosesStack` | kernel/kernel.c:153-156 | a read of 640 bytes from the start of drive B makes `sysexit` resume with SS and SP taken from bytes 604 and 584 of the disk |
| `Descriptors.OpenIs` | kernel/kernio.c:16-78 | path by path, what open does to the table of the process it is for, and that nothing else changes |
| `Descriptors.ReadsTerminateInEveryRun` | kernel/kernio.c:116-273 | after startup, in every state reached by user calls with a non-zero pid and a descriptor of the table and by the kernel's own calls, following parent links ends within two levels for all six descriptors, so every read ends, and descriptor 5 has the offset of the root directory |
| `Descriptors.StdinMustStayOpen` | kernel/kernio.c:38-44 | without opening stdin, or after closing it on the kernel's behalf, descriptor 0 is its own parent and no number of levels suffices |
| `Descriptors.ReadKeepsLinks` | kernel/kernio.c:116-273 | a read changes positions only: all parent links stay, and the root descriptor's offset |
| `Descriptors.RootFdReadsSlice` | kernel/kernio.c:168-171 | a read of "/" delivers the flat slice at the kernel's root offset and position for pid 0, and at the drive descriptor's own position for any other pid |
| `Descriptors.RootForProcessIff` | kernel/kernio.c:168-171 | a read of "/" is right for every disk exactly when it is empty, or the kernel asks, or the drive's position is the root position modulo 256 cylinders |
| `Descriptors.DeviceFdReadsSlice` | kernel/kernio.c:173-271 | a read of the drive delivers the flat slice at its position and moves it by count, whoever asks |
| `Descriptors.DriveADeliversKeys` | kernel/kernio.c:168-171 | a read of "/dev/fda" takes keystrokes, because the kernel never opens that descriptor |
| `KernelIo.Kernio.Open` | kernel/kernio.c:16-78 | assigns the fields that path assigns in the table the pid selects; -1 and no change for an unknown path |
| `KernelIo.Kernio.Close` | kernel/kernio.c:81-98 | clears that descriptor only |
| `KernelIo.Kernio.Lseek` | kernel/kernio.c:101-114 | moves that descriptor only |
| `KernelIo.Kernio.Read` | kernel/kernio.c:117-273 | the recursive read in place: buffer, tables and keys are what the specification gives, or the call does not come back |
| `KernelIo.Kernio.ReadLeaf` | kernel/kernio.c:173-272 | the same for a descriptor without a parent |
| `Fat12.NextClusterRoundTripIff` | fs/msdos/fs.c:109-137 | entry c of a packed table that starts on a sector boundary and fits a track is read back from every volume storing it, whatever lies on the stack, if and only if (c + c/2) % 512 is not 511 and its sector does not end a track |
| `Fat12.PackRoundTrip` | fs/msdos/fs.c:117-135 | for every table packed as in "FAT Type Determination" the masking and shifting recovers entry c, even and odd |
| `Fat12.NextClusterIsDiskEntry` | fs/msdos/fs.c:109-137 | on any volume the seek and two-byte read deliver the entry the format defines, when its bytes share a sector |
| `Fat12.StraddlingEntry` | fs/msdos/fs.c:109-137 | otherwise the second byte comes from the stack behind the sector buffer |
| `Layouts.BootSectorIsParsed` | include/fs/fs.h:11-35 | whatever the rest of a boot sector holds, its sector size, cluster size, reserved sectors, FATs, root entries and FAT size are what the kernel takes for them |
| `Fat12.SectionsAreStandard` | fs/msdos/fs.c:28-33 | for every boot sector the FATs begin behind the reserved sectors, the root directory behind all FATs, and the data behind the whole sectors of the root directory |
| `FatFs.MountedIs` | fs/msdos/fs.c:21-35 | mounting any disk gives the six fields of its boot sector and those three positions, in 32 bits |
| `FatFs.TwoFats` | fs/msdos/fs.c:21-35 | on a boot sector with two FATs of two sectors they are 512, 2560 and 9728 |
| `FatFs.RootIs` | kernel/kernio.c:69-78 | "/" begins where the root directory does and is as long as its whole sectors |
| `Fat12.DataStartIsStandardIff` | fs/msdos/fs.c:28-33 | the data section is where "FAT Data Structure" puts it exactly when the root directory fills whole sectors |
| `FatFs.ClusterReadIff` | fs/msdos/fs.c:67-96 | `read_cluster` returns cluster n's sectors from every disk, every stack and into every buffer exactly when the first of them is not the last of its track |
| `FatFs.EvenClustersAreRead` | fs/msdos/fs.c:28-96 | with an even data section and an even cluster size `read_cluster` returns the sectors from data start + cluster size * (n-2) on, for every cluster on the disk |
| `Fat12.EightSectorClustersExactIff` | fs/msdos/fs.c:67-96 | with eight-sector clusters any nine consecutive clusters are all readable exactly when the data section starts at an even sector |
| `Fat12.FirstClusterOfCommonLayout` | fs/msdos/fs.c:28-33 | one reserved sector, one two-sector FAT and 224 root entries put the data at sector 17, where the first cluster is not readable |
| `Chains.ChainExistsIff` | fs/msdos/fs.c:330-357 | the loader's walk from a cluster, over the entries it really gets, ends exactly when the search that gives up on a repeated cluster succeeds, and both name the same clusters |
| `Chains.ChainIsAcyclic` | fs/msdos/fs.c:338-353 | a walk that ends visits no cluster twice |
| `Chains.ChainIsUnique` | fs/msdos/fs.c:338-353 | the entries delivered and a first cluster determine the walk |
| `Chains.ImageOfShortChain` | fs/msdos/fs.c:330-357 | what is read of at most 16 clusters ends up in the segment whole, in walk order, the rest untouched |
| `Chains.BlockWhateverBuffer` | fs/msdos/fs.c:67-96 | what `read_cluster` leaves, right or wrong, does not depend on what its buffer held |
| `Loading.LoadsWholeIff` | fs/msdos/fs.c:330-357 | for every table and every chain in it of at most 16 clusters: the loader follows exactly that chain and reads exactly its clusters, from every disk storing the table and with every stack, if and only if each cluster's entry shares a sector, and neither that sector nor the cluster's first ends a track |
| `Loading.BlockIsFrom` | fs/msdos/fs.c:67-96 | right or wrong, `read_cluster` leaves eight consecutive sectors: from the cluster's first on or, when that ends a track, from the last of the other side on |
| `Chains.LaidBlocks` | fs/msdos/fs.c:344-346 | for any number of clusters, 4096-byte place b holds the last cluster whose index is b modulo 16 |
| `Chains.FewBlocksAreConcat` | fs/msdos/fs.c:344-346 | up to 16 blocks are laid down as their concatenation |
| `FatFs.NotFoundIff` | kernel/kernel.c:181-186 | a request is refused exactly when no file's base name is its upper-cased spelling |
| `FatFs.LowestMatchIsLoaded` | kernel/kernel.c:181-193 | otherwise the lowest-index entry that is a file's of that name is loaded: what the walk from the cluster stored in it reads, in order |
| `FatFs.MountedIsAligned` | fs/msdos/fs.c:21-35 | with 512-byte sectors every mounted volume has its sections on sector boundaries |
| `FatFs.LoadToMemory` | kernel/kernio.c:415-444 | the word copy between segments writes exactly that block, for every even count from 2 on |
| `FatFs.FatFs.SeekRead` | fs/msdos/fs.c:92-93 | seek and read on the drive move only its descriptor and deliver the device read |
| `FatFs.FatFs.ReadBootSector` | fs/msdos/fs.c:21-35 | with nothing but the drive open, the globals become the parameter block and sections of the first sector |
| `FatFs.FatFs.Mount` | kernel/kernio.c:330-352 | drive, boot sector, FAT, then "/" at the position and size the boot sector gives |
| `FatFs.FatFs.StartUp` | kernel/kernel.c:81-92 | from zeroed tables the opens and the mount of `startk` lead to the startup tables, drive position apart, with descriptor 5 at the root directory |
| `FatFs.FatFs.ReadCluster` | fs/msdos/fs.c:67-96 | the cluster buffer is what a device read at the computed position gives |
| `FatFs.FatFs.GetNextCluster` | fs/msdos/fs.c:109-137 | the seek, two-byte read and masking give the next cluster of the specification |
| `FatFs.FatFs.LoadFileContent` | fs/msdos/fs.c:330-357 | on a walk that ends the loop returns with the image of what is read of its clusters over the old segment |
| `FatFs.FatFs.Load` | kernel/kernel.c:169-193 | lookup and load in place come to exactly what LoadProgram gives, and leave the file system as they need it |
| `Directory.UnpadIff` | fs/msdos/fs.c:360-381 | extraction undoes space padding exactly for names without spaces and NULs |
| `Directory.ListingIsFirstFiles` | fs/msdos/fs.c:200-246 | a listing is the first min(capacity, total) files in disk order; an end mark does not stop it |
| `Directory.ListingEndsAtMarkIff` | fs/msdos/fs.c:200-212 | a listing agrees with one that ends at the first end mark exactly when the buffer is full by then or no file follows the mark |
| `Directory.FilesAfterMarkAreListed` | fs/msdos/fs.c:200-212 | an end mark with one file after it, and the file is listed |
| `Layouts.TypeOfEntry` | fs/msdos/fs.c:383-408 | for every entry: deleted, end, last part of a long name, volume label or file, by its first byte, attributes, cluster and reserved byte; a file exactly when the first byte is neither 0xE5 nor 0 and VOLUME_ID is not among the attributes |
| `Layouts.CopiedFileAndLabel` | Makefile:46-48 | an entry with the archive attribute alone is a file, one with the volume attribute alone a label |
| `Layouts.AttributeBits` | fs/msdos/fs.c:98-107 | the six bits of the attribute byte are the six attributes |
| `Layouts.FieldsOfEntry` | include/fs/fs.h:37-46 | name, extension, attributes, time, date, cluster and size of an entry are read where they are stored |
| `Layouts.ClusterOfEntry` | fs/msdos/fs.c:338 | the loader starts at the cluster stored in the entry, all 16 bits of it |
| `Layouts.RecordOfEntry` | fs/msdos/fs.c:211-238 | the listing shows an entry's names, directory and read-only attributes, size, and date and time |
| `Layouts.StampUnpacks` | fs/msdos/fs.c:229-236 | every date and time packed as the format does comes out again |
| `Layouts.EveryEntryIsLaid` | include/fs/fs.h:37-46 | every 32 bytes are an entry with some fields, so nothing is left out by speaking of fields |
| `Layouts.FilesOfEntries` | fs/msdos/fs.c:200-212 | the files of a directory are its entries that are files', in order, each as its record |
| `Layouts.FirstMatchOfEntries` | fs/msdos/fs.c:411-441 | a lookup finds the first entry that is a file's with that base name, and none exactly when there is none |
| `Layouts.RequestFindsIff` | fs/msdos/fs.c:411-441 | an entry answers an upper-cased request exactly when it is a file's, its stored base name has no lower-case letter and the request spells it in some case |
| `Directory.LookupIgnoresCase` | kernel/kernel.c:182-183 | requests differing in letter case find the same entry |
| `Directory.FirstMatch` | fs/msdos/fs.c:417-440 | the lowest-index match from an index on, none exactly when there is none |
| `Directory.FoundNameIsShort` | kernel/sched.c:46 | a name that was found fits the process table's name field |
| `Directory.ExtractField` | fs/msdos/fs.c:363-378 | one copied field is its characters up to the first space, NUL-terminated |
| `Directory.ExtractFileName` | fs/msdos/fs.c:360-381 | both buffers hold the base name and the extension |
| `Directory.NamesReturnIff` | fs/msdos/fs.c:360-381 | extraction returns exactly when no NUL comes before the seventh byte of the name's and the second of the extension's field |
| `Directory.RootReadableIff` | fs/msdos/fs.c:141-173 | the whole directory is read right exactly when none of its sectors ends a track |
| `Directory.GetFile` | fs/msdos/fs.c:411-441 | 0 and the lowest-index matching file, or -1 exactly when there is none |
| `FatFs.FatFs.GetRootNextFile` | fs/msdos/fs.c:175-183 | the i-th call yields the 32 bytes at root start + 32*i, and calls fail exactly from entry count on |
| `FatFs.FatFs.GetRootFiles` | fs/msdos/fs.c:141-173 | the cache holds every entry in order |
| `FatFs.FatFs.ListRootFiles` | fs/msdos/fs.c:185-251 | the loop ends with the specified listing in the buffer and its length returned |
| `FatFs.FatFs.Find` | kernel/kernel.c:181-183 | reading the directory, upper-casing and searching find the first match of the upper-cased request, as often as asked |
| `CString.StrNCpyReturnsIff` | lib/string.c:13-26 | `strncpy` returns if and only if the first n-1 source bytes are not NUL: otherwise its padding loop never advances |
| `CString.StrNCpy` | lib/string.c:13-26 | where it returns, it has copied up to and including index n or the NUL before it |
| `CString.CompareIsEquality` | lib/string.c:28-36 | the comparison is 0 exactly on equal strings and changes sign with its arguments |
| `CString.DecidedAt` | lib/string.c:28-36 | the first byte that differs decides the order |
| `CString.StrCmp` | lib/string.c:28-36 | the loop computes that comparison |
| `CString.StrCpy` | lib/string.c:4-12 | the string and its NUL are copied and nothing else changes |
| `CString.StrLen` | lib/string.c:71-75 | the number of bytes before the first NUL |
| `CString.MemCpy` | lib/string.c:78-84 | the destination with the source written over it |
| `CString.UpperIdentifiesIff` | lib/ctype.c:3-19 | two strings have the same upper-case form exactly when they differ in letter case only |
| `CString.LettersOfCase` | lib/ctype.c:3-19 | the letters that change are the 26 ASCII ones of either case, each to its partner |
| `Bytes.ReadsBack16` | include/fs/fs.h:11-46 | two bytes read as a 16-bit number exactly when they are its bytes, lowest first |
| `Bytes.ReadsBack32` | include/fs/fs.h:11-46 | four bytes read as a 32-bit number exactly when they are its bytes, lowest first |
| `Bytes.Parts32` | include/fs/fs.h:11-46 | those bytes are its digits in base 256 |
| `CString.StoUpper` | lib/utils.c:12-18 | the string in place in upper case, nothing after it changed, although its length is measured on every pass |
| `Decimal.TextParses` | lib/stdlib.c:4-23 | what is printed for a number is a numeral and parses back to it |
| `Decimal.TextIsOnly` | lib/stdlib.c:4-23 | no other numeral has that value: no leading zero, no lone or doubled sign |
| `Decimal.DigitsAreSpelled` | lib/stdlib.c:9-20 | digits and sign are the ASCII ones |
| `Decimal.ItoaFitsIff` | lib/stdlib.c:5-7 | six characters are enough exactly from -99999 to 999999 |
| `Decimal.UltoaFits` | lib/stdlib.c:26-28 | ten characters are enough for every 32-bit value |
| `Decimal.LengthIff` | lib/stdlib.c:9-12 | a number has at most k digits exactly when it is below 10 to the k |
| `Decimal.PutNegativeDigits` | lib/stdlib.c:16-20 | the loop over negative remainders writes the digits of the magnitude |
| `Decimal.PutDigits` | lib/stdlib.c:9-12 | the loop writes the digits most significant first, ending where it should |
| `Decimal.Itoa` | lib/stdlib.c:4-23 | the returned string is the decimal text of the number |
| `Decimal.Ultoa` | lib/stdlib.c:25-44 | the same for every 32-bit value |
| `Decimal.Uitoa` | kernel/kernio.c:308-319 | the same for the kernel's own routine up to 999999 |
| `Format.SpelledPiecesPrint` | lib/stdio.c:58-95 | any sequence of characters, strings and numbers, spelled as a template with its arguments, prints as their texts |
| `Format.DirectivePrints` | lib/stdio.c:67-90 | "%s" and "%d", after any text without a percent sign, print that text and their argument |
| `Format.DefinedIff` | lib/stdio.c:67-90 | a call is defined exactly when every directive has a fit argument, a number being fit when it fits the buffer |
| `Format.PercentIsNeverPrinted` | lib/stdio.c:71-90 | a percent sign reaches the output only out of a string argument: "%%" does not print one |
| `Format.Terminal.Vfprintf` | lib/stdio.c:58-95 | on descriptor 1 the screen gains the meaning of the template and its length is returned; on any other descriptor nothing is printed and 0 returned |
| `Format.Terminal.PutString` | lib/stdio.c:77-81 | the loop of %s prints the characters before the NUL |
| `Format.Terminal.Write` | kernel/kernio.c:294-299 | the kernel's write on standard output prints the first `count` bytes in order |

## Left out

- Kernel.Kernel.Serve: what services print; `hlt`, a reboot, a missing key and a drive error end what is said.
- Kernel.Kernel.constructor: `set_ivt`; mounting is `Kernel.MountAll`, on the file system the kernel is given.
- KernelIo.Kernio.Close: a descriptor outside 0..5 indexes outside the tables; nothing is said about it.
- KernelIo.Kernio.Lseek: as for Close.
- KernelIo.Kernio.Read: as for Close; the buffer is as long as the count, which service 13 does not ensure (`Services` takes the kernel's memory from the block on as the buffer).
- KernelIo.Kernio.ReadLeaf: as for Read.
- Descriptors.ReadsTerminateInEveryRun: runs with a descriptor outside 0..5, which services 11 to 13 do not refuse.
- Kernel.Kernel.Int80: user and kernel memory are separate segments; the code of the kernel and the interrupt vector are not in memory.
- Kernel.Kernel.CopyOut: a word that straddles offset 0xFFFF wraps, as on the 8086.
- FatFs.FatFs.LoadFileContent: walks that never end, and drive errors.
- Format.Terminal.Vfprintf: `mywrite` goes straight to the kernel's write; the system call in between is the subject of `Runs`.
- Calls with a missing or unfit argument, and what happens in `itoa` beyond six characters.
- Inline assembly, BIOS calls, interrupt vector setup and the RTC.
- The timer path and the empty scheduler.
- Widths of the calling convention between the assembler and the C code.
- `print_file`, `list_files`, `read_root_dir`, `strncmp`, `memset`, `stolower`; `get_process_list` but for the sizes it prints; the contents `read_fat` reads.
- The user-side stubs of arch/8088/kernel/io.c, apart from what `int 80h` does with their block and what `run_program` returns.
- The shell, the utilities, the drivers and the boot loader.
- End of file in `read`: its branch is empty.
