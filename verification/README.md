# A model of the three processes, and what they keep

The system is a small operating system split into three processes that talk over sockets: a memory
process (N-level page tables, a frame bitmap, a growable swap bitmap), CPUs (a write-back page
cache, a TLB, an instruction loop with asynchronous interrupts) and a kernel (seven states, three
schedulers, I/O groups). This project models each of them in Dafny and proves what each keeps over
every run, and what the parts owe each other.

**Memory** (`Fisico`, `Tenencia`, `Recorridos`, `Pedidos`, `Corridas`, `Tablas`, `Traduccion`,
`Bytes`, `Ranuras`, `Memoria`). A traversal of a process's tables is a left-to-right fold of one
step over its last-level entries; ownership and the logical image are proved for one step and
lifted to whole traversals, to requests, and to runs of requests. The class `Memoria` holds the
byte array, the bitmaps and the tables, and its recursive loops are proved to be those folds. The
bits a grown swap bitmap is born with are arbitrary.

**CPU** (`Cache`, `Reemplazo`, `Reloj`, `Tlb`, `Entornos`, `Cpu`, `Aplanado`, `Programa`,
`Convivencia`, `Ejecucion`, `Puente`). What a page reads as is its cached copy if it is cached and
its frame otherwise. Lookups, sweeps, insertions, evictions and flushes keep that view, for every
number of entries (0 included), CLOCK or CLOCK-M, FIFO or LRU, so READ and WRITE are reads and
writes of a flat byte store, and a whole burst takes the image memory would dump through the
program over that store, whatever the others ask of memory between its instructions. `Programa`
proves that cutting the program with interrupts does not change where it ends, and `Ejecucion`
joins the two: a process run in bursts on any CPUs, swapped out and back in between, ends as the
uninterrupted program does. `Cpu` is built on `Memoria`: frames are injective because of the
ownership invariant, not by assumption. Its two ghost fields are the translations asked for and
the pages accessed, from which the TLB and the bits of the cache are folded. `Puente` joins the
program to what the kernel does with its bursts.

**Kernel** (`Estados`, `GruposIo`, `Ronda`, `Nucleo`, `InvColas`, `InvPasos`, `InvIo`,
`InvSockets`, `OrdenIo`, `Vidas`, `Intervalos`, `Efectos`, `Listos`, `TiemposIo`, `LargoPlazo`,
`KernelCorridas`, `Kernel`). `Nucleo` is the transition system: one event per critical section,
with the long-term planner's call to memory split in two; `Efectos` says what each event does to
whom, case by case. The class `Kernel` has the lists, semaphores and dictionaries and the loops
over them, and `Kernel.Kernel.Atender` proves that every critical section takes the state where
the transition system says and keeps the invariant.

**Kernel and memory together** (`Amenazas`, `Sistema`, `Residencia`, `Estacionado`,
`SistemaCorridas`, `Testigo`). Each call of the kernel reaches memory at some moment between being
made and being answered, and the answer is read later. Over runs of both: memory knows whom it
should, a process on a CPU is in RAM but for one race, which is characterised and shown to happen,
and a parked planner has a reason to be.

Automatic induction is switched off on every lemma: each induction is written out.

## What the environment is asked to keep

- Sizes and page sizes are the ones the memory process was started with, `entradas_por_tabla` is a
  power of two and the page size is positive. Calls of the kernel to memory are answered.
- The CPU side takes processes that fit their tables. `Traduccion.SinAliasSiiCabe` proves that this is
  exactly the condition under which two pages do not share a frame.
- Logical addresses and sizes are not negative.
- A burst starts with its process in RAM and nobody suspends it before it ends:
  `SistemaCorridas.EnCpuReside` and `Residencia.ResidenciaSii` say exactly when the kernel keeps that.
- Under the name of an unknown cache policy a missed WRITE to a full cache is lost;
  `Cpu.Cpu.Write` says exactly when, and the burst theorems ask for CLOCK or CLOCK-M.
- CPU names and sockets are not reused, a CPU answers only while it has a process, and a device
  reports the end of the request it was given. The clock does not go back.

## Where the code and what is said of it differ

- `Programa.CorteTransparenteSii`: an interrupt found pending after IO or DUMP_MEMORY overrides the
  finish reason although the program counter has moved, so the call never reaches the kernel; after
  INIT_PROC it leaves the program counter where it was, so the process is created twice. Preemption is
  transparent exactly for the other instructions.
- `KernelCorridas.EsperaEnExitNoCuenta`: the last `cambiar_estado` of the thread that frees processes is
  meant to accumulate the final time (`kernel/src/kernel.c:2079-2080`), but the time a process waits in
  EXIT is in no total.
- `Testigo.CorreEnSwap`, `Residencia.ResidenciaSii`, `Residencia.RiesgoSii`: a suspension decided before a
  resumption can reach memory after it (`kernel/src/kernel.c:1902-1906`), and the process then runs with
  its pages in swap.
- `LargoPlazo.PmcpSeDuerme`, `LargoPlazo.PmcpSii`: the smallest-first planner sleeps through the
  arrival of a smaller process behind a refused one.
- CLOCK leaves its pointer on the victim; CLOCK-M leaves it just after.

## Model

| member | source | states |
|---|---|---|
| Tenencia.PasoConserva | memoria/src/memoria.c:894-935 | Taking a frame, going to swap, coming back or being freed: one step on one entry keeps every frame's and slot's single owner, whatever the rest of memory holds. |
| Tenencia.PasoImagen | memoria/src/memoria.c:1374-1405 | Moving a page to swap or back leaves every page's bytes; freeing or filling an entry leaves every other page's. |
| Tenencia.RecorridaConserva | memoria/src/memoria.c:1451-1500 | A whole traversal of one process keeps ownership and the image of every page it may not erase. |
| Recorridos.TomarPrimero | memoria/src/memoria.c:998-1013 | First fit takes the lowest free frame and leaves exactly the other free frames, in order. |
| Recorridos.AsignarMarcos | memoria/src/memoria.c:894-935 | If enough frames are free, the allocation takes exactly the number asked for, the lowest ones. |
| Recorridos.AsignarHojas | memoria/src/memoria.c:894-935 | The k-th entry it fills, in table order, gets the k-th lowest free frame; entries past the request stay blank. |
| Recorridos.SuspenderVaciaRam | memoria/src/memoria.c:1374-1405 | After a suspension no entry of the process is in RAM. |
| Recorridos.LiberarVacia | memoria/src/memoria.c:973-995 | After a release every entry is blank. |
| Recorridos.AdmisionEntrelazada | memoria/src/memoria.c:519-534 | Guarded admission never stops halfway: whatever suspensions and releases of other processes run between its leaves, every leaf it passes is placed while there are pages to place, what is left still fits, and ownership holds throughout. |
| Recorridos.AdmisionTermina | memoria/src/memoria.c:1422-1442 | So when it ends, nothing of a resumed process is left in swap, and a new process has in RAM every page it asked for that its tables can describe. |
| Pedidos.CreacionEntrelazada | memoria/src/memoria.c:514-534 | The guard of INIT_PROC is enough for that: creation interleaved with others' releases ends with those pages in RAM. |
| Pedidos.ResumenEntrelazado | memoria/src/memoria.c:1422-1442 | And so is the guard of DESUSPENDER_PROCESO: nothing of it is left in swap. |
| Recorridos.DesuspenderCompleta | memoria/src/memoria.c:1422-1442 | With as many free frames as pages in swap, the resumption brings all of them back. |
| Pedidos.IniciarValida | memoria/src/memoria.c:514-660 | Creating a process keeps the invariant and everybody else's image; granted, the process has nothing in swap; refused, exactly when its pages exceed the free frames, nothing changes. |
| Pedidos.DestruirValida | memoria/src/memoria.c:835-892 | Destroying a process keeps the invariant and everybody else's image. |
| Pedidos.SuspenderValida | memoria/src/memoria.c:1346-1405 | Suspending keeps the invariant, every page's bytes, and leaves no page of the process in RAM. |
| Pedidos.DesuspenderValida | memoria/src/memoria.c:1407-1500 | Resuming keeps the invariant and every page's bytes; when it is granted every page of the process is in RAM. |
| Pedidos.EscribirValida | memoria/src/memoria.c:1205-1240 | A write at the frame of a page changes exactly those bytes of that page and no other page. |
| Corridas.CorridaValida | memoria/src/memoria.c:259-436 | Every run of requests keeps the invariant. |
| Corridas.MarcoTieneUnDuenio | memoria/src/memoria.c:998-1034 | From boot, after any run: a frame's bit is set if and only if a leaf of a live process names it, and at most one does. |
| Corridas.ImagenConstante | memoria/src/memoria.c:1346-1500 | Whatever the others ask and however often the process goes to swap and back, each of its pages keeps its bytes. |
| Corridas.SuspenderYReanudar | memoria/src/memoria.c:1346-1500 | Suspend, any requests of others, resume: each page is in some frame of its own with the bytes it had, or the resumption is refused and nothing moved. |
| Corridas.DumpEsImagen | memoria/src/memoria.c:1552-1633 | A dump is pages 0 to n-1 in page order, a whole page each, whichever are in RAM or swap. |
| Corridas.DumpConstante | memoria/src/memoria.c:1602-1633 | The dump is the same before suspending, while suspended, and after resuming, whatever the others do. |
| Tablas.IndiceEsDigito | memoria/src/memoria.c:1123-1132 | Shift and mask pick the digit of the page number, in base `entradas_por_tabla`, of the level. |
| Tablas.CaminarAlcanza | memoria/src/memoria.c:1073-1101 | Walking down by those digits reaches the leaf whose position in allocation order is the page number modulo the capacity, or a hole only where that leaf is blank. |
| Traduccion.TraduccionDeProcesoNuevo | memoria/src/memoria.c:1038-1132 | Right after creation page k translates to the k-th lowest frame that was free. |
| Traduccion.RechazaSiiFueraDeRango | memoria/src/memoria.c:1059-1101 | An address is refused if and only if it is negative or its page is at or past ceil(size / page size); no address in range meets a blank entry. |
| Traduccion.TraduccionInyectiva | memoria/src/memoria.c:1038-1120 | Two translations give one frame if and only if they are of one process with page numbers equal modulo the capacity. |
| Traduccion.SinAliasSiiCabe | memoria/src/memoria.c:1123-1132 | Pages of a process have different frames if and only if the process fits its tables. |
| Traduccion.AliasConcreto | memoria/src/memoria.c:1123-1132 | A process of two pages in tables for one is admitted, and both pages translate to frame 0. |
| Pedidos.Contesta | memoria/src/memoria.c:259-436 | What memory answers to each request: yes, or its one reason to refuse, and a refusal changes nothing. |
| Pedidos.PaginasJustas | memoria/src/memoria.c:519-525 | The number of pages is the least that holds the size. |
| Ranuras.SuspenderRanuras | memoria/src/memoria.c:1260-1310 | While there are clear slots a suspension takes the lowest ones and the swap file does not grow. |
| Ranuras.SuspenderHojas | memoria/src/memoria.c:1374-1405 | The k-th page, in page order, goes to the k-th lowest of them. |
| Ranuras.DesuspenderMarcos | memoria/src/memoria.c:1451-1500 | A resumption takes the lowest free frames, one for each page in swap. |
| Ranuras.DesuspenderDevuelve | memoria/src/memoria.c:1451-1500 | After a granted resumption the bit of every slot the process had is clear. |
| Ranuras.DestruirDevuelve | memoria/src/memoria.c:835-892 | And so it is after its end. |
| Ranuras.AtenderSinFugas | memoria/src/memoria.c:259-436 | Every request keeps: a set bit is that of a page in swap, or was born set and its slot never written. |
| Ranuras.RanuraTomadaSii | memoria/src/memoria.c:1260-1344 | From boot, after any run: the bit of a slot ever written is set if and only if a page of a live process is in it, and then one page only. |
| Memoria.Memoria.BuscarMarcoLibre | memoria/src/memoria.c:998-1005 | The lowest free frame, or -1 if there is none. |
| Memoria.Memoria.ContarMarcosLibres | memoria/src/memoria.c:1023-1034 | How many bits are clear. |
| Memoria.Memoria.EscribirEnSwap | memoria/src/memoria.c:1260-1310 | The page goes to the first free slot, growing the bitmap by a byte of unknown bits if there is none. |
| Memoria.Memoria.AsignarPaginas | memoria/src/memoria.c:894-935 | The recursive allocation, with its early exits and its counter, is the fold of the one-entry step over the leaves in order. |
| Memoria.Memoria.SuspenderPaginas | memoria/src/memoria.c:1374-1405 | So is the recursive suspension. |
| Memoria.Memoria.DesuspenderPaginas | memoria/src/memoria.c:1451-1500 | So is the recursive resumption. |
| Memoria.Memoria.LiberarTablas | memoria/src/memoria.c:973-995 | So is the recursive release. |
| Memoria.Memoria.ContarEnSwap | memoria/src/memoria.c:1502-1550 | The number of leaves in swap. |
| Memoria.Memoria.DumpearPaginas | memoria/src/memoria.c:1602-1633 | The bytes appended are the leaves' pages in order. |
| Memoria.Memoria.AlmacenarProceso | memoria/src/memoria.c:514-660 | INIT_PROC on the arrays and tables is the request on the abstract memory, and keeps the invariant. |
| Memoria.Memoria.Destruir | memoria/src/memoria.c:835-892 | The same for FINALIZAR_PROCESO. |
| Memoria.Memoria.ManejarSuspension | memoria/src/memoria.c:1346-1372 | The same for SUSPENDER_PROCESO. |
| Memoria.Memoria.ManejarDesuspension | memoria/src/memoria.c:1407-1449 | The same for DESUSPENDER_PROCESO: refused before touching anything when frames do not suffice. |
| Memoria.Memoria.ManejarDump | memoria/src/memoria.c:1552-1600 | The same for DUMP_MEMORY. |
| Memoria.Memoria.ManejarEscritura | memoria/src/memoria.c:1205-1240 | The same for ESCRIBIR_MEMORIA inside a frame. |
| Memoria.Memoria.EscribirPagina | memoria/src/memoria.c:1205-1240 | A write goes to the frame its page translates to, and happens exactly when that page is in RAM and the bytes fit. |
| Memoria.Memoria.Servir | memoria/src/memoria.c:259-436 | Any request of a connection is the request on the abstract memory, for all the requests its callers may make. |
| Memoria.Memoria.TraducirTabla | memoria/src/memoria.c:1038-1120 | TRADUCIR_TABLA answers what the leaf says, and never finds a table missing for an address in range. |
| Cache.ReemplazoVista | cpu/src/cpu.c:1196-1216 | Putting a page in an entry, its victim written back first, shows that page and changes what no other page reads as. |
| Cache.QuitarVista | cpu/src/cpu.c:954-983 | Writing back and freeing an entry changes what no page reads as, and keeps clean entries equal to their frames and pages uncached twice. |
| Cache.UsoNoImporta | cpu/src/cpu.c:684-686 | Use bits do not matter to any reader. |
| Reemplazo.VictimaUnica | cpu/src/cpu.c:1218-1292 | The victim of each policy, the first from the pointer on of the best class, is one entry and no other. |
| Reemplazo.InsertadaVista | cpu/src/cpu.c:1175-1194 | An insertion shows the page put in, or nothing happens when there is no cache or its policy name is unknown and it is full; every other page reads the same. |
| Cpu.Cpu.ElegirClock | cpu/src/cpu.c:1222-1244 | CLOCK's sweep stops on the first unused entry from the pointer, or on the pointer itself after a full turn; exactly the entries it passed lose their use bit. |
| Cpu.Cpu.ElegirClockM | cpu/src/cpu.c:1245-1271 | CLOCK-M ends within two rounds on the first entry from the pointer in the best class of (used, modified), with use bits cleared exactly where the second scan passed. |
| Cpu.Cpu.SeleccionarVictima | cpu/src/cpu.c:1218-1292 | The victim is written back if modified and replaced, and the pointer ends on it (CLOCK) or after it (CLOCK-M). |
| Cpu.Cpu.InsertarEnCache | cpu/src/cpu.c:1175-1216 | The first free entry, else the victim's; coherence, and everybody's view but for the page put in. |
| Cpu.Cpu.LimpiarCacheDeProceso | cpu/src/cpu.c:954-983 | After the flush RAM holds what every page of the process read as, no entry of it remains, the others' entries are untouched, and only its frames were written. |
| Cpu.Cpu.Marco | cpu/src/cpu.c:695-708 | The TLB never changes the answer: it is the page table's frame, or -1 when there is none; exactly the translations found are accesses of the history the TLB is folded from. |
| Cpu.Cpu.TlbSegunPolitica | cpu/src/cpu.c:1043-1173 | At any time, under FIFO the TLB holds the last misses since it was emptied, in order; under LRU each entry is stamped with its page's last use. |
| Cpu.Cpu.AgregarATlb | cpu/src/cpu.c:1112-1136 | The first free entry, else the policy's victim: the new TLB and pointer are those of the insertion whose queue and LRU laws are proved. |
| Cpu.Cpu.ReemplazarEnTlb | cpu/src/cpu.c:1138-1173 | The same for a full TLB: the oldest timestamp, the pointer, or nothing for an unknown name. |
| Tlb.AccederTlbOk | cpu/src/cpu.c:1043-1060 | Every access leaves a TLB whose entries are the page table's translations, with no page twice. |
| Tlb.FifoGuardaLosUltimos | cpu/src/cpu.c:1156-1168 | Under FIFO, after any list of accesses to an emptied TLB, it holds the last misses, as many as it has entries, in order from the pointer on: the oldest is evicted first, and hits do not matter. |
| Tlb.LruSellaElUltimoUso | cpu/src/cpu.c:1043-1060 | Under LRU, after any list of accesses to an emptied TLB, each entry's timestamp is its page's last use. |
| Tlb.LruDesalojaMenosUsada | cpu/src/cpu.c:1138-1155 | So, after any list of accesses, a miss on a full TLB evicts a page last used no later than any of the pages it holds, and no other entry changes. |
| Cpu.Cpu.Read | cpu/src/cpu.c:666-723 | READ yields exactly the bytes of the page as seen before, or fails when it would leave the page or the page cannot be reached; no page reads differently afterwards; the page, if cached, is marked used, a hit changes no other use bit, and what happens to cache and pointer is one access of the policy. |
| Cpu.Cpu.Write | cpu/src/cpu.c:725-797 | WRITE fails exactly then; otherwise exactly those bytes of that page read differently, with the one lost case stated; the page, if cached, is marked used and modified, and the rest is one access of the policy. |
| Cpu.Cpu.CacheSegunPolitica | cpu/src/cpu.c:666-797 | At any time of a burst, an entry is marked used if and only if its page was accessed since the pointer last passed it, and modified if and only if it was written since it came in. |
| Reloj.LosBitsDicen | cpu/src/cpu.c:1218-1292 | The same after any list of accesses to an emptied cache, for CLOCK and CLOCK-M. |
| Reloj.ClockDesaloja | cpu/src/cpu.c:1222-1244 | CLOCK, after any list of accesses: every page from the pointer to the one evicted was accessed since the pointer last passed it and the one evicted was not, unless all were, and then it is the one at the pointer; the pointer stays there. |
| Reloj.ClockMDesaloja | cpu/src/cpu.c:1245-1280 | CLOCK-M, after any list of accesses: a page not accessed since the pointer passed goes before one accessed, of those a clean one before one written, the first from the pointer on; the pointer goes just after it. |
| Aplanado.LecturaPlana | cpu/src/cpu.c:1012-1018 | Page and offset arithmetic agree with the flat store: READ is the slice at the logical address. |
| Aplanado.EscrituraPlana | cpu/src/cpu.c:1012-1018 | WRITE replaces exactly the bytes from the logical address on. |
| Aplanado.PlanaEsImagen | cpu/src/cpu.c:954-983 | With nothing cached the flat store is the image memory keeps and dumps. |
| Cpu.Cpu.EjecutarInstruccion | cpu/src/cpu.c:558-614 | Each opcode, guard by guard: where the program counter goes, which bytes change, which call is made, which result comes out; the flat semantics of the program. |
| Cpu.Cpu.Ciclo | cpu/src/cpu.c:345-410 | The loop, state by state: after GOTO the destination, after the others the next instruction; each reason to stop with the opcodes and guards that give it; an interrupt after a given instruction. It is the burst over the flat store whatever requests the others make between every two instructions. |
| Programa.RafagaRecorre | cpu/src/cpu.c:369-408 | The same of the flat semantics: from one state to the next the instruction at the program counter is done, and the last one, or an interrupt, says why the burst ends. |
| Cpu.Cpu.AtenderPcb | cpu/src/cpu.c:304-306 | From an empty CPU to an empty CPU, with others' requests between its instructions: the image memory keeps goes through the burst, and the burst itself writes no frame of another process. |
| Cpu.Cpu.Convivir | cpu/src/cpu.c:666-797 | Any list of requests of the others, served in the middle of a burst, leaves this cache and TLB coherent and its flat store unchanged. |
| Convivencia.PedidoAislado | memoria/src/memoria.c:1346-1500 | So does each of them: creations, ends, suspensions, resumptions, dumps and writes of other processes move none of this one's frames and change none of its bytes. |
| Convivencia.EntreRafagas | kernel/src/kernel.c:1883-1907 | Between bursts the image stays, suspended or not, so the next burst may run on any CPU. |
| Convivencia.ResidentesDe | memoria/src/memoria.c:1038-1120 | A resident process that fits its tables has exactly its pages translatable. |
| Programa.Repetible | cpu/src/cpu.c:396-408 | Running again an instruction that was cut lands where it would have landed uncut. |
| Programa.ExpropiacionSegura | cpu/src/cpu.c:396-408 | Any run cut only at instructions safe to repeat does what an uncut run does, up to one instruction to be run again. |
| Programa.ExpropiacionCompleta | cpu/src/cpu.c:396-408 | If the uncut run ends within k instructions, so does every such run that lets k finish, in the same state and for the same reason. |
| Programa.ExpropiacionTransparente | kernel/src/kernel.c:1059-1081 | For programs of NOOP, READ, WRITE, GOTO and EXIT, cut into bursts anywhere: the same final memory and the same EXIT or fault as uninterrupted, both ways. |
| Programa.CorteTransparenteSii | cpu/src/cpu.c:590-614 | A cut leaves no trace if and only if it is not on a system call; on one, exactly that call is lost (IO, DUMP_MEMORY) or doubled (INIT_PROC). |
| Ejecucion.SonRafagas | kernel/src/kernel.c:1059-1132 | A process run burst by burst on any CPUs, with any requests that do not write it in between, swapped out and back or not, is the program cut into those bursts over one flat store. |
| Ejecucion.EjecucionTransparente | kernel/src/kernel.c:1059-1081 | So a program of NOOP, READ, WRITE, GOTO and EXIT ends, through caches, TLBs, replacement, swap and preemption, with the bytes in memory and the cause of one that runs alone without a break, and ends if that one does within the instructions left uncut. |
| Puente.DesenlaceEnElKernel | kernel/src/kernel.c:1059-1132 | Given the answer of a burst, the kernel finishes the process if and only if its program has ended or asks for a device there is not, and otherwise keeps the program counter the program goes on from. |
| Puente.ElKernelSigueAlPrograma | kernel/src/kernel.c:1032-1132 | Through any run of the kernel a process still to go on is resumed where its program, cut into those bursts, goes on from, and one whose program ended is out. |
| Estados.CambiarMetricas | kernel/src/kernel.c:2157-2217 | Along an edge of the diagram, the times still add up and READY has been entered once more than RUNNING exactly while in READY. |
| Colas.MoverConserva | kernel/src/kernel.c:1710-1726 | Moving a process between queues keeps every process in exactly the queue of its state, once. |
| GruposIo.DespacharConserva | kernel/src/kernel.c:1758-1810 | Dispatch loses and repeats no request, and leaves none waiting next to a free instance. |
| GruposIo.DespacharEnOrden | kernel/src/kernel.c:1758-1792 | Requests start in arrival order: a prefix of the queue goes to instances that were free, and nobody in service moves. |
| GruposIo.DespacharEnTurno | kernel/src/kernel.c:1771-1792 | Round robin: the oldest request goes to the free instance nearest after the last one used, and the next one goes on from there. |
| GruposIo.SinInstanciaVeces | kernel/src/kernel.c:1511-1524 | The request an instance was serving when it disconnected is not lost: it waits again. |
| OrdenIo.TurnoPaso | kernel/src/kernel.c:1758-1810 | In every step but the loss of a whole group: what is put back, what waited and what arrives, in that order, is what goes into service and what is left waiting; and what is in service is what was and what went in. |
| OrdenIo.OrdenDeLlegada | kernel/src/kernel.c:1758-1792 | Along any run in which a group loses no instance, its requests go into service in the order they were queued, none skipped and none twice. |
| TiemposIo.SirveLoPedido | kernel/src/kernel.c:1511-1524 | In any run from boot a request goes into service with the milliseconds its process asked for, also when its first instance was lost. |
| InvPasos.ColasPaso | kernel/src/kernel.c:676-687 | Every step keeps each process in exactly one queue, the one of its state. |
| InvPasos.CpusPaso | kernel/src/kernel.c:884-894 | Every step keeps the processes in EXEC bound to busy CPUs, one each, and no others bound. |
| InvPasos.SemsPaso | kernel/src/kernel.c:849-902 | Every step keeps each of the three semaphores, plus the token its thread holds, equal to READY, the free CPUs and EXIT. |
| InvColas.SinRespaldos | kernel/src/kernel.c:877-902 | With the tokens in hand there is a ready process, a free CPU and a process to free: the fallback branches cannot be taken. |
| InvColas.FinalizarTodosOk | kernel/src/kernel.c:1526-1549 | Emptying the queue of a lost group finishes exactly the processes in it, each counted once. |
| InvIo.IoPaso | kernel/src/kernel.c:1283-1338 | Every step keeps one request per process blocked on a device, in one group, and no group idle with work. |
| InvIo.IoDesconecta | kernel/src/kernel.c:1496-1562 | Losing the last instance of a group sends to EXIT exactly the processes asking for it; losing another sends nobody. |
| InvSockets.SocketsPaso | kernel/src/kernel.c:1687-1700 | A socket names one instance of one group. |
| Vidas.EvolucionPaso | kernel/src/kernel.c:2157-2217 | Every step takes every process along an edge of the seven-state diagram or leaves it, from NEW to EXIT, accounting for the time since its last change. |
| LargoPlazo.CandidatoPaso | kernel/src/kernel.c:666-675 | While memory is being asked with the queues unlocked, the candidate stays at the head of its queue. |
| LargoPlazo.AdmitidoEsElQuitado | kernel/src/kernel.c:676-687 | What the planner removes at position 0 is what it made ready; nobody else moves. FIFO and smallest-first. |
| LargoPlazo.SinPerdidaPaso | kernel/src/kernel.c:641-695 | Every step keeps: FIFO planner parked with its semaphore at 0 means both queues are empty or the next candidate is the one just refused. |
| LargoPlazo.PmcpSii | kernel/src/kernel.c:270-277 | Under smallest-first an arrival breaks that if and only if it joins, unannounced, a non-empty NEW that the planner looks at and is smaller than the process it has in mind. |
| LargoPlazo.PmcpOtros | kernel/src/kernel.c:716-765 | No other step breaks it. |
| LargoPlazo.PmcpSeDuerme | kernel/src/kernel.c:270-277 | A run from boot in which it sleeps through a smaller process. |
| KernelCorridas.InvPaso | kernel/src/kernel.c:641-1132 | Every critical section keeps the whole invariant. |
| KernelCorridas.CuentasCuadran | kernel/src/kernel.c:849-933 | In any reachable state: queue partition, semaphore counts, CPU binding, and no fallback. |
| KernelCorridas.NadieDuermeDeMas | kernel/src/kernel.c:641-695 | In any reachable state of a FIFO kernel no wakeup has been lost. |
| KernelCorridas.PmcpCorrida | kernel/src/kernel.c:716-765 | Nor in a smallest-first one, through any run without the arrivals above. |
| KernelCorridas.VidaLegal | kernel/src/kernel.c:1081-1132 | Along any run a process follows only the edges of the diagram. |
| KernelCorridas.MetricasCuadran | kernel/src/kernel.c:2157-2217 | In any reachable state the five times of a process add up to its last change minus its creation, none negative, with the READY and RUNNING entries matching. |
| KernelCorridas.CambioEsEntrada | kernel/src/kernel.c:2157-2217 | Along any run the last change of a process is the instant of its last entry into the state it is in. |
| KernelCorridas.EsperaEnExitNoCuenta | kernel/src/kernel.c:2066-2095 | In any run from boot, the process that is freed has times that add up to its entry into EXIT minus its creation: the change of state made on freeing it adds nothing, and its wait in EXIT is in no total. |
| Intervalos.MetricasSonIntervalos | kernel/src/kernel.c:2157-2217 | In any reachable state each of the five times is the total of the intervals the process spent in that state up to its last change, and each counter the number of its entries. |
| Efectos.RespuestaDestina | kernel/src/kernel.c:1085-1132 | Every answer of a CPU, case by case: EXIT, a fault, an unknown motive, an unknown device or another's pid to EXIT; an interrupt to READY; a known device or a dump to BLOCKED; at the end of that queue, with the CPU free and nobody else moved. |
| Efectos.RespuestaAnota | kernel/src/kernel.c:1056-1081 | The PCB keeps the program counter it was told, how long the burst was, and the next estimate: what is left of this one if cut, else the weighted average under SJF and SRT. |
| Efectos.PcEsElUltimo | kernel/src/kernel.c:1081 | Along any run the program counter of a process is the one its last burst reported, or where it began. |
| Efectos.NaceEnCero | kernel/src/kernel.c:236-277 | A process is born at the end of NEW, to start at 0, with its size and the first estimate. |
| Efectos.DespachoElige | kernel/src/kernel.c:854-902 | Who is dispatched: under FIFO the head of READY; under SJF and SRT one with no larger estimate than anybody in READY, the lowest pid among equals; to the next free CPU in turn, with the instant noted. |
| Listos.DespachaAlQueMasEspera | kernel/src/kernel.c:859-863 | Under FIFO, in any run from boot, whoever is dispatched came to READY no later than anybody who stays. |
| Efectos.LpElige | kernel/src/kernel.c:651-661 | Who is to be admitted: a suspended process if there is one, else a new one; the first of its queue under FIFO, one that none of them is smaller than under smallest-first. |
| Efectos.FinIoDestina | kernel/src/kernel.c:1703-1726 | The end of an I/O takes the process the instance served from BLOCKED to READY or from SUSPENDED_BLOCKED to SUSPENDED_READY, with the post that queue needs. |
| Efectos.DumpDestina | kernel/src/kernel.c:1403-1419 | And so does the end of a dump. |
| Efectos.TimerDestina | kernel/src/kernel.c:1878-1900 | A timer takes its process from BLOCKED to SUSPENDED_BLOCKED and asks memory for the suspension, or does nothing. |
| Efectos.CuentaPaso | kernel/src/kernel.c:1283-1338 | Every step: one timer for each block on a device and one less for each that runs out, one dump at a time, and the planner told exactly by an arrival to an empty NEW, a yes to a suspension or a release, and the end of the wait of a suspended process. |
| KernelCorridas.PedidosCuadran | kernel/src/kernel.c:1758-1810 | In any reachable state a process is blocked on a device if and only if exactly one group has exactly one request of it. |
| Kernel.Kernel.QuitarElemento | kernel/src/kernel.c:1083 | The search loop removes the first occurrence and nothing else. |
| Kernel.Kernel.BuscarPcb | kernel/src/kernel.c:1813-1836 | Five queue searches find a process if and only if it is alive and neither new nor finished. |
| Kernel.Kernel.InstanciaLibre | kernel/src/kernel.c:1771-1784 | The free instance nearest after the last one used, going round; none only if all are busy. |
| Kernel.Kernel.DespacharGrupo | kernel/src/kernel.c:1758-1810 | The dispatch loop is the dispatch whose order and conservation are proved. |
| Kernel.Kernel.BuscarCpuLibre | kernel/src/kernel.c:907-933 | The free CPU nearest after the last one used, going round; none only if all are busy. |
| Kernel.Kernel.DesalojarSrt | kernel/src/kernel.c:771-821 | The CPU interrupted has the most time left among those with more than the arriving process needs, the first of them; nobody under the other policies. |
| Kernel.Kernel.LpConcluir | kernel/src/kernel.c:676-692 | The second half of an admission on the lists and semaphores is the step, and interrupts whom SRT says. |
| Kernel.Kernel.CpDespacharListo | kernel/src/kernel.c:854-902 | The dispatch, fallbacks included, is the step whose count and binding laws are proved. |
| Kernel.Kernel.RecibirRespuesta | kernel/src/kernel.c:1032-1132 | The end of a burst is the step, for every finish reason and for a wrong pid; a process made ready by it interrupts whom SRT says, and nobody else is interrupted. |
| Kernel.Kernel.ManejarFinIo | kernel/src/kernel.c:1677-1736 | The end of an I/O is the step; the nested search over groups finds the instance of the socket. |
| Kernel.Kernel.ManejarDesconexionIo | kernel/src/kernel.c:1496-1562 | The loss of an instance is the step. |
| Kernel.Kernel.VencerTimer | kernel/src/kernel.c:1878-1900 | A timer that runs out suspends its process if it is blocked then, and does nothing otherwise. |
| Kernel.Kernel.Atender | kernel/src/kernel.c:236-280 | Every critical section leaves the state the transition system says, and the invariant. |
| Amenazas.AmenazaSii | kernel/src/kernel.c:676-687 | The kernel makes a process ready with a suspension of it unanswered if and only if memory says yes to a suspended candidate it has not yet answered the suspension of. |
| Amenazas.AmenazaOtros | kernel/src/kernel.c:1878-1907 | No other critical section does. |
| Sistema.UnidoPaso | kernel/src/kernel.c:1977-2045 | Every step of kernel and memory together keeps both invariants, memory knowing exactly the processes admitted and not yet freed, and every answer belonging to an open call. |
| SistemaCorridas.LlamadasLegales | kernel/src/kernel.c:1977-2045 | What the kernel asks of memory over any run is a list of requests as memory needs it, no process created twice: so everything proved of memory's runs holds of it. |
| SistemaCorridas.MemoriaTieneLosQueDebe | memoria/src/memoria.c:514-660 | From boot, after any run, memory has exactly the processes admitted and not yet freed, each at the size the kernel has for it. |
| Residencia.ResidenciaSii | kernel/src/kernel.c:1902-1906 | With every admitted process in RAM, a step takes one out if and only if it is a suspension of a process with pages reaching memory after memory readmitted it. |
| Residencia.RiesgoSii | kernel/src/kernel.c:1902-1906 | That can be about to happen, where it was not, if and only if memory grants an admission of a process whose suspension is still on its way. |
| Residencia.SoloReadmitidos | kernel/src/kernel.c:651-661 | And such a process comes from SUSPENDED_READY. |
| SistemaCorridas.EnCpuReside | kernel/src/kernel.c:884-894 | From boot, through any run without such a grant, a process on a CPU has nothing in swap, and if it fits its tables exactly its pages translate: what a burst starts from. |
| Testigo.CorreEnSwap | kernel/src/kernel.c:1878-1910 | In any memory with a frame, a run from boot that ends with a process on a CPU and its pages in swap. |
| Estacionado.RazonPaso | kernel/src/kernel.c:676-692 | Every step keeps: the process memory refused still does not fit the free frames, unless a release was answered since. |
| SistemaCorridas.AparcadoConRazon | kernel/src/kernel.c:641-695 | In any reachable state, a planner parked with its semaphore at 0 and no answered release to read has a reason: under FIFO nobody waits, or the process it would choose needs more frames than are free; under either policy the one refused does. |

## Left out

- Page tables are values inside `Memoria`, rebuilt along the path of a change, not heap objects changed through pointers; table identifiers, metrics, mutexes and delays of the memory process are not there.
- 32-bit overflow, and shifts by 32 or more in the index arithmetic: page numbers are unbounded and shift and mask are division and remainder.
- The swap file is a map from slot to page; failures to open, seek or write it or the dump file are not modelled.
- Reading the pseudocode: a program is a list of instructions, with IO of missing parameters as a case of its own. Fetching is indexing.
- Tenencia.PasoConserva: says nothing of swap bits without an owner, because the byte a grown bitmap gets is never cleared (`memoria/src/memoria.c:1300-1304`).
- Convivencia.PedidoAislado: takes the others' requests as whole, because the memory process's locks are not modelled; the leaf-by-leaf interleaving of releases with an admission is in `Recorridos`.
- Sistema.UnidoPaso: the writes in it are those of pages in RAM, at their frames; what a CPU writes with entries that the race of `Testigo.CorreEnSwap` has made stale is not there. Calls to memory that fail to connect or are never answered are not either.
- Cpu.Cpu.Ciclo: an interrupt is found pending after some instruction, so bursts that no interrupt and no instruction ends are not there; a failed fetch is not overridden, as in the code.
- Cpu.Cpu.Marco: one clock reading per instruction, where the code takes two on a TLB hit of an uncached WRITE.
- Cpu.Cpu.ReemplazarEnTlb: timestamps are unbounded, so none is `ULLONG_MAX`.
- Kernel.Kernel.RecibirRespuesta: one atomic step, although the code touches the queues without their lock in it (`kernel/src/kernel.c:1083-1113`); so are the connection of a device and the two halves of blocking a process on one.
- Kernel.Kernel.LpElegirCandidato: the order `list_sort` leaves is a parameter, any sorted permutation, because the library is not here; so nothing is said of ties.
- The order in which several processes of a lost group change state and are queued in EXIT is one after the other, where the code first takes them all out of their queues.
- The disconnection of a CPU, the reuse of its name, and the failure of a dump, which call `finalizar_proceso` with its lock already held and cannot complete (`kernel/src/kernel.c:983-990`, `kernel/src/kernel.c:1421-1426`); the dump's connection failures (`kernel/src/kernel.c:1359-1377`).
- That a process suspended was blocked for the whole time-out: timers know only its pid.
- The value of ALFA, which the code reads with the wrong getter: the estimate is computed from whatever value it has.
- Sockets, packets, handshakes, configuration, logging, the I/O process and the debug printers.
