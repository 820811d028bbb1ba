/** The kernel as a machine whose steps are its critical sections: queues, semaphores, CPUs, I/O
    groups, and what each of its threads holds between two steps. */
module Nucleo {
  import opened Comunes
  import opened Ronda
  import opened Estados
  import opened Colas
  import opened GruposIo

  datatype AlgCorto = CpFifo | Sjf | Srt | CpDesconocido

  datatype AlgLargo = LpFifo | Pmcp

  datatype Conf = Conf(corto: AlgCorto, largo: AlgLargo, alfa: real, estimacionInicial: real)

  datatype Procesador = Procesador(nombre: seq<char>, libre: bool, pcb: Option<int>)

  /** The short-term planner waits for a ready process, then for a CPU, then dispatches. */
  datatype FaseCp = CpEspera | CpConReady | CpConAmbos

  /** The long-term planner waits, chooses, and asks memory with the queues unlocked. */
  datatype FaseLp = LpEspera | LpEligiendo | LpEnMemoria(candidato: int, susp: bool)

  /** The thread that frees finished processes. */
  datatype FaseEx = ExEspera | ExConToken | ExLiberando(pid: int)

  /** The whole kernel between two critical sections. `rechazado` is history: the candidate memory refused when the long-term planner last went
      back to waiting, if that is why it did. */
  datatype Foto = Foto(
    conf: Conf, procs: Procesos, proximo: int,
    cpus: seq<Procesador>, ultimoCpu: int,
    semReady: nat, semCpu: nat, semAdm: nat, semExit: nat,
    cp: FaseCp, lp: FaseLp, ex: FaseEx,
    io: map<seq<char>, Grupo>, timers: multiset<int>, suspensiones: multiset<int>, dumps: set<int>,
    reloj: int, rechazado: Option<int>)

  datatype Motivo = MotivoExit | MotivoIo(dispositivo: seq<char>, ms: int) | MotivoDump | MotivoInterrupcion | MotivoSegfault | MotivoOtro

  datatype Respuesta = Respuesta(pid: int, pc: int, motivo: Motivo)

  /** `orden` is what list_sort leaves of the queue, where the policy sorts one. */
  datatype Evento =
    | Crear(tam: nat, t: int)
    | LpDespertar | LpElegir(orden: seq<int>) | LpResponder(ok: bool, t: int)
    | CpReady | CpCpu | CpDespachar(orden: seq<int>, t: int)
    | CpuConectar(nombre: seq<char>) | CpuResponder(i: nat, r: Respuesta, t: int)
    | TimerVencer(pid: int, t: int) | SuspensionResponder(pid: int, ok: bool)
    | IoConectar(dispositivo: seq<char>, socket: int)
    | IoTerminar(dispositivo: seq<char>, j: nat, t: int)
    | IoDesconectar(dispositivo: seq<char>, j: nat, t: int)
    | DumpTerminar(pid: int, t: int)
    | ExDespertar | ExSacar(t: int) | ExResponder(ok: bool)

  predicate EsDe(k: Foto, p: int, e: Estado) { p in k.procs.pcbs && k.procs.pcbs[p].estado == e }

  const SIN_NADIE: map<Estado, seq<int>> :=
    map[New := [], Ready := [], Running := [], Blocked := [], SuspBlocked := [], SuspReady := [], Exit := []]

  function Arranque(conf: Conf, t: int): Foto {
    Foto(conf, Procesos(map[], SIN_NADIE), 0, [], -1, 0, 0, 0, 0, CpEspera, LpEspera, ExEspera,
           map[], multiset{}, multiset{}, {}, t, None)
  }

  // ---------------------------------------------------------------- orders

  /** comparar_por_memoria and comparar_por_rafaga_estimada. */
  predicate MasChico(s: Procesos, p: int, q: int) {
    p in s.pcbs && q in s.pcbs && s.pcbs[p].tam < s.pcbs[q].tam
  }

  predicate MasCorto(s: Procesos, p: int, q: int) {
    p in s.pcbs && q in s.pcbs
    && (s.pcbs[p].estimacion < s.pcbs[q].estimacion || (s.pcbs[p].estimacion == s.pcbs[q].estimacion && p < q))
  }

  ghost predicate OrdenPorTam(s: Procesos, e: Estado, orden: seq<int>) {
    Reordena(Cola(s, e), orden) && forall i, j :: 0 <= i < j < |orden| ==> !MasChico(s, orden[j], orden[i])
  }

  ghost predicate OrdenPorRafaga(s: Procesos, e: Estado, orden: seq<int>) {
    Reordena(Cola(s, e), orden) && forall i, j :: 0 <= i < j < |orden| ==> !MasCorto(s, orden[j], orden[i])
  }

  /** Where the long-term planner looks: suspended processes before new ones. */
  function Fuente(s: Procesos): Estado {
    if Cola(s, SuspReady) != [] then SuspReady else New
  }

  function CpusLibres(cpus: seq<Procesador>): (r: seq<bool>)
    ensures |r| == |cpus|
    ensures forall i :: 0 <= i < |r| ==> r[i] == cpus[i].libre
  {
    seq(|cpus|, i requires 0 <= i < |cpus| => cpus[i].libre)
  }

  /** How many CPUs are free. */
  function CuentaLibres(cpus: seq<Procesador>): nat {
    if cpus == [] then 0 else (if cpus[0].libre then 1 else 0) + CuentaLibres(cpus[1..])
  }

  // ---------------------------------------------------------------- the pieces of the steps

  function Finalizar(k: Foto, p: int, t: int): Foto {
    k.(procs := Mover(k.procs, p, Exit, t), semExit := k.semExit + 1)
  }

  // buscar_pcb_por_pid looks in every queue but NEW and EXIT.
  predicate Buscable(s: Procesos, p: int) {
    p in s.pcbs && s.pcbs[p].estado != New && s.pcbs[p].estado != Exit
  }

  function FinalizarTodos(k: Foto, ss: seq<Solicitud>, t: int): Foto
    decreases |ss|
  {
    if ss == [] then k
    else FinalizarTodos(if Buscable(k.procs, ss[0].pid) then Finalizar(k, ss[0].pid, t) else k, ss[1..], t)
  }

  /** The end of an I/O or of a dump: to READY, or to SUSPENDED_READY if it was suspended
      meanwhile, with the post each of the two needs. */
  function Desbloquear(k: Foto, p: int, t: int): Foto {
    if p in k.procs.pcbs && k.procs.pcbs[p].estado == Blocked then
      k.(procs := Mover(k.procs, p, Ready, t), semReady := k.semReady + 1)
    else if p in k.procs.pcbs && k.procs.pcbs[p].estado == SuspBlocked then
      k.(procs := Mover(k.procs, p, SuspReady, t), semAdm := k.semAdm + 1)
    else k
  }

  function LiberarCpu(k: Foto, i: nat): Foto
    requires i < |k.cpus|
  {
    k.(cpus := k.cpus[i := k.cpus[i].(libre := true, pcb := None)], semCpu := k.semCpu + 1)
  }

  /** calcular_siguiente_rafaga. */
  function SiguienteRafaga(alfa: real, real_: int, estimacion: real): real {
    var nueva := alfa * (real_ as real) + (1.0 - alfa) * estimacion;
    if nueva > 0.0 then nueva else 1.0
  }

  /** What a response leaves in the PCB before the process is moved. */
  function TrasRafaga(conf: Conf, p: Pcb, r: Respuesta, t: int): Pcb {
    var ejecutado := t - p.inicio;
    var q :=
      if r.motivo.MotivoInterrupcion? then
        p.(estimacion := if p.estimacion - (ejecutado as real) < 0.0 then 0.0 else p.estimacion - (ejecutado as real))
      else if conf.corto.Sjf? || conf.corto.Srt? then
        p.(rafagaAnterior := ejecutado, estimacion := SiguienteRafaga(conf.alfa, ejecutado, p.estimacion))
      else p.(rafagaAnterior := ejecutado);
    q.(pc := r.pc)
  }

  function ConPcb(k: Foto, p: int, pcb: Pcb): Foto {
    k.(procs := k.procs.(pcbs := k.procs.pcbs[p := pcb]))
  }

  /** Blocked on a device: a timer to suspend it, and its request queued and dispatched. */
  function Bloquear(k: Foto, p: int, d: seq<char>, ms: int, t: int): Foto
    requires p in k.procs.pcbs && d in k.io && k.io[d].ultimo >= -1
  {
    var s := k.procs.(pcbs := k.procs.pcbs[p := k.procs.pcbs[p].(bloqueoIo := ms)]);
    k.(procs := Mover(s, p, Blocked, t), timers := k.timers + multiset{p}, io := k.io[d := Pedir(k.io[d], Solicitud(p, ms))])
  }

  /** What becomes of the process whose burst ended. */
  function Destinar(k: Foto, p: int, m: Motivo, t: int): Foto
    requires p in k.procs.pcbs && forall d :: d in k.io ==> k.io[d].ultimo >= -1
  {
    match m
    case MotivoExit => Finalizar(k, p, t)
    case MotivoIo(d, ms) => if d in k.io then Bloquear(k, p, d, ms, t) else Finalizar(k, p, t)
    case MotivoDump => k.(procs := Mover(k.procs, p, Blocked, t), dumps := k.dumps + {p})
    case MotivoInterrupcion => k.(procs := Mover(k.procs, p, Ready, t), semReady := k.semReady + 1)
    case MotivoSegfault => Finalizar(k, p, t)
    case MotivoOtro => Finalizar(k, p, t)
  }

  /** recibir_y_manejar_respuesta_cpu, as one step. */
  function Responder(k: Foto, i: nat, r: Respuesta, t: int): Foto
    requires i < |k.cpus| && k.cpus[i].pcb.Some? && k.cpus[i].pcb.valor in k.procs.pcbs
    requires forall d :: d in k.io ==> k.io[d].ultimo >= -1
  {
    var p := k.cpus[i].pcb.valor;
    if r.pid != p then LiberarCpu(Finalizar(k, p, t), i)
    else
      var h := Destinar(ConPcb(k, p, TrasRafaga(k.conf, k.procs.pcbs[p], r, t)), p, r.motivo, t);
      LiberarCpu(h, i)
  }

  /** The planner comes back from memory with a yes: element 0 of the queue goes, whoever it is,
      and the candidate is made ready. */
  function Admitir(s: Procesos, de: Estado, c: int, t: int): Procesos {
    var q := Cola(s, de);
    var colas := s.colas[de := if q == [] then q else q[1..]];
    Procesos(if c in s.pcbs then s.pcbs[c := CambiarEstado(s.pcbs[c], Ready, t)] else s.pcbs,
             colas[Ready := Cola(s, Ready) + [c]])
  }

  /** The short-term planner with a ready process and a CPU in hand. The two ways out that do
      not dispatch are the fallbacks of the code. */
  function Despacho(k: Foto, orden: seq<int>, t: int): Foto
    requires k.ultimoCpu >= -1 && (k.conf.corto != CpFifo ==> |orden| == |Cola(k.procs, Ready)|)
  {
    var q := Cola(k.procs, Ready);
    if q == [] || k.conf.corto.CpDesconocido? then
      k.(semReady := k.semReady + 1, semCpu := k.semCpu + 1, cp := CpEspera)
    else if k.conf.corto == CpFifo then DespachoPrimero(k, t)
    else DespachoPrimero(k.(procs := Reordenar(k.procs, Ready, orden)), t)
  }

  /** The first of READY goes to the next free CPU, if there is one. */
  function DespachoPrimero(k: Foto, t: int): Foto
    requires k.ultimoCpu >= -1 && Cola(k.procs, Ready) != []
  {
    var p := Cola(k.procs, Ready)[0];
    var i := Siguiente(CpusLibres(k.cpus), k.ultimoCpu);
    if i.None? then k.(semReady := k.semReady + 1, cp := CpEspera)
    else
      k.(procs := Mover(ConInicio(k.procs, p, t), p, Running, t),
         cpus := k.cpus[i.valor := k.cpus[i.valor].(libre := false, pcb := Some(p))], ultimoCpu := i.valor, cp := CpEspera)
  }

  function ConInicio(s: Procesos, p: int, t: int): Procesos {
    s.(pcbs := if p in s.pcbs then s.pcbs[p := s.pcbs[p].(inicio := t)] else s.pcbs)
  }

  function Conectada(k: Foto, d: seq<char>, socket: int): Foto
    requires forall x :: x in k.io ==> k.io[x].ultimo >= -1
  {
    k.(io := k.io[d := Conectar(if d in k.io then k.io[d] else GRUPO_VACIO, socket)])
  }

  /** What the instance that goes was serving, if anything. */
  function Recuperada(k: Foto, x: Instancia): seq<Solicitud> {
    if x.ocupado && Buscable(k.procs, x.pid) then [Solicitud(x.pid, k.procs.pcbs[x.pid].bloqueoIo)] else []
  }

  /** manejar_desconexion_io: the last instance takes its group and the processes in its queue
      with it. */
  function Desconectada(k: Foto, d: seq<char>, j: nat, t: int): Foto
    requires d in k.io && j < |k.io[d].instancias| && k.io[d].ultimo >= -1
  {
    var h := SinInstancia(k.io[d], j, Recuperada(k, k.io[d].instancias[j]));
    if h.instancias == [] then FinalizarTodos(k.(io := k.io - {d}), h.espera, t)
    else k.(io := k.io[d := Despachar(h)])
  }

  // ---------------------------------------------------------------- one step

  // The environment: the clock does not go back, CPU names and sockets are not reused, a CPU
  // answers for a process it was given, and a device reports the end of a request it was given.
  ghost predicate Posible(k: Foto, ev: Evento) {
    match ev
    case Crear(_, t) => t >= k.reloj
    case LpDespertar => k.lp == LpEspera && k.semAdm > 0
    case LpElegir(orden) =>
      k.lp == LpEligiendo && (k.conf.largo == Pmcp ==> OrdenPorTam(k.procs, Fuente(k.procs), orden))
    case LpResponder(_, t) => k.lp.LpEnMemoria? && t >= k.reloj
    case CpReady => k.cp == CpEspera && k.semReady > 0
    case CpCpu => k.cp == CpConReady && k.semCpu > 0
    case CpDespachar(orden, t) =>
      k.cp == CpConAmbos && t >= k.reloj && (k.conf.corto != CpFifo ==> OrdenPorRafaga(k.procs, Ready, orden))
    case CpuConectar(nombre) => forall i :: 0 <= i < |k.cpus| ==> k.cpus[i].nombre != nombre
    case CpuResponder(i, r, t) => i < |k.cpus| && k.cpus[i].pcb.Some? && t >= k.reloj
    case TimerVencer(pid, t) => pid in k.timers && t >= k.reloj
    case SuspensionResponder(pid, _) => pid in k.suspensiones
    case IoConectar(_, socket) =>
      forall d, j :: d in k.io && 0 <= j < |k.io[d].instancias| ==> k.io[d].instancias[j].socket != socket
    case IoTerminar(d, j, t) => d in k.io && j < |k.io[d].instancias| && k.io[d].instancias[j].ocupado && t >= k.reloj
    case IoDesconectar(d, j, t) => d in k.io && j < |k.io[d].instancias| && t >= k.reloj
    case DumpTerminar(pid, t) => pid in k.dumps && t >= k.reloj
    case ExDespertar => k.ex == ExEspera && k.semExit > 0
    case ExSacar(t) => k.ex == ExConToken && t >= k.reloj
    case ExResponder(_) => k.ex.ExLiberando?
  }

  function Instante(ev: Evento, reloj: int): int {
    match ev
    case Crear(_, t) => t
    case LpResponder(_, t) => t
    case CpDespachar(_, t) => t
    case CpuResponder(_, _, t) => t
    case TimerVencer(_, t) => t
    case IoTerminar(_, _, t) => t
    case IoDesconectar(_, _, t) => t
    case DumpTerminar(_, t) => t
    case ExSacar(t) => t
    case _ => reloj
  }

  // What the step functions need of a state to be defined on it.
  ghost predicate Sano(k: Foto) {
    && k.ultimoCpu >= -1
    && (forall d :: d in k.io ==> k.io[d].ultimo >= -1)
    && (forall i :: 0 <= i < |k.cpus| && k.cpus[i].pcb.Some? ==> k.cpus[i].pcb.valor in k.procs.pcbs)
  }

  predicate DeCpu(ev: Evento) { ev.CpDespachar? || ev.CpuResponder? || ev.CpuConectar? }

  predicate DeIo(ev: Evento) {
    ev.IoConectar? || ev.IoTerminar? || ev.IoDesconectar? || ev.DumpTerminar? || ev.TimerVencer? || ev.SuspensionResponder?
  }

  ghost function Paso(k: Foto, ev: Evento): Foto
    requires Sano(k) && Posible(k, ev)
  {
    (if DeIo(ev) then PasoIo(k, ev) else if DeCpu(ev) then PasoCpu(k, ev) else PasoPlan(k, ev)).(reloj := Instante(ev, k.reloj))
  }

  ghost function PasoPlan(k: Foto, ev: Evento): Foto
    requires Sano(k) && Posible(k, ev) && !DeCpu(ev) && !DeIo(ev)
  {
    match ev
    case Crear(tam, t) => Creada(k, tam, t)
    case LpDespertar => Despertada(k)
    case LpElegir(orden) =>
      if k.conf.largo == Pmcp then ReordenaMismos(Cola(k.procs, Fuente(k.procs)), orden); Elegir(k, orden)
      else Elegir(k, orden)
    case LpResponder(ok, t) => Concluida(k, ok, t)
    case CpReady => k.(cp := CpConReady, semReady := k.semReady - 1)
    case CpCpu => k.(cp := CpConAmbos, semCpu := k.semCpu - 1)
    case ExDespertar => k.(ex := ExConToken, semExit := k.semExit - 1)
    case ExSacar(_) => Sacada(k)
    case ExResponder(ok) => k.(ex := ExEspera, semAdm := k.semAdm + if ok then 1 else 0)
  }

  ghost function PasoCpu(k: Foto, ev: Evento): Foto
    requires Sano(k) && Posible(k, ev) && DeCpu(ev)
  {
    match ev
    case CpDespachar(orden, t) =>
      if k.conf.corto != CpFifo then ReordenaMismos(Cola(k.procs, Ready), orden); Despacho(k, orden, t)
      else Despacho(k, orden, t)
    case CpuConectar(nombre) => CpuNueva(k, nombre)
    case CpuResponder(i, r, t) => Responder(k, i, r, t)
  }

  ghost function PasoIo(k: Foto, ev: Evento): Foto
    requires Sano(k) && Posible(k, ev) && DeIo(ev)
  {
    match ev
    case TimerVencer(p, t) => Vencer(k, p, t)
    case SuspensionResponder(p, ok) =>
      k.(suspensiones := k.suspensiones - multiset{p}, semAdm := k.semAdm + if ok then 1 else 0)
    case IoConectar(d, socket) => Conectada(k, d, socket)
    case IoTerminar(d, j, t) => Terminada(k, d, j, t)
    case IoDesconectar(d, j, t) => Desconectada(k, d, j, t)
    case DumpTerminar(p, t) => Desbloquear(k, p, t).(dumps := k.dumps - {p})
  }

  /** crear_pcb: it posts only when NEW was empty. */
  function Creada(k: Foto, tam: nat, t: int): Foto {
    k.(procs := Alta(k.procs, k.proximo, PcbNuevo(tam, k.conf.estimacionInicial, t)), proximo := k.proximo + 1,
       semAdm := k.semAdm + if Cola(k.procs, New) == [] then 1 else 0)
  }

  function Despertada(k: Foto): Foto
    requires k.semAdm > 0
  {
    k.(lp := LpEligiendo, semAdm := k.semAdm - 1, rechazado := None)
  }

  /** The planner's second critical section: with a yes, on to the next candidate. */
  function Concluida(k: Foto, ok: bool, t: int): Foto
    requires k.lp.LpEnMemoria?
  {
    if ok then
      k.(procs := Admitir(k.procs, if k.lp.susp then SuspReady else New, k.lp.candidato, t),
         semReady := k.semReady + 1, lp := LpEligiendo)
    else k.(lp := LpEspera, rechazado := Some(k.lp.candidato))
  }

  /** gestionar_procesos_finalizados takes the first process of EXIT. */
  function Sacada(k: Foto): Foto {
    if Cola(k.procs, Exit) == [] then k.(ex := ExEspera)
    else k.(procs := Baja(k.procs), ex := ExLiberando(Cola(k.procs, Exit)[0]))
  }

  function CpuNueva(k: Foto, nombre: seq<char>): Foto {
    k.(cpus := k.cpus + [Procesador(nombre, true, None)], semCpu := k.semCpu + 1)
  }

  /** manejar_fin_io. */
  function Terminada(k: Foto, d: seq<char>, j: nat, t: int): Foto
    requires d in k.io && j < |k.io[d].instancias| && k.io[d].ultimo >= -1
  {
    Desbloquear(k, k.io[d].instancias[j].pid, t).(io := k.io[d := Terminar(k.io[d], j)])
  }

  /** hilo_suspension_proceso: a timer of p runs out, and suspends it if it is blocked then. */
  function Vencer(k: Foto, p: int, t: int): Foto {
    if p in k.procs.pcbs && k.procs.pcbs[p].estado == Blocked then
      k.(timers := k.timers - multiset{p}, procs := Mover(k.procs, p, SuspBlocked, t), suspensiones := k.suspensiones + multiset{p})
    else k.(timers := k.timers - multiset{p})
  }

  /** The planner picks the head of the queue it looks at, sorted first under PMCP, and goes to
      memory; with nobody to admit it goes back to waiting. */
  function Elegir(k: Foto, orden: seq<int>): Foto
    requires k.conf.largo == Pmcp ==> |orden| == |Cola(k.procs, Fuente(k.procs))|
  {
    var de := Fuente(k.procs);
    if Cola(k.procs, de) == [] then k.(lp := LpEspera, rechazado := None)
    else
      var s := if k.conf.largo == Pmcp then Reordenar(k.procs, de, orden) else k.procs;
      k.(procs := s, lp := LpEnMemoria(Cola(s, de)[0], de == SuspReady))
  }

  // ---------------------------------------------------------------- runs

  ghost predicate Posibles(k: Foto, evs: seq<Evento>)
    decreases |evs|
  {
    evs == [] || (Sano(k) && Posible(k, evs[0]) && Posibles(Paso(k, evs[0]), evs[1..]))
  }

  ghost function Correr(k: Foto, evs: seq<Evento>): Foto
    requires Posibles(k, evs)
    decreases |evs|
  {
    if evs == [] then k else Correr(Paso(k, evs[0]), evs[1..])
  }
}
