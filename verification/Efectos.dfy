/** What becomes of a process at each step, said case by case: which queue it goes to, what its
    PCB keeps, which CPU and which timers change. */
module Efectos {
  import opened Comunes
  import opened Ronda
  import opened Estados
  import opened Colas
  import opened GruposIo
  import opened Nucleo
  import opened InvColas
  import opened InvPasos
  import opened InvIo
  import opened Vidas
  import opened LargoPlazo
  import opened KernelCorridas

  // Nobody else's PCB changes.
  ghost predicate Solo(k: Foto, h: Foto, p: int) {
    h.procs.pcbs.Keys == k.procs.pcbs.Keys && forall q :: q in k.procs.pcbs && q != p ==> h.procs.pcbs[q] == k.procs.pcbs[q]
  }

  // p has gone from the queue of d to the end of that of e, and nobody else has moved.
  ghost predicate PasaA(k: Foto, h: Foto, p: int, d: Estado, e: Estado) {
    && Solo(k, h, p) && EsDe(k, p, d) && EsDe(h, p, e)
    && Cola(h.procs, e) == Cola(k.procs, e) + [p]
    && (forall f :: f != e && f != d ==> Cola(h.procs, f) == Cola(k.procs, f))
  }

  // ---------------------------------------------------------------- the end of a burst

  /** Where each answer sends the process. */
  function Destino(io: map<seq<char>, Grupo>, p: int, r: Respuesta): Estado {
    if r.pid != p then Exit
    else match r.motivo
      case MotivoExit => Exit
      case MotivoIo(d, _) => if d in io then Blocked else Exit
      case MotivoDump => Blocked
      case MotivoInterrupcion => Ready
      case MotivoSegfault => Exit
      case MotivoOtro => Exit
  }

  lemma {:induction false} DestinarPasa(k: Foto, p: int, r: Respuesta, t: int)
    requires Particion(k.procs) && GruposSanos(k) && EsDe(k, p, Running) && r.pid == p
    ensures PasaA(k, Destinar(k, p, r.motivo, t), p, Running, Destino(k.io, p, r))
    ensures Destinar(k, p, r.motivo, t).cpus == k.cpus
  {
  }

  lemma {:induction false} AnotarNoMueve(k: Foto, m: Foto, h: Foto, p: int, e: Estado)
    requires p in k.procs.pcbs && p in m.procs.pcbs && m == ConPcb(k, p, m.procs.pcbs[p]) && m.procs.pcbs[p].estado == k.procs.pcbs[p].estado
    requires PasaA(m, h, p, Running, e)
    ensures PasaA(k, h, p, Running, e)
  {
  }

  lemma {:induction false} ResponderPasa(k: Foto, i: nat, r: Respuesta, t: int)
    requires Base(k) && i < |k.cpus| && k.cpus[i].pcb == Some(r.pid)
    ensures Sano(k)
    ensures var h := Responder(k, i, r, t);
            && PasaA(k, h, r.pid, Running, Destino(k.io, r.pid, r))
            && h.cpus == k.cpus[i := Procesador(k.cpus[i].nombre, true, None)]
  {
    var p := r.pid;
    var m := ConPcb(k, p, TrasRafaga(k.conf, k.procs.pcbs[p], r, t));
    PcbNeutro(k.procs, p, m.procs.pcbs[p]);
    DestinarPasa(m, p, r, t);
    AnotarNoMueve(k, m, Destinar(m, p, r.motivo, t), p, Destino(k.io, p, r));
  }

  lemma {:induction false} ResponderAjeno(k: Foto, i: nat, r: Respuesta, t: int)
    requires Base(k) && i < |k.cpus| && k.cpus[i].pcb.Some? && k.cpus[i].pcb.valor != r.pid
    ensures Sano(k)
    ensures var h := Responder(k, i, r, t);
            && PasaA(k, h, k.cpus[i].pcb.valor, Running, Exit)
            && h.cpus == k.cpus[i := Procesador(k.cpus[i].nombre, true, None)]
  {
  }

  /** The process that was on the CPU goes where the answer says, at the end of that queue, and
      its CPU is free: to EXIT after EXIT, a fault, an unknown motive, an unknown device or
      another's pid; to READY when interrupted; to BLOCKED for a dump or a known device. */
  lemma {:induction false} RespuestaDestina(k: Foto, i: nat, r: Respuesta, t: int)
    requires Inv(k) && Posible(k, CpuResponder(i, r, t))
    ensures Sano(k)
    ensures var h := Paso(k, CpuResponder(i, r, t));
            var p := k.cpus[i].pcb.valor;
            && PasaA(k, h, p, Running, Destino(k.io, p, r))
            && h.cpus == k.cpus[i := Procesador(k.cpus[i].nombre, true, None)]
  {
    if r.pid == k.cpus[i].pcb.valor { ResponderPasa(k, i, r, t); } else { ResponderAjeno(k, i, r, t); }
  }

  // What the burst leaves in the PCB: where it stopped, how long it ran, and the estimate of the
  // next one - what is left of this one if it was cut, else the weighted average.
  predicate Anotado(conf: Conf, io: map<seq<char>, Grupo>, a: Pcb, b: Pcb, r: Respuesta, t: int) {
    var duro := t - a.inicio;
    && b.pc == r.pc && b.inicio == a.inicio
    && b.rafagaAnterior == (if r.motivo.MotivoInterrupcion? then a.rafagaAnterior else duro)
    && (r.motivo.MotivoInterrupcion? ==>
          if a.estimacion < duro as real then b.estimacion == 0.0 else b.estimacion == a.estimacion - duro as real)
    && (!r.motivo.MotivoInterrupcion? && (conf.corto == Sjf || conf.corto == Srt) ==>
          var media := a.estimacion + conf.alfa * (duro as real - a.estimacion);
          b.estimacion == if media > 0.0 then media else 1.0)
    && (!r.motivo.MotivoInterrupcion? && (conf.corto == CpFifo || conf.corto == CpDesconocido) ==> b.estimacion == a.estimacion)
    && b.bloqueoIo == (if r.motivo.MotivoIo? && r.motivo.dispositivo in io then r.motivo.ms else a.bloqueoIo)
  }

  lemma {:induction false} TrasRafagaAnota(conf: Conf, a: Pcb, r: Respuesta, t: int)
    ensures var b := TrasRafaga(conf, a, r, t);
            Anotado(conf, map[], a, b, r, t) && b == a.(pc := b.pc, estimacion := b.estimacion, rafagaAnterior := b.rafagaAnterior)
  {
  }

  lemma {:induction false} DestinarDeja(k: Foto, p: int, r: Respuesta, t: int)
    requires GruposSanos(k) && p in k.procs.pcbs
    ensures p in Destinar(k, p, r.motivo, t).procs.pcbs
    ensures var a, b := k.procs.pcbs[p], Destinar(k, p, r.motivo, t).procs.pcbs[p];
            && b.pc == a.pc && b.inicio == a.inicio && b.rafagaAnterior == a.rafagaAnterior && b.estimacion == a.estimacion
            && b.bloqueoIo == (if r.motivo.MotivoIo? && r.motivo.dispositivo in k.io then r.motivo.ms else a.bloqueoIo)
  {
  }

  lemma {:induction false} ResponderAnota(k: Foto, i: nat, r: Respuesta, t: int)
    requires Base(k) && i < |k.cpus| && k.cpus[i].pcb == Some(r.pid)
    ensures Sano(k)
    ensures var h := Responder(k, i, r, t);
            r.pid in h.procs.pcbs && Anotado(k.conf, k.io, k.procs.pcbs[r.pid], h.procs.pcbs[r.pid], r, t)
  {
    var a := k.procs.pcbs[r.pid];
    var m := TrasRafaga(k.conf, a, r, t);
    TrasRafagaAnota(k.conf, a, r, t);
    DestinarDeja(ConPcb(k, r.pid, m), r.pid, r, t);
    AnotadoSigue(k.conf, k.io, a, m, Responder(k, i, r, t).procs.pcbs[r.pid], r, t);
  }

  lemma {:induction false} AnotadoSigue(conf: Conf, io: map<seq<char>, Grupo>, a: Pcb, m: Pcb, b: Pcb, r: Respuesta, t: int)
    requires Anotado(conf, map[], a, m, r, t)
    requires b.pc == m.pc && b.inicio == m.inicio && b.rafagaAnterior == m.rafagaAnterior && b.estimacion == m.estimacion
    requires b.bloqueoIo == (if r.motivo.MotivoIo? && r.motivo.dispositivo in io then r.motivo.ms else a.bloqueoIo)
    ensures Anotado(conf, io, a, b, r, t)
  {
  }

  /** The PCB keeps what the burst reported: above all, where to resume. */
  lemma {:induction false} RespuestaAnota(k: Foto, i: nat, r: Respuesta, t: int)
    requires Inv(k) && Posible(k, CpuResponder(i, r, t)) && k.cpus[i].pcb == Some(r.pid)
    ensures Sano(k)
    ensures var h := Paso(k, CpuResponder(i, r, t));
            r.pid in h.procs.pcbs && Anotado(k.conf, k.io, k.procs.pcbs[r.pid], h.procs.pcbs[r.pid], r, t)
  {
    ResponderAnota(k, i, r, t);
  }

  // ---------------------------------------------------------------- the dispatch

  // The PCB but for what changing its state changes.
  predicate SalvoEstado(a: Pcb, b: Pcb) { b == a.(estado := b.estado, metricas := b.metricas, ultimoCambio := b.ultimoCambio) }

  /** Who goes to a CPU: under FIFO the head of READY; under SJF and SRT one that nobody in READY
      has a shorter estimate than, and of equals the one created first. */
  ghost predicate LeToca(k: Foto, p: int) {
    if k.conf.corto == CpFifo then Cola(k.procs, Ready) != [] && p == Cola(k.procs, Ready)[0]
    else EsDe(k, p, Ready) && forall q :: EsDe(k, q, Ready) && q != p ==>
           k.procs.pcbs[p].estimacion <= k.procs.pcbs[q].estimacion && (k.procs.pcbs[p].estimacion == k.procs.pcbs[q].estimacion ==> p < q)
  }

  lemma {:induction false} PrimeroLeToca(k: Foto, orden: seq<int>)
    requires Particion(k.procs) && OrdenPorRafaga(k.procs, Ready, orden) && orden != [] && k.conf.corto != CpFifo
    ensures LeToca(k, orden[0])
  {
    var q := Cola(k.procs, Ready);
    ReordenaMismos(q, orden);
    forall x ensures x in orden <==> EsDe(k, x, Ready) { assert x in orden <==> x in q; }
    assert orden[0] in orden;
    forall x | EsDe(k, x, Ready) && x != orden[0]
      ensures k.procs.pcbs[orden[0]].estimacion <= k.procs.pcbs[x].estimacion
      ensures k.procs.pcbs[orden[0]].estimacion == k.procs.pcbs[x].estimacion ==> orden[0] < x
    {
      var j :| 0 <= j < |orden| && orden[j] == x;
      assert !MasCorto(k.procs, orden[j], orden[0]);
    }
  }

  /** The dispatch takes from READY whoever it should, to the next free CPU in turn, and notes
      when it started. */
  lemma {:induction false} DespachoElige(k: Foto, orden: seq<int>, t: int) returns (p: int, i: nat)
    requires Inv(k) && Posible(k, CpDespachar(orden, t)) && !k.conf.corto.CpDesconocido?
    ensures Sano(k) && LeToca(k, p) && EsDe(k, p, Ready)
    ensures i < |k.cpus| && k.cpus[i].libre && Siguiente(CpusLibres(k.cpus), k.ultimoCpu) == Some(i)
    ensures var h := Paso(k, CpDespachar(orden, t));
            && EsDe(h, p, Running) && h.procs.pcbs[p].inicio == t && SalvoEstado(k.procs.pcbs[p].(inicio := t), h.procs.pcbs[p])
            && Solo(k, h, p) && h.ultimoCpu == i
            && h.cpus == k.cpus[i := Procesador(k.cpus[i].nombre, false, Some(p))]
  {
    var s;
    s, p, i := DespachoForma(k, orden, t);
    if k.conf.corto != CpFifo {
      ReordenaMismos(Cola(k.procs, Ready), orden);
      PrimeroLeToca(k, orden);
    }
  }

  // ---------------------------------------------------------------- timers, devices, dumps

  // What unblocks p does to it, and the post it needs.
  ghost predicate Desbloqueado(k: Foto, h: Foto, p: int) {
    if EsDe(k, p, Blocked) then PasaA(k, h, p, Blocked, Ready) && h.semReady == k.semReady + 1 && h.semAdm == k.semAdm
    else if EsDe(k, p, SuspBlocked) then PasaA(k, h, p, SuspBlocked, SuspReady) && h.semAdm == k.semAdm + 1 && h.semReady == k.semReady
    else h.procs == k.procs && h.semReady == k.semReady && h.semAdm == k.semAdm
  }

  lemma {:induction false} DesbloquearPasa(k: Foto, p: int, t: int)
    requires Particion(k.procs)
    ensures Desbloqueado(k, Desbloquear(k, p, t), p)
  {
    if EsDe(k, p, Blocked) { MoverConserva(k.procs, p, Ready, t); }
    if EsDe(k, p, SuspBlocked) { MoverConserva(k.procs, p, SuspReady, t); }
  }

  /** The end of an I/O unblocks the process the instance was serving, and nobody else. */
  lemma {:induction false} FinIoDestina(k: Foto, d: seq<char>, j: nat, t: int)
    requires Inv(k) && Posible(k, IoTerminar(d, j, t))
    ensures Sano(k) && Desbloqueado(k, Paso(k, IoTerminar(d, j, t)), k.io[d].instancias[j].pid)
  {
    DesbloquearPasa(k, k.io[d].instancias[j].pid, t);
  }

  /** So does the end of a dump. */
  lemma {:induction false} DumpDestina(k: Foto, p: int, t: int)
    requires Inv(k) && Posible(k, DumpTerminar(p, t))
    ensures Sano(k) && Desbloqueado(k, Paso(k, DumpTerminar(p, t)), p) && Paso(k, DumpTerminar(p, t)).dumps == k.dumps - {p}
  {
    DesbloquearPasa(k, p, t);
  }

  lemma {:induction false} VencerPasa(k: Foto, p: int, t: int)
    requires Particion(k.procs)
    ensures var h := Vencer(k, p, t);
            if EsDe(k, p, Blocked) then PasaA(k, h, p, Blocked, SuspBlocked) && h.suspensiones == k.suspensiones + multiset{p}
            else h.procs == k.procs && h.suspensiones == k.suspensiones
  {
    if EsDe(k, p, Blocked) { MoverConserva(k.procs, p, SuspBlocked, t); }
  }

  /** A timer that runs out suspends its process if it is blocked then, and asks memory to. */
  lemma {:induction false} TimerDestina(k: Foto, p: int, t: int)
    requires Inv(k) && Posible(k, TimerVencer(p, t))
    ensures Sano(k)
    ensures var h := Paso(k, TimerVencer(p, t));
            if EsDe(k, p, Blocked) then PasaA(k, h, p, Blocked, SuspBlocked) && h.suspensiones == k.suspensiones + multiset{p}
            else h.procs == k.procs && h.suspensiones == k.suspensiones
  {
    VencerPasa(k, p, t);
  }

  // ---------------------------------------------------------------- what every other step leaves

  // Every PCB keeps what changing its state does not change.
  ghost predicate Conservan(k: Foto, h: Foto) {
    forall p :: p in k.procs.pcbs && p in h.procs.pcbs ==> SalvoEstado(k.procs.pcbs[p], h.procs.pcbs[p])
  }

  lemma {:induction false} ConservanIo(k: Foto, ev: Evento)
    requires Inv(k) && Posible(k, ev) && DeIo(ev)
    ensures Sano(k) && Conservan(k, PasoIo(k, ev))
  {
    match ev
    case IoDesconectar(d, j, t) => ConservanPerdida(k, d, j, t);
    case IoTerminar(d, j, t) => ConservanDesbloqueo(k, k.io[d].instancias[j].pid, t);
    case DumpTerminar(p, t) => ConservanDesbloqueo(k, p, t);
    case TimerVencer(p, t) => ConservanVencer(k, p, t);
    case _ =>
  }

  lemma {:induction false} ConservanPerdida(k: Foto, d: seq<char>, j: nat, t: int)
    requires Base(k) && d in k.io && j < |k.io[d].instancias|
    ensures Conservan(k, Desconectada(k, d, j, t))
  {
    DesconectarColas(k, d, j, t);
  }

  lemma {:induction false} ConservanDesbloqueo(k: Foto, p: int, t: int)
    ensures Conservan(k, Desbloquear(k, p, t))
  {
  }

  lemma {:induction false} ConservanVencer(k: Foto, p: int, t: int)
    ensures Conservan(k, Vencer(k, p, t))
  {
  }

  lemma {:induction false} ConservanPlan(k: Foto, ev: Evento)
    requires Inv(k) && Posible(k, ev) && !DeIo(ev) && !DeCpu(ev)
    ensures Sano(k) && Conservan(k, PasoPlan(k, ev))
  {
    assert k.proximo !in k.procs.pcbs;
  }

  /** Outside dispatches and answers of CPUs a PCB changes in nothing but its state and times. */
  lemma {:induction false} ConservanPaso(k: Foto, ev: Evento)
    requires Inv(k) && Posible(k, ev) && !ev.CpDespachar? && !ev.CpuResponder?
    ensures Sano(k) && Conservan(k, Paso(k, ev))
  {
    if DeIo(ev) { ConservanIo(k, ev); } else if !DeCpu(ev) { ConservanPlan(k, ev); }
  }

  /** A process is born in NEW, at its end, to start at 0, with the first estimate of all. */
  lemma {:induction false} NaceEnCero(k: Foto, tam: nat, t: int)
    requires Inv(k) && Posible(k, Crear(tam, t))
    ensures Sano(k) && k.proximo !in k.procs.pcbs
    ensures var h := Paso(k, Crear(tam, t));
            && EsDe(h, k.proximo, New) && Cola(h.procs, New) == Cola(k.procs, New) + [k.proximo] && h.proximo == k.proximo + 1
            && var b := h.procs.pcbs[k.proximo];
               b.pc == 0 && b.tam == tam && b.estimacion == k.conf.estimacionInicial && b.creado == t && Suma(b.metricas) == 0
  {
  }

  // The process that answers for itself in this step.
  predicate Contesta(k: Foto, ev: Evento, p: int) {
    ev.CpuResponder? && ev.i < |k.cpus| && k.cpus[ev.i].pcb == Some(p) && ev.r.pid == p
  }

  /** The program counter of a process changes only as its CPU says. */
  lemma {:induction false} PcPaso(k: Foto, ev: Evento, p: int)
    requires Inv(k) && Posible(k, ev)
    ensures Sano(k)
    ensures p in Paso(k, ev).procs.pcbs ==>
              Paso(k, ev).procs.pcbs[p].pc == if Contesta(k, ev, p) then ev.r.pc else if p in k.procs.pcbs then k.procs.pcbs[p].pc else 0
  {
    match ev
    case CpuResponder(i, r, t) => PcRespuesta(k, i, r, t, p);
    case CpDespachar(orden, t) => PcDespacho(k, orden, t);
    case _ => PcDemas(k, ev, p);
  }

  lemma {:induction false} PcDemas(k: Foto, ev: Evento, p: int)
    requires Inv(k) && Posible(k, ev) && !ev.CpDespachar? && !ev.CpuResponder?
    ensures Sano(k)
    ensures p in Paso(k, ev).procs.pcbs ==> Paso(k, ev).procs.pcbs[p].pc == if p in k.procs.pcbs then k.procs.pcbs[p].pc else 0
  {
    ConservanPaso(k, ev);
    EvolucionPaso(k, ev);
  }

  lemma {:induction false} PcRespuesta(k: Foto, i: nat, r: Respuesta, t: int, p: int)
    requires Inv(k) && Posible(k, CpuResponder(i, r, t))
    ensures Sano(k)
    ensures var h := Paso(k, CpuResponder(i, r, t));
            h.procs.pcbs.Keys == k.procs.pcbs.Keys
            && (p in k.procs.pcbs ==> h.procs.pcbs[p].pc == if k.cpus[i].pcb == Some(p) && r.pid == p then r.pc else k.procs.pcbs[p].pc)
  {
    RespuestaDestina(k, i, r, t);
    if r.pid == k.cpus[i].pcb.valor { RespuestaAnota(k, i, r, t); } else { PcAjeno(k, i, r, t); }
  }

  lemma {:induction false} PcAjeno(k: Foto, i: nat, r: Respuesta, t: int)
    requires Inv(k) && Posible(k, CpuResponder(i, r, t)) && k.cpus[i].pcb.valor != r.pid
    ensures Sano(k) && Conservan(k, Responder(k, i, r, t))
  {
  }

  lemma {:induction false} PcDespacho(k: Foto, orden: seq<int>, t: int)
    requires Inv(k) && Posible(k, CpDespachar(orden, t))
    ensures Sano(k)
    ensures var h := Paso(k, CpDespachar(orden, t));
            h.procs.pcbs.Keys == k.procs.pcbs.Keys && forall p :: p in k.procs.pcbs ==> h.procs.pcbs[p].pc == k.procs.pcbs[p].pc
  {
    if !k.conf.corto.CpDesconocido? { var p, i := DespachoElige(k, orden, t); }
  }

  /** Where p said last, in the run, that it stopped. */
  ghost function UltimoPc(k: Foto, evs: seq<Evento>, p: int): Option<int>
    requires Posibles(k, evs)
    decreases |evs|
  {
    if evs == [] then None
    else
      var despues := UltimoPc(Paso(k, evs[0]), evs[1..], p);
      if despues.Some? then despues else if Contesta(k, evs[0], p) then Some(evs[0].r.pc) else None
  }

  /** So what a process is dispatched with is where its last burst stopped, or 0 the first time. */
  lemma {:induction false} PcEsElUltimo(k: Foto, evs: seq<Evento>, p: int)
    requires Inv(k) && Posibles(k, evs) && p in Correr(k, evs).procs.pcbs
    ensures Correr(k, evs).procs.pcbs[p].pc
         == UltimoPc(k, evs, p).GetOr(if p in k.procs.pcbs then k.procs.pcbs[p].pc else 0)
    decreases |evs|
  {
    if evs != [] {
      var h := Paso(k, evs[0]);
      PcPaso(k, evs[0], p);
      InvPaso(k, evs[0]);
      if p in k.procs.pcbs { NoVuelve(k, evs[0], evs[1..], p); }
      PcEsElUltimo(h, evs[1..], p);
    }
  }

  // ---------------------------------------------------------------- timers, dumps and posts

  // The process that this step blocks on a device, or starts the dump of.
  predicate BloqueaEnDispositivo(k: Foto, ev: Evento, p: int) {
    Contesta(k, ev, p) && ev.r.motivo.MotivoIo? && ev.r.motivo.dispositivo in k.io
  }

  predicate EmpiezaDump(k: Foto, ev: Evento, p: int) { Contesta(k, ev, p) && ev.r.motivo == MotivoDump }

  /** Who tells the long-term planner to look: an arrival to an empty NEW, a yes of memory to a
      suspension or to a release, and the end of an I/O or a dump of a suspended process. */
  function Avisa(k: Foto, ev: Evento): int {
    match ev
    case Crear(_, _) => if Cola(k.procs, New) == [] then 1 else 0
    case LpDespertar => -1
    case SuspensionResponder(_, ok) => if ok then 1 else 0
    case ExResponder(ok) => if ok then 1 else 0
    case IoTerminar(d, j, _) => if d in k.io && j < |k.io[d].instancias| && EsDe(k, k.io[d].instancias[j].pid, SuspBlocked) then 1 else 0
    case DumpTerminar(p, _) => if EsDe(k, p, SuspBlocked) then 1 else 0
    case _ => 0
  }

  // What a step does to p's timers and dumps, and to the planner's semaphore.
  ghost predicate Cuenta(k: Foto, ev: Evento, h: Foto, p: int) {
    && h.timers[p] + (if ev.TimerVencer? && ev.pid == p then 1 else 0) == k.timers[p] + (if BloqueaEnDispositivo(k, ev, p) then 1 else 0)
    && (p in h.dumps <==> EmpiezaDump(k, ev, p) || (p in k.dumps && !(ev.DumpTerminar? && ev.pid == p)))
    && h.semAdm == k.semAdm + Avisa(k, ev)
  }

  lemma {:induction false} CuentaIo(k: Foto, ev: Evento, p: int)
    requires Inv(k) && Posible(k, ev) && DeIo(ev)
    ensures Sano(k) && Cuenta(k, ev, PasoIo(k, ev), p)
  {
    match ev
    case IoDesconectar(d, j, t) => DesconectarColas(k, d, j, t);
    case IoTerminar(d, j, t) => CuentaFinIo(k, d, j, t, p);
    case DumpTerminar(q, t) => CuentaDesbloqueo(k, q, t);
    case TimerVencer(q, t) => CuentaVencer(k, q, t);
    case _ =>
  }

  lemma {:induction false} CuentaFinIo(k: Foto, d: seq<char>, j: nat, t: int, p: int)
    requires Inv(k) && Posible(k, IoTerminar(d, j, t))
    ensures Cuenta(k, IoTerminar(d, j, t), Terminada(k, d, j, t), p)
  {
    CuentaDesbloqueo(k, k.io[d].instancias[j].pid, t);
  }

  lemma {:induction false} CuentaVencer(k: Foto, q: int, t: int)
    ensures var h := Vencer(k, q, t); h == k.(procs := h.procs, timers := k.timers - multiset{q}, suspensiones := h.suspensiones)
  {
  }

  lemma {:induction false} CuentaDesbloqueo(k: Foto, p: int, t: int)
    ensures var h := Desbloquear(k, p, t);
            h == k.(procs := h.procs, semReady := h.semReady, semAdm := k.semAdm + if EsDe(k, p, SuspBlocked) then 1 else 0)
  {
  }

  lemma {:induction false} CuentaRespuesta(k: Foto, i: nat, r: Respuesta, t: int, p: int)
    requires Inv(k) && Posible(k, CpuResponder(i, r, t))
    ensures Sano(k) && Cuenta(k, CpuResponder(i, r, t), Responder(k, i, r, t), p)
  {
    if k.cpus[i].pcb == Some(r.pid) {
      CuentaDestino(ConPcb(k, r.pid, TrasRafaga(k.conf, k.procs.pcbs[r.pid], r, t)), r, t);
    }
  }

  lemma {:induction false} CuentaDestino(k: Foto, r: Respuesta, t: int)
    requires GruposSanos(k) && r.pid in k.procs.pcbs
    ensures var h := Destinar(k, r.pid, r.motivo, t);
            && h.timers == k.timers + (if r.motivo.MotivoIo? && r.motivo.dispositivo in k.io then multiset{r.pid} else multiset{})
            && h.dumps == k.dumps + (if r.motivo == MotivoDump then {r.pid} else {})
            && h.semAdm == k.semAdm && h.cpus == k.cpus
  {
  }

  lemma {:induction false} CuentaCpu(k: Foto, ev: Evento, p: int)
    requires Inv(k) && Posible(k, ev) && DeCpu(ev)
    ensures Sano(k) && Cuenta(k, ev, PasoCpu(k, ev), p)
  {
    match ev
    case CpuResponder(i, r, t) => CuentaRespuesta(k, i, r, t, p);
    case _ =>
  }

  lemma {:induction false} CuentaPlan(k: Foto, ev: Evento, p: int)
    requires Inv(k) && Posible(k, ev) && !DeIo(ev) && !DeCpu(ev)
    ensures Sano(k) && Cuenta(k, ev, PasoPlan(k, ev), p)
  {
  }

  /** One timer for each block on a device and no other; one dump at a time; and exactly those
      posts. */
  lemma {:induction false} CuentaPaso(k: Foto, ev: Evento, p: int)
    requires Inv(k) && Posible(k, ev)
    ensures Sano(k) && Cuenta(k, ev, Paso(k, ev), p)
  {
    if DeIo(ev) { CuentaIo(k, ev, p); } else if DeCpu(ev) { CuentaCpu(k, ev, p); } else { CuentaPlan(k, ev, p); }
  }

  // ---------------------------------------------------------------- the long-term planner's choice

  /** It asks memory for a suspended process if there is one, else for a new one: the first of its
      queue under FIFO, under smallest-first one that none of them is smaller than. */
  lemma {:induction false} LpElige(k: Foto, orden: seq<int>)
    requires Inv(k) && Posible(k, LpElegir(orden))
    ensures Sano(k)
    ensures var h := Paso(k, LpElegir(orden));
            var de := if Cola(k.procs, SuspReady) != [] then SuspReady else New;
            && h.procs.pcbs == k.procs.pcbs && h.semAdm == k.semAdm
            && if Cola(k.procs, de) == [] then h.lp == LpEspera
               else h.lp.LpEnMemoria? && h.lp.susp == (de == SuspReady) && EsDe(k, h.lp.candidato, de)
                    && (k.conf.largo == LpFifo ==> h.lp.candidato == Cola(k.procs, de)[0])
                    && (k.conf.largo == Pmcp ==>
                          forall q :: EsDe(k, q, de) ==> k.procs.pcbs[h.lp.candidato].tam <= k.procs.pcbs[q].tam)
  {
    var de := Fuente(k.procs);
    var q := Cola(k.procs, de);
    if q != [] { assert q[0] in q; }
    if k.conf.largo == Pmcp && q != [] { MasChicoPrimero(k, de, orden); }
  }

  lemma {:induction false} MasChicoPrimero(k: Foto, de: Estado, orden: seq<int>)
    requires Particion(k.procs) && OrdenPorTam(k.procs, de, orden) && Cola(k.procs, de) != []
    ensures |orden| == |Cola(k.procs, de)| && EsDe(k, orden[0], de)
    ensures forall q :: EsDe(k, q, de) ==> k.procs.pcbs[orden[0]].tam <= k.procs.pcbs[q].tam
  {
    ReordenaMismos(Cola(k.procs, de), orden);
    assert orden[0] in orden;
    forall q | EsDe(k, q, de) ensures k.procs.pcbs[orden[0]].tam <= k.procs.pcbs[q].tam {
      assert q in Cola(k.procs, de);
      var j :| 0 <= j < |orden| && orden[j] == q;
      if j > 0 { assert !MasChico(k.procs, orden[j], orden[0]); }
    }
  }
}
