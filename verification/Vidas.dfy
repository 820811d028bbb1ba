/** The life of a PCB through any step: along the edges of the state diagram only, with metrics
    that account for all its time. */
module Vidas {
  import opened Comunes
  import opened Estados
  import opened Colas
  import opened GruposIo
  import opened Nucleo
  import opened InvColas
  import opened InvPasos

  /** From one step to the next a PCB keeps its state and metrics, or takes one edge of the
      diagram and accounts for the time since its last change. */
  ghost predicate Evoluciona(a: Pcb, b: Pcb, t: int) {
    && b.creado == a.creado && b.tam == a.tam
    && ((b.estado == a.estado && b.metricas == a.metricas && b.ultimoCambio == a.ultimoCambio)
        || (Arista(a.estado, b.estado) && b.ultimoCambio == t
            && b.metricas == Ingresar(Acumular(a.metricas, a.estado, t - a.ultimoCambio), b.estado)))
  }

  ghost predicate Evolucionan(s: Procesos, r: Procesos, t: int) {
    forall p :: p in s.pcbs && p in r.pcbs ==> Evoluciona(s.pcbs[p], r.pcbs[p], t)
  }

  // Processes appear in NEW, as `nuevo`, and disappear from EXIT.
  ghost predicate Nacen(s: Procesos, r: Procesos, nuevo: int, t: int) {
    && (forall p :: p in r.pcbs && p !in s.pcbs ==> p == nuevo && exists tam, e :: r.pcbs[p] == PcbNuevo(tam, e, t))
    && (forall p :: p in s.pcbs && p !in r.pcbs ==> s.pcbs[p].estado == Exit)
  }

  lemma {:induction false} MoverEvoluciona(k: Procesos, s: Procesos, p: int, e: Estado, t: int)
    requires MismosSalvo(k, s, p) && Arista(k.pcbs[p].estado, e)
    ensures Evolucionan(k, Mover(s, p, e, t), t) && Mover(s, p, e, t).pcbs.Keys == k.pcbs.Keys
  {
  }

  lemma {:induction false} DesbloquearEvoluciona(k: Foto, p: int, t: int)
    ensures Evolucionan(k.procs, Desbloquear(k, p, t).procs, t)
    ensures Desbloquear(k, p, t).procs.pcbs.Keys == k.procs.pcbs.Keys
  {
  }

  lemma {:induction false} VencerEvoluciona(k: Foto, p: int, t: int)
    ensures Evolucionan(k.procs, Vencer(k, p, t).procs, t) && Vencer(k, p, t).procs.pcbs.Keys == k.procs.pcbs.Keys
  {
  }

  lemma {:induction false} DesconectarEvoluciona(k: Foto, d: seq<char>, j: nat, t: int)
    requires Base(k) && d in k.io && j < |k.io[d].instancias|
    ensures var h := Desconectada(k, d, j, t); Evolucionan(k.procs, h.procs, t) && h.procs.pcbs.Keys == k.procs.pcbs.Keys
  {
    DesconectarColas(k, d, j, t);
  }

  lemma {:induction false} EvolucionIo(k: Foto, ev: Evento)
    requires Base(k) && Posible(k, ev) && DeIo(ev)
    ensures Sano(k) && Evolucionan(k.procs, PasoIo(k, ev).procs, Instante(ev, k.reloj))
    ensures PasoIo(k, ev).procs.pcbs.Keys == k.procs.pcbs.Keys
  {
    match ev
    case TimerVencer(p, t) => VencerEvoluciona(k, p, t);
    case IoTerminar(d, j, t) => DesbloquearEvoluciona(k, k.io[d].instancias[j].pid, t);
    case IoDesconectar(d, j, t) => DesconectarEvoluciona(k, d, j, t);
    case DumpTerminar(p, t) => DesbloquearEvoluciona(k, p, t);
    case _ =>
  }

  lemma {:induction false} EvolucionCpu(k: Foto, ev: Evento)
    requires Base(k) && Posible(k, ev) && DeCpu(ev)
    ensures Sano(k) && Evolucionan(k.procs, PasoCpu(k, ev).procs, Instante(ev, k.reloj))
    ensures PasoCpu(k, ev).procs.pcbs.Keys == k.procs.pcbs.Keys
  {
    match ev
    case CpDespachar(orden, t) =>
      if !k.conf.corto.CpDesconocido? {
        var s, p, i := DespachoForma(k, orden, t);
        MoverEvoluciona(k.procs, s, p, Running, t);
      }
    case CpuResponder(i, r, t) =>
      var s, e := ResponderForma(k, i, r, t);
      MoverEvoluciona(k.procs, s, k.cpus[i].pcb.valor, e, t);
    case CpuConectar(_) =>
  }

  lemma {:induction false} EvolucionPlan(k: Foto, ev: Evento)
    requires Base(k) && Posible(k, ev) && !DeCpu(ev) && !DeIo(ev)
    ensures Sano(k) && Evolucionan(k.procs, PasoPlan(k, ev).procs, Instante(ev, k.reloj))
    ensures Nacen(k.procs, PasoPlan(k, ev).procs, k.proximo, Instante(ev, k.reloj))
  {
    match ev
    case LpResponder(ok, t) => AdmisionEvoluciona(k, t);
    case ExSacar(t) => if Cola(k.procs, Exit) != [] { BajaEvoluciona(k.procs, k.proximo, t); }
    case Crear(tam, t) =>
      assert PasoPlan(k, ev).procs.pcbs[k.proximo] == PcbNuevo(tam, k.conf.estimacionInicial, t);
    case _ =>
  }

  lemma {:induction false} AdmisionEvoluciona(k: Foto, t: int)
    requires Base(k) && k.lp.LpEnMemoria?
    ensures var r := Admitir(k.procs, if k.lp.susp then SuspReady else New, k.lp.candidato, t);
            Evolucionan(k.procs, r, t) && r.pcbs.Keys == k.procs.pcbs.Keys
  {
  }

  lemma {:induction false} BajaEvoluciona(s: Procesos, proximo: int, t: int)
    requires Particion(s) && Cola(s, Exit) != []
    ensures Evolucionan(s, Baja(s), t) && Nacen(s, Baja(s), proximo, t)
  {
  }

  /** Legal lives: every step takes every PCB along an edge of the state diagram or leaves it
      where it is; PCBs are born in NEW and freed from EXIT. */
  lemma {:induction false} EvolucionPaso(k: Foto, ev: Evento)
    requires Base(k) && Posible(k, ev)
    ensures Sano(k) && Evolucionan(k.procs, Paso(k, ev).procs, Instante(ev, k.reloj))
    ensures Nacen(k.procs, Paso(k, ev).procs, k.proximo, Instante(ev, k.reloj))
  {
    if DeIo(ev) { EvolucionIo(k, ev); }
    else if DeCpu(ev) { EvolucionCpu(k, ev); }
    else { EvolucionPlan(k, ev); }
  }

  ghost predicate MetricasTodas(k: Foto) {
    forall p :: p in k.procs.pcbs ==> MetricasOk(k.procs.pcbs[p], k.reloj)
  }

  lemma {:induction false} EvolucionaMetricas(a: Pcb, b: Pcb, t: int, reloj: int)
    requires Evoluciona(a, b, t) && MetricasOk(a, reloj) && reloj <= t
    ensures MetricasOk(b, t)
  {
  }

  /** Metrics telescope. */
  lemma {:induction false} MetricasPaso(k: Foto, ev: Evento)
    requires Base(k) && MetricasTodas(k) && Posible(k, ev)
    ensures Sano(k) && MetricasTodas(Paso(k, ev))
  {
    EvolucionPaso(k, ev);
    var h := Paso(k, ev);
    forall p | p in h.procs.pcbs ensures MetricasOk(h.procs.pcbs[p], h.reloj) {
      if p in k.procs.pcbs { EvolucionaMetricas(k.procs.pcbs[p], h.procs.pcbs[p], h.reloj, k.reloj); }
    }
  }
}
