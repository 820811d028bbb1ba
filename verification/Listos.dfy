/** READY as a queue: under FIFO it is in the order the processes came to it, over any run, so
    whoever is dispatched has waited longest. */
module Listos {
  import opened Comunes
  import opened Estados
  import opened Colas
  import opened GruposIo
  import opened Nucleo
  import opened InvColas
  import opened InvPasos
  import opened Vidas
  import opened LargoPlazo
  import opened KernelCorridas
  import opened Efectos

  // Some of the first of the queue leave it, and at most one comes in, at its end.
  ghost predicate Avanza(a: seq<int>, b: seq<int>) {
    exists j, ns :: 0 <= j <= |a| && |ns| <= 1 && b == a[j..] + ns && (ns == [] || ns[0] !in a)
  }

  lemma {:induction false} AvanzaIgual(a: seq<int>)
    ensures Avanza(a, a)
  {
    assert a == a[0..] + [];
  }

  lemma {:induction false} AvanzaCon(a: seq<int>, p: int)
    requires p !in a
    ensures Avanza(a, a + [p])
  {
    assert a + [p] == a[0..] + [p];
  }

  lemma {:induction false} AvanzaSin(a: seq<int>)
    requires a != []
    ensures Avanza(a, a[1..])
  {
    assert a[1..] == a[1..] + [];
  }

  lemma {:induction false} ListosPasa(k: Foto, h: Foto, p: int, d: Estado, e: Estado)
    requires PasaA(k, h, p, d, e) && d != Ready && Particion(k.procs)
    ensures Avanza(Cola(k.procs, Ready), Cola(h.procs, Ready))
  {
    if e == Ready { AvanzaCon(Cola(k.procs, Ready), p); } else { AvanzaIgual(Cola(k.procs, Ready)); }
  }

  lemma {:induction false} ListosIo(k: Foto, ev: Evento)
    requires Inv(k) && Posible(k, ev) && DeIo(ev)
    ensures Sano(k) && Avanza(Cola(k.procs, Ready), Cola(PasoIo(k, ev).procs, Ready))
  {
    AvanzaIgual(Cola(k.procs, Ready));
    match ev
    case TimerVencer(p, t) =>
      VencerPasa(k, p, t);
      if EsDe(k, p, Blocked) { ListosPasa(k, Vencer(k, p, t), p, Blocked, SuspBlocked); }
    case IoTerminar(d, j, t) => ListosDesbloqueo(k, k.io[d].instancias[j].pid, t);
    case DumpTerminar(p, t) => ListosDesbloqueo(k, p, t);
    case IoDesconectar(d, j, t) => DesconectarColas(k, d, j, t);
    case _ =>
  }

  lemma {:induction false} ListosDesbloqueo(k: Foto, p: int, t: int)
    requires Particion(k.procs)
    ensures Avanza(Cola(k.procs, Ready), Cola(Desbloquear(k, p, t).procs, Ready))
  {
    DesbloquearPasa(k, p, t);
    AvanzaIgual(Cola(k.procs, Ready));
    if EsDe(k, p, Blocked) { ListosPasa(k, Desbloquear(k, p, t), p, Blocked, Ready); }
    else if EsDe(k, p, SuspBlocked) { ListosPasa(k, Desbloquear(k, p, t), p, SuspBlocked, SuspReady); }
  }

  lemma {:induction false} ListosCpu(k: Foto, ev: Evento)
    requires Inv(k) && Posible(k, ev) && DeCpu(ev) && k.conf.corto == CpFifo
    ensures Sano(k) && Avanza(Cola(k.procs, Ready), Cola(PasoCpu(k, ev).procs, Ready))
  {
    match ev
    case CpDespachar(orden, t) => ListosDespacho(k, orden, t);
    case CpuResponder(i, r, t) =>
      RespuestaDestina(k, i, r, t);
      ListosPasa(k, Paso(k, ev), k.cpus[i].pcb.valor, Running, Destino(k.io, k.cpus[i].pcb.valor, r));
    case CpuConectar(_) => AvanzaIgual(Cola(k.procs, Ready));
  }

  lemma {:induction false} ListosDespacho(k: Foto, orden: seq<int>, t: int)
    requires Inv(k) && Posible(k, CpDespachar(orden, t)) && k.conf.corto == CpFifo
    ensures Sano(k) && Avanza(Cola(k.procs, Ready), Cola(Despacho(k, orden, t).procs, Ready))
  {
    var s, p, i := DespachoForma(k, orden, t);
    QuitarDice(Cola(s, Ready), p);
    AvanzaSin(Cola(k.procs, Ready));
  }

  lemma {:induction false} ListosPlan(k: Foto, ev: Evento)
    requires Inv(k) && Posible(k, ev) && !DeCpu(ev) && !DeIo(ev)
    ensures Sano(k) && Avanza(Cola(k.procs, Ready), Cola(PasoPlan(k, ev).procs, Ready))
  {
    AvanzaIgual(Cola(k.procs, Ready));
    match ev
    case LpResponder(ok, t) => if ok { ListosAdmision(k, t); }
    case _ =>
  }

  lemma {:induction false} ListosAdmision(k: Foto, t: int)
    requires Inv(k) && Posible(k, LpResponder(true, t))
    ensures Avanza(Cola(k.procs, Ready), Cola(Concluida(k, true, t).procs, Ready))
  {
    AdmitidoEsElQuitado(k, t);
    assert k.lp.candidato in Cola(k.procs, if k.lp.susp then SuspReady else New);
    AvanzaCon(Cola(k.procs, Ready), k.lp.candidato);
  }

  /** Nobody comes into READY but at its end, and under FIFO nobody leaves but from its head. */
  lemma {:induction false} ListosPaso(k: Foto, ev: Evento)
    requires Inv(k) && Posible(k, ev) && k.conf.corto == CpFifo
    ensures Sano(k) && Avanza(Cola(k.procs, Ready), Cola(Paso(k, ev).procs, Ready))
  {
    if DeIo(ev) { ListosIo(k, ev); } else if DeCpu(ev) { ListosCpu(k, ev); } else { ListosPlan(k, ev); }
  }

  // In order of their last change of state, which is when they came to READY.
  ghost predicate EnOrden(k: Foto) {
    var q := Cola(k.procs, Ready);
    forall i, j :: 0 <= i < j < |q| && q[i] in k.procs.pcbs && q[j] in k.procs.pcbs ==>
      k.procs.pcbs[q[i]].ultimoCambio <= k.procs.pcbs[q[j]].ultimoCambio
  }

  // A process that is in READY after a step was there before, unchanged, or has just come.
  lemma {:induction false} ListoDesde(k: Foto, h: Foto, p: int, nuevo: int, t: int)
    requires Evolucionan(k.procs, h.procs, t) && Nacen(k.procs, h.procs, nuevo, t) && EsDe(h, p, Ready)
    ensures p in k.procs.pcbs
    ensures h.procs.pcbs[p].ultimoCambio == if EsDe(k, p, Ready) then k.procs.pcbs[p].ultimoCambio else t
  {
  }

  lemma {:induction false} EnOrdenPaso(k: Foto, ev: Evento)
    requires Inv(k) && Posible(k, ev) && k.conf.corto == CpFifo && EnOrden(k)
    ensures Sano(k) && EnOrden(Paso(k, ev))
  {
    ListosPaso(k, ev);
    InvPaso(k, ev);
    EvolucionPaso(k, ev);
    EnOrdenSigue(k, Paso(k, ev), k.proximo, Instante(ev, k.reloj));
  }

  lemma {:induction false} EnOrdenSigue(k: Foto, h: Foto, nuevo: int, t: int)
    requires Particion(k.procs) && Particion(h.procs) && MetricasTodas(k) && t >= k.reloj && EnOrden(k)
    requires Evolucionan(k.procs, h.procs, t) && Nacen(k.procs, h.procs, nuevo, t)
    requires Avanza(Cola(k.procs, Ready), Cola(h.procs, Ready))
    ensures EnOrden(h)
  {
    var a, b := Cola(k.procs, Ready), Cola(h.procs, Ready);
    var d, ns :| 0 <= d <= |a| && |ns| <= 1 && b == a[d..] + ns && (ns == [] || ns[0] !in a);
    forall i, j | 0 <= i < j < |b| && b[i] in h.procs.pcbs && b[j] in h.procs.pcbs
      ensures h.procs.pcbs[b[i]].ultimoCambio <= h.procs.pcbs[b[j]].ultimoCambio
    {
      assert b[i] in b && b[j] in b;
      ListoDesde(k, h, b[i], nuevo, t);
      ListoDesde(k, h, b[j], nuevo, t);
      EnOrdenDos(k, a, d, ns, i, j);
    }
  }

  lemma {:induction false} EnOrdenDos(k: Foto, a: seq<int>, d: nat, ns: seq<int>, i: nat, j: nat)
    requires Particion(k.procs) && MetricasTodas(k) && EnOrden(k) && a == Cola(k.procs, Ready)
    requires d <= |a| && |ns| <= 1 && (ns == [] || ns[0] !in a) && i < j < |a[d..] + ns|
    ensures var b := a[d..] + ns;
            && EsDe(k, b[i], Ready) && k.procs.pcbs[b[i]].ultimoCambio <= k.reloj
            && (EsDe(k, b[j], Ready) ==> k.procs.pcbs[b[i]].ultimoCambio <= k.procs.pcbs[b[j]].ultimoCambio)
  {
    var b := a[d..] + ns;
    assert b[i] == a[d + i] && a[d + i] in a;
    assert MetricasOk(k.procs.pcbs[b[i]], k.reloj);
    if d + j < |a| { assert b[j] == a[d + j] && a[d + j] in a; } else { assert b[j] == ns[0]; }
  }

  lemma {:induction false} EnOrdenCorrida(k: Foto, evs: seq<Evento>)
    requires Inv(k) && Posibles(k, evs) && k.conf.corto == CpFifo && EnOrden(k)
    ensures EnOrden(Correr(k, evs))
    decreases |evs|
  {
    if evs != [] {
      EnOrdenPaso(k, evs[0]);
      InvPaso(k, evs[0]);
      ConfPaso(k, evs[0]);
      EnOrdenCorrida(Paso(k, evs[0]), evs[1..]);
    }
  }

  /** Under FIFO, in any run from boot, whoever is dispatched came to READY no later than anybody
      who stays there. */
  lemma {:induction false} DespachaAlQueMasEspera(conf: Conf, t0: int, evs: seq<Evento>, orden: seq<int>, t: int) returns (p: int)
    requires conf.corto == CpFifo && Posibles(Arranque(conf, t0), evs) && Posible(Correr(Arranque(conf, t0), evs), CpDespachar(orden, t))
    ensures var k := Correr(Arranque(conf, t0), evs);
            && Sano(k) && EsDe(k, p, Ready) && EsDe(Paso(k, CpDespachar(orden, t)), p, Running)
            && forall q :: EsDe(k, q, Ready) ==> k.procs.pcbs[p].ultimoCambio <= k.procs.pcbs[q].ultimoCambio
  {
    var k0 := Arranque(conf, t0);
    InvArranque(conf, t0);
    InvCorrida(k0, evs);
    EnOrdenCorrida(k0, evs);
    MismaConf(k0, evs);
    var k := Correr(k0, evs);
    var i;
    p, i := DespachoElige(k, orden, t);
    var cola := Cola(k.procs, Ready);
    forall q | EsDe(k, q, Ready) ensures k.procs.pcbs[p].ultimoCambio <= k.procs.pcbs[q].ultimoCambio {
      assert q in cola;
      var j :| 0 <= j < |cola| && cola[j] == q;
    }
  }
}
