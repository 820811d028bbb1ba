/** Whole runs of the kernel, from the state it boots in. */
module KernelCorridas {
  import opened Comunes
  import opened Ronda
  import opened Estados
  import opened Colas
  import opened GruposIo
  import opened Nucleo
  import opened InvColas
  import opened InvPasos
  import opened InvIo
  import opened InvSockets
  import opened Vidas
  import opened LargoPlazo

  /** The invariant between two critical sections. */
  ghost predicate Inv(k: Foto) {
    Base(k) && IoOk(k) && SocketsOk(k.io) && MetricasTodas(k) && DespiertaFifo(k)
  }

  lemma {:induction false} InvArranque(conf: Conf, t: int)
    ensures Inv(Arranque(conf, t))
  {
  }

  lemma {:induction false} InvPaso(k: Foto, ev: Evento)
    requires Inv(k) && Posible(k, ev)
    ensures Sano(k) && Inv(Paso(k, ev))
  {
    ColasPaso(k, ev);
    CpusPaso(k, ev);
    SemsPaso(k, ev);
    CandidatoPaso(k, ev);
    IoPaso(k, ev);
    SocketsPaso(k, ev);
    MetricasPaso(k, ev);
    SinPerdidaPaso(k, ev);
  }

  /** Every state of every run satisfies the invariant. */
  lemma {:induction false} InvCorrida(k: Foto, evs: seq<Evento>)
    requires Inv(k) && Posibles(k, evs)
    ensures Inv(Correr(k, evs))
    decreases |evs|
  {
    if evs != [] {
      InvPaso(k, evs[0]);
      InvCorrida(Paso(k, evs[0]), evs[1..]);
    }
  }

  // ---------------------------------------------------------------- what it says of a run

  /** Queue partition, semaphore accounting and CPU binding, in any state the kernel reaches;
      and so none of the three fallback branches is ever taken. */
  lemma {:induction false} CuentasCuadran(conf: Conf, t: int, evs: seq<Evento>)
    requires Posibles(Arranque(conf, t), evs)
    ensures var k := Correr(Arranque(conf, t), evs);
            && (forall e, p :: p in Cola(k.procs, e) <==> p in k.procs.pcbs && k.procs.pcbs[p].estado == e)
            && (forall e :: SinRepetidos(Cola(k.procs, e)))
            && SemsOk(k) && k.ultimoCpu >= -1
            && (forall p :: p in Cola(k.procs, Running) <==> Atado(k.cpus, p))
            && (k.cp == CpConAmbos ==> Cola(k.procs, Ready) != [] && Siguiente(CpusLibres(k.cpus), k.ultimoCpu).Some?)
            && (k.ex == ExConToken ==> Cola(k.procs, Exit) != [])
  {
    BaseCorrida(conf, t, evs);
    CuentasDe(Correr(Arranque(conf, t), evs));
  }

  lemma {:induction false} BaseCorrida(conf: Conf, t: int, evs: seq<Evento>)
    requires Posibles(Arranque(conf, t), evs)
    ensures Base(Correr(Arranque(conf, t), evs))
  {
    InvArranque(conf, t);
    InvCorrida(Arranque(conf, t), evs);
  }

  lemma {:induction false} CuentasDe(k: Foto)
    requires Base(k)
    ensures forall e, p :: p in Cola(k.procs, e) <==> p in k.procs.pcbs && k.procs.pcbs[p].estado == e
    ensures forall e :: SinRepetidos(Cola(k.procs, e))
    ensures SemsOk(k) && k.ultimoCpu >= -1
    ensures forall p :: p in Cola(k.procs, Running) <==> Atado(k.cpus, p)
    ensures k.cp == CpConAmbos ==> Cola(k.procs, Ready) != [] && Siguiente(CpusLibres(k.cpus), k.ultimoCpu).Some?
    ensures k.ex == ExConToken ==> Cola(k.procs, Exit) != []
  {
    SinRespaldos(k);
  }

  /** No lost wakeup: whenever the FIFO planner is parked with its semaphore at 0, either both
      admission queues are empty, or the process it would choose is the one memory refused last. */
  lemma {:induction false} NadieDuermeDeMas(conf: Conf, t: int, evs: seq<Evento>)
    requires conf.largo == LpFifo && Posibles(Arranque(conf, t), evs)
    ensures var k := Correr(Arranque(conf, t), evs);
            k.lp == LpEspera && k.semAdm == 0 ==>
              || (Cola(k.procs, SuspReady) == [] && Cola(k.procs, New) == [])
              || (Cola(k.procs, Fuente(k.procs)) != [] && k.rechazado == Some(Cola(k.procs, Fuente(k.procs))[0]))
  {
    InvArranque(conf, t);
    InvCorrida(Arranque(conf, t), evs);
    MismaConf(Arranque(conf, t), evs);
  }

  lemma {:induction false} ConfPaso(k: Foto, ev: Evento)
    requires Inv(k) && Posible(k, ev)
    ensures Sano(k) && Paso(k, ev).conf == k.conf
  {
    if !DeLp(ev) { CrecePaso(k, ev); }
  }

  lemma {:induction false} MismaConf(k: Foto, evs: seq<Evento>)
    requires Inv(k) && Posibles(k, evs)
    ensures Correr(k, evs).conf == k.conf
    decreases |evs|
  {
    if evs != [] {
      InvPaso(k, evs[0]);
      ConfPaso(k, evs[0]);
      MismaConf(Paso(k, evs[0]), evs[1..]);
    }
  }

  // No arrival of the run is one that smallest-first sleeps through.
  ghost predicate SinIntrusos(k: Foto, evs: seq<Evento>)
    requires Posibles(k, evs)
    decreases |evs|
  {
    evs == [] ||
    ((evs[0].Crear? ==>
        !(Pendiente(k).Some? && Cola(k.procs, SuspReady) == [] && Cola(k.procs, New) != []
          && Pendiente(k).valor in k.procs.pcbs && evs[0].tam < k.procs.pcbs[Pendiente(k).valor].tam))
     && SinIntrusos(Paso(k, evs[0]), evs[1..]))
  }

  /** Smallest-first keeps the promise through any run without such an arrival. */
  lemma {:induction false} PmcpCorrida(k: Foto, evs: seq<Evento>)
    requires Inv(k) && k.conf.largo == Pmcp && DespiertaPmcp(k) && Posibles(k, evs) && SinIntrusos(k, evs)
    ensures DespiertaPmcp(Correr(k, evs))
    decreases |evs|
  {
    if evs != [] {
      var h := Paso(k, evs[0]);
      InvPaso(k, evs[0]);
      ConfPaso(k, evs[0]);
      match evs[0] {
        case Crear(tam, t) => PmcpSii(k, tam, t);
        case _ => PmcpOtros(k, evs[0]);
      }
      PmcpCorrida(h, evs[1..]);
    }
  }

  // ---------------------------------------------------------------- one process through a run

  lemma {:induction false} FueraPaso(k: Foto, ev: Evento, p: int)
    requires Inv(k) && Posible(k, ev) && p < k.proximo
    ensures Sano(k) && p < Paso(k, ev).proximo && (p in Paso(k, ev).procs.pcbs ==> p in k.procs.pcbs)
  {
    EvolucionPaso(k, ev);
    InvPaso(k, ev);
    ProximoPaso(k, ev);
  }

  lemma {:induction false} ProximoPaso(k: Foto, ev: Evento)
    requires Inv(k) && Posible(k, ev)
    ensures Sano(k) && Paso(k, ev).proximo >= k.proximo
  {
    if DeIo(ev) { ProximoIo(k, ev); } else if DeCpu(ev) { ProximoCpu(k, ev); }
  }

  lemma {:induction false} ProximoIo(k: Foto, ev: Evento)
    requires Inv(k) && Posible(k, ev) && DeIo(ev)
    ensures Sano(k) && PasoIo(k, ev).proximo == k.proximo
  {
    if ev.IoDesconectar? { DesconectarColas(k, ev.dispositivo, ev.j, ev.t); }
  }

  lemma {:induction false} ProximoCpu(k: Foto, ev: Evento)
    requires Inv(k) && Posible(k, ev) && DeCpu(ev)
    ensures Sano(k) && PasoCpu(k, ev).proximo == k.proximo
  {
  }

  /** A pid that has been freed does not come back. */
  lemma {:induction false} NoVuelveNunca(k: Foto, evs: seq<Evento>, p: int)
    requires Inv(k) && Posibles(k, evs) && p < k.proximo && p !in k.procs.pcbs
    ensures p !in Correr(k, evs).procs.pcbs
    decreases |evs|
  {
    if evs != [] {
      FueraPaso(k, evs[0], p);
      InvPaso(k, evs[0]);
      NoVuelveNunca(Paso(k, evs[0]), evs[1..], p);
    }
  }

  // So one that is there before and after a run has been there all along.
  lemma {:induction false} NoVuelve(k: Foto, ev: Evento, evs: seq<Evento>, p: int)
    requires Inv(k) && Posible(k, ev) && Sano(k) && Posibles(Paso(k, ev), evs)
    requires p in k.procs.pcbs && p in Correr(Paso(k, ev), evs).procs.pcbs
    ensures p in Paso(k, ev).procs.pcbs
  {
    FueraPaso(k, ev, p);
    InvPaso(k, ev);
    if p !in Paso(k, ev).procs.pcbs { NoVuelveNunca(Paso(k, ev), evs, p); }
  }

  function EstadoDe(s: Procesos, p: int): Option<Estado> {
    if p in s.pcbs then Some(s.pcbs[p].estado) else None
  }

  /** The states a pid goes through, one for each state of the run. */
  ghost function Vida(k: Foto, evs: seq<Evento>, p: int): (r: seq<Option<Estado>>)
    requires Posibles(k, evs)
    ensures |r| == |evs| + 1 && r[0] == EstadoDe(k.procs, p)
    decreases |evs|
  {
    if evs == [] then [EstadoDe(k.procs, p)]
    else [EstadoDe(k.procs, p)] + Vida(Paso(k, evs[0]), evs[1..], p)
  }

  predicate Legal(a: Option<Estado>, b: Option<Estado>) {
    || a == b
    || (a.None? && b == Some(New))
    || (a == Some(Exit) && b.None?)
    || (a.Some? && b.Some? && Arista(a.valor, b.valor))
  }

  /** Through any run a process follows only the edges of the state diagram, from NEW to EXIT. */
  lemma {:induction false} VidaLegal(k: Foto, evs: seq<Evento>, p: int, i: nat)
    requires Inv(k) && Posibles(k, evs) && i < |evs|
    ensures Legal(Vida(k, evs, p)[i], Vida(k, evs, p)[i + 1])
    decreases |evs|
  {
    InvPaso(k, evs[0]);
    var h := Paso(k, evs[0]);
    if i == 0 {
      EvolucionPaso(k, evs[0]);
    } else {
      VidaLegal(h, evs[1..], p, i - 1);
    }
  }

  /** The accumulated times of any process add up to its time since creation up to its last
      change of state; READY has been entered once more than RUNNING exactly while it is there. */
  lemma {:induction false} MetricasCuadran(conf: Conf, t: int, evs: seq<Evento>, p: int)
    requires Posibles(Arranque(conf, t), evs)
    ensures var k := Correr(Arranque(conf, t), evs);
            p in k.procs.pcbs ==>
              var c := k.procs.pcbs[p];
              && c.metricas.tNew + c.metricas.tReady + c.metricas.tRunning + c.metricas.tBlocked + c.metricas.tSusp
                 == c.ultimoCambio - c.creado
              && c.metricas.iReady - c.metricas.iRunning == (if c.estado == Ready then 1 else 0)
              && c.metricas.tNew >= 0 && c.metricas.tReady >= 0 && c.metricas.tRunning >= 0
              && c.metricas.tBlocked >= 0 && c.metricas.tSusp >= 0
  {
    InvArranque(conf, t);
    InvCorrida(Arranque(conf, t), evs);
  }

  /** When p last went into state e during the run, if it did. */
  ghost function UltimaEntrada(k: Foto, evs: seq<Evento>, p: int, e: Estado): Option<int>
    requires Posibles(k, evs)
    decreases |evs|
  {
    if evs == [] then None
    else
      var h := Paso(k, evs[0]);
      var despues := UltimaEntrada(h, evs[1..], p, e);
      if despues.Some? then despues
      else if EstadoDe(k.procs, p) != Some(e) && EstadoDe(h.procs, p) == Some(e) then Some(Instante(evs[0], k.reloj))
      else None
  }

  // One step of p alone: it is born in NEW, or evolves.
  ghost predicate Sigue(s: Procesos, r: Procesos, p: int, t: int) {
    p in r.pcbs ==>
      if p in s.pcbs then Evoluciona(s.pcbs[p], r.pcbs[p], t)
      else r.pcbs[p].estado == New && r.pcbs[p].creado == t && r.pcbs[p].ultimoCambio == t
  }

  lemma {:induction false} SiguePaso(k: Foto, ev: Evento, p: int)
    requires Inv(k) && Posible(k, ev)
    ensures Sano(k) && Inv(Paso(k, ev)) && Sigue(k.procs, Paso(k, ev).procs, p, Instante(ev, k.reloj))
  {
    InvPaso(k, ev);
    EvolucionPaso(k, ev);
  }

  /** The last change of a process is its entry into the state it is in. */
  lemma {:induction false} CambioEsEntrada(k: Foto, evs: seq<Evento>, p: int)
    requires Inv(k) && Posibles(k, evs) && p in Correr(k, evs).procs.pcbs
    ensures var c := Correr(k, evs).procs.pcbs[p];
            match UltimaEntrada(k, evs, p, c.estado)
            case Some(t) => c.ultimoCambio == t
            case None => EstadoDe(k.procs, p) == Some(c.estado) && c.ultimoCambio == k.procs.pcbs[p].ultimoCambio
    decreases |evs|
  {
    if evs != [] {
      SiguePaso(k, evs[0], p);
      CambioEsEntrada(Paso(k, evs[0]), evs[1..], p);
    }
  }

  /** Its creation is its entry into NEW. */
  lemma {:induction false} CreacionEsEntrada(k: Foto, evs: seq<Evento>, p: int)
    requires Inv(k) && Posibles(k, evs) && p in Correr(k, evs).procs.pcbs
    ensures var c := Correr(k, evs).procs.pcbs[p];
            match UltimaEntrada(k, evs, p, New)
            case Some(t) => c.creado == t
            case None => p in k.procs.pcbs && c.creado == k.procs.pcbs[p].creado
    decreases |evs|
  {
    if evs != [] {
      SiguePaso(k, evs[0], p);
      CreacionEsEntrada(Paso(k, evs[0]), evs[1..], p);
    }
  }

  lemma {:induction false} SacarAlPrimero(k: Foto, t: int)
    requires Inv(k) && Posible(k, ExSacar(t))
    ensures Sano(k) && Cola(k.procs, Exit) != []
    ensures var p := Cola(k.procs, Exit)[0];
            && p in k.procs.pcbs && p !in Paso(k, ExSacar(t)).procs.pcbs
            && var c := k.procs.pcbs[p];
               c.estado == Exit && c.creado <= c.ultimoCambio <= t && Suma(c.metricas) == c.ultimoCambio - c.creado
  {
  }

  /** The thread that frees a finished process adds nothing to its times, although it changes
      its state to EXIT once more: they add up to its entry into EXIT minus its creation, so
      whatever it waited there to be freed is in none of them. */
  lemma {:induction false} EsperaEnExitNoCuenta(conf: Conf, t0: int, evs: seq<Evento>, t: int)
    requires Posibles(Arranque(conf, t0), evs) && Posible(Correr(Arranque(conf, t0), evs), ExSacar(t))
    ensures var k0 := Arranque(conf, t0);
            var k := Correr(k0, evs);
            var q := Cola(k.procs, Exit);
            && q != [] && q[0] in k.procs.pcbs && Sano(k) && q[0] !in Paso(k, ExSacar(t)).procs.pcbs
            && var entro, nacio := UltimaEntrada(k0, evs, q[0], Exit), UltimaEntrada(k0, evs, q[0], New);
               && entro.Some? && nacio.Some? && nacio.valor <= entro.valor <= t
               && Suma(CambiarEstado(k.procs.pcbs[q[0]], Exit, t).metricas) == entro.valor - nacio.valor
  {
    var k0 := Arranque(conf, t0);
    var k := Correr(k0, evs);
    InvArranque(conf, t0);
    InvCorrida(k0, evs);
    SacarAlPrimero(k, t);
    var p := Cola(k.procs, Exit)[0];
    CambioEsEntrada(k0, evs, p);
    CreacionEsEntrada(k0, evs, p);
  }

  /** Each process blocked on a device has exactly one request, in one group, waiting or in
      service; no group has a request waiting and an instance free. */
  lemma {:induction false} PedidosCuadran(conf: Conf, t: int, evs: seq<Evento>, p: int)
    requires Posibles(Arranque(conf, t), evs)
    ensures var k := Correr(Arranque(conf, t), evs);
            && (Bloqueado(k.procs, p) && p !in k.dumps <==>
                  exists d :: Pide(k.io, d, p) && Veces(k.io[d], p) == 1 && forall e :: Pide(k.io, e, p) ==> e == d)
            && (forall d :: d in k.io ==>
                  k.io[d].instancias != []
                  && (k.io[d].espera == [] || forall j :: 0 <= j < |k.io[d].instancias| ==> k.io[d].instancias[j].ocupado))
  {
    InvArranque(conf, t);
    InvCorrida(Arranque(conf, t), evs);
    var k := Correr(Arranque(conf, t), evs);
    if Bloqueado(k.procs, p) && p !in k.dumps {
      var d :| Pide(k.io, d, p);
      assert Veces(k.io[d], p) == 1 && forall e :: Pide(k.io, e, p) ==> e == d;
    }
    forall d | Pide(k.io, d, p) ensures Bloqueado(k.procs, p) && p !in k.dumps {
      assert PideAlguno(k.io, p);
    }
  }
}
