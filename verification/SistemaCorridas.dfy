/** Whole runs of the kernel and the memory process, from the state both boot in. */
module SistemaCorridas {
  import opened Comunes
  import opened Estados
  import opened Colas
  import opened Nucleo
  import opened KernelCorridas
  import opened Amenazas
  import opened Sistema
  import opened Residencia
  import opened Estacionado
  import T = Tenencia
  import P = Pedidos
  import C = Corridas
  import X = Entornos
  import Y = Convivencia
  import Z = Aplanado

  ghost predicate Suceden(cfg: P.Cfg, s: Todo, es: seq<Suceso>)
    requires cfg.tp > 0
    decreases |es|
  {
    es == [] || (Sano(s.k) && Sucede(s, es[0]) && Suceden(cfg, Avanza(cfg, s, es[0]), es[1..]))
  }

  ghost function Final(cfg: P.Cfg, s: Todo, es: seq<Suceso>): Todo
    requires cfg.tp > 0 && Suceden(cfg, s, es)
    decreases |es|
  {
    if es == [] then s else Final(cfg, Avanza(cfg, s, es[0]), es[1..])
  }

  function Arranca(cfg: P.Cfg, conf: Conf, t: int, marcos: nat, basura: nat -> bool): Todo {
    Inicio(conf, t, C.Arranque(cfg, marcos, basura))
  }

  lemma {:induction false} ArrancaUnido(cfg: P.Cfg, conf: Conf, t: int, marcos: nat, basura: nat -> bool)
    requires cfg.tp > 0
    ensures var s := Arranca(cfg, conf, t, marcos, basura);
            Unido(cfg, s) && TodosResidentes(s) && SinRiesgo(s) && ConRazon(cfg, s)
  {
  }

  // ---------------------------------------------------------------- the requests of a run

  ghost function Llamadas(cfg: P.Cfg, s: Todo, es: seq<Suceso>): seq<P.Pedido>
    requires cfg.tp > 0 && Suceden(cfg, s, es)
    decreases |es|
  {
    if es == [] then []
    else
      var resto := Llamadas(cfg, Avanza(cfg, s, es[0]), es[1..]);
      match Llamada(s, es[0])
      case None => resto
      case Some(p) => [p] + resto
  }

  /** What the kernel asks of memory over a run is a run of requests that memory's laws are
      about: no process is created twice. */
  lemma {:induction false} LlamadasLegales(cfg: P.Cfg, s: Todo, es: seq<Suceso>)
    requires Unido(cfg, s) && Suceden(cfg, s, es)
    ensures Unido(cfg, Final(cfg, s, es))
    ensures C.Legales(cfg, s.m, Llamadas(cfg, s, es)) && C.Correr(cfg, s.m, Llamadas(cfg, s, es)) == Final(cfg, s, es).m
    decreases |es|
  {
    if es != [] {
      var h := Avanza(cfg, s, es[0]);
      UnidoPaso(cfg, s, es[0]);
      PideLegal(cfg, s, es[0]);
      LlamadasLegales(cfg, h, es[1..]);
      var ps := Llamadas(cfg, h, es[1..]);
      if Llamada(s, es[0]).Some? {
        assert ([Llamada(s, es[0]).valor] + ps)[1..] == ps;
      }
    }
  }

  lemma {:induction false} TamaniosSiempre(cfg: P.Cfg, s: Todo, es: seq<Suceso>)
    requires Unido(cfg, s) && MismosTamanios(s) && Suceden(cfg, s, es)
    ensures MismosTamanios(Final(cfg, s, es))
    decreases |es|
  {
    if es != [] {
      UnidoPaso(cfg, s, es[0]);
      TamaniosPaso(cfg, s, es[0]);
      TamaniosSiempre(cfg, Avanza(cfg, s, es[0]), es[1..]);
    }
  }

  /** From boot, after any run, memory has exactly the processes admitted and not yet freed, each
      of the size it was created with. */
  lemma {:induction false} MemoriaTieneLosQueDebe(cfg: P.Cfg, conf: Conf, t: int, marcos: nat, basura: nat -> bool, es: seq<Suceso>, p: int)
    requires cfg.tp > 0 && Suceden(cfg, Arranca(cfg, conf, t, marcos, basura), es)
    ensures var h := Final(cfg, Arranca(cfg, conf, t, marcos, basura), es);
            && (p in h.k.procs.pcbs ==>
                  (p in h.m.procs <==> h.k.procs.pcbs[p].estado != New || Concedida(h, p))
                  && (p in h.m.procs ==> h.m.procs[p].tam == h.k.procs.pcbs[p].tam))
            && (p !in h.k.procs.pcbs ==> (p in h.m.procs <==> h.k.ex == ExLiberando(p) && !h.liberado))
  {
    var s := Arranca(cfg, conf, t, marcos, basura);
    ArrancaUnido(cfg, conf, t, marcos, basura);
    LlamadasLegales(cfg, s, es);
    TamaniosSiempre(cfg, s, es);
    var h := Final(cfg, s, es);
    assert p in h.m.procs <==> Debe(h, p);
  }

  // ---------------------------------------------------------------- residency

  /** Memory never readmits a process whose suspension is still to arrive. */
  ghost predicate SinAdelantos(cfg: P.Cfg, s: Todo, es: seq<Suceso>)
    requires cfg.tp > 0 && Suceden(cfg, s, es)
    decreases |es|
  {
    es == [] || (!(es[0].Admite? && Adelanta(cfg, s)) && SinAdelantos(cfg, Avanza(cfg, s, es[0]), es[1..]))
  }

  lemma {:induction false} ResidentesSiempre(cfg: P.Cfg, s: Todo, es: seq<Suceso>)
    requires Unido(cfg, s) && TodosResidentes(s) && SinRiesgo(s) && Suceden(cfg, s, es) && SinAdelantos(cfg, s, es)
    ensures var h := Final(cfg, s, es); Unido(cfg, h) && TodosResidentes(h) && SinRiesgo(h)
    decreases |es|
  {
    if es != [] {
      UnidoPaso(cfg, s, es[0]);
      RiesgoSii(cfg, s, es[0]);
      ResidenciaSii(cfg, s, es[0]);
      if es[0].Suspende? { assert !EnRiesgo(s, es[0].pid); }
      ResidentesSiempre(cfg, Avanza(cfg, s, es[0]), es[1..]);
    }
  }

  /** So from boot, through any run without that, a process on a CPU is in memory and wholly in
      RAM; and if it fits its tables every page of it can be translated, which is what a burst
      starts from. */
  lemma {:induction false} EnCpuReside(cfg: P.Cfg, conf: Conf, t: int, marcos: nat, basura: nat -> bool, es: seq<Suceso>, p: int)
    requires cfg.tp > 0 && Suceden(cfg, Arranca(cfg, conf, t, marcos, basura), es)
    requires SinAdelantos(cfg, Arranca(cfg, conf, t, marcos, basura), es)
    ensures var h := Final(cfg, Arranca(cfg, conf, t, marcos, basura), es);
            EsDe(h.k, p, Running) ==>
              && P.Residente(h.m, p)
              && (X.CabeEnTablas(cfg, h.m, p) ==> Z.Residentes(X.EntornoDe(h.m), p, P.Paginas(h.m.procs[p].tam, cfg.tp)))
  {
    var s := Arranca(cfg, conf, t, marcos, basura);
    ArrancaUnido(cfg, conf, t, marcos, basura);
    ResidentesSiempre(cfg, s, es);
    var h := Final(cfg, s, es);
    if EsDe(h.k, p, Running) {
      assert Admitido(h, p);
      if X.CabeEnTablas(cfg, h.m, p) { Y.ResidentesDe(cfg, h.m, p); }
    }
  }

  // ---------------------------------------------------------------- parking

  lemma {:induction false} RazonSiempre(cfg: P.Cfg, s: Todo, es: seq<Suceso>)
    requires Unido(cfg, s) && ConRazon(cfg, s) && Suceden(cfg, s, es)
    ensures Unido(cfg, Final(cfg, s, es)) && ConRazon(cfg, Final(cfg, s, es))
    decreases |es|
  {
    if es != [] {
      UnidoPaso(cfg, s, es[0]);
      RazonPaso(cfg, s, es[0]);
      RazonSiempre(cfg, Avanza(cfg, s, es[0]), es[1..]);
    }
  }

  /** In any reachable state, a planner parked with its semaphore at 0 and no release on its way
      to it has a reason: under FIFO nobody waits to be admitted, or the one it would choose
      needs more frames than memory has free; and under either policy, so does the one refused. */
  lemma {:induction false} AparcadoConRazon(cfg: P.Cfg, conf: Conf, t: int, marcos: nat, basura: nat -> bool, es: seq<Suceso>)
    requires cfg.tp > 0 && Suceden(cfg, Arranca(cfg, conf, t, marcos, basura), es)
    ensures var h := Final(cfg, Arranca(cfg, conf, t, marcos, basura), es);
            h.k.lp == LpEspera && SinAvisos(h) ==>
              && (h.k.rechazado.Some? ==> EnCola(h.k, h.k.rechazado.valor) && NoEntra(cfg, h, h.k.rechazado.valor))
              && (h.k.conf.largo == LpFifo ==>
                    var q := Cola(h.k.procs, Fuente(h.k.procs));
                    q != [] ==> NoEntra(cfg, h, q[0]))
  {
    ArrancaUnido(cfg, conf, t, marcos, basura);
    RazonSiempre(cfg, Arranca(cfg, conf, t, marcos, basura), es);
    var h := Final(cfg, Arranca(cfg, conf, t, marcos, basura), es);
    assert h.admision.Some? ==> h.k.lp.LpEnMemoria?;
  }
}
