/** What the metrics are: over any run, each time is all the time spent in that state, and each
    counter how often it was entered. */
module Intervalos {
  import opened Comunes
  import opened Estados
  import opened Colas
  import opened Nucleo
  import opened InvColas
  import opened Vidas
  import opened KernelCorridas

  // One state, but for the two suspended ones, which are counted together.
  predicate Misma(a: Estado, e: Estado) {
    a == e || ((a == SuspBlocked || a == SuspReady) && (e == SuspBlocked || e == SuspReady))
  }

  predicate Esta(k: Foto, p: int, e: Estado) { p in k.procs.pcbs && Misma(k.procs.pcbs[p].estado, e) }

  /** How long p is in e through the run. */
  ghost function TiempoEn(k: Foto, evs: seq<Evento>, p: int, e: Estado): int
    requires Posibles(k, evs)
    decreases |evs|
  {
    if evs == [] then 0
    else (if Esta(k, p, e) then Instante(evs[0], k.reloj) - k.reloj else 0) + TiempoEn(Paso(k, evs[0]), evs[1..], p, e)
  }

  /** How often it comes into e from another state. */
  ghost function VecesEn(k: Foto, evs: seq<Evento>, p: int, e: Estado): nat
    requires Posibles(k, evs)
    decreases |evs|
  {
    if evs == [] then 0
    else
      var h := Paso(k, evs[0]);
      (if Esta(h, p, e) && EstadoDe(h.procs, p) != EstadoDe(k.procs, p) then 1 else 0) + VecesEn(h, evs[1..], p, e)
  }

  function Tiempo(m: Metricas, e: Estado): int {
    match e
    case New => m.tNew
    case Ready => m.tReady
    case Running => m.tRunning
    case Blocked => m.tBlocked
    case SuspBlocked => m.tSusp
    case SuspReady => m.tSusp
    case Exit => 0
  }

  function Veces(m: Metricas, e: Estado): nat {
    match e
    case New => m.iNew
    case Ready => m.iReady
    case Running => m.iRunning
    case Blocked => m.iBlocked
    case SuspBlocked => m.iSusp
    case SuspReady => m.iSusp
    case Exit => 0
  }

  /** What the PCB says, and what its stay in the present state has to add. */
  function Lleva(k: Foto, p: int, e: Estado): int {
    if p !in k.procs.pcbs then 0
    else
      var c := k.procs.pcbs[p];
      Tiempo(c.metricas, e) + if Misma(c.estado, e) then k.reloj - c.ultimoCambio else 0
  }

  lemma {:induction false} SigueLleva(a: Pcb, b: Pcb, t: int, e: Estado)
    requires Evoluciona(a, b, t) && e != Exit
    ensures Tiempo(b.metricas, e) + (if Misma(b.estado, e) then t - b.ultimoCambio else 0)
         == Tiempo(a.metricas, e) + if Misma(a.estado, e) then t - a.ultimoCambio else 0
    ensures Veces(b.metricas, e) == Veces(a.metricas, e) + if b.estado != a.estado && Misma(b.estado, e) then 1 else 0
  {
  }

  lemma {:induction false} UnIntervalo(k: Foto, ev: Evento, p: int, e: Estado)
    requires Inv(k) && Posible(k, ev) && e != Exit
    ensures Sano(k)
    ensures var h := Paso(k, ev);
            p in h.procs.pcbs ==>
              && Lleva(h, p, e) == Lleva(k, p, e) + (if Esta(k, p, e) then Instante(ev, k.reloj) - k.reloj else 0)
              && Veces(h.procs.pcbs[p].metricas, e)
                 == (if p in k.procs.pcbs then Veces(k.procs.pcbs[p].metricas, e) else 0)
                    + if Esta(h, p, e) && EstadoDe(h.procs, p) != EstadoDe(k.procs, p) then 1 else 0
  {
    EvolucionPaso(k, ev);
    if p in k.procs.pcbs && p in Paso(k, ev).procs.pcbs {
      SigueLleva(k.procs.pcbs[p], Paso(k, ev).procs.pcbs[p], Instante(ev, k.reloj), e);
    }
  }

  /** Through any run, what a PCB says of a state grows by what the process spends there. */
  lemma {:induction false} LoQueLleva(k: Foto, evs: seq<Evento>, p: int, e: Estado)
    requires Inv(k) && Posibles(k, evs) && e != Exit && p in Correr(k, evs).procs.pcbs
    ensures Lleva(Correr(k, evs), p, e) == Lleva(k, p, e) + TiempoEn(k, evs, p, e)
    ensures Veces(Correr(k, evs).procs.pcbs[p].metricas, e)
         == (if p in k.procs.pcbs then Veces(k.procs.pcbs[p].metricas, e) else 0) + VecesEn(k, evs, p, e)
    decreases |evs|
  {
    if evs != [] {
      var h := Paso(k, evs[0]);
      InvPaso(k, evs[0]);
      if p in k.procs.pcbs { NoVuelve(k, evs[0], evs[1..], p); }
      UnIntervalo(k, evs[0], p, e);
      LoQueLleva(h, evs[1..], p, e);
    }
  }

  // The five times of c, less what it has been in its present state since it changed.
  predicate SonTiempos(k: Foto, c: Pcb, n: int, r: int, x: int, b: int, s: int) {
    var resto := k.reloj - c.ultimoCambio;
    && c.metricas.tNew == n - (if c.estado == New then resto else 0)
    && c.metricas.tReady == r - (if c.estado == Ready then resto else 0)
    && c.metricas.tRunning == x - (if c.estado == Running then resto else 0)
    && c.metricas.tBlocked == b - (if c.estado == Blocked then resto else 0)
    && c.metricas.tSusp == s - (if c.estado == SuspBlocked || c.estado == SuspReady then resto else 0)
  }

  /** In any reachable state, each of the five times of a process is the total of the intervals it
      spent in that state up to its last change, and each counter the number of its entries. */
  lemma {:induction false} MetricasSonIntervalos(conf: Conf, t: int, evs: seq<Evento>, p: int)
    requires Posibles(Arranque(conf, t), evs) && p in Correr(Arranque(conf, t), evs).procs.pcbs
    ensures var k0 := Arranque(conf, t);
            var k := Correr(k0, evs);
            var c := k.procs.pcbs[p];
            && SonTiempos(k, c, TiempoEn(k0, evs, p, New), TiempoEn(k0, evs, p, Ready), TiempoEn(k0, evs, p, Running),
                          TiempoEn(k0, evs, p, Blocked), TiempoEn(k0, evs, p, SuspBlocked))
            && c.metricas.iNew == VecesEn(k0, evs, p, New) && c.metricas.iReady == VecesEn(k0, evs, p, Ready)
            && c.metricas.iRunning == VecesEn(k0, evs, p, Running) && c.metricas.iBlocked == VecesEn(k0, evs, p, Blocked)
            && c.metricas.iSusp == VecesEn(k0, evs, p, SuspBlocked)
  {
    var k0 := Arranque(conf, t);
    InvArranque(conf, t);
    LoQueLleva(k0, evs, p, New);
    LoQueLleva(k0, evs, p, Ready);
    LoQueLleva(k0, evs, p, Running);
    LoQueLleva(k0, evs, p, Blocked);
    LoQueLleva(k0, evs, p, SuspBlocked);
  }
}
