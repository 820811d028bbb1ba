/** The long-term planner: it admits who it removes, serves suspended processes first, and does
    not sleep through a wakeup - under FIFO; under smallest-first, exactly unless a smaller
    process arrives behind a refused one. */
module LargoPlazo {
  import opened Comunes
  import opened Estados
  import opened Colas
  import opened GruposIo
  import opened Nucleo
  import opened InvColas
  import opened InvPasos
  import opened Vidas

  predicate Prefijo(a: seq<int>, b: seq<int>) { |a| <= |b| && b[..|a|] == a }

  // What the rest of the kernel does to the planner's queues and semaphore: it only appends;
  // whoever appends to SUSPENDED_READY posts, and so does whoever appends to an empty NEW.
  ghost predicate Crece(k: Foto, h: Foto) {
    && h.lp == k.lp && h.rechazado == k.rechazado && h.conf == k.conf && h.semAdm >= k.semAdm
    && Prefijo(Cola(k.procs, SuspReady), Cola(h.procs, SuspReady)) && Prefijo(Cola(k.procs, New), Cola(h.procs, New))
    && (Cola(h.procs, SuspReady) == Cola(k.procs, SuspReady) || h.semAdm > k.semAdm)
    && (Cola(h.procs, New) == Cola(k.procs, New) || Cola(k.procs, New) != [] || h.semAdm > k.semAdm)
  }

  predicate DeLp(ev: Evento) { ev.LpDespertar? || ev.LpElegir? || ev.LpResponder? }

  lemma {:induction false} CreceIo(k: Foto, ev: Evento)
    requires Base(k) && Posible(k, ev) && DeIo(ev)
    ensures Sano(k) && Crece(k, PasoIo(k, ev)) && Cola(PasoIo(k, ev).procs, New) == Cola(k.procs, New)
  {
    match ev
    case TimerVencer(p, t) => VencerColas(k, p, t);
    case IoTerminar(d, j, t) => CreceDesbloquear(k, k.io[d].instancias[j].pid, t);
    case IoDesconectar(d, j, t) => CreceDesconectar(k, d, j, t);
    case DumpTerminar(p, t) => CreceDesbloquear(k, p, t);
    case _ =>
  }

  lemma {:induction false} CreceDesbloquear(k: Foto, p: int, t: int)
    requires Particion(k.procs)
    ensures Crece(k, Desbloquear(k, p, t)) && Cola(Desbloquear(k, p, t).procs, New) == Cola(k.procs, New)
  {
  }

  lemma {:induction false} CreceDesconectar(k: Foto, d: seq<char>, j: nat, t: int)
    requires Base(k) && d in k.io && j < |k.io[d].instancias|
    ensures Crece(k, Desconectada(k, d, j, t)) && Cola(Desconectada(k, d, j, t).procs, New) == Cola(k.procs, New)
  {
    DesconectarColas(k, d, j, t);
  }

  lemma {:induction false} VencerColas(k: Foto, p: int, t: int)
    ensures Cola(Vencer(k, p, t).procs, New) == Cola(k.procs, New) && Cola(Vencer(k, p, t).procs, SuspReady) == Cola(k.procs, SuspReady)
  {
  }

  lemma {:induction false} CreceCpu(k: Foto, ev: Evento)
    requires Base(k) && Posible(k, ev) && DeCpu(ev)
    ensures Sano(k) && Crece(k, PasoCpu(k, ev)) && Cola(PasoCpu(k, ev).procs, New) == Cola(k.procs, New)
  {
    match ev
    case CpDespachar(orden, t) => CreceDespacho(k, orden, t);
    case CpuResponder(i, r, t) => CreceRespuesta(k, i, r, t);
    case CpuConectar(_) =>
  }

  lemma {:induction false} CreceDespacho(k: Foto, orden: seq<int>, t: int)
    requires Base(k) && Posible(k, CpDespachar(orden, t))
    ensures k.conf.corto != CpFifo ==> |orden| == |Cola(k.procs, Ready)|
    ensures Crece(k, Despacho(k, orden, t)) && Cola(Despacho(k, orden, t).procs, New) == Cola(k.procs, New)
  {
    if k.conf.corto != CpFifo { ReordenaMismos(Cola(k.procs, Ready), orden); }
    if !k.conf.corto.CpDesconocido? {
      var s, p, i := DespachoForma(k, orden, t);
      CreceDespachada(k, Despacho(k, orden, t), s, p, i, t);
    }
  }

  lemma {:induction false} CreceDespachada(k: Foto, h: Foto, s: Procesos, p: int, i: nat, t: int)
    requires Despachada(k, h, s, p, i, t)
    ensures Crece(k, h) && Cola(h.procs, New) == Cola(k.procs, New)
  {
  }

  lemma {:induction false} CreceRespuesta(k: Foto, i: nat, r: Respuesta, t: int)
    requires Base(k) && Posible(k, CpuResponder(i, r, t))
    ensures Sano(k) && Crece(k, Responder(k, i, r, t)) && Cola(Responder(k, i, r, t).procs, New) == Cola(k.procs, New)
  {
    var s, e := ResponderForma(k, i, r, t);
    CreceRespondida(k, Responder(k, i, r, t), i, s, e, t);
  }

  lemma {:induction false} CreceRespondida(k: Foto, h: Foto, i: nat, s: Procesos, e: Estado, t: int)
    requires Respondida(k, h, i, s, e, t)
    ensures Crece(k, h) && Cola(h.procs, New) == Cola(k.procs, New)
  {
  }

  lemma {:induction false} CrecePaso(k: Foto, ev: Evento)
    requires Base(k) && Posible(k, ev) && !DeLp(ev)
    ensures Sano(k) && Crece(k, Paso(k, ev))
    ensures !ev.Crear? ==> Cola(Paso(k, ev).procs, New) == Cola(k.procs, New)
  {
    if DeIo(ev) { CreceIo(k, ev); } else if DeCpu(ev) { CreceCpu(k, ev); }
  }

  /** The admitted process is the removed process. */
  lemma {:induction false} CandidatoPaso(k: Foto, ev: Evento)
    requires Base(k) && Posible(k, ev)
    ensures Sano(k) && CandidatoOk(Paso(k, ev))
  {
    match ev
    case LpElegir(orden) => ElegidoAlFrente(k, orden);
    case LpDespertar =>
    case LpResponder(_, _) =>
    case _ => CandidatoSigue(k, ev);
  }

  lemma {:induction false} CandidatoSigue(k: Foto, ev: Evento)
    requires Base(k) && Posible(k, ev) && !DeLp(ev)
    ensures Sano(k) && CandidatoOk(Paso(k, ev))
  {
    CrecePaso(k, ev);
    var h := Paso(k, ev);
    if k.lp.LpEnMemoria? {
      var e := if k.lp.susp then SuspReady else New;
      assert Prefijo(Cola(k.procs, e), Cola(h.procs, e));
      assert Cola(h.procs, e)[..|Cola(k.procs, e)|][0] == Cola(k.procs, e)[0];
    }
  }

  lemma {:induction false} ElegidoAlFrente(k: Foto, orden: seq<int>)
    requires Base(k) && Posible(k, LpElegir(orden))
    ensures Sano(k) && CandidatoOk(Paso(k, LpElegir(orden)))
  {
    if k.conf.largo == Pmcp { ReordenaMismos(Cola(k.procs, Fuente(k.procs)), orden); }
  }

  // c leaves the head of the queue of `de` for the end of READY, and nothing else moves.
  ghost predicate DeCabezaAListo(s: Procesos, r: Procesos, de: Estado, c: int) {
    && Cola(s, de) == [c] + Cola(r, de) && Cola(r, Ready) == Cola(s, Ready) + [c]
    && c in r.pcbs && r.pcbs[c].estado == Ready
    && (forall e :: e != de && e != Ready ==> Cola(r, e) == Cola(s, e))
    && (forall p :: p in s.pcbs && p != c ==> p in r.pcbs && r.pcbs[p] == s.pcbs[p])
  }

  /** With its mutex released during the call to memory, the planner still finds its candidate
      at position 0: what it removes there is what it makes ready, at the end of READY. */
  lemma {:induction false} AdmitidoEsElQuitado(k: Foto, t: int)
    requires Base(k) && Posible(k, LpResponder(true, t))
    ensures Sano(k)
    ensures DeCabezaAListo(k.procs, Paso(k, LpResponder(true, t)).procs, if k.lp.susp then SuspReady else New, k.lp.candidato)
  {
  }

  // ---------------------------------------------------------------- FIFO: no lost wakeup

  // A candidate from NEW was chosen with nobody suspended ready; if one came since, it posted.
  ghost predicate SuspAvisa(k: Foto) {
    k.lp.LpEnMemoria? && !k.lp.susp && k.semAdm == 0 ==> Cola(k.procs, SuspReady) == []
  }

  /** Parked with the semaphore at 0, either nobody is to be admitted, or the one the planner
      would choose now is the one memory refused last (and nobody has posted since). */
  ghost predicate SinPerdida(k: Foto) {
    k.lp == LpEspera && k.semAdm == 0 ==>
      var q := Cola(k.procs, Fuente(k.procs));
      if k.rechazado.None? then q == [] else q != [] && q[0] == k.rechazado.valor
  }

  ghost predicate DespiertaFifo(k: Foto) {
    SuspAvisa(k) && (k.conf.largo == LpFifo ==> SinPerdida(k))
  }

  lemma {:induction false} SuspAvisaPaso(k: Foto, ev: Evento)
    requires Base(k) && SuspAvisa(k) && Posible(k, ev)
    ensures Sano(k) && SuspAvisa(Paso(k, ev))
  {
    if !DeLp(ev) { CrecePaso(k, ev); }
  }

  /** No wakeup is lost under FIFO. */
  lemma {:induction false} SinPerdidaPaso(k: Foto, ev: Evento)
    requires Base(k) && DespiertaFifo(k) && Posible(k, ev)
    ensures Sano(k) && DespiertaFifo(Paso(k, ev))
  {
    SuspAvisaPaso(k, ev);
    if !DeLp(ev) { CrecePaso(k, ev); }
  }

  // ---------------------------------------------------------------- PMCP

  // c is in q and nobody in q is smaller: one that sorting may put first.
  ghost predicate Minimo(s: Procesos, q: seq<int>, c: int) {
    c in q && forall p :: p in q ==> !MasChico(s, p, c)
  }

  /** The same promise under smallest-first: the one refused last is one the planner could
      choose now. With no post since it was chosen, also while memory is being asked. */
  ghost predicate DespiertaPmcp(k: Foto) {
    k.semAdm == 0 ==>
      var q := Cola(k.procs, Fuente(k.procs));
      match k.lp
      case LpEspera => if k.rechazado.None? then q == [] else Minimo(k.procs, q, k.rechazado.valor)
      case LpEnMemoria(c, _) => Minimo(k.procs, q, c)
      case LpEligiendo => true
  }

  /** Who the planner has in mind, if nothing has told it to look again. */
  function Pendiente(k: Foto): Option<int> {
    if k.semAdm > 0 then None
    else match k.lp
      case LpEspera => k.rechazado
      case LpEnMemoria(c, _) => Some(c)
      case LpEligiendo => None
  }

  lemma {:induction false} MinimoMismos(s: Procesos, r: Procesos, q: seq<int>, c: int)
    requires Minimo(s, q, c) && (forall p :: p in q ==> p in s.pcbs && p in r.pcbs && r.pcbs[p].tam == s.pcbs[p].tam)
    ensures Minimo(r, q, c)
  {
  }

  /** Exactly when an arrival breaks the promise: it joins a non-empty NEW that is what the
      planner looks at, unannounced, and is smaller than the process the planner has in mind. */
  lemma {:induction false} PmcpSii(k: Foto, tam: nat, t: int)
    requires Base(k) && SuspAvisa(k) && DespiertaPmcp(k) && Posible(k, Crear(tam, t))
    ensures Sano(k)
    ensures DespiertaPmcp(Paso(k, Crear(tam, t)))
            <==> !(Pendiente(k).Some? && Cola(k.procs, SuspReady) == [] && Cola(k.procs, New) != []
                   && Pendiente(k).valor in k.procs.pcbs && tam < k.procs.pcbs[Pendiente(k).valor].tam)
  {
    var h := Paso(k, Crear(tam, t));
    var q := Cola(k.procs, Fuente(k.procs));
    forall p | p in q ensures p in k.procs.pcbs && p in h.procs.pcbs && h.procs.pcbs[p] == k.procs.pcbs[p] {
      assert p in Cola(k.procs, Fuente(k.procs));
    }
    assert k.proximo in Cola(h.procs, New);
    assert h.procs.pcbs[k.proximo].tam == tam;
    if Pendiente(k).Some? {
      MinimoMismos(k.procs, h.procs, q, Pendiente(k).valor);
    }
  }

  /** Nothing else breaks it: an arrival is the only step that does. */
  lemma {:induction false} PmcpOtros(k: Foto, ev: Evento)
    requires Base(k) && SuspAvisa(k) && DespiertaPmcp(k) && Posible(k, ev) && !ev.Crear? && k.conf.largo == Pmcp
    ensures Sano(k) && DespiertaPmcp(Paso(k, ev))
  {
    if DeLp(ev) { PmcpLp(k, ev); } else { PmcpDemas(k, ev); }
  }

  lemma {:induction false} PmcpDemas(k: Foto, ev: Evento)
    requires Base(k) && SuspAvisa(k) && DespiertaPmcp(k) && Posible(k, ev) && !ev.Crear? && !DeLp(ev)
    ensures Sano(k) && DespiertaPmcp(Paso(k, ev))
  {
    CrecePaso(k, ev);
    EvolucionPaso(k, ev);
    var h := Paso(k, ev);
    var q := Cola(k.procs, Fuente(k.procs));
    if h.semAdm == 0 && Pendiente(k).Some? {
      forall p | p in q ensures p in k.procs.pcbs && p in h.procs.pcbs && h.procs.pcbs[p].tam == k.procs.pcbs[p].tam {
        assert p in Cola(k.procs, Fuente(k.procs));
      }
      MinimoMismos(k.procs, h.procs, q, Pendiente(k).valor);
    }
  }

  lemma {:induction false} PmcpLp(k: Foto, ev: Evento)
    requires Base(k) && SuspAvisa(k) && DespiertaPmcp(k) && Posible(k, ev) && DeLp(ev) && k.conf.largo == Pmcp
    ensures Sano(k) && DespiertaPmcp(Paso(k, ev))
  {
    if ev.LpElegir? {
      var de := Fuente(k.procs);
      ReordenaMismos(Cola(k.procs, de), ev.orden);
      if Cola(k.procs, de) != [] { PmcpElegir(k, ev.orden); }
    }
  }

  /** Sorting puts a smallest process first. */
  lemma {:induction false} PmcpElegir(k: Foto, orden: seq<int>)
    requires Base(k) && OrdenPorTam(k.procs, Fuente(k.procs), orden) && |orden| == |Cola(k.procs, Fuente(k.procs))| > 0
    requires k.conf.largo == Pmcp
    ensures var h := Elegir(k, orden);
            && Fuente(h.procs) == Fuente(k.procs) && h.semAdm == k.semAdm && h.procs.pcbs == k.procs.pcbs
            && h.lp == LpEnMemoria(orden[0], Fuente(k.procs) == SuspReady)
            && Cola(h.procs, Fuente(k.procs)) == orden && Minimo(h.procs, orden, orden[0])
  {
  }

  // The states of the run below.
  function K1(conf: Conf): Foto {
    Arranque(conf, 0).(procs := Procesos(map[0 := PcbNuevo(10, conf.estimacionInicial, 0)], SIN_NADIE[New := [0]]), proximo := 1, semAdm := 1)
  }

  function K2(conf: Conf): Foto { K1(conf).(lp := LpEligiendo, semAdm := 0) }

  function K3(conf: Conf): Foto { K1(conf).(lp := LpEnMemoria(0, false), semAdm := 0) }

  function K4(conf: Conf): Foto { K1(conf).(semAdm := 0, rechazado := Some(0)) }

  /** A run that shows it: a process of 10 bytes is refused, one of 5 arrives, and the planner
      sleeps with the semaphore at 0. */
  lemma {:induction false} PmcpSeDuerme(conf: Conf)
    requires conf.largo == Pmcp
    ensures var evs := [Crear(10, 0), LpDespertar, LpElegir([0]), LpResponder(false, 0), Crear(5, 0)];
            Posibles(Arranque(conf, 0), evs)
            && var k := Correr(Arranque(conf, 0), evs);
               k.lp == LpEspera && k.semAdm == 0 && k.rechazado == Some(0)
               && Cola(k.procs, New) == [0, 1] && MasChico(k.procs, 1, 0)
  {
    var k0, k1, k2, k3, k4 := Arranque(conf, 0), K1(conf), K2(conf), K3(conf), K4(conf);
    PrimerCrear(conf);
    SegundoElegir(conf);
    SegundoCrear(conf);
    var e0, e1, e2, e3, e4 := Crear(10, 0), LpDespertar, LpElegir([0]), LpResponder(false, 0), Crear(5, 0);
    UnPaso(k4, e4, []);
    assert [e4] + [] == [e4];
    TresPasos(k2, k3, k4, e2, e3, [e4]);
    TresPasos(k0, k1, k2, e0, e1, [e2, e3] + [e4]);
    assert [e0, e1] + ([e2, e3] + [e4]) == [e0, e1, e2, e3, e4];
  }

  lemma {:induction false} TresPasos(a: Foto, b: Foto, c: Foto, ea: Evento, eb: Evento, evs: seq<Evento>)
    requires Sano(a) && Posible(a, ea) && Paso(a, ea) == b
    requires Sano(b) && Posible(b, eb) && Paso(b, eb) == c && Posibles(c, evs)
    ensures Posibles(a, [ea, eb] + evs) && Correr(a, [ea, eb] + evs) == Correr(c, evs)
  {
    UnPaso(b, eb, evs);
    UnPaso(a, ea, [eb] + evs);
    assert [ea] + ([eb] + evs) == [ea, eb] + evs;
  }

  lemma {:induction false} UnPaso(k: Foto, ev: Evento, evs: seq<Evento>)
    requires Sano(k) && Posible(k, ev) && Posibles(Paso(k, ev), evs)
    ensures Posibles(k, [ev] + evs) && Correr(k, [ev] + evs) == Correr(Paso(k, ev), evs)
  {
  }

  lemma {:induction false} PrimerCrear(conf: Conf)
    ensures var k0 := Arranque(conf, 0); Sano(k0) && Posible(k0, Crear(10, 0)) && Paso(k0, Crear(10, 0)) == K1(conf)
    ensures var k1 := K1(conf); Sano(k1) && Posible(k1, LpDespertar) && Paso(k1, LpDespertar) == K2(conf)
  {
    var k0 := Arranque(conf, 0);
    assert Cola(k0.procs, New) == [] && [] + [0] == [0];
    assert Alta(k0.procs, 0, PcbNuevo(10, conf.estimacionInicial, 0)) == K1(conf).procs;
  }

  lemma {:induction false} SegundoElegir(conf: Conf)
    requires conf.largo == Pmcp
    ensures var k2 := K2(conf); Sano(k2) && Posible(k2, LpElegir([0])) && Paso(k2, LpElegir([0])) == K3(conf)
    ensures var k3 := K3(conf); Sano(k3) && Posible(k3, LpResponder(false, 0)) && Paso(k3, LpResponder(false, 0)) == K4(conf)
  {
  }

  lemma {:induction false} SegundoCrear(conf: Conf)
    ensures var k4 := K4(conf);
            Sano(k4) && Posible(k4, Crear(5, 0))
            && var h := Paso(k4, Crear(5, 0));
               h.lp == LpEspera && h.semAdm == 0 && h.rechazado == Some(0)
               && Cola(h.procs, New) == [0, 1] && MasChico(h.procs, 1, 0)
  {
  }
}
