/** A run in which a process ends up on a CPU with its pages in swap. */
module Testigo {
  import opened Comunes
  import opened Aritmetica
  import opened Ronda
  import opened Estados
  import opened Colas
  import opened GruposIo
  import opened Nucleo
  import opened InvColas
  import opened KernelCorridas
  import opened Amenazas
  import opened Sistema
  import opened Residencia
  import opened SistemaCorridas
  import P = Pedidos
  import R = Recorridos
  import C = Corridas
  import T = Tenencia
  import F = Fisico

  // The only process is in e, and nothing is ever sorted.
  ghost predicate Solo(k: Foto, e: Estado) {
    && Inv(k) && k.reloj == 0 && k.conf.corto == CpFifo && k.conf.largo == LpFifo
    && k.procs.pcbs.Keys == {0} && k.procs.pcbs[0].estado == e
  }

  lemma {:induction false} Algunos(q: seq<int>)
    ensures q != [] ==> exists x :: x in q
    ensures SinRepetidos(q) && |q| > 1 ==> exists x, y :: x in q && y in q && x != y
  {
    if q != [] { assert q[0] in q; }
    if SinRepetidos(q) && |q| > 1 { assert q[0] in q && q[1] in q && q[0] != q[1]; }
  }

  lemma {:induction false} SuCola(k: Foto, e: Estado)
    requires Solo(k, e)
    ensures Cola(k.procs, e) == [0] && forall f :: f != e ==> Cola(k.procs, f) == []
  {
    forall f, x ensures x in Cola(k.procs, f) <==> x == 0 && f == e {
      assert x in k.procs.pcbs.Keys <==> x == 0;
      assert x in Cola(k.procs, f) <==> x in k.procs.pcbs && k.procs.pcbs[x].estado == f;
    }
    forall f ensures |Cola(k.procs, f)| <= 1 && (f != e ==> Cola(k.procs, f) == []) {
      Algunos(Cola(k.procs, f));
      assert SinRepetidos(Cola(k.procs, f));
    }
    assert 0 in Cola(k.procs, e);
  }

  // ---------------------------------------------------------------- its steps in the kernel

  lemma {:induction false} UnoCrear(conf: Conf)
    requires conf.corto == CpFifo && conf.largo == LpFifo
    ensures var k := Arranque(conf, 0);
            && Sano(k) && Posible(k, Crear(1, 0))
            && var h := Paso(k, Crear(1, 0));
               Solo(h, New) && h == k.(procs := h.procs, proximo := 1, semAdm := 1) && h.procs.pcbs[0].tam == 1
  {
  }

  lemma {:induction false} UnoDespertar(k: Foto, e: Estado)
    requires Solo(k, e) && k.lp == LpEspera && k.semAdm > 0
    ensures Sano(k) && Posible(k, LpDespertar)
    ensures var h := Paso(k, LpDespertar); Solo(h, e) && h == k.(lp := LpEligiendo, semAdm := k.semAdm - 1, rechazado := None)
  {
  }

  lemma {:induction false} UnoElegir(k: Foto, e: Estado)
    requires Solo(k, e) && (e == New || e == SuspReady) && k.lp == LpEligiendo
    ensures Sano(k) && Posible(k, LpElegir([]))
    ensures var h := Paso(k, LpElegir([])); Solo(h, e) && h == k.(lp := LpEnMemoria(0, e == SuspReady))
  {
    SuCola(k, e);
    InvPaso(k, LpElegir([]));
  }

  lemma {:induction false} UnoAdmitir(k: Foto, e: Estado)
    requires Solo(k, e) && (e == New || e == SuspReady) && k.lp == LpEnMemoria(0, e == SuspReady)
    ensures Sano(k) && Posible(k, LpResponder(true, 0))
    ensures var h := Paso(k, LpResponder(true, 0));
            Solo(h, Ready) && h == k.(procs := h.procs, semReady := k.semReady + 1, lp := LpEligiendo)
  {
    InvPaso(k, LpResponder(true, 0));
    AdmitirActiva(k, 0, 0);
  }

  lemma {:induction false} UnoConectar(k: Foto, e: Estado)
    requires Solo(k, e) && k.cpus == []
    ensures Sano(k) && Posible(k, CpuConectar("c"))
    ensures var h := Paso(k, CpuConectar("c"));
            Solo(h, e) && h == k.(cpus := [Procesador("c", true, None)], semCpu := k.semCpu + 1)
  {
    InvPaso(k, CpuConectar("c"));
  }

  lemma {:induction false} UnoConReady(k: Foto, e: Estado)
    requires Solo(k, e) && k.cp == CpEspera && k.semReady > 0
    ensures Sano(k) && Posible(k, CpReady)
    ensures var h := Paso(k, CpReady); Solo(h, e) && h == k.(cp := CpConReady, semReady := k.semReady - 1)
  {
  }

  lemma {:induction false} UnoConCpu(k: Foto, e: Estado)
    requires Solo(k, e) && k.cp == CpConReady && k.semCpu > 0
    ensures Sano(k) && Posible(k, CpCpu)
    ensures var h := Paso(k, CpCpu); Solo(h, e) && h == k.(cp := CpConAmbos, semCpu := k.semCpu - 1)
  {
  }

  lemma {:induction false} UnoDespachar(k: Foto)
    requires Solo(k, Ready) && k.cp == CpConAmbos && |k.cpus| == 1
    ensures Sano(k) && Posible(k, CpDespachar([], 0))
    ensures var h := Paso(k, CpDespachar([], 0));
            Solo(h, Running) && |h.cpus| == 1 && h.cpus[0].pcb == Some(0)
            && h == k.(procs := h.procs, cpus := h.cpus, ultimoCpu := 0, cp := CpEspera)
  {
    SuCola(k, Ready);
    InvPaso(k, CpDespachar([], 0));
    var s, p, i := DespachoForma(k, [], 0);
  }

  lemma {:induction false} UnoConectarIo(k: Foto, e: Estado)
    requires Solo(k, e) && k.io == map[]
    ensures Sano(k) && Posible(k, IoConectar("d", 1))
    ensures var h := Paso(k, IoConectar("d", 1));
            Solo(h, e) && h == k.(io := map["d" := Grupo([Instancia(1, false, 0)], [], -1)])
  {
    InvPaso(k, IoConectar("d", 1));
    assert [] + [Instancia(1, false, 0)] == [Instancia(1, false, 0)];
    assert Conectar(GRUPO_VACIO, 1) == Grupo([Instancia(1, false, 0)], [], -1);
  }

  lemma {:induction false} UnPedido()
    ensures Pedir(Grupo([Instancia(1, false, 0)], [], -1), Solicitud(0, 5)) == Grupo([Instancia(1, true, 0)], [], 0)
  {
    var g := Grupo([Instancia(1, false, 0)], [Solicitud(0, 5)], -1);
    assert InstanciasLibres(g.instancias)[0];
    assert Siguiente(InstanciasLibres(g.instancias), -1) == Some(0);
    assert Asignada(g, 0) == Grupo([Instancia(1, true, 0)], [], 0);
    assert [] + [Solicitud(0, 5)] == [Solicitud(0, 5)];
  }

  const PIDE_IO := Respuesta(0, 1, MotivoIo("d", 5))

  lemma {:induction false} PedirIoDeja(k: Foto)
    requires Solo(k, Running) && |k.cpus| == 1 && k.cpus[0].pcb == Some(0)
    requires k.io == map["d" := Grupo([Instancia(1, false, 0)], [], -1)]
    ensures Sano(k)
    ensures var h := Responder(k, 0, PIDE_IO, 0);
            && h.procs.pcbs.Keys == {0} && h.procs.pcbs[0].estado == Blocked
            && h.io == map["d" := Grupo([Instancia(1, true, 0)], [], 0)] && |h.cpus| == 1
            && h == k.(procs := h.procs, cpus := h.cpus, semCpu := k.semCpu + 1, io := h.io, timers := k.timers + multiset{0})
  {
    UnPedido();
  }

  lemma {:induction false} UnoPedirIo(k: Foto)
    requires Solo(k, Running) && |k.cpus| == 1 && k.cpus[0].pcb == Some(0)
    requires k.io == map["d" := Grupo([Instancia(1, false, 0)], [], -1)]
    ensures Sano(k) && Posible(k, CpuResponder(0, PIDE_IO, 0))
    ensures var h := Paso(k, CpuResponder(0, PIDE_IO, 0));
            Solo(h, Blocked) && |h.cpus| == 1 && h.io == map["d" := Grupo([Instancia(1, true, 0)], [], 0)]
            && h == k.(procs := h.procs, cpus := h.cpus, semCpu := k.semCpu + 1, io := h.io, timers := k.timers + multiset{0})
  {
    InvPaso(k, CpuResponder(0, PIDE_IO, 0));
    PedirIoDeja(k);
  }

  lemma {:induction false} UnoVencer(k: Foto)
    requires Solo(k, Blocked) && 0 in k.timers
    ensures Sano(k) && Posible(k, TimerVencer(0, 0))
    ensures var h := Paso(k, TimerVencer(0, 0));
            Solo(h, SuspBlocked) && h == k.(procs := h.procs, timers := k.timers - multiset{0}, suspensiones := k.suspensiones + multiset{0})
  {
    InvPaso(k, TimerVencer(0, 0));
  }

  lemma {:induction false} UnoTerminarIo(k: Foto)
    requires Solo(k, SuspBlocked) && k.io == map["d" := Grupo([Instancia(1, true, 0)], [], 0)]
    ensures Sano(k) && Posible(k, IoTerminar("d", 0, 0))
    ensures var h := Paso(k, IoTerminar("d", 0, 0));
            Solo(h, SuspReady) && h == k.(procs := h.procs, semAdm := k.semAdm + 1, io := h.io)
  {
    InvPaso(k, IoTerminar("d", 0, 0));
    TerminarIoDeja(k);
  }

  lemma {:induction false} TerminarIoDeja(k: Foto)
    requires Solo(k, SuspBlocked) && k.io == map["d" := Grupo([Instancia(1, true, 0)], [], 0)]
    ensures var h := Terminada(k, "d", 0, 0);
            && h.procs.pcbs.Keys == {0} && h.procs.pcbs[0].estado == SuspReady
            && h == k.(procs := h.procs, semAdm := k.semAdm + 1, io := h.io)
  {
  }

  // ---------------------------------------------------------------- and the whole run

  // `es` is a run from s0 that ends in s.
  ghost predicate Llega(cfg: P.Cfg, s0: Todo, es: seq<Suceso>, s: Todo) {
    cfg.tp > 0 && Suceden(cfg, s0, es) && Final(cfg, s0, es) == s
  }

  // A section of the kernel that reads no answer.
  predicate SinLeer(ev: Evento) { !ev.LpResponder? && !ev.SuspensionResponder? && !ev.ExResponder? }

  lemma {:induction false} DaInterno(cfg: P.Cfg, s0: Todo, es: seq<Suceso>, s: Todo, ev: Evento, k: Foto) returns (h: Todo)
    requires Llega(cfg, s0, es, s) && Sano(s.k) && Posible(s.k, ev) && SinLeer(ev) && Paso(s.k, ev) == k
    ensures Llega(cfg, s0, es + [Interno(ev)], h) && h == s.(k := k)
  {
    UnoMas(cfg, s0, es, s, Interno(ev));
    h := Avanza(cfg, s, Interno(ev));
  }

  lemma {:induction false} UnoMas(cfg: P.Cfg, s0: Todo, es: seq<Suceso>, s: Todo, e: Suceso)
    requires cfg.tp > 0 && Suceden(cfg, s0, es) && Final(cfg, s0, es) == s && Sano(s.k) && Sucede(s, e)
    ensures Suceden(cfg, s0, es + [e]) && Final(cfg, s0, es + [e]) == Avanza(cfg, s, e)
    decreases |es|
  {
    if es == [] {
      UnoSolo(cfg, s0, e);
      assert [] + [e] == [e];
    } else {
      var h := Avanza(cfg, s0, es[0]);
      UnoMas(cfg, h, es[1..], s, e);
      UnoAntes(cfg, s0, es[0], es[1..] + [e]);
      assert [es[0]] + (es[1..] + [e]) == es + [e];
    }
  }

  lemma {:induction false} UnoSolo(cfg: P.Cfg, s: Todo, e: Suceso)
    requires cfg.tp > 0 && Sano(s.k) && Sucede(s, e)
    ensures Suceden(cfg, s, [e]) && Final(cfg, s, [e]) == Avanza(cfg, s, e)
  {
  }

  lemma {:induction false} UnoAntes(cfg: P.Cfg, s: Todo, e: Suceso, es: seq<Suceso>)
    requires cfg.tp > 0 && Sano(s.k) && Sucede(s, e) && Suceden(cfg, Avanza(cfg, s, e), es)
    ensures Suceden(cfg, s, [e] + es) && Final(cfg, s, [e] + es) == Final(cfg, Avanza(cfg, s, e), es)
  {
  }

  // What the memory calls need: process 0 is there, has a page, and is in RAM.
  ghost predicate EnRam(cfg: P.Cfg, m: T.Mem) {
    P.Valida(cfg, m) && P.Residente(m, 0) && ConPaginas(cfg, m, 0)
  }

  const ADMISION: seq<Suceso> := [Interno(LpElegir([])), Admite, Interno(LpResponder(true, 0))]

  const HASTA_CPU: seq<Suceso> := [Interno(CpReady), Interno(CpCpu), Interno(CpDespachar([], 0))]

  const BLOQUEO: seq<Suceso> := [Interno(IoConectar("d", 1)), Interno(CpuResponder(0, PIDE_IO, 0)), Interno(TimerVencer(0, 0))]

  /** Admitted into an empty memory with a frame to spare. */
  lemma {:induction false} PrimeraAdmision(cfg: P.Cfg, m: T.Mem)
    requires P.Valida(cfg, m) && cfg.cap > 0 && Libres(m.fis.marcos) > 0 && 0 !in m.procs
    ensures var r := P.IniciarProceso(cfg, m, 0, 1); r.1 == P.InitProcesoOk && EnRam(cfg, r.0)
  {
    assert P.Paginas(1, cfg.tp) == 1 by { DivUnico(cfg.tp, cfg.tp, 1, 0); }
    P.IniciarValida(cfg, m, 0, 1);
  }

  /** Readmitted without having left: its suspension has not arrived. */
  lemma {:induction false} SegundaAdmision(cfg: P.Cfg, m: T.Mem)
    requires P.Valida(cfg, m) && EnRam(cfg, m)
    ensures var r := P.DesuspenderProceso(m, 0); r.1 == P.DesuspensionOk && EnRam(cfg, r.0)
  {
    NadaEnSwap(m.procs[0].hojas);
    DesuspenderTrae(cfg, m, 0);
    P.DesuspenderValida(cfg, m, 0);
  }

  lemma {:induction false} NadaEnSwap(hs: seq<F.Hoja>)
    requires forall i :: 0 <= i < |hs| ==> hs[i].slot == -1
    ensures R.EnSwap(hs) == 0
  {
    if hs != [] { NadaEnSwap(hs[1..]); }
  }

  // What the planner's call to memory needs to be answered with yes.
  ghost predicate Admisible(cfg: P.Cfg, s: Todo, e: Estado) {
    if e == New then P.Valida(cfg, s.m) && 0 !in s.m.procs && cfg.cap > 0 && Libres(s.m.fis.marcos) > 0 && Tamanio(s.k, 0) == 1
    else e == SuspReady && EnRam(cfg, s.m)
  }

  lemma {:induction false} DaAdmite(cfg: P.Cfg, s0: Todo, es: seq<Suceso>, s: Todo, e: Estado) returns (h: Todo)
    requires Llega(cfg, s0, es, s) && s.admision.None? && s.k.lp == LpEnMemoria(0, e == SuspReady) && Admisible(cfg, s, e)
    requires Sano(s.k)
    ensures Llega(cfg, s0, es + [Admite], h) && h == s.(m := h.m, admision := Some(true)) && EnRam(cfg, h.m)
  {
    if e == New { PrimeraAdmision(cfg, s.m); } else { SegundaAdmision(cfg, s.m); }
    UnoMas(cfg, s0, es, s, Admite);
    h := Avanza(cfg, s, Admite);
  }

  lemma {:induction false} DaAdmitido(cfg: P.Cfg, s0: Todo, es: seq<Suceso>, s: Todo, e: Estado) returns (h: Todo)
    requires Llega(cfg, s0, es, s) && Solo(s.k, e) && (e == New || e == SuspReady)
    requires s.admision == Some(true) && s.k.lp == LpEnMemoria(0, e == SuspReady)
    ensures Llega(cfg, s0, es + [Interno(LpResponder(true, 0))], h) && Solo(h.k, Ready)
    ensures h == s.(k := h.k, admision := None) && h.k == s.k.(procs := h.k.procs, semReady := s.k.semReady + 1, lp := LpEligiendo)
  {
    UnoAdmitir(s.k, e);
    UnoMas(cfg, s0, es, s, Interno(LpResponder(true, 0)));
    h := Avanza(cfg, s, Interno(LpResponder(true, 0)));
  }

  lemma {:induction false} DaElegir(cfg: P.Cfg, s0: Todo, es: seq<Suceso>, s: Todo, e: Estado) returns (h: Todo)
    requires Llega(cfg, s0, es, s) && Solo(s.k, e) && (e == New || e == SuspReady) && s.k.lp == LpEligiendo
    ensures Llega(cfg, s0, es + [Interno(LpElegir([]))], h) && Solo(h.k, e)
    ensures h == s.(k := h.k) && h.k == s.k.(lp := LpEnMemoria(0, e == SuspReady))
  {
    UnoElegir(s.k, e);
    h := DaInterno(cfg, s0, es, s, LpElegir([]), Paso(s.k, LpElegir([])));
  }

  lemma {:induction false} VaLaAdmision(cfg: P.Cfg, s0: Todo, es: seq<Suceso>, s: Todo, e: Estado) returns (h: Todo)
    requires Llega(cfg, s0, es, s) && Solo(s.k, e) && (e == New || e == SuspReady) && s.k.lp == LpEligiendo && s.admision.None?
    requires Admisible(cfg, s, e)
    ensures Llega(cfg, s0, es + ADMISION, h)
    ensures Solo(h.k, Ready) && EnRam(cfg, h.m)
    ensures h == s.(k := h.k, m := h.m) && h.k == s.k.(procs := h.k.procs, semReady := s.k.semReady + 1)
  {
    var a := DaElegir(cfg, s0, es, s, e);
    var b := DaAdmite(cfg, s0, es + [Interno(LpElegir([]))], a, e);
    h := DaAdmitido(cfg, s0, es + [Interno(LpElegir([]))] + [Admite], b, e);
    Juntos(es, Interno(LpElegir([])), Admite, Interno(LpResponder(true, 0)));
  }

  lemma {:induction false} Juntos(es: seq<Suceso>, a: Suceso, b: Suceso, c: Suceso)
    ensures es + [a] + [b] + [c] == es + [a, b, c]
  {
  }

  lemma {:induction false} VaLaCpu(cfg: P.Cfg, s0: Todo, es: seq<Suceso>, s: Todo) returns (h: Todo)
    requires Llega(cfg, s0, es, s) && Solo(s.k, Ready)
    requires s.k.cp == CpEspera && s.k.semReady > 0 && s.k.semCpu > 0 && |s.k.cpus| == 1
    ensures Llega(cfg, s0, es + HASTA_CPU, h)
    ensures Solo(h.k, Running) && |h.k.cpus| == 1 && h.k.cpus[0].pcb == Some(0) && h == s.(k := h.k)
    ensures h.k == s.k.(procs := h.k.procs, cpus := h.k.cpus, ultimoCpu := 0, semReady := s.k.semReady - 1, semCpu := s.k.semCpu - 1)
  {
    UnoConReady(s.k, Ready);
    var a := DaInterno(cfg, s0, es, s, CpReady, Paso(s.k, CpReady));
    UnoConCpu(a.k, Ready);
    var b := DaInterno(cfg, s0, es + [Interno(CpReady)], a, CpCpu, Paso(a.k, CpCpu));
    UnoDespachar(b.k);
    h := DaInterno(cfg, s0, es + [Interno(CpReady)] + [Interno(CpCpu)], b, CpDespachar([], 0), Paso(b.k, CpDespachar([], 0)));
    Juntos(es, Interno(CpReady), Interno(CpCpu), Interno(CpDespachar([], 0)));
  }

  lemma {:induction false} VaAlPedido(cfg: P.Cfg, s0: Todo, es: seq<Suceso>, s: Todo) returns (h: Todo)
    requires Llega(cfg, s0, es, s) && Solo(s.k, Running)
    requires s.k.io == map[] && |s.k.cpus| == 1 && s.k.cpus[0].pcb == Some(0)
    ensures Llega(cfg, s0, es + [Interno(IoConectar("d", 1))] + [Interno(CpuResponder(0, PIDE_IO, 0))], h)
    ensures Solo(h.k, Blocked) && h == s.(k := h.k)
    ensures |h.k.cpus| == 1 && h.k.io == map["d" := Grupo([Instancia(1, true, 0)], [], 0)]
    ensures h.k == s.k.(procs := h.k.procs, cpus := h.k.cpus, semCpu := s.k.semCpu + 1, io := h.k.io, timers := s.k.timers + multiset{0})
  {
    UnoConectarIo(s.k, Running);
    var a := DaInterno(cfg, s0, es, s, IoConectar("d", 1), Paso(s.k, IoConectar("d", 1)));
    UnoPedirIo(a.k);
    h := DaInterno(cfg, s0, es + [Interno(IoConectar("d", 1))], a, CpuResponder(0, PIDE_IO, 0), Paso(a.k, CpuResponder(0, PIDE_IO, 0)));
  }

  lemma {:induction false} VaAlBloqueo(cfg: P.Cfg, s0: Todo, es: seq<Suceso>, s: Todo) returns (h: Todo)
    requires Llega(cfg, s0, es, s) && Solo(s.k, Running)
    requires s.k.io == map[] && |s.k.cpus| == 1 && s.k.cpus[0].pcb == Some(0)
    ensures Llega(cfg, s0, es + BLOQUEO, h) && Solo(h.k, SuspBlocked) && h == s.(k := h.k)
    ensures |h.k.cpus| == 1 && h.k.io == map["d" := Grupo([Instancia(1, true, 0)], [], 0)]
    ensures h.k == s.k.(procs := h.k.procs, cpus := h.k.cpus, semCpu := s.k.semCpu + 1, io := h.k.io,
                        timers := h.k.timers, suspensiones := s.k.suspensiones + multiset{0})
  {
    var b := VaAlPedido(cfg, s0, es, s);
    UnoVencer(b.k);
    h := DaInterno(cfg, s0, es + [Interno(IoConectar("d", 1))] + [Interno(CpuResponder(0, PIDE_IO, 0))], b, TimerVencer(0, 0), Paso(b.k, TimerVencer(0, 0)));
    Juntos(es, Interno(IoConectar("d", 1)), Interno(CpuResponder(0, PIDE_IO, 0)), Interno(TimerVencer(0, 0)));
  }

  lemma {:induction false} SinNada(e: Suceso)
    ensures [] + [e] == [e]
  {
  }

  lemma {:induction false} VaAlPrincipio(cfg: P.Cfg, conf: Conf, marcos: nat, basura: nat -> bool) returns (h: Todo)
    requires cfg.tp > 0 && conf.corto == CpFifo && conf.largo == LpFifo
    ensures Llega(cfg, Arranca(cfg, conf, 0, marcos, basura), [Interno(Crear(1, 0))] + [Interno(LpDespertar)], h)
    ensures Solo(h.k, New) && h == Arranca(cfg, conf, 0, marcos, basura).(k := h.k) && Tamanio(h.k, 0) == 1
    ensures h.k == Arranque(conf, 0).(procs := h.k.procs, proximo := 1, lp := LpEligiendo)
  {
    var s0 := Arranca(cfg, conf, 0, marcos, basura);
    UnoCrear(conf);
    var a := DaInterno(cfg, s0, [], s0, Crear(1, 0), Paso(s0.k, Crear(1, 0)));
    SinNada(Interno(Crear(1, 0)));
    UnoDespertar(a.k, New);
    h := DaInterno(cfg, s0, [Interno(Crear(1, 0))], a, LpDespertar, Paso(a.k, LpDespertar));
  }

  /** Admitted, dispatched, blocked past its time-out and suspended in the kernel; */
  const MITAD: seq<Suceso> :=
    [Interno(Crear(1, 0))] + [Interno(LpDespertar)] + ADMISION + [Interno(CpuConectar("c"))] + HASTA_CPU + BLOQUEO

  /** then back from its I/O, readmitted, dispatched again, and only then suspended in memory. */
  const GUION: seq<Suceso> := MITAD + [Interno(IoTerminar("d", 0, 0))] + ADMISION + HASTA_CPU + [Suspende(0)]

  lemma {:induction false} VaALaMitad(cfg: P.Cfg, conf: Conf, marcos: nat, basura: nat -> bool) returns (h: Todo)
    requires cfg.tp > 0 && cfg.cap > 0 && marcos > 0 && conf.corto == CpFifo && conf.largo == LpFifo
    ensures Llega(cfg, Arranca(cfg, conf, 0, marcos, basura), MITAD, h)
    ensures Solo(h.k, SuspBlocked) && EnRam(cfg, h.m) && h.k.suspensiones == multiset{0}
    ensures h.k.lp == LpEligiendo && h.k.cp == CpEspera && h.k.semCpu == 1 && |h.k.cpus| == 1
    ensures h.admision.None? && h.hechas == multiset{} && h.vanas == multiset{}
    ensures h.k.io == map["d" := Grupo([Instancia(1, true, 0)], [], 0)]
  {
    var s0 := Arranca(cfg, conf, 0, marcos, basura);
    C.ArranqueValida(cfg, marcos, basura);
    HayLibre(s0.m.fis.marcos);
    var es := [Interno(Crear(1, 0))] + [Interno(LpDespertar)];
    var a := VaAlPrincipio(cfg, conf, marcos, basura);
    var b := VaLaAdmision(cfg, s0, es, a, New);
    UnoConectar(b.k, Ready);
    var c := DaInterno(cfg, s0, es + ADMISION, b, CpuConectar("c"), Paso(b.k, CpuConectar("c")));
    var d := VaLaCpu(cfg, s0, es + ADMISION + [Interno(CpuConectar("c"))], c);
    h := VaAlBloqueo(cfg, s0, es + ADMISION + [Interno(CpuConectar("c"))] + HASTA_CPU, d);
  }

  lemma {:induction false} DaTerminar(cfg: P.Cfg, s0: Todo, es: seq<Suceso>, s: Todo) returns (h: Todo)
    requires Llega(cfg, s0, es, s) && Solo(s.k, SuspBlocked) && s.k.io == map["d" := Grupo([Instancia(1, true, 0)], [], 0)]
    ensures Llega(cfg, s0, es + [Interno(IoTerminar("d", 0, 0))], h) && Solo(h.k, SuspReady)
    ensures h == s.(k := h.k) && h.k == s.k.(procs := h.k.procs, semAdm := s.k.semAdm + 1, io := h.k.io)
  {
    UnoTerminarIo(s.k);
    h := DaInterno(cfg, s0, es, s, IoTerminar("d", 0, 0), Paso(s.k, IoTerminar("d", 0, 0)));
  }

  lemma {:induction false} VaDeVuelta(cfg: P.Cfg, s0: Todo, es: seq<Suceso>, s: Todo) returns (h: Todo)
    requires Llega(cfg, s0, es, s) && Solo(s.k, SuspBlocked) && EnRam(cfg, s.m)
    requires s.k.lp == LpEligiendo && s.admision.None? && s.k.io == map["d" := Grupo([Instancia(1, true, 0)], [], 0)]
    ensures Llega(cfg, s0, es + [Interno(IoTerminar("d", 0, 0))] + ADMISION, h)
    ensures Solo(h.k, Ready) && EnRam(cfg, h.m) && h == s.(k := h.k, m := h.m)
    ensures h.k == s.k.(procs := h.k.procs, semReady := s.k.semReady + 1, semAdm := s.k.semAdm + 1, io := h.k.io)
  {
    var b := DaTerminar(cfg, s0, es, s);
    h := VaLaAdmision(cfg, s0, es + [Interno(IoTerminar("d", 0, 0))], b, SuspReady);
  }

  /** In any memory with a frame, under FIFO, a process ends up on a CPU with its pages in swap. */
  lemma {:induction false} CorreEnSwap(cfg: P.Cfg, conf: Conf, marcos: nat, basura: nat -> bool)
    requires cfg.tp > 0 && cfg.cap > 0 && marcos > 0 && conf.corto == CpFifo && conf.largo == LpFifo
    ensures var s0 := Arranca(cfg, conf, 0, marcos, basura);
            Suceden(cfg, s0, GUION)
            && EsDe(Final(cfg, s0, GUION).k, 0, Running) && !P.Residente(Final(cfg, s0, GUION).m, 0)
  {
    var s0 := Arranca(cfg, conf, 0, marcos, basura);
    var a := VaALaMitad(cfg, conf, marcos, basura);
    var es := MITAD + [Interno(IoTerminar("d", 0, 0))] + ADMISION;
    var c := VaDeVuelta(cfg, s0, MITAD, a);
    var d := VaLaCpu(cfg, s0, es, c);
    VaAlSwap(cfg, s0, es + HASTA_CPU, d);
  }

  lemma {:induction false} VaAlSwap(cfg: P.Cfg, s0: Todo, es: seq<Suceso>, s: Todo)
    requires Llega(cfg, s0, es, s) && Solo(s.k, Running) && EnRam(cfg, s.m) && EnCamino(s, 0)
    ensures Suceden(cfg, s0, es + [Suspende(0)])
    ensures EsDe(Final(cfg, s0, es + [Suspende(0)]).k, 0, Running) && !P.Residente(Final(cfg, s0, es + [Suspende(0)]).m, 0)
  {
    UnoMas(cfg, s0, es, s, Suspende(0));
    SuspenderEcha(cfg, s.m, 0);
  }
}
