/** The kernel and the memory process together: what each call of the kernel finds there, and
    what it comes back to. */
module Sistema {
  import opened Comunes
  import opened Estados
  import opened Colas
  import opened Nucleo
  import opened InvColas
  import opened Vidas
  import opened LargoPlazo
  import opened KernelCorridas
  import opened Amenazas
  import opened Tenencia
  import P = Pedidos
  import R = Recorridos
  import C = Corridas

  /** `admision`: what memory answered the planner, once it has. `hechas` and `vanas`: the
      suspensions it has answered, with yes and with an unknown pid, and the kernel has not read.
      `liberado`: it has freed the process that the kernel is waiting on. */
  datatype Todo = Todo(k: Foto, m: Mem, admision: Option<bool>, hechas: multiset<int>, vanas: multiset<int>, liberado: bool)

  /** A critical section of the kernel, a call it made reaching memory, or anything else asked
      of memory: the writes of the CPUs and the dumps. */
  datatype Suceso = Interno(ev: Evento) | Admite | Suspende(pid: int) | Libera | Otro(p: P.Pedido)

  function Inicio(conf: Conf, t: int, m: Mem): Todo {
    Todo(Arranque(conf, t), m, None, multiset{}, multiset{}, false)
  }

  // The kernel reads the answer memory gave.
  ghost predicate Contestado(s: Todo, ev: Evento) {
    match ev
    case LpResponder(ok, _) => s.admision == Some(ok)
    case SuspensionResponder(p, ok) => p in if ok then s.hechas else s.vanas
    case ExResponder(ok) => s.liberado && ok
    case _ => true
  }

  /** A suspension asked for that has not reached memory. */
  predicate EnCamino(s: Todo, p: int) { s.hechas[p] + s.vanas[p] < s.k.suspensiones[p] }

  ghost predicate Sucede(s: Todo, e: Suceso) {
    match e
    case Interno(ev) => Posible(s.k, ev) && Contestado(s, ev)
    case Admite => s.k.lp.LpEnMemoria? && s.admision.None?
    case Suspende(p) => EnCamino(s, p)
    case Libera => s.k.ex.ExLiberando? && !s.liberado
    case Otro(p) => (p.Escritura? || p.Dump?) && P.Legal(s.m, p)
  }

  function Tamanio(k: Foto, p: int): nat { if p in k.procs.pcbs then k.procs.pcbs[p].tam else 0 }

  /** solicitar_admision_a_memoria, at the memory. */
  function Admision(cfg: P.Cfg, s: Todo): (Mem, P.Respuesta)
    requires cfg.tp > 0 && s.k.lp.LpEnMemoria?
  {
    if s.k.lp.susp then P.DesuspenderProceso(s.m, s.k.lp.candidato)
    else P.IniciarProceso(cfg, s.m, s.k.lp.candidato, Tamanio(s.k, s.k.lp.candidato))
  }

  ghost function Leida(s: Todo, ev: Evento): Todo
    requires Sano(s.k) && Posible(s.k, ev)
  {
    Todo(Paso(s.k, ev), s.m,
         if ev.LpResponder? then None else s.admision,
         if ev.SuspensionResponder? && ev.ok then s.hechas - multiset{ev.pid} else s.hechas,
         if ev.SuspensionResponder? && !ev.ok then s.vanas - multiset{ev.pid} else s.vanas,
         s.liberado && !ev.ExResponder?)
  }

  ghost function Avanza(cfg: P.Cfg, s: Todo, e: Suceso): Todo
    requires cfg.tp > 0 && Sano(s.k) && Sucede(s, e)
  {
    match e
    case Interno(ev) => Leida(s, ev)
    case Admite => Admitida(cfg, s)
    case Suspende(p) => Suspendida(s, p)
    case Libera => s.(m := P.DestruirProceso(s.m, s.k.ex.pid).0, liberado := true)
    case Otro(p) => s.(m := P.Atender(cfg, s.m, p).0)
  }

  function Admitida(cfg: P.Cfg, s: Todo): Todo
    requires cfg.tp > 0 && s.k.lp.LpEnMemoria?
  {
    var (n, r) := Admision(cfg, s);
    s.(m := n, admision := Some(r == P.InitProcesoOk || r == P.DesuspensionOk))
  }

  function Suspendida(s: Todo, p: int): Todo {
    var (n, r) := P.SuspenderProceso(s.m, p);
    s.(m := n, hechas := s.hechas + (if r == P.SuspensionOk then multiset{p} else multiset{}),
       vanas := s.vanas + (if r == P.SuspensionOk then multiset{} else multiset{p}))
  }

  // ---------------------------------------------------------------- the invariant

  /** Memory has said yes to the planner about p, and the planner does not know yet. */
  predicate Concedida(s: Todo, p: int) {
    s.k.lp.LpEnMemoria? && s.k.lp.candidato == p && s.admision == Some(true)
  }

  predicate PorLiberar(s: Todo, p: int) { s.k.ex == ExLiberando(p) && !s.liberado }

  /** Who memory should know: the admitted, until they are freed. */
  predicate Debe(s: Todo, p: int) {
    (p in s.k.procs.pcbs && (s.k.procs.pcbs[p].estado != New || Concedida(s, p))) || PorLiberar(s, p)
  }

  ghost predicate MismosVivos(s: Todo) { forall p :: p in s.m.procs <==> Debe(s, p) }

  ghost predicate LlamadasOk(s: Todo) {
    && (forall p :: s.hechas[p] + s.vanas[p] <= s.k.suspensiones[p])
    && PedidasOk(s.k)
    && (s.k.ex.ExLiberando? ==> s.k.ex.pid !in s.k.procs.pcbs && s.k.ex.pid < s.k.proximo)
    && (s.admision.Some? ==> s.k.lp.LpEnMemoria?)
    && (s.liberado ==> s.k.ex.ExLiberando?)
  }

  ghost predicate Unido(cfg: P.Cfg, s: Todo) {
    Inv(s.k) && P.Valida(cfg, s.m) && MismosVivos(s) && LlamadasOk(s)
  }

  // ---------------------------------------------------------------- who memory knows

  lemma {:induction false} DebeDemas(s: Todo, ev: Evento, p: int)
    requires Inv(s.k) && LlamadasOk(s) && Sucede(s, Interno(ev)) && !DeLp(ev) && !DeEx(ev) && !ev.Crear?
    ensures Sano(s.k) && (Debe(Leida(s, ev), p) <==> Debe(s, p))
  {
    MismosProcesos(s.k, ev);
    DemasNoActivan(s.k, ev, p);
  }

  lemma {:induction false} DebeLp(s: Todo, ev: Evento, p: int)
    requires Inv(s.k) && LlamadasOk(s) && Sucede(s, Interno(ev)) && DeLp(ev)
    ensures Sano(s.k) && (Debe(Leida(s, ev), p) <==> Debe(s, p))
  {
    SuspensionesPlan(s.k, ev);
    if ev.LpResponder? && ev.ok { AdmitirActiva(s.k, ev.t, p); } else { LpNoActiva(s.k, ev); }
  }

  lemma {:induction false} DebeCrear(s: Todo, tam: nat, t: int, p: int)
    requires Inv(s.k) && LlamadasOk(s) && Sucede(s, Interno(Crear(tam, t)))
    ensures Sano(s.k) && (Debe(Leida(s, Crear(tam, t)), p) <==> Debe(s, p))
  {
  }

  lemma {:induction false} CandidatoVivo(k: Foto)
    requires Base(k) && k.lp.LpEnMemoria?
    ensures k.lp.candidato in k.procs.pcbs && k.procs.pcbs[k.lp.candidato].estado == if k.lp.susp then SuspReady else New
  {
  }

  lemma {:induction false} DebeEx(s: Todo, ev: Evento, p: int)
    requires Inv(s.k) && LlamadasOk(s) && Sucede(s, Interno(ev)) && DeEx(ev)
    ensures Sano(s.k) && (Debe(Leida(s, ev), p) <==> Debe(s, p))
  {
  }

  lemma {:induction false} MismosVivosInterno(s: Todo, ev: Evento)
    requires Inv(s.k) && LlamadasOk(s) && MismosVivos(s) && Sucede(s, Interno(ev))
    ensures Sano(s.k) && MismosVivos(Leida(s, ev))
  {
    forall p ensures Sano(s.k) && (Debe(Leida(s, ev), p) <==> Debe(s, p)) {
      if DeLp(ev) { DebeLp(s, ev, p); }
      else if DeEx(ev) { DebeEx(s, ev, p); }
      else if ev.Crear? { DebeCrear(s, ev.tam, ev.t, p); }
      else { DebeDemas(s, ev, p); }
    }
  }

  // ---------------------------------------------------------------- the calls

  lemma {:induction false} CuentasInterno(s: Todo, ev: Evento, p: int)
    requires Inv(s.k) && LlamadasOk(s) && Sucede(s, Interno(ev))
    ensures Sano(s.k)
    ensures var h := Leida(s, ev);
            && h.hechas[p] + h.vanas[p] <= h.k.suspensiones[p]
            && (EnCamino(h, p) ==> EnCamino(s, p) || (EsDe(h.k, p, SuspBlocked) && EsDe(s.k, p, Blocked)))
  {
    if DeIo(ev) { SuspensionesIo(s.k, ev); } else if DeCpu(ev) { SuspensionesCpu(s.k, ev); } else { SuspensionesPlan(s.k, ev); }
  }

  lemma {:induction false} ExInterno(s: Todo, ev: Evento)
    requires Inv(s.k) && LlamadasOk(s) && Sucede(s, Interno(ev))
    ensures Sano(s.k)
    ensures var h := Leida(s, ev);
            && (h.k.ex.ExLiberando? ==> h.k.ex.pid !in h.k.procs.pcbs && h.k.ex.pid < h.k.proximo)
            && (h.liberado ==> h.k.ex.ExLiberando?)
  {
    if ev.ExSacar? { SacarAlPrimero(s.k, ev.t); }
    else if !DeLp(ev) && !DeEx(ev) && !ev.Crear? { MismosProcesos(s.k, ev); }
    else if DeLp(ev) { SuspensionesPlan(s.k, ev); if ev.LpResponder? && ev.ok { AdmitirActiva(s.k, ev.t, 0); } else { LpNoActiva(s.k, ev); } }
  }

  lemma {:induction false} LpInterno(s: Todo, ev: Evento)
    requires Inv(s.k) && LlamadasOk(s) && Sucede(s, Interno(ev))
    ensures Sano(s.k) && (Leida(s, ev).admision.Some? ==> Leida(s, ev).k.lp.LpEnMemoria?)
  {
    if !DeLp(ev) { CrecePaso(s.k, ev); }
  }

  lemma {:induction false} LlamadasInterno(s: Todo, ev: Evento)
    requires Inv(s.k) && LlamadasOk(s) && Sucede(s, Interno(ev))
    ensures Sano(s.k) && LlamadasOk(Leida(s, ev))
  {
    PedidasPaso(s.k, ev);
    ExInterno(s, ev);
    LpInterno(s, ev);
    forall p ensures Leida(s, ev).hechas[p] + Leida(s, ev).vanas[p] <= Leida(s, ev).k.suspensiones[p] {
      CuentasInterno(s, ev, p);
    }
  }

  lemma {:induction false} LlamadasMemoria(cfg: P.Cfg, s: Todo, e: Suceso)
    requires cfg.tp > 0 && Inv(s.k) && LlamadasOk(s) && Sucede(s, e) && !e.Interno?
    ensures LlamadasOk(Avanza(cfg, s, e)) && Avanza(cfg, s, e).k == s.k
  {
  }

  // ---------------------------------------------------------------- the requests

  /** What a step asks of memory. */
  function Llamada(s: Todo, e: Suceso): Option<P.Pedido>
    requires e.Admite? ==> s.k.lp.LpEnMemoria?
    requires e.Libera? ==> s.k.ex.ExLiberando?
  {
    match e
    case Interno(_) => None
    case Admite =>
      Some(if s.k.lp.susp then P.Desuspension(s.k.lp.candidato) else P.Iniciar(s.k.lp.candidato, Tamanio(s.k, s.k.lp.candidato)))
    case Suspende(p) => Some(P.Suspension(p))
    case Libera => Some(P.Finalizar(s.k.ex.pid))
    case Otro(p) => Some(p)
  }

  /** The kernel keeps what memory asks of its callers: it creates no process twice. */
  lemma {:induction false} PideLegal(cfg: P.Cfg, s: Todo, e: Suceso)
    requires Unido(cfg, s) && Sucede(s, e)
    ensures Sano(s.k)
    ensures match Llamada(s, e)
            case None => Avanza(cfg, s, e).m == s.m
            case Some(p) => P.Legal(s.m, p) && Avanza(cfg, s, e).m == P.Atender(cfg, s.m, p).0
  {
  }

  lemma {:induction false} MismosVivosAdmite(cfg: P.Cfg, s: Todo)
    requires Unido(cfg, s) && Sucede(s, Admite)
    ensures Sano(s.k) && MismosVivos(Admitida(cfg, s))
  {
  }

  lemma {:induction false} MismosVivosMemoria(cfg: P.Cfg, s: Todo, e: Suceso)
    requires Unido(cfg, s) && Sucede(s, e) && !e.Interno? && !e.Admite?
    ensures Sano(s.k) && MismosVivos(Avanza(cfg, s, e))
  {
  }

  /** What the two keep together. */
  lemma {:induction false} UnidoPaso(cfg: P.Cfg, s: Todo, e: Suceso)
    requires Unido(cfg, s) && Sucede(s, e)
    ensures Sano(s.k) && Unido(cfg, Avanza(cfg, s, e))
  {
    PideLegal(cfg, s, e);
    match e
    case Interno(ev) =>
      InvPaso(s.k, ev);
      LlamadasInterno(s, ev);
      MismosVivosInterno(s, ev);
    case _ =>
      C.AtenderConserva(cfg, s.m, Llamada(s, e).valor);
      LlamadasMemoria(cfg, s, e);
      if e.Admite? { MismosVivosAdmite(cfg, s); } else { MismosVivosMemoria(cfg, s, e); }
  }

  // ---------------------------------------------------------------- sizes

  /** Memory holds each process at the size the kernel has for it. */
  ghost predicate MismosTamanios(s: Todo) {
    forall p :: p in s.m.procs && p in s.k.procs.pcbs ==> s.m.procs[p].tam == s.k.procs.pcbs[p].tam
  }

  lemma {:induction false} TamaniosAtender(cfg: P.Cfg, m: Mem, ped: P.Pedido, p: int)
    requires P.Valida(cfg, m) && P.Legal(m, ped) && p in P.Atender(cfg, m, ped).0.procs
    ensures P.Atender(cfg, m, ped).0.procs[p].tam
         == if p in m.procs then m.procs[p].tam else if ped.Iniciar? then ped.tam else 0
    ensures p !in m.procs ==> ped.Iniciar? && ped.pid == p
  {
  }

  lemma {:induction false} TamaniosPaso(cfg: P.Cfg, s: Todo, e: Suceso)
    requires Unido(cfg, s) && MismosTamanios(s) && Sucede(s, e)
    ensures Sano(s.k) && MismosTamanios(Avanza(cfg, s, e))
  {
    PideLegal(cfg, s, e);
    match e
    case Interno(ev) => TamaniosInterno(s, ev);
    case _ =>
      var h := Avanza(cfg, s, e);
      forall p | p in h.m.procs && p in h.k.procs.pcbs ensures h.m.procs[p].tam == h.k.procs.pcbs[p].tam {
        TamaniosAtender(cfg, s.m, Llamada(s, e).valor, p);
      }
  }

  lemma {:induction false} TamaniosInterno(s: Todo, ev: Evento)
    requires Inv(s.k) && LlamadasOk(s) && MismosVivos(s) && MismosTamanios(s) && Sucede(s, Interno(ev))
    ensures Sano(s.k) && MismosTamanios(Leida(s, ev))
  {
    EvolucionPaso(s.k, ev);
    if ev.Crear? && s.k.lp.LpEnMemoria? { CandidatoVivo(s.k); }
    forall p | p in Leida(s, ev).m.procs && p in Leida(s, ev).k.procs.pcbs
      ensures Leida(s, ev).m.procs[p].tam == Leida(s, ev).k.procs.pcbs[p].tam
    {
      assert Debe(s, p);
      FueraPaso(s.k, ev, p);
    }
  }
}
