/** Whether what runs is in RAM: the kernel's order of calls keeps it so, but for a suspension
    that reaches memory after the resumption it should have preceded. */
module Residencia {
  import opened Comunes
  import opened Estados
  import opened Colas
  import opened Nucleo
  import opened InvColas
  import opened LargoPlazo
  import opened KernelCorridas
  import opened Amenazas
  import opened Sistema
  import opened Tenencia
  import P = Pedidos
  import C = Corridas

  /** In RAM by right: active, or just granted. */
  predicate Admitido(s: Todo, p: int) { EsActivo(s.k.procs, p) || Concedida(s, p) }

  ghost predicate TodosResidentes(s: Todo) { forall p :: Admitido(s, p) ==> P.Residente(s.m, p) }

  predicate ConPaginas(cfg: P.Cfg, m: Mem, p: int)
    requires cfg.tp > 0
  {
    p in m.procs && P.Paginas(m.procs[p].tam, cfg.tp) > 0 && cfg.cap > 0
  }

  // ---------------------------------------------------------------- memory

  lemma {:induction false} SuspenderEcha(cfg: P.Cfg, m: Mem, p: int)
    requires P.Valida(cfg, m) && P.Residente(m, p)
    ensures P.Residente(P.SuspenderProceso(m, p).0, p) <==> !ConPaginas(cfg, m, p)
  {
    var n := P.SuspenderProceso(m, p).0;
    P.SuspenderValida(cfg, m, p);
    assert P.ProcOk(cfg, m.procs[p]) && P.ProcOk(cfg, n.procs[p]);
    if ConPaginas(cfg, m, p) {
      assert Vive(m, Clave(p, 0)) && H(n, Clave(p, 0)) == n.procs[p].hojas[0];
      P.HojasEnRegla(cfg, n, p, 0);
    }
  }

  lemma {:induction false} DesuspenderTrae(cfg: P.Cfg, m: Mem, p: int)
    requires P.Valida(cfg, m) && p in m.procs
    ensures var r := P.DesuspenderProceso(m, p);
            if r.1 == P.DesuspensionOk then P.Residente(r.0, p) else r.0 == m
  {
    var r := P.DesuspenderProceso(m, p);
    P.DesuspenderValida(cfg, m, p);
    if r.1 == P.DesuspensionOk {
      assert P.ProcOk(cfg, m.procs[p]) && P.ProcOk(cfg, r.0.procs[p]);
      forall i | 0 <= i < cfg.cap ensures r.0.procs[p].hojas[i].slot == -1 {
        P.HojasEnRegla(cfg, r.0, p, i);
        assert Vive(m, Clave(p, i)) && H(m, Clave(p, i)) == m.procs[p].hojas[i] && H(r.0, Clave(p, i)) == r.0.procs[p].hojas[i];
      }
    }
  }

  /** Of all requests only its suspension takes a resident process out of RAM, if it has pages. */
  lemma {:induction false} ResidenteSigue(cfg: P.Cfg, m: Mem, ped: P.Pedido, p: int)
    requires P.Valida(cfg, m) && P.Legal(m, ped) && P.Residente(m, p) && ped != P.Finalizar(p)
    ensures P.Residente(P.Atender(cfg, m, ped).0, p) <==> !(ped == P.Suspension(p) && ConPaginas(cfg, m, p))
  {
    match ped
    case Suspension(q) => if q == p { SuspenderEcha(cfg, m, p); }
    case Desuspension(q) => if q == p { DesuspenderTrae(cfg, m, p); }
    case _ =>
  }

  // ---------------------------------------------------------------- who loses its place

  lemma {:induction false} AdmitidoVivo(cfg: P.Cfg, s: Todo, p: int)
    requires Unido(cfg, s) && Admitido(s, p)
    ensures p in s.m.procs && p in s.k.procs.pcbs && s.k.ex != ExLiberando(p)
  {
  }

  lemma {:induction false} AdmitidoInterno(cfg: P.Cfg, s: Todo, ev: Evento, p: int)
    requires Unido(cfg, s) && Sucede(s, Interno(ev))
    ensures Sano(s.k) && (Admitido(Leida(s, ev), p) ==> Admitido(s, p))
  {
    if ev.LpResponder? && ev.ok { AdmitirActiva(s.k, ev.t, p); } else { NadieMasActiva(s.k, ev, p); }
    LpInternoIgual(s, ev);
  }

  lemma {:induction false} LpInternoIgual(s: Todo, ev: Evento)
    requires Inv(s.k) && LlamadasOk(s) && Sucede(s, Interno(ev))
    ensures Sano(s.k) && (Leida(s, ev).admision == Some(true) ==> Leida(s, ev).k.lp == s.k.lp && s.admision == Some(true))
  {
    if !DeLp(ev) { CrecePaso(s.k, ev); }
  }

  /** Exactly when a process in RAM by right loses its place: its suspension reaches memory
      after the yes that readmitted it. */
  lemma {:induction false} ResidenciaSii(cfg: P.Cfg, s: Todo, e: Suceso)
    requires Unido(cfg, s) && TodosResidentes(s) && Sucede(s, e)
    ensures Sano(s.k)
    ensures TodosResidentes(Avanza(cfg, s, e)) <==> !(e.Suspende? && Admitido(s, e.pid) && ConPaginas(cfg, s.m, e.pid))
  {
    var h := Avanza(cfg, s, e);
    forall p | Admitido(h, p) ensures P.Residente(h.m, p) <==> !(e == Suspende(p) && ConPaginas(cfg, s.m, p)) {
      ResidenciaDe(cfg, s, e, p);
    }
    if e.Suspende? && Admitido(s, e.pid) { assert Admitido(h, e.pid); }
  }

  lemma {:induction false} ResidenciaDe(cfg: P.Cfg, s: Todo, e: Suceso, p: int)
    requires Unido(cfg, s) && TodosResidentes(s) && Sucede(s, e) && Sano(s.k) && Admitido(Avanza(cfg, s, e), p)
    ensures P.Residente(Avanza(cfg, s, e).m, p) <==> !(e == Suspende(p) && ConPaginas(cfg, s.m, p))
  {
    match e
    case Interno(ev) => AdmitidoInterno(cfg, s, ev, p);
    case Admite => ResidenciaAdmite(cfg, s, p);
    case _ =>
      AdmitidoVivo(cfg, s, p);
      PideLegal(cfg, s, e);
      ResidenteSigue(cfg, s.m, Llamada(s, e).valor, p);
  }

  lemma {:induction false} ResidenciaAdmite(cfg: P.Cfg, s: Todo, p: int)
    requires Unido(cfg, s) && TodosResidentes(s) && Sucede(s, Admite) && Admitido(Admitida(cfg, s), p)
    ensures P.Residente(Admitida(cfg, s).m, p)
  {
    PideLegal(cfg, s, Admite);
    if Admitido(s, p) {
      ResidenteSigue(cfg, s.m, Llamada(s, Admite).valor, p);
    } else {
      CandidatoVivo(s.k);
      if s.k.lp.susp { DesuspenderTrae(cfg, s.m, p); } else { P.IniciarValida(cfg, s.m, p, Tamanio(s.k, p)); }
    }
  }

  // ---------------------------------------------------------------- who is about to

  predicate EnRiesgo(s: Todo, p: int) { Admitido(s, p) && EnCamino(s, p) }

  ghost predicate SinRiesgo(s: Todo) { forall p :: !EnRiesgo(s, p) }

  /** A yes of memory to a candidate whose suspension has not reached it. */
  predicate Adelanta(cfg: P.Cfg, s: Todo)
    requires cfg.tp > 0 && s.k.lp.LpEnMemoria?
  {
    Admitida(cfg, s).admision == Some(true) && EnCamino(s, s.k.lp.candidato)
  }

  /** Exactly when the danger arises: memory readmits a process before its suspension arrives. */
  lemma {:induction false} RiesgoSii(cfg: P.Cfg, s: Todo, e: Suceso)
    requires Unido(cfg, s) && SinRiesgo(s) && Sucede(s, e)
    ensures Sano(s.k)
    ensures SinRiesgo(Avanza(cfg, s, e)) <==> !(e.Admite? && Adelanta(cfg, s))
  {
    var h := Avanza(cfg, s, e);
    forall p ensures EnRiesgo(h, p) <==> e.Admite? && Adelanta(cfg, s) && p == s.k.lp.candidato {
      assert !EnRiesgo(s, p);
      if e.Interno? { RiesgoInterno(cfg, s, e.ev, p); }
    }
    if e.Admite? && Adelanta(cfg, s) { assert EnRiesgo(h, s.k.lp.candidato); }
  }

  lemma {:induction false} RiesgoInterno(cfg: P.Cfg, s: Todo, ev: Evento, p: int)
    requires Unido(cfg, s) && Sucede(s, Interno(ev)) && !EnRiesgo(s, p)
    ensures Sano(s.k) && !EnRiesgo(Leida(s, ev), p)
  {
    AdmitidoInterno(cfg, s, ev, p);
    CuentasInterno(s, ev, p);
    InvPaso(s.k, ev);
    if Leida(s, ev).k.lp.LpEnMemoria? { CandidatoVivo(Leida(s, ev).k); }
  }

  /** Only a process that comes back from suspension can be in that danger. */
  lemma {:induction false} SoloReadmitidos(cfg: P.Cfg, s: Todo)
    requires Unido(cfg, s) && s.k.lp.LpEnMemoria? && EnCamino(s, s.k.lp.candidato)
    ensures s.k.lp.susp
  {
  }
}
