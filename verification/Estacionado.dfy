/** Why the long-term planner sleeps: the process memory refused still does not fit, unless a
    release has been answered and the kernel has yet to read the answer. */
module Estacionado {
  import opened Comunes
  import opened Estados
  import opened Colas
  import opened Nucleo
  import opened InvColas
  import opened Vidas
  import opened LargoPlazo
  import opened KernelCorridas
  import opened Amenazas
  import opened Sistema
  import T = Tenencia
  import P = Pedidos
  import R = Recorridos

  /** The frames that admitting c takes. */
  function Falta(cfg: P.Cfg, s: Todo, c: int): nat
    requires cfg.tp > 0
  {
    if c in s.m.procs then R.EnSwap(s.m.procs[c].hojas) else P.Paginas(Tamanio(s.k, c), cfg.tp)
  }

  predicate NoEntra(cfg: P.Cfg, s: Todo, c: int)
    requires cfg.tp > 0
  {
    Falta(cfg, s, c) > Libres(s.m.fis.marcos)
  }

  /** Nothing tells the planner to look again, and nothing that will is done already. */
  predicate SinAvisos(s: Todo) { s.k.semAdm == 0 && s.hechas == multiset{} && !s.liberado }

  /** Whom memory said no to last, and the planner has not tried again. */
  function Negado(s: Todo): Option<int> {
    if s.admision == Some(false) && s.k.lp.LpEnMemoria? then Some(s.k.lp.candidato)
    else if s.k.lp == LpEspera then s.k.rechazado
    else None
  }

  predicate EnCola(k: Foto, c: int) {
    c in k.procs.pcbs && (k.procs.pcbs[c].estado == New || k.procs.pcbs[c].estado == SuspReady)
  }

  ghost predicate ConRazon(cfg: P.Cfg, s: Todo)
    requires cfg.tp > 0
  {
    SinAvisos(s) && Negado(s).Some? ==> EnCola(s.k, Negado(s).valor) && NoEntra(cfg, s, Negado(s).valor)
  }

  // ---------------------------------------------------------------- the kernel's steps

  lemma {:induction false} LeerAvisa(k: Foto, ev: Evento)
    requires Inv(k) && Posible(k, ev)
    ensures Sano(k)
    ensures (ev.SuspensionResponder? || ev.ExResponder?) && ev.ok ==> Paso(k, ev).semAdm > 0
  {
  }

  lemma {:induction false} SigueEnCola(k: Foto, ev: Evento, c: int)
    requires Inv(k) && Posible(k, ev) && !DeLp(ev) && EnCola(k, c)
    ensures Sano(k) && EnCola(Paso(k, ev), c) && Paso(k, ev).procs.pcbs[c].tam == k.procs.pcbs[c].tam
  {
    InvPaso(k, ev);
    CrecePaso(k, ev);
    EvolucionPaso(k, ev);
    Quedan(k, Paso(k, ev), c);
  }

  lemma {:induction false} RazonDemas(cfg: P.Cfg, s: Todo, ev: Evento)
    requires Unido(cfg, s) && ConRazon(cfg, s) && Sucede(s, Interno(ev)) && !DeLp(ev)
    ensures Sano(s.k) && ConRazon(cfg, Leida(s, ev))
  {
    CrecePaso(s.k, ev);
    LeerAvisa(s.k, ev);
    var h := Leida(s, ev);
    if SinAvisos(h) && Negado(h).Some? {
      assert SinAvisos(s) && Negado(s) == Negado(h);
      SigueEnCola(s.k, ev, Negado(s).valor);
    }
  }

  lemma {:induction false} RazonLp(cfg: P.Cfg, s: Todo, ev: Evento)
    requires Unido(cfg, s) && ConRazon(cfg, s) && Sucede(s, Interno(ev)) && DeLp(ev)
    ensures Sano(s.k) && ConRazon(cfg, Leida(s, ev))
  {
  }

  // ---------------------------------------------------------------- memory's

  lemma {:induction false} RazonAdmite(cfg: P.Cfg, s: Todo)
    requires Unido(cfg, s) && Sucede(s, Admite)
    ensures ConRazon(cfg, Admitida(cfg, s))
  {
  }

  lemma {:induction false} RazonMemoria(cfg: P.Cfg, s: Todo, e: Suceso)
    requires Unido(cfg, s) && ConRazon(cfg, s) && Sucede(s, e) && !e.Interno? && !e.Admite?
    ensures Sano(s.k) && ConRazon(cfg, Avanza(cfg, s, e))
  {
    match e
    case Suspende(p) => RazonSuspende(cfg, s, p);
    case Libera =>
    case Otro(p) => RazonOtro(cfg, s, p);
  }

  lemma {:induction false} RazonOtro(cfg: P.Cfg, s: Todo, p: P.Pedido)
    requires Unido(cfg, s) && ConRazon(cfg, s) && Sucede(s, Otro(p))
    ensures ConRazon(cfg, s.(m := P.Atender(cfg, s.m, p).0))
  {
  }

  lemma {:induction false} RazonSuspende(cfg: P.Cfg, s: Todo, p: int)
    requires cfg.tp > 0 && ConRazon(cfg, s)
    ensures ConRazon(cfg, Suspendida(s, p))
  {
  }

  /** What memory refused keeps not fitting. */
  lemma {:induction false} RazonPaso(cfg: P.Cfg, s: Todo, e: Suceso)
    requires Unido(cfg, s) && ConRazon(cfg, s) && Sucede(s, e)
    ensures Sano(s.k) && ConRazon(cfg, Avanza(cfg, s, e))
  {
    match e
    case Interno(ev) => if DeLp(ev) { RazonLp(cfg, s, ev); } else { RazonDemas(cfg, s, ev); }
    case Admite => RazonAdmite(cfg, s);
    case _ => RazonMemoria(cfg, s, e);
  }
}
