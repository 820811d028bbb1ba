/** Suspensions that the kernel asked memory for and lost track of: when a process can be
    readmitted, and run, with one still on its way. */
module Amenazas {
  import opened Comunes
  import opened Estados
  import opened Colas
  import opened GruposIo
  import opened Nucleo
  import opened InvColas
  import opened Vidas
  import opened LargoPlazo
  import opened KernelCorridas

  /** The states in which the process should be in RAM. */
  predicate Activo(e: Estado) { e == Ready || e == Running || e == Blocked }

  predicate EsActivo(s: Procesos, p: int) { p in s.pcbs && Activo(s.pcbs[p].estado) }

  // Only processes that were blocked are asked for.
  ghost predicate PedidasOk(k: Foto) {
    forall p :: p in k.suspensiones ==> p < k.proximo && (p in k.procs.pcbs ==> k.procs.pcbs[p].estado != New)
  }

  /** A process that should be in RAM, with a suspension memory has not answered. */
  predicate Amenazado(k: Foto, p: int) { p in k.suspensiones && EsActivo(k.procs, p) }

  // ---------------------------------------------------------------- who becomes active

  lemma {:induction false} Quedan(k: Foto, h: Foto, p: int)
    requires Crece(k, h) && Particion(k.procs) && Particion(h.procs) && p in k.procs.pcbs
    ensures k.procs.pcbs[p].estado == SuspReady ==> p in h.procs.pcbs && h.procs.pcbs[p].estado == SuspReady
    ensures k.procs.pcbs[p].estado == New ==> p in h.procs.pcbs && h.procs.pcbs[p].estado == New
  {
  }

  /** Nothing but the planner's yes makes a process active. */
  lemma {:induction false} NadieMasActiva(k: Foto, ev: Evento, p: int)
    requires Inv(k) && Posible(k, ev) && !(ev.LpResponder? && ev.ok)
    ensures Sano(k) && (EsActivo(Paso(k, ev).procs, p) ==> EsActivo(k.procs, p))
  {
    if DeLp(ev) { LpNoActiva(k, ev); } else { DemasNoActivan(k, ev, p); }
  }

  lemma {:induction false} LpNoActiva(k: Foto, ev: Evento)
    requires Inv(k) && Posible(k, ev) && DeLp(ev) && !(ev.LpResponder? && ev.ok)
    ensures Sano(k) && Paso(k, ev).procs.pcbs == k.procs.pcbs
  {
  }

  lemma {:induction false} DemasNoActivan(k: Foto, ev: Evento, p: int)
    requires Inv(k) && Posible(k, ev) && !DeLp(ev)
    ensures Sano(k) && (EsActivo(Paso(k, ev).procs, p) ==> EsActivo(k.procs, p))
    ensures p in k.procs.pcbs && k.procs.pcbs[p].estado == New ==> p in Paso(k, ev).procs.pcbs && Paso(k, ev).procs.pcbs[p].estado == New
    ensures p in k.procs.pcbs && p in Paso(k, ev).procs.pcbs && Paso(k, ev).procs.pcbs[p].estado == New ==> k.procs.pcbs[p].estado == New
  {
    InvPaso(k, ev);
    EvolucionPaso(k, ev);
    CrecePaso(k, ev);
    SinActivar(k, Paso(k, ev), p, k.proximo, Instante(ev, k.reloj));
  }

  lemma {:induction false} SinActivar(k: Foto, h: Foto, p: int, nuevo: int, t: int)
    requires Crece(k, h) && Particion(k.procs) && Particion(h.procs) && Evolucionan(k.procs, h.procs, t) && Nacen(k.procs, h.procs, nuevo, t)
    ensures EsActivo(h.procs, p) ==> EsActivo(k.procs, p)
    ensures p in k.procs.pcbs && k.procs.pcbs[p].estado == New ==> p in h.procs.pcbs && h.procs.pcbs[p].estado == New
    ensures p in k.procs.pcbs && p in h.procs.pcbs && h.procs.pcbs[p].estado == New ==> k.procs.pcbs[p].estado == New
  {
  }

  /** And that yes makes the candidate active, and only it. */
  lemma {:induction false} AdmitirActiva(k: Foto, t: int, p: int)
    requires Inv(k) && Posible(k, LpResponder(true, t))
    ensures Sano(k)
    ensures var h := Paso(k, LpResponder(true, t));
            && (EsActivo(h.procs, p) <==> p == k.lp.candidato || EsActivo(k.procs, p))
            && h.suspensiones == k.suspensiones
            && k.lp.candidato in k.procs.pcbs && k.procs.pcbs[k.lp.candidato].estado == (if k.lp.susp then SuspReady else New)
            && k.lp.candidato in h.procs.pcbs && h.procs.pcbs[k.lp.candidato].estado == Ready
            && h.procs.pcbs.Keys == k.procs.pcbs.Keys
            && (p != k.lp.candidato && p in k.procs.pcbs ==> h.procs.pcbs[p] == k.procs.pcbs[p])
  {
  }

  // ---------------------------------------------------------------- who is asked for

  /** A suspension is asked for only as its process goes to SUSPENDED_BLOCKED. */
  lemma {:induction false} SuspensionesIo(k: Foto, ev: Evento)
    requires Base(k) && Posible(k, ev) && DeIo(ev)
    ensures Sano(k)
    ensures var h := PasoIo(k, ev);
            && h.ex == k.ex && h.proximo == k.proximo
            && match ev
               case TimerVencer(p, _) =>
                 h.suspensiones == k.suspensiones
                 || (h.suspensiones == k.suspensiones + multiset{p} && p in k.procs.pcbs && k.procs.pcbs[p].estado == Blocked
                     && p in h.procs.pcbs && h.procs.pcbs[p].estado == SuspBlocked)
               case SuspensionResponder(p, _) => h.suspensiones == k.suspensiones - multiset{p} && h.procs == k.procs
               case _ => h.suspensiones == k.suspensiones
  {
    match ev
    case IoDesconectar(d, j, t) => DesconectarNoPide(k, d, j, t);
    case TimerVencer(p, t) => VencerPide(k, p, t);
    case _ =>
  }

  lemma {:induction false} DesconectarNoPide(k: Foto, d: seq<char>, j: nat, t: int)
    requires Base(k) && d in k.io && j < |k.io[d].instancias|
    ensures var h := Desconectada(k, d, j, t); h.suspensiones == k.suspensiones && h.ex == k.ex && h.proximo == k.proximo
  {
    var g := SinInstancia(k.io[d], j, Recuperada(k, k.io[d].instancias[j]));
    ColaDelPerdido(k, d, j);
    FinalizarTodosOk(k.(io := k.io - {d}), g.espera, t);
  }

  lemma {:induction false} VencerPide(k: Foto, p: int, t: int)
    ensures var h := Vencer(k, p, t);
            && h.ex == k.ex && h.proximo == k.proximo
            && (h.suspensiones == k.suspensiones
                || (h.suspensiones == k.suspensiones + multiset{p} && p in k.procs.pcbs && k.procs.pcbs[p].estado == Blocked
                    && p in h.procs.pcbs && h.procs.pcbs[p].estado == SuspBlocked))
  {
  }

  lemma {:induction false} SuspensionesCpu(k: Foto, ev: Evento)
    requires Base(k) && Posible(k, ev) && DeCpu(ev)
    ensures Sano(k)
    ensures var h := PasoCpu(k, ev); h.suspensiones == k.suspensiones && h.ex == k.ex && h.proximo == k.proximo
  {
  }

  lemma {:induction false} SuspensionesPlan(k: Foto, ev: Evento)
    requires Base(k) && Posible(k, ev) && !DeCpu(ev) && !DeIo(ev)
    ensures Sano(k)
    ensures var h := PasoPlan(k, ev);
            && h.suspensiones == k.suspensiones
            && h.proximo == k.proximo + (if ev.Crear? then 1 else 0)
            && (!ev.ExDespertar? && !ev.ExSacar? && !ev.ExResponder? ==> h.ex == k.ex)
            && (!DeLp(ev) ==> h.lp == k.lp)
  {
  }

  /** The three together, for any step. */
  lemma {:induction false} SuspensionesPaso(k: Foto, ev: Evento)
    requires Inv(k) && Posible(k, ev)
    ensures Sano(k)
    ensures var h := Paso(k, ev);
            && h.proximo == k.proximo + (if ev.Crear? then 1 else 0)
            && (forall p :: p in h.suspensiones && p !in k.suspensiones ==>
                  ev.TimerVencer? && p == ev.pid && p in h.procs.pcbs && h.procs.pcbs[p].estado == SuspBlocked)
  {
    if DeIo(ev) { SuspensionesIo(k, ev); } else if DeCpu(ev) { SuspensionesCpu(k, ev); } else { SuspensionesPlan(k, ev); }
  }

  predicate DeEx(ev: Evento) { ev.ExDespertar? || ev.ExSacar? || ev.ExResponder? }

  /** Outside the planner, arrivals and the thread that frees processes, the processes stay, and
      so do those two threads. */
  lemma {:induction false} MismosProcesos(k: Foto, ev: Evento)
    requires Inv(k) && Posible(k, ev) && !DeLp(ev) && !DeEx(ev) && !ev.Crear?
    ensures Sano(k)
    ensures var h := Paso(k, ev); h.procs.pcbs.Keys == k.procs.pcbs.Keys && h.lp == k.lp && h.ex == k.ex && h.proximo == k.proximo
  {
    CrecePaso(k, ev);
    if DeIo(ev) { EvolucionIo(k, ev); SuspensionesIo(k, ev); } else if DeCpu(ev) { EvolucionCpu(k, ev); SuspensionesCpu(k, ev); }
  }

  lemma {:induction false} SiguenSinSerNuevos(k: Foto, ev: Evento, p: int)
    requires Inv(k) && Posible(k, ev) && p < k.proximo && (p in k.procs.pcbs ==> k.procs.pcbs[p].estado != New)
    ensures Sano(k) && (p in Paso(k, ev).procs.pcbs ==> Paso(k, ev).procs.pcbs[p].estado != New)
  {
    EvolucionPaso(k, ev);
  }

  lemma {:induction false} PedidasPaso(k: Foto, ev: Evento)
    requires Inv(k) && PedidasOk(k) && Posible(k, ev)
    ensures Sano(k) && PedidasOk(Paso(k, ev))
  {
    SuspensionesPaso(k, ev);
    InvPaso(k, ev);
    var h := Paso(k, ev);
    forall p | p in h.suspensiones ensures p < h.proximo && (p in h.procs.pcbs ==> h.procs.pcbs[p].estado != New) {
      if p in k.suspensiones { SiguenSinSerNuevos(k, ev, p); }
    }
  }

  ghost predicate SinAmenazas(k: Foto) { forall p :: !Amenazado(k, p) }

  /** Exactly when the kernel lets a suspension outlive the resumption: it readmits a suspended
      process before memory has answered for it. */
  lemma {:induction false} AmenazaSii(k: Foto, ok: bool, t: int)
    requires Inv(k) && PedidasOk(k) && SinAmenazas(k) && Posible(k, LpResponder(ok, t))
    ensures Sano(k)
    ensures !SinAmenazas(Paso(k, LpResponder(ok, t))) <==> ok && k.lp.susp && k.lp.candidato in k.suspensiones
  {
    var h := Paso(k, LpResponder(ok, t));
    SuspensionesPlan(k, LpResponder(ok, t));
    if ok {
      forall p ensures Amenazado(h, p) <==> p == k.lp.candidato && p in k.suspensiones {
        AdmitirActiva(k, t, p);
        assert !Amenazado(k, p);
      }
      AdmitirActiva(k, t, k.lp.candidato);
    } else {
      LpNoActiva(k, LpResponder(ok, t));
      forall p ensures !Amenazado(h, p) { assert !Amenazado(k, p); }
    }
  }

  /** No other step does. */
  lemma {:induction false} AmenazaOtros(k: Foto, ev: Evento)
    requires Inv(k) && SinAmenazas(k) && Posible(k, ev) && !ev.LpResponder?
    ensures Sano(k) && SinAmenazas(Paso(k, ev))
  {
    SuspensionesPaso(k, ev);
    forall p ensures !Amenazado(Paso(k, ev), p) {
      NadieMasActiva(k, ev, p);
      assert !Amenazado(k, p);
    }
  }
}
