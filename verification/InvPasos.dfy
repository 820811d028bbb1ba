/** Every step keeps the queues, the CPU bindings and the semaphore counts. */
module InvPasos {
  import opened Comunes
  import opened Ronda
  import opened Estados
  import opened Colas
  import opened GruposIo
  import opened Nucleo
  import opened InvColas

  // ---------------------------------------------------------------- queues

  ghost predicate Corriendo(s: Procesos, p: int) { p in s.pcbs && s.pcbs[p].estado == Running }

  ghost predicate MismosCorriendo(s: Procesos, r: Procesos) {
    forall p :: Corriendo(r, p) <==> Corriendo(s, p)
  }

  ghost predicate MismosBloqueados(s: Procesos, r: Procesos) {
    forall p :: Bloqueado(r, p) <==> Bloqueado(s, p)
  }

  lemma {:induction false} BajaMismos(s: Procesos)
    requires Particion(s) && Cola(s, Exit) != []
    ensures MismosCorriendo(s, Baja(s)) && MismosBloqueados(s, Baja(s))
    ensures |Cola(Baja(s), Exit)| == |Cola(s, Exit)| - 1 && Cola(Baja(s), Ready) == Cola(s, Ready)
  {
  }

  lemma {:induction false} DesbloquearColas(k: Foto, p: int, t: int)
    requires Particion(k.procs)
    ensures var h := Desbloquear(k, p, t);
            && Particion(h.procs) && h.procs.pcbs.Keys == k.procs.pcbs.Keys
            && (h.procs == k.procs || (Bloqueado(k.procs, p) && h.procs == Mover(k.procs, p, if k.procs.pcbs[p].estado == Blocked then Ready else SuspReady, t)))
            && h == k.(procs := h.procs, semReady := h.semReady, semAdm := h.semAdm)
            && h.semReady - k.semReady == |Cola(h.procs, Ready)| - |Cola(k.procs, Ready)|
            && h.semAdm - k.semAdm == |Cola(h.procs, SuspReady)| - |Cola(k.procs, SuspReady)|
            && h.semAdm >= k.semAdm && Cola(h.procs, New) == Cola(k.procs, New)
            && (Cola(h.procs, SuspReady) == Cola(k.procs, SuspReady) || Cola(h.procs, SuspReady) == Cola(k.procs, SuspReady) + [p])
            && Cola(h.procs, Exit) == Cola(k.procs, Exit)
            && MismosCorriendo(k.procs, h.procs)
  {
    if Bloqueado(k.procs, p) {
      MoverConserva(k.procs, p, if k.procs.pcbs[p].estado == Blocked then Ready else SuspReady, t);
    }
  }

  lemma {:induction false} DesconectarColas(k: Foto, d: seq<char>, j: nat, t: int)
    requires Base(k) && d in k.io && j < |k.io[d].instancias|
    ensures var h := Desconectada(k, d, j, t);
            && Particion(h.procs) && h.procs.pcbs.Keys == k.procs.pcbs.Keys
            && (forall p :: p in k.procs.pcbs ==>
                  h.procs.pcbs[p] == k.procs.pcbs[p]
                  || (Bloqueado(k.procs, p) && h.procs.pcbs[p] == CambiarEstado(k.procs.pcbs[p], Exit, t)))
            && (forall e :: e != Blocked && e != SuspBlocked && e != Exit ==> Cola(h.procs, e) == Cola(k.procs, e))
            && |Cola(h.procs, Exit)| - |Cola(k.procs, Exit)| == h.semExit - k.semExit
            && h == k.(procs := h.procs, semExit := h.semExit, io := h.io)
            && MismosCorriendo(k.procs, h.procs)
  {
    ColaDelPerdido(k, d, j);
    var g := SinInstancia(k.io[d], j, Recuperada(k, k.io[d].instancias[j]));
    if g.instancias == [] {
      FinalizarTodosOk(k.(io := k.io - {d}), g.espera, t);
    }
  }

  lemma {:induction false} AdmitirColas(k: Foto, t: int)
    requires Particion(k.procs) && CandidatoOk(k) && k.lp.LpEnMemoria?
    ensures var de := if k.lp.susp then SuspReady else New;
            var c := k.lp.candidato;
            && c in k.procs.pcbs && k.procs.pcbs[c].estado == de
            && Admitir(k.procs, de, c, t) == Mover(k.procs, c, Ready, t)
            && Particion(Admitir(k.procs, de, c, t)) && MismosCorriendo(k.procs, Admitir(k.procs, de, c, t))
            && Cola(Admitir(k.procs, de, c, t), Exit) == Cola(k.procs, Exit)
            && MismosBloqueados(k.procs, Admitir(k.procs, de, c, t))
  {
    var de := if k.lp.susp then SuspReady else New;
    AdmitirEsMover(k.procs, de, k.lp.candidato, t);
    MoverConserva(k.procs, k.lp.candidato, Ready, t);
  }

  lemma {:induction false} ColasIo(k: Foto, ev: Evento)
    requires Base(k) && Posible(k, ev) && DeIo(ev)
    ensures Sano(k) && ColasOk(PasoIo(k, ev))
  {
    match ev
    case TimerVencer(p, t) =>
      if p in k.procs.pcbs && k.procs.pcbs[p].estado == Blocked { MoverConserva(k.procs, p, SuspBlocked, t); }
    case IoTerminar(d, j, t) => DesbloquearColas(k, k.io[d].instancias[j].pid, t);
    case IoDesconectar(d, j, t) => DesconectarColas(k, d, j, t);
    case DumpTerminar(p, t) => DesbloquearColas(k, p, t);
    case _ =>
  }

  lemma {:induction false} ColasPlan(k: Foto, ev: Evento)
    requires Base(k) && Posible(k, ev) && !DeIo(ev) && !DeCpu(ev)
    ensures Sano(k) && ColasOk(PasoPlan(k, ev))
  {
    match ev
    case Crear(tam, t) => AltaConserva(k.procs, k.proximo, PcbNuevo(tam, k.conf.estimacionInicial, t));
    case LpElegir(orden) =>
      if k.conf.largo == Pmcp { ReordenarConserva(k.procs, Fuente(k.procs), orden); }
    case LpResponder(ok, t) => AdmitirColas(k, t);
    case ExSacar(_) => if Cola(k.procs, Exit) != [] { BajaConserva(k.procs); }
    case _ =>
  }

  lemma {:induction false} ColasCpu(k: Foto, ev: Evento)
    requires Base(k) && Posible(k, ev) && DeCpu(ev)
    ensures Sano(k) && ColasOk(PasoCpu(k, ev))
  {
    match ev
    case CpDespachar(orden, t) =>
      if !k.conf.corto.CpDesconocido? {
        var s, p, i := DespachoForma(k, orden, t);
        MoverConserva(s, p, Running, t);
      }
    case CpuResponder(i, r, t) =>
      var s, e := ResponderForma(k, i, r, t);
      MoverConserva(s, k.cpus[i].pcb.valor, e, t);
    case CpuConectar(_) =>
  }

  /** Queue partition. */
  lemma {:induction false} ColasPaso(k: Foto, ev: Evento)
    requires Base(k) && Posible(k, ev)
    ensures Sano(k) && ColasOk(Paso(k, ev))
  {
    if DeIo(ev) {
      ColasIo(k, ev);
    } else if !DeCpu(ev) {
      ColasPlan(k, ev);
    } else {
      ColasCpu(k, ev);
    }
  }

  // ---------------------------------------------------------------- CPUs

  lemma {:induction false} CpusIguales(k: Foto, h: Foto)
    requires CpusOk(k) && h.cpus == k.cpus && h.ultimoCpu == k.ultimoCpu && MismosCorriendo(k.procs, h.procs)
    ensures CpusOk(h)
  {
    forall i | 0 <= i < |h.cpus| && h.cpus[i].pcb.Some?
      ensures h.cpus[i].pcb.valor in h.procs.pcbs && h.procs.pcbs[h.cpus[i].pcb.valor].estado == Running
    {
      assert Corriendo(k.procs, h.cpus[i].pcb.valor);
      assert Corriendo(h.procs, h.cpus[i].pcb.valor);
    }
    forall p | p in h.procs.pcbs && h.procs.pcbs[p].estado == Running ensures Atado(h.cpus, p) {
      assert Corriendo(h.procs, p);
      assert Corriendo(k.procs, p);
    }
  }

  lemma {:induction false} DistintosAlDespachar(k: Foto, p: int, i: nat, a: nat, b: nat)
    requires CpusOk(k) && i < |k.cpus| && k.cpus[i].libre && p in k.procs.pcbs && k.procs.pcbs[p].estado != Running
    requires a < b < |k.cpus|
    ensures var c := k.cpus[i := k.cpus[i].(libre := false, pcb := Some(p))];
            c[a].pcb.Some? ==> c[a].pcb != c[b].pcb
  {
  }

  lemma {:induction false} AtadosCorren(k: Foto, p: int, i: nat, c: nat)
    requires CpusOk(k) && i < |k.cpus| && k.cpus[i].libre && c < |k.cpus|
    ensures var d := k.cpus[i := k.cpus[i].(libre := false, pcb := Some(p))];
            d[c].pcb.Some? ==> d[c].pcb == Some(p) || Corriendo(k.procs, d[c].pcb.valor)
  {
  }

  lemma {:induction false} AtadosAlDespachar(k: Foto, p: int, i: nat, q: int)
    requires CpusOk(k) && i < |k.cpus| && k.cpus[i].libre && (q == p || Corriendo(k.procs, q))
    ensures Atado(k.cpus[i := k.cpus[i].(libre := false, pcb := Some(p))], q)
  {
    var c := k.cpus[i := k.cpus[i].(libre := false, pcb := Some(p))];
    if q == p {
      assert c[i].pcb == Some(p);
    } else {
      var j :| 0 <= j < |k.cpus| && k.cpus[j].pcb == Some(q);
      assert c[j].pcb == Some(q);
    }
  }

  lemma {:induction false} CpusDespacho(k: Foto, h: Foto, s: Procesos, p: int, i: nat, t: int)
    requires Base(k) && Despachada(k, h, s, p, i, t)
    ensures CpusOk(h)
  {
    forall a, b | 0 <= a < b < |h.cpus| && h.cpus[a].pcb.Some? ensures h.cpus[a].pcb != h.cpus[b].pcb {
      DistintosAlDespachar(k, p, i, a, b);
    }
    forall c | 0 <= c < |h.cpus| && h.cpus[c].pcb.Some?
      ensures h.cpus[c].pcb.valor in h.procs.pcbs && h.procs.pcbs[h.cpus[c].pcb.valor].estado == Running
    {
      AtadosCorren(k, p, i, c);
    }
    forall q | q in h.procs.pcbs && h.procs.pcbs[q].estado == Running ensures Atado(h.cpus, q) {
      assert q != p ==> Corriendo(k.procs, q);
      AtadosAlDespachar(k, p, i, q);
    }
  }

  lemma {:induction false} OtroProceso(k: Foto, i: nat, c: nat)
    requires CpusOk(k) && i < |k.cpus| && c < |k.cpus| && c != i && k.cpus[i].pcb.Some? && k.cpus[c].pcb.Some?
    ensures k.cpus[c].pcb != k.cpus[i].pcb
  {
  }

  lemma {:induction false} CpusRespuesta(k: Foto, h: Foto, i: nat, s: Procesos, e: Estado, t: int)
    requires Base(k) && Respondida(k, h, i, s, e, t)
    ensures CpusOk(h)
  {
    forall c | 0 <= c < |h.cpus| && h.cpus[c].pcb.Some?
      ensures h.cpus[c].pcb.valor in h.procs.pcbs && h.procs.pcbs[h.cpus[c].pcb.valor].estado == Running
    {
      OtroProceso(k, i, c);
      assert h.cpus[c] == k.cpus[c];
      assert k.cpus[c].pcb.valor != k.cpus[i].pcb.valor;
    }
    forall q | q in h.procs.pcbs && h.procs.pcbs[q].estado == Running ensures Atado(h.cpus, q) {
      assert Atado(k.cpus, q);
      var c :| 0 <= c < |k.cpus| && k.cpus[c].pcb == Some(q);
      assert h.cpus[c].pcb == Some(q);
    }
  }

  lemma {:induction false} CpusConectar(k: Foto, h: Foto, nombre: seq<char>)
    requires CpusOk(k) && h.cpus == k.cpus + [Procesador(nombre, true, None)] && h.ultimoCpu == k.ultimoCpu && h.procs == k.procs
    ensures CpusOk(h)
  {
    forall q | q in h.procs.pcbs && h.procs.pcbs[q].estado == Running ensures Atado(h.cpus, q) {
      assert Atado(k.cpus, q);
      var c :| 0 <= c < |k.cpus| && k.cpus[c].pcb == Some(q);
      assert h.cpus[c].pcb == Some(q);
    }
  }

  lemma {:induction false} CpusPasoDespachar(k: Foto, orden: seq<int>, t: int)
    requires Base(k) && Posible(k, CpDespachar(orden, t))
    ensures Sano(k) && CpusOk(Paso(k, CpDespachar(orden, t)))
  {
    if !k.conf.corto.CpDesconocido? {
      var s, p, i := DespachoForma(k, orden, t);
      CpusDespacho(k, Despacho(k, orden, t), s, p, i, t);
      CpusIguales(Despacho(k, orden, t), Paso(k, CpDespachar(orden, t)));
    } else {
      CpusIguales(k, Paso(k, CpDespachar(orden, t)));
    }
  }

  lemma {:induction false} CpusPasoResponder(k: Foto, i: nat, r: Respuesta, t: int)
    requires Base(k) && Posible(k, CpuResponder(i, r, t))
    ensures Sano(k) && CpusOk(Paso(k, CpuResponder(i, r, t)))
  {
    var s, e := ResponderForma(k, i, r, t);
    CpusRespuesta(k, Responder(k, i, r, t), i, s, e, t);
    CpusIguales(Responder(k, i, r, t), Paso(k, CpuResponder(i, r, t)));
  }

  lemma {:induction false} SinCpuIo(k: Foto, ev: Evento)
    requires Base(k) && Posible(k, ev) && DeIo(ev)
    ensures Sano(k) && MismosCorriendo(k.procs, PasoIo(k, ev).procs)
    ensures PasoIo(k, ev).cpus == k.cpus && PasoIo(k, ev).ultimoCpu == k.ultimoCpu
  {
    match ev
    case IoTerminar(d, j, t) => DesbloquearColas(k, k.io[d].instancias[j].pid, t);
    case IoDesconectar(d, j, t) => DesconectarColas(k, d, j, t);
    case DumpTerminar(p, t) => DesbloquearColas(k, p, t);
    case _ =>
  }

  lemma {:induction false} SinCpu(k: Foto, ev: Evento)
    requires Base(k) && Posible(k, ev) && !DeCpu(ev) && !DeIo(ev)
    ensures Sano(k) && MismosCorriendo(k.procs, Paso(k, ev).procs)
    ensures Paso(k, ev).cpus == k.cpus && Paso(k, ev).ultimoCpu == k.ultimoCpu
  {
    match ev
    case LpResponder(ok, t) => AdmitirColas(k, t);
    case ExSacar(_) =>
      if Cola(k.procs, Exit) != [] { BajaMismos(k.procs); }
    case _ =>
  }

  lemma {:induction false} CpusSinCpu(k: Foto, ev: Evento)
    requires Base(k) && Posible(k, ev) && !DeCpu(ev)
    ensures Sano(k) && CpusOk(Paso(k, ev))
  {
    if DeIo(ev) { SinCpuIo(k, ev); } else { SinCpu(k, ev); }
    CpusIguales(k, Paso(k, ev));
  }

  /** CPU binding. */
  lemma {:induction false} CpusPaso(k: Foto, ev: Evento)
    requires Base(k) && Posible(k, ev)
    ensures Sano(k) && CpusOk(Paso(k, ev))
  {
    match ev
    case CpDespachar(orden, t) => CpusPasoDespachar(k, orden, t);
    case CpuResponder(i, r, t) => CpusPasoResponder(k, i, r, t);
    case CpuConectar(nombre) => CpusConectar(k, Paso(k, ev), nombre);
    case _ => CpusSinCpu(k, ev);
  }

  // ---------------------------------------------------------------- semaphores

  lemma {:induction false} SemsDespachar(k: Foto, orden: seq<int>, t: int)
    requires Base(k) && Posible(k, CpDespachar(orden, t))
    ensures Sano(k) && SemsOk(Paso(k, CpDespachar(orden, t)))
  {
    if !k.conf.corto.CpDesconocido? {
      var s, p, i := DespachoForma(k, orden, t);
      MoverConserva(s, p, Running, t);
      LibresCambia(k.cpus, i, k.cpus[i].(libre := false, pcb := Some(p)));
    } else {
      SinRespaldos(k);
    }
  }

  lemma {:induction false} SemsResponder(k: Foto, i: nat, r: Respuesta, t: int)
    requires Base(k) && Posible(k, CpuResponder(i, r, t))
    ensures Sano(k) && SemsOk(Paso(k, CpuResponder(i, r, t)))
  {
    var s, e := ResponderForma(k, i, r, t);
    SemsRespondida(k, Responder(k, i, r, t), i, s, e, t);
  }

  lemma {:induction false} SemsRespondida(k: Foto, h: Foto, i: nat, s: Procesos, e: Estado, t: int)
    requires SemsOk(k) && CpusOk(k) && Respondida(k, h, i, s, e, t)
    ensures SemsOk(h)
  {
    MoverConserva(s, k.cpus[i].pcb.valor, e, t);
    LibresCambia(k.cpus, i, k.cpus[i].(libre := true, pcb := None));
  }

  lemma {:induction false} SemsIo(k: Foto, ev: Evento)
    requires Base(k) && Posible(k, ev) && DeIo(ev)
    ensures Sano(k) && SemsOk(PasoIo(k, ev))
  {
    match ev
    case TimerVencer(p, t) =>
      if p in k.procs.pcbs && k.procs.pcbs[p].estado == Blocked { MoverConserva(k.procs, p, SuspBlocked, t); }
    case IoTerminar(d, j, t) => DesbloquearColas(k, k.io[d].instancias[j].pid, t);
    case IoDesconectar(d, j, t) => DesconectarColas(k, d, j, t);
    case DumpTerminar(p, t) => DesbloquearColas(k, p, t);
    case _ =>
  }

  lemma {:induction false} SemsAdmitir(k: Foto, ok: bool, t: int)
    requires Base(k) && Posible(k, LpResponder(ok, t))
    ensures Sano(k) && SemsOk(PasoPlan(k, LpResponder(ok, t)))
  {
  }

  lemma {:induction false} SemsElegir(k: Foto, orden: seq<int>)
    requires Base(k) && Posible(k, LpElegir(orden))
    ensures k.conf.largo == Pmcp ==> |orden| == |Cola(k.procs, Fuente(k.procs))|
    ensures SemsOk(Elegir(k, orden))
  {
    if k.conf.largo == Pmcp { ReordenarConserva(k.procs, Fuente(k.procs), orden); }
  }

  lemma {:induction false} SemsPlan(k: Foto, ev: Evento)
    requires Base(k) && Posible(k, ev) && !DeIo(ev) && !DeCpu(ev)
    ensures Sano(k) && SemsOk(PasoPlan(k, ev))
  {
    match ev
    case LpElegir(orden) => SemsElegir(k, orden);
    case LpResponder(ok, t) => SemsAdmitir(k, ok, t);
    case ExSacar(_) => SinRespaldos(k);
    case _ =>
  }

  /** Semaphore accounting. */
  lemma {:induction false} SemsPaso(k: Foto, ev: Evento)
    requires Base(k) && Posible(k, ev)
    ensures Sano(k) && SemsOk(Paso(k, ev))
  {
    if DeIo(ev) {
      SemsIo(k, ev);
    } else if !DeCpu(ev) {
      SemsPlan(k, ev);
    } else {
      match ev
      case CpDespachar(orden, t) => SemsDespachar(k, orden, t);
      case CpuResponder(i, r, t) => SemsResponder(k, i, r, t);
      case CpuConectar(nombre) => LibresAgrega(k.cpus, Procesador(nombre, true, None));
    }
  }
}
