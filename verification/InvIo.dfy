/** I/O: a process blocked on a device has exactly one request, no request waits next to a free
    instance, and losing the last instance of a group finishes exactly the processes asking for
    it. Kept by every step. */
module InvIo {
  import opened Comunes
  import opened Ronda
  import opened Estados
  import opened Colas
  import opened GruposIo
  import opened Nucleo
  import opened InvColas
  import opened InvPasos

  ghost predicate PideAlguno(io: map<seq<char>, Grupo>, p: int) { exists d :: Pide(io, d, p) }

  ghost predicate GrupoOk(g: Grupo) { g.ultimo >= -1 && g.instancias != [] && Trabajando(g) }

  // Nobody asks two groups.
  ghost predicate Unicos(io: map<seq<char>, Grupo>) {
    forall d, e, p :: Pide(io, d, p) && Pide(io, e, p) ==> d == e
  }

  /** Conservation of requests, and of work. */
  ghost predicate IoOk(k: Foto) {
    && (forall d :: d in k.io ==> GrupoOk(k.io[d]))
    && PidenBloqueados(k)
    && Unicos(k.io)
    && DumpsBloqueados(k)
    && (forall p :: Bloqueado(k.procs, p) ==> (p in k.dumps <==> !PideAlguno(k.io, p)))
  }

  lemma {:induction false} IoIguales(k: Foto, h: Foto)
    requires IoOk(k) && h.io == k.io && h.dumps == k.dumps
    requires forall p :: Bloqueado(h.procs, p) <==> Bloqueado(k.procs, p)
    ensures IoOk(h)
  {
  }

  // Group d becomes g, and only process q may ask for it more or less than before.
  lemma {:induction false} PidenSalvo(io: map<seq<char>, Grupo>, d: seq<char>, g: Grupo, q: int)
    requires forall p :: p != q ==> Veces(g, p) == if d in io then Veces(io[d], p) else 0
    ensures forall e, p :: p != q ==> (Pide(io[d := g], e, p) <==> Pide(io, e, p))
    ensures forall p :: p != q ==> (PideAlguno(io[d := g], p) <==> PideAlguno(io, p))
  {
    var oi := io[d := g];
    forall e, p | p != q ensures Pide(oi, e, p) <==> Pide(io, e, p) {}
    forall p | p != q ensures PideAlguno(oi, p) <==> PideAlguno(io, p) {
      if PideAlguno(oi, p) {
        var e :| Pide(oi, e, p);
        assert Pide(io, e, p);
      }
      if PideAlguno(io, p) {
        var e :| Pide(io, e, p);
        assert Pide(oi, e, p);
      }
    }
  }

  // Nobody asks for group d more or less than before.
  lemma {:induction false} IoMismasVeces(k: Foto, h: Foto, d: seq<char>, g: Grupo)
    requires IoOk(k) && h.io == k.io[d := g] && GrupoOk(g) && h.dumps == k.dumps
    requires forall p :: Veces(g, p) == if d in k.io then Veces(k.io[d], p) else 0
    requires forall p :: Bloqueado(h.procs, p) <==> Bloqueado(k.procs, p)
    ensures IoOk(h)
  {
    forall e, p ensures Pide(h.io, e, p) <==> Pide(k.io, e, p) {}
    forall p ensures PideAlguno(h.io, p) <==> PideAlguno(k.io, p) {
      if PideAlguno(h.io, p) {
        var e :| Pide(h.io, e, p);
        assert Pide(k.io, e, p);
      }
      if PideAlguno(k.io, p) {
        var e :| Pide(k.io, e, p);
        assert Pide(h.io, e, p);
      }
    }
    forall e, p | Pide(h.io, e, p) ensures Bloqueado(h.procs, p) && Veces(h.io[e], p) == 1 {
      assert Pide(k.io, e, p);
    }
  }

  // ---------------------------------------------------------------- a burst that ends blocked

  lemma {:induction false} UnicosSalvo(io: map<seq<char>, Grupo>, oi: map<seq<char>, Grupo>, d: seq<char>, q: int)
    requires Unicos(io) && (forall e, p :: p != q ==> (Pide(oi, e, p) <==> Pide(io, e, p)))
    requires forall e :: Pide(oi, e, q) ==> e == d
    ensures Unicos(oi)
  {
  }

  lemma {:induction false} IoPide(k: Foto, h: Foto, p: int)
    requires IoOk(k) && PideUno(k, h, p) && h.dumps == k.dumps && !Bloqueado(k.procs, p)
    requires forall q :: Bloqueado(h.procs, q) <==> q == p || Bloqueado(k.procs, q)
    ensures IoOk(h)
  {
    var d, ms :| d in k.io && k.io[d].ultimo >= -1 && h.io == k.io[d := Pedir(k.io[d], Solicitud(p, ms))];
    IoPideEn(k, h, p, d, Pedir(k.io[d], Solicitud(p, ms)), ms);
  }

  lemma {:induction false} IoPideEn(k: Foto, h: Foto, p: int, d: seq<char>, g: Grupo, ms: int)
    requires IoOk(k) && h.dumps == k.dumps && !Bloqueado(k.procs, p)
    requires d in k.io && g == Pedir(k.io[d], Solicitud(p, ms)) && h.io == k.io[d := g]
    requires forall q :: Bloqueado(h.procs, q) <==> q == p || Bloqueado(k.procs, q)
    ensures IoOk(h)
  {
    forall q ensures Veces(g, q) == Veces(k.io[d], q) + if q == p then 1 else 0 {
      PedirVeces(k.io[d], Solicitud(p, ms), q);
    }
    PedirVeces(k.io[d], Solicitud(p, ms), p);
    PidenSalvo(k.io, d, g, p);
    assert Pide(h.io, d, p) && p !in k.dumps;
    forall e ensures Pide(h.io, e, p) <==> e == d {
      assert !Pide(k.io, e, p);
    }
    UnicosSalvo(k.io, h.io, d, p);
    forall e, q | Pide(h.io, e, q) ensures Bloqueado(h.procs, q) && Veces(h.io[e], q) == 1 {
      if q == p { assert !Pide(k.io, d, p); } else { assert Pide(k.io, e, q); }
    }
  }

  lemma {:induction false} IoDump(k: Foto, h: Foto, p: int)
    requires IoOk(k) && h.io == k.io && h.dumps == k.dumps + {p} && !Bloqueado(k.procs, p)
    requires forall q :: Bloqueado(h.procs, q) <==> q == p || Bloqueado(k.procs, q)
    ensures IoOk(h)
  {
  }

  lemma {:induction false} IoRespuesta(k: Foto, i: nat, r: Respuesta, t: int)
    requires Base(k) && IoOk(k) && Posible(k, CpuResponder(i, r, t))
    ensures Sano(k) && IoOk(Responder(k, i, r, t))
  {
    var h := Responder(k, i, r, t);
    var p := k.cpus[i].pcb.valor;
    var s, e := ResponderForma(k, i, r, t);
    forall q ensures Bloqueado(h.procs, q) <==> (q == p && e == Blocked) || Bloqueado(k.procs, q) {
      assert Bloqueado(s, q) <==> Bloqueado(k.procs, q);
    }
    if e != Blocked { IoIguales(k, h); }
    else if h.io == k.io && h.dumps == k.dumps + {p} { IoDump(k, h, p); }
    else { IoPide(k, h, p); }
  }

  // ---------------------------------------------------------------- the end of an I/O or a dump

  lemma {:induction false} DesbloquearBloqueados(k: Foto, p: int, t: int)
    requires Bloqueado(k.procs, p)
    ensures forall q :: Bloqueado(Desbloquear(k, p, t).procs, q) <==> q != p && Bloqueado(k.procs, q)
  {
  }

  // Process q asks nobody any more, and is not blocked any more; the rest is as it was.
  lemma {:induction false} IoDeja(k: Foto, h: Foto, d: seq<char>, g: Grupo, q: int)
    requires IoOk(k) && d in k.io && Pide(k.io, d, q) && h.io == k.io[d := g] && GrupoOk(g) && h.dumps == k.dumps
    requires forall p :: Veces(g, p) == Veces(k.io[d], p) - if p == q then 1 else 0
    requires forall p :: Bloqueado(h.procs, p) <==> p != q && Bloqueado(k.procs, p)
    ensures IoOk(h)
  {
    PidenSalvo(k.io, d, g, q);
    forall e ensures !Pide(h.io, e, q) {
      assert Pide(k.io, e, q) ==> e == d;
    }
    UnicosSalvo(k.io, h.io, d, q);
    forall e, p | Pide(h.io, e, p) ensures Bloqueado(h.procs, p) && Veces(h.io[e], p) == 1 {
      assert Pide(k.io, e, p);
    }
    assert PideAlguno(k.io, q);
  }

  lemma {:induction false} IoTermina(k: Foto, d: seq<char>, j: nat, t: int)
    requires Base(k) && IoOk(k) && d in k.io && j < |k.io[d].instancias| && k.io[d].instancias[j].ocupado
    ensures Bloqueado(k.procs, k.io[d].instancias[j].pid)
    ensures IoOk(Desbloquear(k, k.io[d].instancias[j].pid, t).(io := k.io[d := Terminar(k.io[d], j)]))
  {
    var q := k.io[d].instancias[j].pid;
    var g := Terminar(k.io[d], j);
    ServicioPositivo(k.io[d].instancias, j, q);
    assert Pide(k.io, d, q);
    forall p ensures Veces(g, p) == Veces(k.io[d], p) - if p == q then 1 else 0 {
      TerminarVeces(k.io[d], j, p);
    }
    TerminarVeces(k.io[d], j, q);
    DesbloquearBloqueados(k, q, t);
    IoDeja(k, Desbloquear(k, q, t).(io := k.io[d := g]), d, g, q);
  }

  lemma {:induction false} IoDumpTermina(k: Foto, p: int, t: int)
    requires Base(k) && IoOk(k) && p in k.dumps
    ensures IoOk(Desbloquear(k, p, t).(dumps := k.dumps - {p}))
  {
  }

  // ---------------------------------------------------------------- instances come and go

  lemma {:induction false} IoConecta(k: Foto, d: seq<char>, socket: int)
    requires Base(k) && IoOk(k)
    ensures Sano(k) && IoOk(Conectada(k, d, socket))
  {
    var g := if d in k.io then k.io[d] else GRUPO_VACIO;
    forall p ensures Veces(Conectar(g, socket), p) == if d in k.io then Veces(k.io[d], p) else 0 {
      ConectarVeces(g, socket, p);
    }
    ConectarVeces(g, socket, 0);
    IoMismasVeces(k, Conectada(k, d, socket), d, Conectar(g, socket));
  }

  /** Losing the last instance of a group sends to EXIT exactly the processes that were asking
      for it; losing another one sends nobody, and its process waits again at the front. */
  lemma {:induction false} IoDesconecta(k: Foto, d: seq<char>, j: nat, t: int)
    requires Base(k) && IoOk(k) && d in k.io && j < |k.io[d].instancias|
    ensures var h := Desconectada(k, d, j, t);
            && IoOk(h)
            && h.procs.pcbs.Keys == k.procs.pcbs.Keys
            && (|k.io[d].instancias| == 1 ==>
                  h.io == k.io - {d}
                  && forall p :: p in k.procs.pcbs ==>
                       h.procs.pcbs[p] == if Veces(k.io[d], p) > 0 then CambiarEstado(k.procs.pcbs[p], Exit, t) else k.procs.pcbs[p])
            && (|k.io[d].instancias| > 1 ==> h.procs == k.procs && h.io.Keys == k.io.Keys)
  {
    var x := k.io[d].instancias[j];
    var g := SinInstancia(k.io[d], j, Recuperada(k, x));
    var h := Desconectada(k, d, j, t);
    ColaDelPerdido(k, d, j);
    if g.instancias == [] {
      FinalizarTodosOk(k.(io := k.io - {d}), g.espera, t);
      IoGrupoPerdido(k, h, d, t);
    } else {
      forall p ensures Veces(Despachar(g), p) == Veces(k.io[d], p) { DespacharConserva(g, p); }
      DespacharConserva(g, 0);
      IoMismasVeces(k, h, d, Despachar(g));
    }
  }

  lemma {:induction false} IoGrupoPerdido(k: Foto, h: Foto, d: seq<char>, t: int)
    requires IoOk(k) && d in k.io && h.io == k.io - {d} && h.dumps == k.dumps
    requires h.procs.pcbs.Keys == k.procs.pcbs.Keys
    requires forall p :: p in k.procs.pcbs ==>
               h.procs.pcbs[p] == if Veces(k.io[d], p) > 0 then CambiarEstado(k.procs.pcbs[p], Exit, t) else k.procs.pcbs[p]
    ensures IoOk(h)
  {
    forall p ensures Bloqueado(h.procs, p) <==> Bloqueado(k.procs, p) && !Pide(k.io, d, p) {}
    forall e, p ensures Pide(h.io, e, p) <==> Pide(k.io, e, p) && e != d {}
    forall p | Bloqueado(h.procs, p) ensures PideAlguno(h.io, p) <==> PideAlguno(k.io, p) {
      if PideAlguno(k.io, p) {
        var e :| Pide(k.io, e, p);
        assert Pide(h.io, e, p);
      }
      if PideAlguno(h.io, p) {
        var e :| Pide(h.io, e, p);
        assert Pide(k.io, e, p);
      }
    }
    forall e, p | Pide(h.io, e, p) ensures Bloqueado(h.procs, p) && Veces(h.io[e], p) == 1 {
      assert Pide(k.io, e, p) && !Pide(k.io, d, p);
    }
    forall p | p in h.dumps ensures Bloqueado(h.procs, p) {
      assert Bloqueado(k.procs, p);
      assert Pide(k.io, d, p) ==> PideAlguno(k.io, p);
    }
  }

  // ---------------------------------------------------------------- every step

  lemma {:induction false} IoPasoIo(k: Foto, ev: Evento)
    requires Base(k) && IoOk(k) && Posible(k, ev) && DeIo(ev)
    ensures Sano(k) && IoOk(PasoIo(k, ev))
  {
    match ev
    case TimerVencer(p, t) => IoIguales(k, Vencer(k, p, t));
    case SuspensionResponder(p, ok) => IoIguales(k, PasoIo(k, ev));
    case IoConectar(d, socket) => IoConecta(k, d, socket);
    case IoTerminar(d, j, t) => IoTermina(k, d, j, t);
    case IoDesconectar(d, j, t) => IoDesconecta(k, d, j, t);
    case DumpTerminar(p, t) => IoDumpTermina(k, p, t);
  }

  lemma {:induction false} BloqueadosPlan(k: Foto, ev: Evento)
    requires Base(k) && Posible(k, ev) && !DeIo(ev) && !DeCpu(ev)
    ensures Sano(k) && MismosBloqueados(k.procs, PasoPlan(k, ev).procs)
  {
    match ev
    case LpResponder(ok, t) => AdmitirColas(k, t);
    case ExSacar(_) => if Cola(k.procs, Exit) != [] { BajaMismos(k.procs); }
    case Crear(_, _) => assert k.proximo !in k.procs.pcbs;
    case _ =>
  }

  lemma {:induction false} IoDespachar(k: Foto, orden: seq<int>, t: int)
    requires Base(k) && IoOk(k) && Posible(k, CpDespachar(orden, t))
    ensures Sano(k) && IoOk(PasoCpu(k, CpDespachar(orden, t)))
  {
    if !k.conf.corto.CpDesconocido? {
      var s, p, i := DespachoForma(k, orden, t);
    }
    IoIguales(k, PasoCpu(k, CpDespachar(orden, t)));
  }

  /** I/O conservation. */
  lemma {:induction false} IoPaso(k: Foto, ev: Evento)
    requires Base(k) && IoOk(k) && Posible(k, ev)
    ensures Sano(k) && IoOk(Paso(k, ev))
  {
    if DeIo(ev) {
      IoPasoIo(k, ev);
      IoReloj(PasoIo(k, ev), Instante(ev, k.reloj));
    } else if DeCpu(ev) {
      IoPasoCpu(k, ev);
      IoReloj(PasoCpu(k, ev), Instante(ev, k.reloj));
    } else {
      IoPasoPlan(k, ev);
      IoReloj(PasoPlan(k, ev), Instante(ev, k.reloj));
    }
  }

  lemma {:induction false} IoReloj(k: Foto, t: int)
    requires IoOk(k)
    ensures IoOk(k.(reloj := t))
  {
  }

  lemma {:induction false} IoPasoPlan(k: Foto, ev: Evento)
    requires Base(k) && IoOk(k) && Posible(k, ev) && !DeIo(ev) && !DeCpu(ev)
    ensures Sano(k) && IoOk(PasoPlan(k, ev))
  {
    BloqueadosPlan(k, ev);
    IoIguales(k, PasoPlan(k, ev));
  }

  lemma {:induction false} IoPasoCpu(k: Foto, ev: Evento)
    requires Base(k) && IoOk(k) && Posible(k, ev) && DeCpu(ev)
    ensures Sano(k) && IoOk(PasoCpu(k, ev))
  {
    match ev
    case CpDespachar(orden, t) => IoDespachar(k, orden, t);
    case CpuResponder(i, r, t) => IoRespuesta(k, i, r, t);
    case CpuConectar(_) => IoIguales(k, PasoCpu(k, ev));
  }
}
