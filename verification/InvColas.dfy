/** Queue partition, CPU binding and semaphore accounting: kept by every step. */
module InvColas {
  import opened Comunes
  import opened Ronda
  import opened Estados
  import opened Colas
  import opened GruposIo
  import opened Nucleo

  ghost predicate Bloqueado(s: Procesos, p: int) {
    p in s.pcbs && (s.pcbs[p].estado == Blocked || s.pcbs[p].estado == SuspBlocked)
  }

  ghost predicate ColasOk(k: Foto) {
    Particion(k.procs) && forall p :: p in k.procs.pcbs ==> p < k.proximo
  }

  /** A CPU is busy exactly when a process is bound to it, bound processes are in EXEC, and each
      process in EXEC is bound to exactly one CPU. */
  ghost predicate CpusOk(k: Foto) {
    && k.ultimoCpu >= -1
    && (forall i :: 0 <= i < |k.cpus| ==> (k.cpus[i].libre <==> k.cpus[i].pcb.None?))
    && (forall i :: 0 <= i < |k.cpus| && k.cpus[i].pcb.Some? ==>
          k.cpus[i].pcb.valor in k.procs.pcbs && k.procs.pcbs[k.cpus[i].pcb.valor].estado == Running)
    && (forall i, j :: 0 <= i < j < |k.cpus| && k.cpus[i].pcb.Some? ==> k.cpus[i].pcb != k.cpus[j].pcb)
    && (forall p :: p in k.procs.pcbs && k.procs.pcbs[p].estado == Running ==> Atado(k.cpus, p))
  }

  ghost predicate Atado(cpus: seq<Procesador>, p: int) {
    exists i :: 0 <= i < |cpus| && cpus[i].pcb == Some(p)
  }

  /** Each semaphore, plus the token a thread has taken and not used yet, counts its queue. */
  ghost predicate SemsOk(k: Foto) {
    && k.semReady + (if k.cp == CpEspera then 0 else 1) == |Cola(k.procs, Ready)|
    && k.semCpu + (if k.cp == CpConAmbos then 1 else 0) == CuentaLibres(k.cpus)
    && k.semExit + (if k.ex == ExConToken then 1 else 0) == |Cola(k.procs, Exit)|
  }

  // The candidate in memory's hands is the head of the queue it was taken from.
  ghost predicate CandidatoOk(k: Foto) {
    k.lp.LpEnMemoria? ==>
      var q := Cola(k.procs, if k.lp.susp then SuspReady else New);
      q != [] && q[0] == k.lp.candidato
  }

  /** Process p has a request in group d, waiting or in service. */
  ghost predicate Pide(io: map<seq<char>, Grupo>, d: seq<char>, p: int) {
    d in io && Veces(io[d], p) > 0
  }

  // Whoever asks is blocked, and asks once.
  ghost predicate PidenBloqueados(k: Foto) {
    forall d, p :: Pide(k.io, d, p) ==> Bloqueado(k.procs, p) && Veces(k.io[d], p) == 1
  }

  ghost predicate DumpsBloqueados(k: Foto) {
    forall p :: p in k.dumps ==> Bloqueado(k.procs, p)
  }

  ghost predicate GruposSanos(k: Foto) {
    forall d :: d in k.io ==> k.io[d].ultimo >= -1
  }

  // What the lemmas of this module start from.
  ghost predicate Base(k: Foto) {
    ColasOk(k) && CpusOk(k) && SemsOk(k) && CandidatoOk(k) && PidenBloqueados(k) && GruposSanos(k)
  }

  // ---------------------------------------------------------------- CPUs

  lemma {:induction false} LibresCambia(cpus: seq<Procesador>, i: nat, x: Procesador)
    requires i < |cpus|
    ensures CuentaLibres(cpus[i := x]) + (if cpus[i].libre then 1 else 0) == CuentaLibres(cpus) + if x.libre then 1 else 0
  {
    var c := cpus[i := x];
    if i == 0 {
      assert c[1..] == cpus[1..];
    } else {
      assert c[1..] == cpus[1..][i - 1 := x];
      LibresCambia(cpus[1..], i - 1, x);
    }
  }

  lemma {:induction false} LibresAgrega(cpus: seq<Procesador>, x: Procesador)
    ensures CuentaLibres(cpus + [x]) == CuentaLibres(cpus) + if x.libre then 1 else 0
  {
    if cpus == [] {
      assert [x][1..] == [] && cpus + [x] == [x];
    } else {
      assert (cpus + [x])[1..] == cpus[1..] + [x];
      LibresAgrega(cpus[1..], x);
    }
  }

  lemma {:induction false} HayLibres(cpus: seq<Procesador>)
    requires CuentaLibres(cpus) > 0
    ensures exists i :: 0 <= i < |cpus| && cpus[i].libre
  {
    if !cpus[0].libre {
      HayLibres(cpus[1..]);
      var i :| 0 <= i < |cpus| - 1 && cpus[1..][i].libre;
      assert cpus[i + 1].libre;
    }
  }

  // ---------------------------------------------------------------- the fallbacks

  /** The three branches the code marks as "should not happen" cannot: with a token of each
      semaphore in hand there is a ready process and a free CPU, and with the EXIT token there
      is a process to free. */
  lemma {:induction false} SinRespaldos(k: Foto)
    requires Base(k)
    ensures k.cp == CpConAmbos ==> Cola(k.procs, Ready) != [] && Siguiente(CpusLibres(k.cpus), k.ultimoCpu).Some?
    ensures k.ex == ExConToken ==> Cola(k.procs, Exit) != []
  {
    if k.cp == CpConAmbos {
      HayLibres(k.cpus);
    }
  }

  // ---------------------------------------------------------------- moves

  // The processes of s, their states, and its queues, but for what else a PCB keeps.
  lemma {:induction false} PcbNeutro(s: Procesos, p: int, pcb: Pcb)
    requires Particion(s) && p in s.pcbs && pcb.estado == s.pcbs[p].estado
    ensures Particion(s.(pcbs := s.pcbs[p := pcb]))
  {
    var r := s.(pcbs := s.pcbs[p := pcb]);
    forall f ensures SinRepetidos(Cola(r, f)) { assert SinRepetidos(Cola(s, f)); }
    forall f, q ensures q in Cola(r, f) <==> q in r.pcbs && r.pcbs[q].estado == f {
      assert q in Cola(s, f) <==> q in s.pcbs && s.pcbs[q].estado == f;
    }
  }

  /** Admission: with the candidate still at the head, removing element 0 removes the candidate. */
  lemma {:induction false} AdmitirEsMover(s: Procesos, de: Estado, c: int, t: int)
    requires Particion(s) && Cola(s, de) != [] && Cola(s, de)[0] == c && de != Ready
    ensures c in s.pcbs && s.pcbs[c].estado == de
    ensures Admitir(s, de, c, t) == Mover(s, c, Ready, t)
  {
  }

  // Every process of `ss` is blocked, and none is asked for twice.
  ghost predicate Finalizables(s: Procesos, ss: seq<Solicitud>) {
    && (forall i :: 0 <= i < |ss| ==> Bloqueado(s, ss[i].pid))
    && (forall i, j :: 0 <= i < j < |ss| ==> ss[i].pid != ss[j].pid)
  }

  ghost predicate Pedida(ss: seq<Solicitud>, p: int) { exists i :: 0 <= i < |ss| && ss[i].pid == p }

  /** Losing the last instance: exactly the processes in the queue go to EXIT. */
  lemma {:induction false} FinalizarTodosOk(k: Foto, ss: seq<Solicitud>, t: int)
    requires Particion(k.procs) && Finalizables(k.procs, ss)
    ensures var h := FinalizarTodos(k, ss, t);
            && Particion(h.procs) && h.procs.pcbs.Keys == k.procs.pcbs.Keys
            && (forall p :: p in k.procs.pcbs ==>
                  h.procs.pcbs[p] == if Pedida(ss, p) then CambiarEstado(k.procs.pcbs[p], Exit, t) else k.procs.pcbs[p])
            && (forall e :: e != Blocked && e != SuspBlocked && e != Exit ==> Cola(h.procs, e) == Cola(k.procs, e))
            && |Cola(h.procs, Exit)| == |Cola(k.procs, Exit)| + |ss|
            && h == k.(procs := h.procs, semExit := k.semExit + |ss|)
    decreases |ss|
  {
    if ss != [] {
      var p := ss[0].pid;
      MoverConserva(k.procs, p, Exit, t);
      var m := Finalizar(k, p, t);
      forall i | 0 <= i < |ss| - 1 ensures Bloqueado(m.procs, ss[1..][i].pid) {
        assert ss[1..][i] == ss[i + 1];
        assert Bloqueado(k.procs, ss[i + 1].pid);
      }
      FinalizarTodosOk(m, ss[1..], t);
      forall q ensures Pedida(ss, q) <==> q == p || Pedida(ss[1..], q) {
        if Pedida(ss[1..], q) {
          var i :| 0 <= i < |ss| - 1 && ss[1..][i].pid == q;
          assert ss[i + 1].pid == q;
        }
        if Pedida(ss, q) && q != p {
          var i :| 0 <= i < |ss| && ss[i].pid == q;
          assert ss[1..][i - 1].pid == q;
        }
      }
    }
  }

  lemma {:induction false} EsperaUnica(ss: seq<Solicitud>, i: nat, j: nat)
    requires i < j < |ss| && ss[i].pid == ss[j].pid
    ensures EnEspera(ss, ss[i].pid) >= 2
  {
    if i == 0 {
      assert ss[1..][j - 1] == ss[j];
      EsperaPositiva(ss[1..], j - 1);
    } else {
      EsperaUnica(ss[1..], i - 1, j - 1);
    }
  }

  lemma {:induction false} PedidaSiiEspera(ss: seq<Solicitud>, p: int)
    ensures Pedida(ss, p) <==> EnEspera(ss, p) > 0
  {
    if ss != [] {
      PedidaSiiEspera(ss[1..], p);
      if Pedida(ss, p) {
        var i :| 0 <= i < |ss| && ss[i].pid == p;
        EsperaPositiva(ss, i);
      }
      if ss[0].pid != p && Pedida(ss[1..], p) {
        var i :| 0 <= i < |ss| - 1 && ss[1..][i].pid == p;
        assert ss[i + 1].pid == p;
      }
      if ss[0].pid == p { assert Pedida(ss, p); }
    }
  }

  /** The queue of a group that lost its last instance holds exactly the processes that were
      asking for it, the one in service among them. */
  lemma {:induction false} ColaDelPerdido(k: Foto, d: seq<char>, j: nat)
    requires PidenBloqueados(k) && d in k.io && j < |k.io[d].instancias|
    ensures var h := SinInstancia(k.io[d], j, Recuperada(k, k.io[d].instancias[j]));
            && Finalizables(k.procs, h.espera)
            && (forall p :: Veces(h, p) == Veces(k.io[d], p))
            && (h.instancias == [] ==> forall p :: Pedida(h.espera, p) <==> Veces(k.io[d], p) > 0)
  {
    var g := k.io[d];
    var x := g.instancias[j];
    if x.ocupado {
      ServicioPositivo(g.instancias, j, x.pid);
      assert Pide(k.io, d, x.pid);
      assert Bloqueado(k.procs, x.pid) && Buscable(k.procs, x.pid);
    }
    var h := SinInstancia(g, j, Recuperada(k, x));
    forall p ensures Veces(h, p) == Veces(g, p) {
      SinInstanciaVeces(g, j, Recuperada(k, x), p);
    }
    forall i | 0 <= i < |h.espera| ensures Bloqueado(k.procs, h.espera[i].pid) {
      EsperaPositiva(h.espera, i);
      assert Veces(h, h.espera[i].pid) == Veces(g, h.espera[i].pid);
      assert Pide(k.io, d, h.espera[i].pid);
    }
    forall i, l | 0 <= i < l < |h.espera| ensures h.espera[i].pid != h.espera[l].pid {
      EsperaPositiva(h.espera, i);
      assert Pide(k.io, d, h.espera[i].pid);
      assert Veces(h, h.espera[i].pid) == Veces(g, h.espera[i].pid) <= 1;
      if h.espera[i].pid == h.espera[l].pid {
        EsperaUnica(h.espera, i, l);
      }
    }
    if h.instancias == [] {
      forall p ensures Pedida(h.espera, p) <==> Veces(g, p) > 0 {
        PedidaSiiEspera(h.espera, p);
        assert Veces(h, p) == Veces(g, p);
      }
    }
  }

  // ---------------------------------------------------------------- the two long steps, normalised

  // s differs from the queues and PCBs of k at most in what p's PCB keeps besides its state and
  // metrics.
  ghost predicate MismosSalvo(k: Procesos, s: Procesos, p: int) {
    && s.pcbs.Keys == k.pcbs.Keys && p in k.pcbs
    && (forall q :: q in k.pcbs && q != p ==> s.pcbs[q] == k.pcbs[q])
    && s.pcbs[p].estado == k.pcbs[p].estado && s.pcbs[p].metricas == k.pcbs[p].metricas
    && s.pcbs[p].ultimoCambio == k.pcbs[p].ultimoCambio && s.pcbs[p].creado == k.pcbs[p].creado
    && s.pcbs[p].tam == k.pcbs[p].tam
  }

  // The process bound to CPU i goes from s to the queue of e, the CPU is freed, and the
  // semaphores follow.
  ghost predicate Respondida(k: Foto, h: Foto, i: nat, s: Procesos, e: Estado, t: int) {
    && i < |k.cpus| && k.cpus[i].pcb.Some?
    && var p := k.cpus[i].pcb.valor;
       && MismosSalvo(k.procs, s, p) && s.pcbs[p].estado == Running && Particion(s)
       && (forall f :: Cola(s, f) == Cola(k.procs, f))
       && (e == Ready || e == Blocked || e == Exit)
       && h.procs == Mover(s, p, e, t)
       && h.cpus == k.cpus[i := k.cpus[i].(libre := true, pcb := None)]
       && h.semCpu == k.semCpu + 1
       && h.semReady == k.semReady + (if e == Ready then 1 else 0)
       && h.semExit == k.semExit + (if e == Exit then 1 else 0)
       && h.cp == k.cp && h.lp == k.lp && h.ex == k.ex && h.semAdm == k.semAdm && h.ultimoCpu == k.ultimoCpu
       && h.proximo == k.proximo && h.rechazado == k.rechazado && h.conf == k.conf
  }

  // What a response does to the I/O side: a request queued, a dump begun, or nothing.
  ghost predicate RespuestaIo(k: Foto, h: Foto, p: int, e: Estado) {
    || (e != Blocked && h.io == k.io && h.dumps == k.dumps)
    || (e == Blocked && h.io == k.io && h.dumps == k.dumps + {p})
    || (e == Blocked && h.dumps == k.dumps && PideUno(k, h, p))
  }

  ghost predicate PideUno(k: Foto, h: Foto, p: int) {
    exists d, ms :: d in k.io && k.io[d].ultimo >= -1 && h.io == k.io[d := Pedir(k.io[d], Solicitud(p, ms))]
  }

  // The same, before the CPU is freed.
  ghost predicate Destinada(k: Foto, h: Foto, p: int, s: Procesos, e: Estado, t: int) {
    && MismosSalvo(k.procs, s, p) && Particion(s) && (forall f :: Cola(s, f) == Cola(k.procs, f))
    && (e == Ready || e == Blocked || e == Exit)
    && h.procs == Mover(s, p, e, t)
    && h == k.(procs := h.procs, semReady := k.semReady + (if e == Ready then 1 else 0),
               semExit := k.semExit + (if e == Exit then 1 else 0), io := h.io, dumps := h.dumps, timers := h.timers)
    && RespuestaIo(k, h, p, e)
  }

  lemma {:induction false} DestinarForma(k: Foto, p: int, m: Motivo, t: int) returns (s: Procesos, e: Estado)
    requires Particion(k.procs) && GruposSanos(k) && p in k.procs.pcbs
    ensures Destinada(k, Destinar(k, p, m, t), p, s, e, t)
  {
    s := k.procs;
    match m
    case MotivoIo(d, ms) =>
      e := if d in k.io then Blocked else Exit;
      if d in k.io { s := BloquearForma(k, p, d, ms, t); }
    case MotivoDump => e := Blocked;
    case MotivoInterrupcion => e := Ready;
    case _ => e := Exit;
  }

  lemma {:induction false} BloquearForma(k: Foto, p: int, d: seq<char>, ms: int, t: int) returns (s: Procesos)
    requires Particion(k.procs) && GruposSanos(k) && p in k.procs.pcbs && d in k.io
    ensures Destinada(k, Bloquear(k, p, d, ms, t), p, s, Blocked, t)
  {
    s := k.procs.(pcbs := k.procs.pcbs[p := k.procs.pcbs[p].(bloqueoIo := ms)]);
    PcbNeutro(k.procs, p, s.pcbs[p]);
    assert Bloquear(k, p, d, ms, t).io == k.io[d := Pedir(k.io[d], Solicitud(p, ms))];
  }

  lemma {:induction false} ResponderForma(k: Foto, i: nat, r: Respuesta, t: int) returns (s: Procesos, e: Estado)
    requires Base(k) && i < |k.cpus| && k.cpus[i].pcb.Some?
    ensures Sano(k) && Respondida(k, Responder(k, i, r, t), i, s, e, t)
    ensures RespuestaIo(k, Responder(k, i, r, t), k.cpus[i].pcb.valor, e)
  {
    var p := k.cpus[i].pcb.valor;
    if r.pid != p {
      s, e := k.procs, Exit;
    } else {
      var h := ConPcb(k, p, TrasRafaga(k.conf, k.procs.pcbs[p], r, t));
      PcbNeutro(k.procs, p, h.procs.pcbs[p]);
      s, e := DestinarForma(h, p, r.motivo, t);
      ColasIguales(k.procs, h.procs, s);
    }
  }

  lemma {:induction false} ColasIguales(a: Procesos, b: Procesos, c: Procesos)
    requires a.colas == b.colas && forall f :: Cola(c, f) == Cola(b, f)
    ensures forall f :: Cola(c, f) == Cola(a, f)
  {
  }

  // Process p, at the head of READY as s has it, runs on the free CPU i.
  ghost predicate Despachada(k: Foto, h: Foto, s: Procesos, p: int, i: nat, t: int) {
    && MismosSalvo(k.procs, s, p) && Particion(s) && s.pcbs[p].estado == Ready
    && (forall f :: f != Ready ==> Cola(s, f) == Cola(k.procs, f)) && |Cola(s, Ready)| == |Cola(k.procs, Ready)|
    && h.procs == Mover(s, p, Running, t)
    && i < |k.cpus| && k.cpus[i].libre && k.ultimoCpu >= -1 && Siguiente(CpusLibres(k.cpus), k.ultimoCpu) == Some(i)
    && h == k.(procs := h.procs, cpus := k.cpus[i := k.cpus[i].(libre := false, pcb := Some(p))], ultimoCpu := i, cp := CpEspera)
  }

  // READY as the policy orders it.
  lemma {:induction false} ListosOrdenados(k: Foto, orden: seq<int>) returns (s: Procesos)
    requires Particion(k.procs) && (k.conf.corto != CpFifo ==> Reordena(Cola(k.procs, Ready), orden))
    ensures s == if k.conf.corto == CpFifo then k.procs else Reordenar(k.procs, Ready, orden)
    ensures Particion(s) && |Cola(s, Ready)| == |Cola(k.procs, Ready)| && (k.conf.corto != CpFifo ==> |orden| == |Cola(k.procs, Ready)|)
  {
    s := k.procs;
    if k.conf.corto != CpFifo {
      ReordenaMismos(Cola(k.procs, Ready), orden);
      ReordenarConserva(s, Ready, orden);
      s := Reordenar(s, Ready, orden);
    }
  }

  /** The short-term planner never needs its fallbacks: with a known policy it always puts the
      head of READY on a free CPU. */
  lemma {:induction false} DespachoForma(k: Foto, orden: seq<int>, t: int) returns (s: Procesos, p: int, i: nat)
    requires Base(k) && Posible(k, CpDespachar(orden, t)) && !k.conf.corto.CpDesconocido?
    ensures (k.conf.corto != CpFifo ==> |orden| == |Cola(k.procs, Ready)|)
    ensures Despachada(k, Despacho(k, orden, t), s, p, i, t)
    ensures Cola(k.procs, Ready) != [] && p == (if k.conf.corto == CpFifo then Cola(k.procs, Ready) else orden)[0]
  {
    SinRespaldos(k);
    var r := ListosOrdenados(k, orden);
    p := Cola(r, Ready)[0];
    assert p in Cola(r, Ready);
    i := Siguiente(CpusLibres(k.cpus), k.ultimoCpu).valor;
    PcbNeutro(r, p, r.pcbs[p].(inicio := t));
    s := r.(pcbs := r.pcbs[p := r.pcbs[p].(inicio := t)]);
  }
}
