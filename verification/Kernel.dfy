/** The kernel itself: its queues, semaphores, CPU list and I/O dictionary, changed in place by
    one method for each critical section. */
module Kernel {
  import opened Comunes
  import opened Ronda
  import opened Estados
  import opened Colas
  import opened GruposIo
  import opened Nucleo
  import opened InvColas
  import opened InvPasos
  import opened InvIo
  import opened InvSockets
  import opened KernelCorridas

  /** Milliseconds a running process has left of its estimate. */
  function Restante(p: Pcb, ahora: int): real {
    var r := p.estimacion - ((ahora - p.inicio) as real);
    if r < 0.0 then 0.0 else r
  }

  function Positivo(x: real): real { if x < 0.0 then 0.0 else x }

  // CPU i runs a process that, of the time estimated for it, has not run yet since it was
  // dispatched more than `estimacion`.
  predicate Desalojable(cpus: seq<Procesador>, pcbs: map<int, Pcb>, estimacion: real, ahora: int, i: nat) {
    && i < |cpus| && !cpus[i].libre && cpus[i].pcb.Some? && cpus[i].pcb.valor in pcbs
    && var q := pcbs[cpus[i].pcb.valor];
       estimacion < Positivo(q.estimacion - (ahora - q.inicio) as real)
  }

  // CPU i is no better to interrupt than v: fewer milliseconds left, or as many and further on.
  predicate NoMejor(cpus: seq<Procesador>, pcbs: map<int, Pcb>, estimacion: real, ahora: int, v: Option<nat>, i: nat) {
    Desalojable(cpus, pcbs, estimacion, ahora, i) ==>
      v.Some? && Desalojable(cpus, pcbs, estimacion, ahora, v.valor)
      && var q, r := pcbs[cpus[i].pcb.valor], pcbs[cpus[v.valor].pcb.valor];
         var a, b := Positivo(q.estimacion - (ahora - q.inicio) as real), Positivo(r.estimacion - (ahora - r.inicio) as real);
         a < b || (a == b && v.valor <= i)
  }

  /** SRT interrupts the first of the CPUs whose process has the most time left, if that is more
      than the arriving process needs; nobody otherwise. */
  ghost predicate VictimaSrt(cpus: seq<Procesador>, pcbs: map<int, Pcb>, estimacion: real, ahora: int, v: Option<nat>) {
    && (v.Some? ==> Desalojable(cpus, pcbs, estimacion, ahora, v.valor))
    && forall i: nat :: NoMejor(cpus, pcbs, estimacion, ahora, v, i)
  }

  // Whoever has just become ready interrupts a CPU under SRT only, and then the right one.
  ghost predicate Interrumpe(conf: Conf, cpus: seq<Procesador>, pcbs: map<int, Pcb>, p: int, t: int, v: Option<nat>) {
    if conf.corto == Srt then p in pcbs && VictimaSrt(cpus, pcbs, pcbs[p].estimacion, t, v) else v == None
  }

  lemma {:induction false} UnaSolicitud(k: Foto, ss: seq<Solicitud>, t: int)
    requires ss != [] && Particion(k.procs) && Finalizables(k.procs, ss)
    ensures var h := Finalizar(k, ss[0].pid, t);
            && Bloqueado(k.procs, ss[0].pid) && Buscable(k.procs, ss[0].pid) && EnSuCola(k.procs, ss[0].pid)
            && FinalizarTodos(k, ss, t) == FinalizarTodos(h, ss[1..], t)
            && Particion(h.procs) && Finalizables(h.procs, ss[1..])
  {
    var p := ss[0].pid;
    assert Bloqueado(k.procs, p);
    MoverConserva(k.procs, p, Exit, t);
    var h := Finalizar(k, p, t);
    forall i | 0 <= i < |ss| - 1 ensures Bloqueado(h.procs, ss[1..][i].pid) {
      assert ss[1..][i] == ss[i + 1] && Bloqueado(k.procs, ss[i + 1].pid);
    }
  }

  lemma {:induction false} QuitarEn(q: seq<int>, p: int, i: nat)
    requires i < |q| && q[i] == p && forall j :: 0 <= j < i ==> q[j] != p
    ensures Quitar(q, p) == q[..i] + q[i + 1..]
  {
    if i > 0 {
      QuitarEn(q[1..], p, i - 1);
      assert q[..i] + q[i + 1..] == [q[0]] + (q[1..][..i - 1] + q[1..][i..]);
    }
  }

  lemma {:induction false} QuitarAjeno(q: seq<int>, p: int)
    requires p !in q
    ensures Quitar(q, p) == q
  {
    if q != [] { QuitarAjeno(q[1..], p); }
  }

  lemma {:induction false} DespacharUna(g: Grupo, i: nat)
    requires g.ultimo >= -1 && g.espera != [] && Siguiente(InstanciasLibres(g.instancias), g.ultimo) == Some(i)
    ensures Despachar(g) == Despachar(Asignada(g, i))
  {
  }

  lemma {:induction false} SocketUnico(k: Foto, d: seq<char>, j: nat)
    requires SocketsOk(k.io) && d in k.io && j < |k.io[d].instancias|
    ensures forall e, l :: e in k.io && 0 <= l < |k.io[e].instancias| && k.io[e].instancias[l].socket == k.io[d].instancias[j].socket
              ==> e == d && l == j
  {
    forall e, l | e in k.io && 0 <= l < |k.io[e].instancias| && k.io[e].instancias[l].socket == k.io[d].instancias[j].socket
      ensures e == d && l == j
    {
      assert SocketEn(k.io, e, l) == SocketEn(k.io, d, j);
    }
  }

  lemma {:induction false} DeCola(s: Procesos, e: Estado)
    requires Particion(s)
    ensures forall x :: x in Cola(s, e) ==> x in s.pcbs && s.pcbs[x].estado == e
  {
  }

  // Process p is in the queue of its state and in no other.
  ghost predicate EnSuCola(s: Procesos, p: int) {
    forall e :: Listado(s, e, p) <==> p in s.pcbs && s.pcbs[p].estado == e
  }

  predicate Listado(s: Procesos, e: Estado, p: int) { p in Cola(s, e) }

  // Whoever the policy puts first is one of READY.
  lemma {:induction false} PrimeroDeListos(k: Foto, orden: seq<int>)
    requires k.conf.corto != CpFifo ==> Reordena(Cola(k.procs, Ready), orden)
    ensures k.conf.corto != CpFifo ==> |orden| == |Cola(k.procs, Ready)|
    ensures Cola(k.procs, Ready) != [] ==> (if k.conf.corto == CpFifo then Cola(k.procs, Ready) else orden)[0] in Cola(k.procs, Ready)
  {
    if k.conf.corto != CpFifo { ReordenaMismos(Cola(k.procs, Ready), orden); }
    var q := if k.conf.corto == CpFifo then Cola(k.procs, Ready) else orden;
    if q != [] {
      var x := q[0];
      assert x in q;
    }
  }

  /** The four semaphores. */
  datatype Semaforos = Semaforos(ready: nat, cpu: nat, adm: nat, exit: nat)

  /** Where the three planner threads are. */
  datatype Hilos = Hilos(cp: FaseCp, lp: FaseLp, ex: FaseEx)

  /** What is under way outside: timers, requests to memory, dumps; and history. */
  datatype Fuera = Fuera(timers: multiset<int>, suspensiones: multiset<int>, dumps: set<int>, reloj: int, rechazado: Option<int>)

  class Kernel {
    const conf: Conf
    var procs: Procesos
    var ultimoPid: int
    var cpus: seq<Procesador>
    var ultimoCpu: int
    var sems: Semaforos
    var hilos: Hilos
    var io: map<seq<char>, Grupo>
    ghost var fuera: Fuera

    ghost function Est(): Foto
      reads this
    {
      Foto(conf, procs, ultimoPid, cpus, ultimoCpu, sems.ready, sems.cpu, sems.adm, sems.exit,
           hilos.cp, hilos.lp, hilos.ex, io, fuera.timers, fuera.suspensiones, fuera.dumps, fuera.reloj, fuera.rechazado)
    }

    constructor (conf_: Conf, t: int)
      ensures Est() == Arranque(conf_, t) && Inv(Est())
    {
      conf := conf_;
      procs, ultimoPid, cpus, ultimoCpu := Procesos(map[], SIN_NADIE), 0, [], -1;
      sems, hilos, io := Semaforos(0, 0, 0, 0), Hilos(CpEspera, LpEspera, ExEspera), map[];
      fuera := Fuera(multiset{}, multiset{}, {}, t, None);
      new;
      InvArranque(conf_, t);
    }

    // ------------------------------------------------------------ lists

    /** list_remove_element. */
    static method QuitarElemento(q: seq<int>, p: int) returns (r: seq<int>)
      ensures r == Quitar(q, p)
    {
      var i := 0;
      while i < |q| && q[i] != p
        invariant 0 <= i <= |q|
        invariant forall j :: 0 <= j < i ==> q[j] != p
      {
        i := i + 1;
      }
      if i < |q| {
        QuitarEn(q, p, i);
        r := q[..i] + q[i + 1..];
      } else {
        QuitarAjeno(q, p);
        r := q;
      }
    }

    /** list_find by pid. */
    static method Buscar(q: seq<int>, p: int) returns (hallado: bool)
      ensures hallado <==> p in q
    {
      var i := 0;
      while i < |q|
        invariant 0 <= i <= |q|
        invariant p !in q[..i]
      {
        if q[i] == p {
          return true;
        }
        i := i + 1;
      }
      return false;
    }

    /** buscar_pcb_por_pid: the queues of the processes that are neither new nor finished. */
    method BuscarPcb(p: int) returns (hallado: bool)
      requires EnSuCola(procs, p)
      ensures hallado <==> Buscable(procs, p)
    {
      ghost var s := procs;
      assert forall e :: Listado(s, e, p) <==> p in Cola(procs, e);
      hallado := Buscar(Cola(procs, Running), p);
      if !hallado { hallado := Buscar(Cola(procs, Ready), p); }
      if !hallado { hallado := Buscar(Cola(procs, Blocked), p); }
      if !hallado { hallado := Buscar(Cola(procs, SuspBlocked), p); }
      if !hallado { hallado := Buscar(Cola(procs, SuspReady), p); }
    }

    /** Out of the list of its state, into another, with its state changed. */
    method Pasar(p: int, a: Estado, t: int)
      requires p in procs.pcbs && procs.pcbs[p].estado != a
      modifies this`procs
      ensures procs == Mover(old(procs), p, a, t)
    {
      var de := procs.pcbs[p].estado;
      var q := QuitarElemento(Cola(procs, de), p);
      procs := Procesos(procs.pcbs[p := CambiarEstado(procs.pcbs[p], a, t)], procs.colas[de := q][a := Cola(procs, a) + [p]]);
    }

    // ------------------------------------------------------------ searches

    /** The next free instance in turn. */
    static method InstanciaLibre(g: Grupo) returns (r: Option<nat>)
      requires g.ultimo >= -1
      ensures r == Siguiente(InstanciasLibres(g.instancias), g.ultimo)
    {
      var total := |g.instancias|;
      ghost var inicio := if total == 0 then 0 else (g.ultimo + 1) % total;
      var i := 0;
      while i < total
        invariant 0 <= i <= total
        invariant forall j :: 0 <= j < total && Dist(inicio, j, total) < i ==> g.instancias[j].ocupado
      {
        var indice := Vuelta(g.ultimo, i, total);
        if !g.instancias[indice].ocupado {
          SiguienteUnico(InstanciasLibres(g.instancias), g.ultimo, indice);
          return Some(indice);
        }
        i := i + 1;
      }
      return None;
    }

    /** The loop of despachar_io_si_es_posible, on one group. */
    static method DespacharGrupo(g0: Grupo) returns (g: Grupo)
      requires g0.ultimo >= -1
      ensures g == Despachar(g0)
    {
      g := g0;
      while g.espera != []
        invariant g.ultimo >= -1 && Despachar(g) == Despachar(g0)
        decreases |g.espera|
      {
        var i := InstanciaLibre(g);
        if i.None? {
          return;
        }
        var solicitud := g.espera[0];
        var instancias := g.instancias[i.valor := g.instancias[i.valor].(ocupado := true, pid := solicitud.pid)];
        DespacharUna(g, i.valor);
        g := Grupo(instancias, g.espera[1..], i.valor);
      }
    }

    /** obtener_cpu_libre: up to two turns of the list from the CPU after the last one used. */
    method BuscarCpuLibre() returns (r: Option<nat>)
      requires ultimoCpu >= -1
      ensures r == Siguiente(CpusLibres(cpus), ultimoCpu)
    {
      var n := |cpus|;
      ghost var inicio := if n == 0 then 0 else (ultimoCpu + 1) % n;
      var i := 0;
      while i < n * 2
        invariant 0 <= i <= n * 2
        invariant forall j :: 0 <= j < n && Dist(inicio, j, n) < i ==> !cpus[j].libre
      {
        var indice := Vuelta(ultimoCpu, i, n);
        if cpus[indice].libre {
          SiguienteUnico(CpusLibres(cpus), ultimoCpu, indice);
          return Some(indice);
        }
        i := i + 1;
      }
      return None;
    }

    // Bound processes have a PCB.
    ghost predicate AtadosVivos()
      reads this`cpus, this`procs
    {
      forall i :: 0 <= i < |cpus| && cpus[i].pcb.Some? ==> cpus[i].pcb.valor in procs.pcbs
    }

    /** desalojar_si_es_necesario_srt: the CPU to interrupt for p, which is ready now. */
    method DesalojarSrt(p: int, ahora: int) returns (v: Option<nat>)
      requires p in procs.pcbs && AtadosVivos()
      ensures Interrumpe(conf, cpus, procs.pcbs, p, ahora, v)
    {
      v := None;
      if conf.corto != Srt {
        return;
      }
      var maximo := -1.0;
      var i := 0;
      while i < |cpus|
        invariant 0 <= i <= |cpus|
        invariant v.None? ==> maximo == -1.0 && forall j: nat :: j < i ==> !Desalojable(cpus, procs.pcbs, procs.pcbs[p].estimacion, ahora, j)
        invariant v.Some? ==>
                    && v.valor < i && Desalojable(cpus, procs.pcbs, procs.pcbs[p].estimacion, ahora, v.valor)
                    && maximo == Restante(procs.pcbs[cpus[v.valor].pcb.valor], ahora)
                    && forall j: nat :: j < i && Desalojable(cpus, procs.pcbs, procs.pcbs[p].estimacion, ahora, j) ==>
                         Restante(procs.pcbs[cpus[j].pcb.valor], ahora) <= maximo
                         && (Restante(procs.pcbs[cpus[j].pcb.valor], ahora) == maximo ==> v.valor <= j)
      {
        if !cpus[i].libre && cpus[i].pcb.Some? {
          var restante := Restante(procs.pcbs[cpus[i].pcb.valor], ahora);
          if procs.pcbs[p].estimacion < restante && restante > maximo {
            maximo, v := restante, Some(i);
          }
        }
        i := i + 1;
      }
    }

    /** The instance behind a socket, looked for in every group. */
    method BuscarInstancia(socket: int) returns (r: Option<(seq<char>, nat)>)
      ensures r.Some? ==> r.valor.0 in io && r.valor.1 < |io[r.valor.0].instancias| && io[r.valor.0].instancias[r.valor.1].socket == socket
      ensures r.None? ==> forall d, j :: d in io && 0 <= j < |io[d].instancias| ==> io[d].instancias[j].socket != socket
    {
      var nombres := io.Keys;
      while nombres != {}
        invariant nombres <= io.Keys
        invariant forall d, j :: d in io && d !in nombres && 0 <= j < |io[d].instancias| ==> io[d].instancias[j].socket != socket
        decreases |nombres|
      {
        var d :| d in nombres;
        var j := 0;
        while j < |io[d].instancias|
          invariant 0 <= j <= |io[d].instancias|
          invariant forall l :: 0 <= l < j ==> io[d].instancias[l].socket != socket
        {
          if io[d].instancias[j].socket == socket {
            return Some((d, j));
          }
          j := j + 1;
        }
        nombres := nombres - {d};
      }
      return None;
    }

    // ------------------------------------------------------------ the long-term planner

    /** The first critical section of an admission. `orden` is what list_sort leaves of the queue
        it is applied to, under smallest-first. */
    method LpElegirCandidato(orden: seq<int>)
      requires (conf.largo == Pmcp ==> |orden| == |Cola(procs, Fuente(procs))|)
      modifies this`procs, this`hilos, this`fuera
      ensures Est() == Elegir(old(Est()), orden)
    {
      if Cola(procs, SuspReady) != [] {
        if conf.largo == Pmcp { procs := Reordenar(procs, SuspReady, orden); }
        hilos := hilos.(lp := LpEnMemoria(Cola(procs, SuspReady)[0], true));
      } else if Cola(procs, New) != [] {
        if conf.largo == Pmcp { procs := Reordenar(procs, New, orden); }
        hilos := hilos.(lp := LpEnMemoria(Cola(procs, New)[0], false));
      } else {
        hilos, fuera := hilos.(lp := LpEspera), fuera.(rechazado := None);
      }
    }

    /** The second one, with memory's answer: element 0 of the list goes, and the candidate is
        made ready. */
    method LpConcluir(ok: bool, t: int) returns (interrumpir: Option<nat>)
      requires hilos.lp.LpEnMemoria? && hilos.lp.candidato in procs.pcbs && AtadosVivos()
      modifies this`procs, this`sems, this`hilos, this`fuera
      ensures Est() == Concluida(old(Est()), ok, t)
      ensures if ok then Interrumpe(conf, cpus, procs.pcbs, old(hilos).lp.candidato, t, interrumpir) else interrumpir == None
    {
      var c, de := hilos.lp.candidato, if hilos.lp.susp then SuspReady else New;
      if !ok {
        hilos, fuera := hilos.(lp := LpEspera), fuera.(rechazado := Some(c));
        return None;
      }
      var resto := if Cola(procs, de) == [] then [] else Cola(procs, de)[1..];
      procs := Procesos(procs.pcbs[c := CambiarEstado(procs.pcbs[c], Ready, t)], procs.colas[de := resto][Ready := Cola(procs, Ready) + [c]]);
      sems, hilos := sems.(ready := sems.ready + 1), hilos.(lp := LpEligiendo);
      interrumpir := DesalojarSrt(c, t);
    }

    // ------------------------------------------------------------ the short-term planner

    /** With a ready process and a CPU in hand. `orden` is what list_sort leaves of READY under
        SJF and SRT. The two ways out that do not dispatch are the fallbacks of the code. */
    method CpDespacharListo(orden: seq<int>, t: int)
      requires ultimoCpu >= -1 && (forall x :: x in Cola(procs, Ready) ==> x in procs.pcbs && procs.pcbs[x].estado == Ready)
      requires conf.corto != CpFifo ==> Reordena(Cola(procs, Ready), orden)
      modifies this`procs, this`cpus, this`ultimoCpu, this`sems, this`hilos
      ensures conf.corto != CpFifo ==> |orden| == |Cola(old(Est()).procs, Ready)|
      ensures Est() == Despacho(old(Est()), orden, t)
    {
      PrimeroDeListos(Est(), orden);
      if Cola(procs, Ready) == [] || conf.corto.CpDesconocido? {
        sems, hilos := sems.(ready := sems.ready + 1, cpu := sems.cpu + 1), hilos.(cp := CpEspera);
        return;
      }
      ghost var p := if conf.corto == CpFifo then Cola(procs, Ready)[0] else orden[0];
      assert p in Cola(procs, Ready);
      if conf.corto != CpFifo {
        procs := Reordenar(procs, Ready, orden);
      }
      DespacharPrimero(t);
    }

    /** The first of READY goes to the next free CPU, or back to its place. */
    method DespacharPrimero(t: int)
      requires ultimoCpu >= -1 && Cola(procs, Ready) != [] && Cola(procs, Ready)[0] in procs.pcbs && procs.pcbs[Cola(procs, Ready)[0]].estado == Ready
      modifies this`procs, this`cpus, this`ultimoCpu, this`sems, this`hilos
      ensures Est() == DespachoPrimero(old(Est()), t)
    {
      var p, resto := Cola(procs, Ready)[0], Cola(procs, Ready)[1..];
      var i := BuscarCpuLibre();
      if i.Some? {
        procs := Procesos(procs.pcbs[p := CambiarEstado(procs.pcbs[p].(inicio := t), Running, t)], procs.colas[Ready := resto][Running := Cola(procs, Running) + [p]]);
        cpus, ultimoCpu := cpus[i.valor := cpus[i.valor].(libre := false, pcb := Some(p))], i.valor;
      } else {
        sems := sems.(ready := sems.ready + 1);
      }
      hilos := hilos.(cp := CpEspera);
    }

    // ------------------------------------------------------------ CPUs

    /** finalizar_proceso. */
    method FinalizarProceso(p: int, t: int)
      requires p in procs.pcbs && procs.pcbs[p].estado != Exit
      modifies this`procs, this`sems
      ensures Est() == Finalizar(old(Est()), p, t)
    {
      Pasar(p, Exit, t);
      sems := sems.(exit := sems.exit + 1);
    }

    /** bloquear_proceso: a timer to suspend it, and its request queued and dispatched. A device
        that does not exist is the end of the process. */
    method BloquearProceso(p: int, d: seq<char>, ms: int, t: int)
      requires p in procs.pcbs && procs.pcbs[p].estado == Running && GruposSanos(Est())
      modifies this`procs, this`sems, this`fuera, this`io
      ensures Est() == if d in old(io) then Bloquear(old(Est()), p, d, ms, t) else Finalizar(old(Est()), p, t)
    {
      if d in io {
        var g := DespacharGrupo(io[d].(espera := io[d].espera + [Solicitud(p, ms)]));
        procs := procs.(pcbs := procs.pcbs[p := procs.pcbs[p].(bloqueoIo := ms)]);
        Pasar(p, Blocked, t);
        io, fuera := io[d := g], fuera.(timers := fuera.timers + multiset{p});
      } else {
        FinalizarProceso(p, t);
      }
    }

    /** What becomes of the process whose burst ended. */
    method DestinarProceso(p: int, m: Motivo, t: int) returns (interrumpir: Option<nat>)
      requires p in procs.pcbs && procs.pcbs[p].estado == Running && GruposSanos(Est()) && AtadosVivos()
      modifies this`procs, this`sems, this`fuera, this`io
      ensures Est() == Destinar(old(Est()), p, m, t)
      ensures if m.MotivoInterrupcion? then Interrumpe(conf, cpus, procs.pcbs, p, t, interrumpir) else interrumpir == None
    {
      interrumpir := None;
      match m
      case MotivoIo(d, ms) => BloquearProceso(p, d, ms, t);
      case MotivoDump =>
        Pasar(p, Blocked, t);
        fuera := fuera.(dumps := fuera.dumps + {p});
      case MotivoInterrupcion =>
        Pasar(p, Ready, t);
        sems := sems.(ready := sems.ready + 1);
        interrumpir := DesalojarSrt(p, t);
      case _ =>
        FinalizarProceso(p, t);
    }

    /** recibir_y_manejar_respuesta_cpu for the end of a burst. A process sent back to READY may
        interrupt another CPU; this one still counts as busy then. */
    method RecibirRespuesta(i: nat, r: Respuesta, t: int) returns (interrumpir: Option<nat>)
      requires i < |cpus| && cpus[i].pcb.Some? && cpus[i].pcb.valor in procs.pcbs && procs.pcbs[cpus[i].pcb.valor].estado == Running
      requires GruposSanos(Est()) && AtadosVivos()
      modifies this`procs, this`sems, this`fuera, this`io, this`cpus
      ensures Est() == Responder(old(Est()), i, r, t)
      ensures if r.pid == old(cpus)[i].pcb.valor && r.motivo.MotivoInterrupcion?
              then Interrumpe(conf, old(cpus), procs.pcbs, r.pid, t, interrumpir) else interrumpir == None
    {
      var p := cpus[i].pcb.valor;
      interrumpir := None;
      if r.pid != p {
        FinalizarProceso(p, t);
      } else {
        procs := procs.(pcbs := procs.pcbs[p := TrasRafaga(conf, procs.pcbs[p], r, t)]);
        interrumpir := DestinarProceso(p, r.motivo, t);
      }
      cpus := cpus[i := cpus[i].(libre := true, pcb := None)];
      sems := sems.(cpu := sems.cpu + 1);
    }

    // ------------------------------------------------------------ suspension and I/O

    /** hilo_suspension_proceso, when the timer runs out. */
    method VencerTimer(p: int, t: int)
      requires EnSuCola(procs, p)
      modifies this`procs, this`fuera
      ensures Est() == Vencer(old(Est()), p, t)
    {
      var hallado := BuscarPcb(p);
      if hallado && procs.pcbs[p].estado == Blocked {
        Pasar(p, SuspBlocked, t);
        fuera := fuera.(suspensiones := fuera.suspensiones + multiset{p});
      }
      fuera := fuera.(timers := fuera.timers - multiset{p});
    }

    /** The process of a finished I/O or dump, wherever it is blocked. */
    method DesbloquearProceso(p: int, t: int) returns (listo: bool)
      requires EnSuCola(procs, p)
      modifies this`procs, this`sems
      ensures Est() == Desbloquear(old(Est()), p, t)
      ensures listo <==> p in procs.pcbs && old(procs).pcbs[p].estado == Blocked
    {
      var hallado := BuscarPcb(p);
      listo := hallado && procs.pcbs[p].estado == Blocked;
      if listo {
        Pasar(p, Ready, t);
        sems := sems.(ready := sems.ready + 1);
      } else if hallado && procs.pcbs[p].estado == SuspBlocked {
        Pasar(p, SuspReady, t);
        sems := sems.(adm := sems.adm + 1);
      }
    }

    /** manejar_fin_io: the device behind `socket` reports the end of the request it was given.
        `d` and `j` say which instance that is; no other has that socket. */
    method ManejarFinIo(p: int, socket: int, t: int, ghost d: seq<char>, ghost j: nat) returns (interrumpir: Option<nat>)
      requires EnSuCola(procs, p) && AtadosVivos() && d in io && j < |io[d].instancias| && io[d].ultimo >= -1
      requires io[d].instancias[j].socket == socket && io[d].instancias[j].pid == p
      requires forall e, l :: e in io && 0 <= l < |io[e].instancias| && io[e].instancias[l].socket == socket ==> e == d && l == j
      modifies this`procs, this`sems, this`io
      ensures Est() == Terminada(old(Est()), d, j, t)
      ensures if p in procs.pcbs && old(procs).pcbs[p].estado == Blocked
              then Interrumpe(conf, cpus, procs.pcbs, p, t, interrumpir) else interrumpir == None
    {
      interrumpir := None;
      var hallada := BuscarInstancia(socket);
      assert hallada.Some? && hallada.valor == (d, j);
      var nombre, indice := hallada.valor.0, hallada.valor.1;
      var g := io[nombre];
      var listo := DesbloquearProceso(p, t);
      if listo {
        interrumpir := DesalojarSrt(p, t);
      }
      g := DespacharGrupo(g.(instancias := g.instancias[indice := g.instancias[indice].(ocupado := false)]));
      io := io[nombre := g];
    }

    /** manejar_desconexion_io: what the instance was serving goes back to the front of the queue;
        without instances left, the group and the processes in its queue go. */
    method ManejarDesconexionIo(d: seq<char>, j: nat, t: int)
      requires Particion(procs) && d in io && j < |io[d].instancias| && io[d].ultimo >= -1
      requires Finalizables(procs, SinInstancia(io[d], j, Recuperada(Est(), io[d].instancias[j])).espera)
      modifies this`procs, this`sems, this`io
      ensures Est() == Desconectada(old(Est()), d, j, t)
    {
      var g, muerta := io[d], io[d].instancias[j];
      var hallado := BuscarPcb(muerta.pid);
      ghost var rec := Recuperada(Est(), muerta);
      if muerta.ocupado && hallado {
        g := g.(espera := [Solicitud(muerta.pid, procs.pcbs[muerta.pid].bloqueoIo)] + g.espera);
      }
      g := g.(instancias := g.instancias[..j] + g.instancias[j + 1..]);
      assert g == SinInstancia(io[d], j, rec);
      if g.instancias == [] {
        io := io - {d};
        FinalizarCola(g.espera, t);
      } else {
        g := DespacharGrupo(g);
        io := io[d := g];
      }
    }

    /** The queue of a group without instances: each of its processes to EXIT. */
    method FinalizarCola(ss: seq<Solicitud>, t: int)
      requires Particion(procs) && Finalizables(procs, ss)
      modifies this`procs, this`sems
      ensures Est() == FinalizarTodos(old(Est()), ss, t)
    {
      var i := 0;
      while i < |ss|
        invariant 0 <= i <= |ss| && Particion(procs) && Finalizables(procs, ss[i..])
        invariant FinalizarTodos(Est(), ss[i..], t) == FinalizarTodos(old(Est()), ss, t)
      {
        UnaSolicitud(Est(), ss[i..], t);
        var hallado := BuscarPcb(ss[i].pid);
        if hallado {
          FinalizarProceso(ss[i].pid, t);
        }
        assert ss[i..][1..] == ss[i + 1..];
        i := i + 1;
      }
    }

    // ------------------------------------------------------------ every step

    /** One critical section of one of the kernel's threads: the state it leaves is the next state
        of the machine, and the invariant holds again. */
    method Atender(ev: Evento)
      requires Inv(Est()) && Posible(Est(), ev)
      modifies this
      ensures Est() == Paso(old(Est()), ev) && Inv(Est())
    {
      ghost var k := Est();
      InvPaso(k, ev);
      if DeIo(ev) {
        AtenderIo(ev);
      } else if DeCpu(ev) {
        AtenderCpu(ev);
      } else {
        AtenderPlan(ev);
      }
      fuera := fuera.(reloj := Instante(ev, k.reloj));
    }

    method AtenderIo(ev: Evento)
      requires Sano(Est()) && Posible(Est(), ev) && DeIo(ev)
      requires Particion(procs) && SocketsOk(io) && PidenBloqueados(Est())
      modifies this`procs, this`fuera, this`io, this`sems
      ensures Est() == PasoIo(old(Est()), ev)
    {
      match ev
      case TimerVencer(p, t) => VencerTimer(p, t);
      case SuspensionResponder(p, ok) =>
        fuera := fuera.(suspensiones := fuera.suspensiones - multiset{p});
        sems := sems.(adm := sems.adm + if ok then 1 else 0);
      case IoConectar(d, socket) =>
        var g := if d in io then io[d] else GRUPO_VACIO;
        g := DespacharGrupo(g.(instancias := g.instancias + [Instancia(socket, false, 0)]));
        io := io[d := g];
      case IoTerminar(d, j, t) =>
        SocketUnico(Est(), d, j);
        var _ := ManejarFinIo(io[d].instancias[j].pid, io[d].instancias[j].socket, t, d, j);
      case IoDesconectar(d, j, t) =>
        ColaDelPerdido(Est(), d, j);
        ManejarDesconexionIo(d, j, t);
      case DumpTerminar(p, t) =>
        var _ := DesbloquearProceso(p, t);
        fuera := fuera.(dumps := fuera.dumps - {p});
    }

    method AtenderCpu(ev: Evento)
      requires Inv(Est()) && Posible(Est(), ev) && DeCpu(ev)
      modifies this`procs, this`fuera, this`io, this`sems, this`cpus, this`ultimoCpu, this`hilos
      ensures Est() == PasoCpu(old(Est()), ev)
    {
      match ev
      case CpDespachar(orden, t) =>
        DeCola(Est().procs, Ready);
        CpDespacharListo(orden, t);
      case CpuConectar(nombre) =>
        cpus := cpus + [Procesador(nombre, true, None)];
        sems := sems.(cpu := sems.cpu + 1);
      case CpuResponder(i, r, t) => var _ := RecibirRespuesta(i, r, t);
    }

    method AtenderPlan(ev: Evento)
      requires Sano(Est()) && Posible(Est(), ev) && !DeCpu(ev) && !DeIo(ev)
      requires Particion(procs) && CandidatoOk(Est())
      modifies this`procs, this`ultimoPid, this`sems, this`hilos, this`fuera
      ensures Est() == PasoPlan(old(Est()), ev)
    {
      match ev
      case Crear(tam, t) =>
        // Nobody is told unless NEW was empty.
        if Cola(procs, New) == [] {
          sems := sems.(adm := sems.adm + 1);
        }
        procs := Alta(procs, ultimoPid, PcbNuevo(tam, conf.estimacionInicial, t));
        ultimoPid := ultimoPid + 1;
      case LpDespertar =>
        sems := sems.(adm := sems.adm - 1);
        hilos, fuera := hilos.(lp := LpEligiendo), fuera.(rechazado := None);
      case LpElegir(orden) =>
        if conf.largo == Pmcp { ReordenaMismos(Cola(Est().procs, Fuente(Est().procs)), orden); }
        LpElegirCandidato(orden);
      case LpResponder(ok, t) =>
        AdmitirColas(Est(), t);
        var _ := LpConcluir(ok, t);
      case CpReady => sems, hilos := sems.(ready := sems.ready - 1), hilos.(cp := CpConReady);
      case CpCpu => sems, hilos := sems.(cpu := sems.cpu - 1), hilos.(cp := CpConAmbos);
      case ExDespertar => sems, hilos := sems.(exit := sems.exit - 1), hilos.(ex := ExConToken);
      case ExSacar(_) =>
        if Cola(procs, Exit) == [] {
          hilos := hilos.(ex := ExEspera);
        } else {
          hilos := hilos.(ex := ExLiberando(Cola(procs, Exit)[0]));
          procs := Procesos(procs.pcbs - {Cola(procs, Exit)[0]}, procs.colas[Exit := Cola(procs, Exit)[1..]]);
        }
      case ExResponder(ok) =>
        sems, hilos := sems.(adm := sems.adm + if ok then 1 else 0), hilos.(ex := ExEspera);
    }
  }
}
