/** Arrival order: over any run, the requests of a group go into service in the order they were
    queued; only what a lost instance was serving goes ahead of them. */
module OrdenIo {
  import opened Comunes
  import opened Ronda
  import opened Estados
  import opened Colas
  import opened GruposIo
  import opened Nucleo
  import opened InvColas
  import opened InvPasos
  import opened InvIo
  import opened KernelCorridas

  function GrupoDe(k: Foto, d: seq<char>): Grupo {
    if d in k.io then k.io[d] else GRUPO_VACIO
  }

  /** What a dispatch puts in service, in the order it does. */
  function Despachadas(g: Grupo): seq<Solicitud>
    requires g.ultimo >= -1
    decreases |g.espera|
  {
    var i := Siguiente(InstanciasLibres(g.instancias), g.ultimo);
    if g.espera == [] || i.None? then [] else [g.espera[0]] + Despachadas(Asignada(g, i.valor))
  }

  /** The queue is what went into service and what still waits. */
  lemma {:induction false} DespachadasPrefijo(g: Grupo)
    requires g.ultimo >= -1
    ensures g.espera == Despachadas(g) + Despachar(g).espera
    decreases |g.espera|
  {
    var i := Siguiente(InstanciasLibres(g.instancias), g.ultimo);
    if g.espera != [] && i.Some? {
      DespachadasPrefijo(Asignada(g, i.valor));
      assert g.espera == [g.espera[0]] + g.espera[1..];
    }
  }

  /** What is in service is what was, and what went in. */
  lemma {:induction false} DespachadasEntran(g: Grupo, p: int)
    requires g.ultimo >= -1
    ensures EnServicio(Despachar(g).instancias, p) == EnServicio(g.instancias, p) + EnEspera(Despachadas(g), p)
    decreases |g.espera|
  {
    var i := Siguiente(InstanciasLibres(g.instancias), g.ultimo);
    if g.espera != [] && i.Some? {
      var h := Asignada(g, i.valor);
      DespachadasEntran(h, p);
      ServicioCambia(g.instancias, i.valor, h.instancias[i.valor], p);
      assert !g.instancias[i.valor].ocupado;
      assert Despachadas(g)[1..] == Despachadas(h);
    }
  }

  // ---------------------------------------------------------------- one step, seen from one group

  /** What the step queues at the end. */
  function Encola(k: Foto, ev: Evento, d: seq<char>): seq<Solicitud> {
    if ev.CpuResponder? && ev.i < |k.cpus| && k.cpus[ev.i].pcb == Some(ev.r.pid)
       && ev.r.motivo.MotivoIo? && ev.r.motivo.dispositivo == d && d in k.io
    then [Solicitud(ev.r.pid, ev.r.motivo.ms)] else []
  }

  /** What it puts back at the front. */
  ghost function Restaura(k: Foto, ev: Evento, d: seq<char>): seq<Solicitud>
    requires Posible(k, ev)
  {
    if ev.IoDesconectar? && ev.dispositivo == d then Recuperada(k, k.io[d].instancias[ev.j]) else []
  }

  /** The instances, before the queue is looked at. */
  ghost function Instancias(k: Foto, ev: Evento, d: seq<char>): seq<Instancia>
    requires Posible(k, ev)
  {
    var es := GrupoDe(k, d).instancias;
    match ev
    case IoConectar(x, socket) => if x == d then es + [Instancia(socket, false, 0)] else es
    case IoTerminar(x, j, _) => if x == d then es[j := es[j].(ocupado := false)] else es
    case IoDesconectar(x, j, _) => if x == d then es[..j] + es[j + 1..] else es
    case _ => es
  }

  /** What it puts in service. */
  ghost function Entran(k: Foto, ev: Evento, d: seq<char>): seq<Solicitud>
    requires Sano(k) && Posible(k, ev)
  {
    Despachadas(Preparado(k, ev, d))
  }

  ghost function Preparado(k: Foto, ev: Evento, d: seq<char>): Grupo
    requires Posible(k, ev)
  {
    Grupo(Instancias(k, ev, d), Restaura(k, ev, d) + GrupoDe(k, d).espera + Encola(k, ev, d), GrupoDe(k, d).ultimo)
  }

  lemma {:induction false} Ocioso(g: Grupo)
    requires g.ultimo >= -1 && Trabajando(g)
    ensures Despachar(g) == g && Despachadas(g) == []
  {
  }

  // The loss of the last instance takes the whole queue to EXIT.
  ghost predicate Pierde(k: Foto, ev: Evento, d: seq<char>)
    requires Posible(k, ev)
  {
    ev.IoDesconectar? && ev.dispositivo == d && |k.io[d].instancias| == 1
  }

  // The step is about another group, or about none.
  ghost predicate NoEsDe(k: Foto, ev: Evento, d: seq<char>) {
    && !(ev.IoConectar? && ev.dispositivo == d) && !(ev.IoTerminar? && ev.dispositivo == d)
    && !(ev.IoDesconectar? && ev.dispositivo == d) && Encola(k, ev, d) == []
  }

  lemma {:induction false} OtroGrupo(k: Foto, ev: Evento, d: seq<char>)
    requires Base(k) && Posible(k, ev) && NoEsDe(k, ev, d)
    ensures Sano(k) && GrupoDe(Paso(k, ev), d) == GrupoDe(k, d)
  {
    if DeIo(ev) { OtroGrupoIo(k, ev, d); } else if DeCpu(ev) { OtroGrupoCpu(k, ev, d); }
  }

  lemma {:induction false} OtroGrupoCpu(k: Foto, ev: Evento, d: seq<char>)
    requires Base(k) && Posible(k, ev) && NoEsDe(k, ev, d) && DeCpu(ev)
    ensures Sano(k) && GrupoDe(PasoCpu(k, ev), d) == GrupoDe(k, d)
  {
  }

  lemma {:induction false} OtroGrupoIo(k: Foto, ev: Evento, d: seq<char>)
    requires Base(k) && Posible(k, ev) && NoEsDe(k, ev, d) && DeIo(ev)
    ensures Sano(k) && GrupoDe(PasoIo(k, ev), d) == GrupoDe(k, d)
  {
    if ev.IoDesconectar? { OtroPerdido(k, ev.dispositivo, ev.j, ev.t, d); }
  }

  lemma {:induction false} OtroPerdido(k: Foto, x: seq<char>, j: nat, t: int, d: seq<char>)
    requires Base(k) && x in k.io && j < |k.io[x].instancias| && x != d
    ensures GrupoDe(Desconectada(k, x, j, t), d) == GrupoDe(k, d)
  {
    var h := SinInstancia(k.io[x], j, Recuperada(k, k.io[x].instancias[j]));
    ColaDelPerdido(k, x, j);
    FinalizarTodosOk(k.(io := k.io - {x}), h.espera, t);
  }

  lemma {:induction false} EsteResponde(k: Foto, ev: Evento, d: seq<char>)
    requires Base(k) && Posible(k, ev) && ev.CpuResponder? && Encola(k, ev, d) != []
    ensures Sano(k) && GrupoDe(Paso(k, ev), d) == Despachar(Preparado(k, ev, d))
  {
    assert Preparado(k, ev, d) == k.io[d].(espera := k.io[d].espera + Encola(k, ev, d));
  }

  lemma {:induction false} EsteConecta(k: Foto, d: seq<char>, socket: int)
    requires Base(k) && Posible(k, IoConectar(d, socket))
    ensures Sano(k) && GrupoDe(Paso(k, IoConectar(d, socket)), d) == Despachar(Preparado(k, IoConectar(d, socket), d))
  {
    assert Preparado(k, IoConectar(d, socket), d) == GrupoDe(k, d).(instancias := Instancias(k, IoConectar(d, socket), d));
  }

  lemma {:induction false} EsteTermina(k: Foto, d: seq<char>, j: nat, t: int)
    requires Base(k) && Posible(k, IoTerminar(d, j, t))
    ensures Sano(k) && GrupoDe(Paso(k, IoTerminar(d, j, t)), d) == Despachar(Preparado(k, IoTerminar(d, j, t), d))
  {
    assert Preparado(k, IoTerminar(d, j, t), d) == k.io[d].(instancias := Instancias(k, IoTerminar(d, j, t), d));
  }

  lemma {:induction false} EstePierde(k: Foto, d: seq<char>, j: nat, t: int)
    requires Base(k) && Posible(k, IoDesconectar(d, j, t)) && |k.io[d].instancias| > 1
    ensures Sano(k) && GrupoDe(Paso(k, IoDesconectar(d, j, t)), d) == Despachar(Preparado(k, IoDesconectar(d, j, t), d))
  {
    assert Preparado(k, IoDesconectar(d, j, t), d) == SinInstancia(k.io[d], j, Recuperada(k, k.io[d].instancias[j]));
  }

  lemma {:induction false} EsteGrupo(k: Foto, ev: Evento, d: seq<char>)
    requires Base(k) && Posible(k, ev) && !Pierde(k, ev, d) && !NoEsDe(k, ev, d)
    ensures Sano(k) && GrupoDe(Paso(k, ev), d) == Despachar(Preparado(k, ev, d))
  {
    match ev
    case IoConectar(_, socket) => EsteConecta(k, d, socket);
    case IoTerminar(_, j, t) => EsteTermina(k, d, j, t);
    case IoDesconectar(_, j, t) => EstePierde(k, d, j, t);
    case _ => EsteResponde(k, ev, d);
  }

  /** After any step but the loss of the group, the group is what its dispatch makes of it. */
  lemma {:induction false} GrupoPaso(k: Foto, ev: Evento, d: seq<char>)
    requires Inv(k) && Posible(k, ev) && !Pierde(k, ev, d)
    ensures Sano(k) && GrupoDe(Paso(k, ev), d) == Despachar(Preparado(k, ev, d))
  {
    if NoEsDe(k, ev, d) {
      OtroGrupo(k, ev, d);
      assert Preparado(k, ev, d) == GrupoDe(k, d);
      if d in k.io { assert GrupoOk(k.io[d]); }
      Ocioso(GrupoDe(k, d));
    } else {
      EsteGrupo(k, ev, d);
    }
  }

  /** One step: what is put back, what waited and what arrives, in that order, is what goes into
      service and what is left waiting. */
  lemma {:induction false} TurnoPaso(k: Foto, ev: Evento, d: seq<char>, p: int)
    requires Inv(k) && Posible(k, ev) && !Pierde(k, ev, d)
    ensures Sano(k)
    ensures Restaura(k, ev, d) + GrupoDe(k, d).espera + Encola(k, ev, d) == Entran(k, ev, d) + GrupoDe(Paso(k, ev), d).espera
    ensures EnServicio(GrupoDe(Paso(k, ev), d).instancias, p) == EnServicio(Instancias(k, ev, d), p) + EnEspera(Entran(k, ev, d), p)
  {
    GrupoPaso(k, ev, d);
    DespachadasPrefijo(Preparado(k, ev, d));
    DespachadasEntran(Preparado(k, ev, d), p);
  }

  // ---------------------------------------------------------------- runs

  predicate SinPerdidas(evs: seq<Evento>, d: seq<char>) {
    forall i :: 0 <= i < |evs| ==> !(evs[i].IoDesconectar? && evs[i].dispositivo == d)
  }

  /** What a run queues, and what it puts in service, in order. */
  ghost function Encoladas(k: Foto, evs: seq<Evento>, d: seq<char>): seq<Solicitud>
    requires Posibles(k, evs)
    decreases |evs|
  {
    if evs == [] then [] else Encola(k, evs[0], d) + Encoladas(Paso(k, evs[0]), evs[1..], d)
  }

  ghost function Atendidas(k: Foto, evs: seq<Evento>, d: seq<char>): seq<Solicitud>
    requires Posibles(k, evs)
    decreases |evs|
  {
    if evs == [] then [] else Entran(k, evs[0], d) + Atendidas(Paso(k, evs[0]), evs[1..], d)
  }

  /** First come, first served: while a group loses no instance, its requests go into service in
      the order they were queued, none skipped and none twice. */
  lemma {:induction false} OrdenDeLlegada(k: Foto, evs: seq<Evento>, d: seq<char>)
    requires Inv(k) && Posibles(k, evs) && SinPerdidas(evs, d)
    ensures GrupoDe(k, d).espera + Encoladas(k, evs, d) == Atendidas(k, evs, d) + GrupoDe(Correr(k, evs), d).espera
    decreases |evs|
  {
    if evs != [] {
      var h := Paso(k, evs[0]);
      InvPaso(k, evs[0]);
      assert !(evs[0].IoDesconectar? && evs[0].dispositivo == d);
      forall i | 0 <= i < |evs| - 1 ensures !(evs[1..][i].IoDesconectar? && evs[1..][i].dispositivo == d) {
        assert evs[1..][i] == evs[i + 1];
      }
      OrdenDeLlegada(h, evs[1..], d);
      UnTurno(k, evs[0], d);
      Encadena(GrupoDe(k, d).espera, Encola(k, evs[0], d), Entran(k, evs[0], d), GrupoDe(h, d).espera,
               Encoladas(h, evs[1..], d), Atendidas(h, evs[1..], d), GrupoDe(Correr(h, evs[1..]), d).espera);
    }
  }

  lemma {:induction false} UnTurno(k: Foto, ev: Evento, d: seq<char>)
    requires Inv(k) && Posible(k, ev) && !(ev.IoDesconectar? && ev.dispositivo == d)
    ensures Sano(k)
    ensures GrupoDe(k, d).espera + Encola(k, ev, d) == Entran(k, ev, d) + GrupoDe(Paso(k, ev), d).espera
  {
    TurnoPaso(k, ev, d, 0);
    assert [] + GrupoDe(k, d).espera == GrupoDe(k, d).espera;
  }

  lemma {:induction false} Encadena(q: seq<Solicitud>, n: seq<Solicitud>, s: seq<Solicitud>, r: seq<Solicitud>,
                                    ns: seq<Solicitud>, ss: seq<Solicitud>, u: seq<Solicitud>)
    requires q + n == s + r && r + ns == ss + u
    ensures q + (n + ns) == (s + ss) + u
  {
    assert q + (n + ns) == (q + n) + ns;
    assert (s + r) + ns == s + (r + ns);
    assert s + (ss + u) == (s + ss) + u;
  }
}
