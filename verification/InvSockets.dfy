/** A socket belongs to one instance of one group, so the end of an I/O names its instance. */
module InvSockets {
  import opened Comunes
  import opened Ronda
  import opened Estados
  import opened Colas
  import opened GruposIo
  import opened Nucleo
  import opened InvColas

  function SocketEn(io: map<seq<char>, Grupo>, d: seq<char>, j: int): Option<int> {
    if d in io && 0 <= j < |io[d].instancias| then Some(io[d].instancias[j].socket) else None
  }

  ghost predicate SocketsOk(io: map<seq<char>, Grupo>) {
    forall d, i, e, j :: SocketEn(io, d, i).Some? && SocketEn(io, d, i) == SocketEn(io, e, j) ==> d == e && i == j
  }

  ghost predicate MismosSockets(g: Grupo, h: Grupo) {
    |h.instancias| == |g.instancias|
    && forall i :: 0 <= i < |g.instancias| ==> h.instancias[i].socket == g.instancias[i].socket
  }

  lemma {:induction false} DespacharMismos(g: Grupo)
    requires g.ultimo >= -1
    ensures MismosSockets(g, Despachar(g))
  {
    var j := DespacharEnOrden(g);
  }

  // Group d becomes g, whose sockets are some of those it had.
  lemma {:induction false} SocketsCambia(io: map<seq<char>, Grupo>, d: seq<char>, g: Grupo, de: seq<int>)
    requires SocketsOk(io) && |de| == |g.instancias|
    requires forall i :: 0 <= i < |de| ==> SocketEn(io, d, de[i]) == Some(g.instancias[i].socket)
    requires forall i, j :: 0 <= i < j < |de| ==> de[i] != de[j]
    ensures SocketsOk(io[d := g])
  {
    var oi := io[d := g];
    forall a, i, e, j | SocketEn(oi, a, i).Some? && SocketEn(oi, a, i) == SocketEn(oi, e, j) ensures a == e && i == j {
      var x := if a == d then de[i] else i;
      var y := if e == d then de[j] else j;
      assert SocketEn(io, a, x) == SocketEn(oi, a, i) && SocketEn(io, e, y) == SocketEn(oi, e, j);
    }
  }

  lemma {:induction false} SocketsMismos(io: map<seq<char>, Grupo>, d: seq<char>, g: Grupo)
    requires SocketsOk(io) && d in io && MismosSockets(io[d], g)
    ensures SocketsOk(io[d := g])
  {
    SocketsCambia(io, d, g, seq(|g.instancias|, i => i));
  }

  lemma {:induction false} SocketsConecta(k: Foto, d: seq<char>, socket: int)
    requires SocketsOk(k.io) && GruposSanos(k) && Posible(k, IoConectar(d, socket))
    ensures SocketsOk(Conectada(k, d, socket).io)
  {
    var g := if d in k.io then k.io[d] else GRUPO_VACIO;
    var h := g.(instancias := g.instancias + [Instancia(socket, false, 0)]);
    DespacharMismos(h);
    var oi := Conectada(k, d, socket).io;
    var n := |g.instancias|;
    forall a, i | SocketEn(oi, a, i).Some?
      ensures if a == d && i == n then SocketEn(oi, a, i) == Some(socket)
              else SocketEn(oi, a, i) == SocketEn(k.io, a, i) != Some(socket)
    {
    }
  }

  lemma {:induction false} SocketsDesconecta(k: Foto, d: seq<char>, j: nat, t: int)
    requires Base(k) && SocketsOk(k.io) && d in k.io && j < |k.io[d].instancias|
    ensures SocketsOk(Desconectada(k, d, j, t).io)
  {
    var g := k.io[d];
    var h := SinInstancia(g, j, Recuperada(k, g.instancias[j]));
    ColaDelPerdido(k, d, j);
    if h.instancias == [] {
      FinalizarTodosOk(k.(io := k.io - {d}), h.espera, t);
      var oi := k.io - {d};
      forall a, i | SocketEn(oi, a, i).Some? ensures SocketEn(oi, a, i) == SocketEn(k.io, a, i) {}
    } else {
      DespacharMismos(h);
      SocketsCambia(k.io, d, Despachar(h), seq(|h.instancias|, i => if i < j then i else i + 1));
    }
  }

  lemma {:induction false} SocketsPide(k: Foto, h: Foto, p: int)
    requires SocketsOk(k.io) && PideUno(k, h, p)
    ensures SocketsOk(h.io)
  {
    var d, ms :| d in k.io && k.io[d].ultimo >= -1 && h.io == k.io[d := Pedir(k.io[d], Solicitud(p, ms))];
    DespacharMismos(k.io[d].(espera := k.io[d].espera + [Solicitud(p, ms)]));
    SocketsMismos(k.io, d, Pedir(k.io[d], Solicitud(p, ms)));
  }

  lemma {:induction false} SocketsTermina(k: Foto, d: seq<char>, j: nat, t: int)
    requires SocketsOk(k.io) && d in k.io && j < |k.io[d].instancias| && k.io[d].ultimo >= -1
    ensures SocketsOk(Terminada(k, d, j, t).io)
  {
    var g := k.io[d];
    DespacharMismos(g.(instancias := g.instancias[j := g.instancias[j].(ocupado := false)]));
    SocketsMismos(k.io, d, Terminar(g, j));
  }

  lemma {:induction false} SocketsPasoIo(k: Foto, ev: Evento)
    requires Base(k) && SocketsOk(k.io) && Posible(k, ev) && DeIo(ev)
    ensures Sano(k) && SocketsOk(PasoIo(k, ev).io)
  {
    match ev
    case IoConectar(d, socket) => SocketsConecta(k, d, socket);
    case IoTerminar(d, j, t) => SocketsTermina(k, d, j, t);
    case IoDesconectar(d, j, t) => SocketsDesconecta(k, d, j, t);
    case _ =>
  }

  lemma {:induction false} SocketsPaso(k: Foto, ev: Evento)
    requires Base(k) && SocketsOk(k.io) && Posible(k, ev)
    ensures Sano(k) && SocketsOk(Paso(k, ev).io)
  {
    if DeIo(ev) { SocketsPasoIo(k, ev); }
    else if ev.CpuResponder? {
      var s, e := ResponderForma(k, ev.i, ev.r, ev.t);
      var h := Responder(k, ev.i, ev.r, ev.t);
      if h.io != k.io { SocketsPide(k, h, k.cpus[ev.i].pcb.valor); }
    }
  }
}
