/** A group of I/O instances of one name: its shared queue, its round-robin dispatch, and what
    happens to requests when instances come and go. */
module GruposIo {
  import opened Comunes
  import opened Aritmetica
  import opened Ronda

  datatype Instancia = Instancia(socket: int, ocupado: bool, pid: int)

  datatype Solicitud = Solicitud(pid: int, tiempo: int)

  datatype Grupo = Grupo(instancias: seq<Instancia>, espera: seq<Solicitud>, ultimo: int)

  const GRUPO_VACIO := Grupo([], [], -1)

  function InstanciasLibres(es: seq<Instancia>): (r: seq<bool>)
    ensures |r| == |es|
    ensures forall i :: 0 <= i < |es| ==> r[i] == !es[i].ocupado
  {
    seq(|es|, i requires 0 <= i < |es| => !es[i].ocupado)
  }

  /** The head of the queue goes to instance i. */
  function Asignada(g: Grupo, i: nat): Grupo
    requires i < |g.instancias| && g.espera != []
  {
    Grupo(g.instancias[i := g.instancias[i].(ocupado := true, pid := g.espera[0].pid)], g.espera[1..], i)
  }

  /** despachar_io_si_es_posible: while there is a request waiting and a free instance, the
      oldest request goes to the next free instance in turn. */
  function Despachar(g: Grupo): (r: Grupo)
    requires g.ultimo >= -1
    ensures r.ultimo >= -1 && |r.instancias| == |g.instancias| && |r.espera| <= |g.espera|
    decreases |g.espera|
  {
    var i := Siguiente(InstanciasLibres(g.instancias), g.ultimo);
    if g.espera == [] || i.None? then g else Despachar(Asignada(g, i.valor))
  }

  // ---------------------------------------------------------------- who is asking

  /** How many requests of p are in service, and how many wait. */
  function EnServicio(es: seq<Instancia>, p: int): nat {
    if es == [] then 0 else (if es[0].ocupado && es[0].pid == p then 1 else 0) + EnServicio(es[1..], p)
  }

  function EnEspera(ss: seq<Solicitud>, p: int): nat {
    if ss == [] then 0 else (if ss[0].pid == p then 1 else 0) + EnEspera(ss[1..], p)
  }

  function Veces(g: Grupo, p: int): nat { EnServicio(g.instancias, p) + EnEspera(g.espera, p) }

  lemma {:induction false} ServicioConcat(a: seq<Instancia>, b: seq<Instancia>, p: int)
    ensures EnServicio(a + b, p) == EnServicio(a, p) + EnServicio(b, p)
  {
    if a == [] { assert a + b == b; }
    else { assert (a + b)[1..] == a[1..] + b; ServicioConcat(a[1..], b, p); }
  }

  lemma {:induction false} EsperaConcat(a: seq<Solicitud>, b: seq<Solicitud>, p: int)
    ensures EnEspera(a + b, p) == EnEspera(a, p) + EnEspera(b, p)
  {
    if a == [] { assert a + b == b; }
    else { assert (a + b)[1..] == a[1..] + b; EsperaConcat(a[1..], b, p); }
  }

  function UnoSi(x: Instancia, p: int): nat { if x.ocupado && x.pid == p then 1 else 0 }

  lemma {:induction false} ServicioEn(es: seq<Instancia>, i: nat, p: int)
    requires i < |es|
    ensures EnServicio(es, p) == EnServicio(es[..i], p) + UnoSi(es[i], p) + EnServicio(es[i + 1..], p)
  {
    assert es == es[..i] + ([es[i]] + es[i + 1..]);
    ServicioConcat(es[..i], [es[i]] + es[i + 1..], p);
    ServicioConcat([es[i]], es[i + 1..], p);
    assert [es[i]][1..] == [];
  }

  lemma {:induction false} ServicioCambia(es: seq<Instancia>, i: nat, x: Instancia, p: int)
    requires i < |es|
    ensures EnServicio(es[i := x], p) + UnoSi(es[i], p) == EnServicio(es, p) + UnoSi(x, p)
  {
    ServicioEn(es, i, p);
    ServicioEn(es[i := x], i, p);
    assert es[i := x][..i] == es[..i] && es[i := x][i + 1..] == es[i + 1..];
  }

  lemma {:induction false} ServicioSin(es: seq<Instancia>, i: nat, p: int)
    requires i < |es|
    ensures EnServicio(es[..i] + es[i + 1..], p) + UnoSi(es[i], p) == EnServicio(es, p)
  {
    ServicioEn(es, i, p);
    ServicioConcat(es[..i], es[i + 1..], p);
  }

  lemma {:induction false} ServicioPositivo(es: seq<Instancia>, i: nat, p: int)
    requires i < |es| && es[i].ocupado && es[i].pid == p
    ensures EnServicio(es, p) > 0
  {
    ServicioEn(es, i, p);
  }

  lemma {:induction false} EsperaPositiva(ss: seq<Solicitud>, i: nat)
    requires i < |ss|
    ensures EnEspera(ss, ss[i].pid) > 0
  {
    if i > 0 { EsperaPositiva(ss[1..], i - 1); }
  }

  // ---------------------------------------------------------------- what dispatch does

  /** No group is left with a request waiting and an instance free. */
  predicate Trabajando(g: Grupo) {
    g.espera == [] || forall i :: 0 <= i < |g.instancias| ==> g.instancias[i].ocupado
  }

  /** Dispatch loses and repeats no request, and leaves none waiting for a free instance. */
  lemma {:induction false} DespacharConserva(g: Grupo, p: int)
    requires g.ultimo >= -1
    ensures Veces(Despachar(g), p) == Veces(g, p)
    ensures Trabajando(Despachar(g))
    decreases |g.espera|
  {
    var i := Siguiente(InstanciasLibres(g.instancias), g.ultimo);
    if g.espera != [] && i.Some? {
      var h := Asignada(g, i.valor);
      ServicioCambia(g.instancias, i.valor, h.instancias[i.valor], p);
      assert !g.instancias[i.valor].ocupado;
      DespacharConserva(h, p);
    }
  }

  /** Requests start in the order they arrived: what is taken is a prefix of the queue, as long
      as the free instances allow, and whoever was in service stays where it was. */
  lemma {:induction false} DespacharEnOrden(g: Grupo) returns (j: nat)
    requires g.ultimo >= -1
    ensures j <= |g.espera| && Despachar(g).espera == g.espera[j..]
    ensures forall i :: 0 <= i < |g.instancias| && g.instancias[i].ocupado ==> Despachar(g).instancias[i] == g.instancias[i]
    ensures forall i :: 0 <= i < |g.instancias| ==> Despachar(g).instancias[i].socket == g.instancias[i].socket
    ensures forall k :: 0 <= k < j ==>
              exists i :: 0 <= i < |g.instancias| && !g.instancias[i].ocupado
                          && Despachar(g).instancias[i] == Instancia(g.instancias[i].socket, true, g.espera[k].pid)
    decreases |g.espera|
  {
    var i := Siguiente(InstanciasLibres(g.instancias), g.ultimo);
    j := 0;
    if g.espera != [] && i.Some? {
      var h := Asignada(g, i.valor);
      var k := DespacharEnOrden(h);
      j := k + 1;
      assert h.espera[k..] == g.espera[j..];
      assert !g.instancias[i.valor].ocupado;
      forall q | 0 <= q < j
        ensures exists x :: 0 <= x < |g.instancias| && !g.instancias[x].ocupado
                            && Despachar(g).instancias[x] == Instancia(g.instancias[x].socket, true, g.espera[q].pid)
      {
        if q == 0 {
          assert Despachar(g).instancias[i.valor] == Instancia(g.instancias[i.valor].socket, true, g.espera[0].pid);
        } else {
          var x :| 0 <= x < |h.instancias| && !h.instancias[x].ocupado
                   && Despachar(h).instancias[x] == Instancia(h.instancias[x].socket, true, h.espera[q - 1].pid);
          assert !g.instancias[x].ocupado;
        }
      }
    }
  }

  /** In turn: the oldest request goes to the free instance nearest after the last one used, and
      the next one goes on from there. */
  lemma {:induction false} DespacharEnTurno(g: Grupo) returns (i: nat)
    requires g.ultimo >= -1 && g.espera != [] && exists j :: 0 <= j < |g.instancias| && !g.instancias[j].ocupado
    ensures i < |g.instancias| && !g.instancias[i].ocupado
    ensures Despachar(g).instancias[i] == Instancia(g.instancias[i].socket, true, g.espera[0].pid)
    ensures var inicio := (g.ultimo + 1) % |g.instancias|;
            forall j :: 0 <= j < |g.instancias| && !g.instancias[j].ocupado ==> Dist(inicio, i, |g.instancias|) <= Dist(inicio, j, |g.instancias|)
    ensures Despachar(g) == Despachar(Grupo(g.instancias[i := Instancia(g.instancias[i].socket, true, g.espera[0].pid)], g.espera[1..], i))
    ensures |g.espera| == 1 ==> Despachar(g).ultimo == i
  {
    i := ProximaLibre(g);
    var h := Asignada(g, i);
    assert Despachar(g) == Despachar(h) && h.instancias[i].ocupado;
    var k := DespacharEnOrden(h);
    assert h.espera == [] ==> Despachar(h) == h;
  }

  lemma {:induction false} ProximaLibre(g: Grupo) returns (i: nat)
    requires g.ultimo >= -1 && exists j :: 0 <= j < |g.instancias| && !g.instancias[j].ocupado
    ensures Siguiente(InstanciasLibres(g.instancias), g.ultimo) == Some(i) && i < |g.instancias| && !g.instancias[i].ocupado
    ensures var inicio := (g.ultimo + 1) % |g.instancias|;
            forall j :: 0 <= j < |g.instancias| && !g.instancias[j].ocupado ==> Dist(inicio, i, |g.instancias|) <= Dist(inicio, j, |g.instancias|)
  {
    var libres := InstanciasLibres(g.instancias);
    var j :| 0 <= j < |g.instancias| && !g.instancias[j].ocupado;
    assert libres[j];
    i := Siguiente(libres, g.ultimo).valor;
    forall j | 0 <= j < |g.instancias| && !g.instancias[j].ocupado
      ensures Dist((g.ultimo + 1) % |g.instancias|, i, |g.instancias|) <= Dist((g.ultimo + 1) % |g.instancias|, j, |g.instancias|)
    {
      assert libres[j];
    }
  }

  // ---------------------------------------------------------------- the group operations

  /** A request arrives at the end of the queue. */
  function Pedir(g: Grupo, s: Solicitud): Grupo
    requires g.ultimo >= -1
  {
    Despachar(g.(espera := g.espera + [s]))
  }

  /** The instance that finished is free again. */
  function Terminar(g: Grupo, i: nat): Grupo
    requires g.ultimo >= -1 && i < |g.instancias|
  {
    Despachar(g.(instancias := g.instancias[i := g.instancias[i].(ocupado := false)]))
  }

  function Conectar(g: Grupo, socket: int): Grupo
    requires g.ultimo >= -1
  {
    Despachar(g.(instancias := g.instancias + [Instancia(socket, false, 0)]))
  }

  /** The queue and instances after one goes: what it was serving is put back at the front. */
  function SinInstancia(g: Grupo, i: nat, recuperada: seq<Solicitud>): Grupo
    requires i < |g.instancias|
  {
    g.(espera := recuperada + g.espera, instancias := g.instancias[..i] + g.instancias[i + 1..])
  }

  lemma {:induction false} PedirVeces(g: Grupo, s: Solicitud, p: int)
    requires g.ultimo >= -1
    ensures Veces(Pedir(g, s), p) == Veces(g, p) + if s.pid == p then 1 else 0
    ensures Trabajando(Pedir(g, s))
  {
    EsperaConcat(g.espera, [s], p);
    assert [s][1..] == [];
    DespacharConserva(g.(espera := g.espera + [s]), p);
  }

  lemma {:induction false} TerminarVeces(g: Grupo, i: nat, p: int)
    requires g.ultimo >= -1 && i < |g.instancias|
    ensures Veces(Terminar(g, i), p) == Veces(g, p) - UnoSi(g.instancias[i], p)
    ensures Trabajando(Terminar(g, i))
  {
    var x := g.instancias[i].(ocupado := false);
    ServicioCambia(g.instancias, i, x, p);
    DespacharConserva(g.(instancias := g.instancias[i := x]), p);
  }

  lemma {:induction false} ConectarVeces(g: Grupo, socket: int, p: int)
    requires g.ultimo >= -1
    ensures Veces(Conectar(g, socket), p) == Veces(g, p)
    ensures Trabajando(Conectar(g, socket))
  {
    var x := Instancia(socket, false, 0);
    ServicioConcat(g.instancias, [x], p);
    assert [x][1..] == [];
    DespacharConserva(g.(instancias := g.instancias + [x]), p);
  }

  /** What an instance that goes was serving is not lost: it waits again, ahead of everybody. */
  lemma {:induction false} SinInstanciaVeces(g: Grupo, i: nat, recuperada: seq<Solicitud>, p: int)
    requires i < |g.instancias|
    requires if g.instancias[i].ocupado then |recuperada| == 1 && recuperada[0].pid == g.instancias[i].pid else recuperada == []
    ensures Veces(SinInstancia(g, i, recuperada), p) == Veces(g, p)
  {
    ServicioSin(g.instancias, i, p);
    EsperaConcat(recuperada, g.espera, p);
    if recuperada != [] { assert recuperada[1..] == []; }
  }
}
