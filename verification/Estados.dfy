/** A process as the kernel keeps it: its state, and the metrics that changing it accumulates. */
module Estados {
  import opened Comunes

  datatype Estado = New | Ready | Running | Blocked | SuspBlocked | SuspReady | Exit

  /** The seven-state diagram. */
  predicate Arista(a: Estado, b: Estado) {
    match a
    case New => b == Ready
    case Ready => b == Running
    case Running => b == Ready || b == Blocked || b == Exit
    case Blocked => b == Ready || b == SuspBlocked || b == Exit
    case SuspBlocked => b == SuspReady || b == Exit
    case SuspReady => b == Ready
    case Exit => false
  }

  /** t_metricas: milliseconds in, and entries to, each state. Both suspended states share one. */
  datatype Metricas = Metricas(
    tNew: int, tReady: int, tRunning: int, tBlocked: int, tSusp: int,
    iNew: nat, iReady: nat, iRunning: nat, iBlocked: nat, iSusp: nat)

  /** `creado` is the first value of `ultimoCambio`, kept to say what the metrics add up to. */
  datatype Pcb = Pcb(
    estado: Estado, pc: int, tam: nat, estimacion: real, rafagaAnterior: int, inicio: int,
    bloqueoIo: int, metricas: Metricas, ultimoCambio: int, creado: int)

  function PcbNuevo(tam: nat, estimacion: real, t: int): Pcb {
    Pcb(New, 0, tam, estimacion, 0, 0, 0, Metricas(0, 0, 0, 0, 0, 1, 0, 0, 0, 0), t, t)
  }

  function Acumular(m: Metricas, e: Estado, dt: int): Metricas {
    match e
    case New => m.(tNew := m.tNew + dt)
    case Ready => m.(tReady := m.tReady + dt)
    case Running => m.(tRunning := m.tRunning + dt)
    case Blocked => m.(tBlocked := m.tBlocked + dt)
    case SuspBlocked => m.(tSusp := m.tSusp + dt)
    case SuspReady => m.(tSusp := m.tSusp + dt)
    case Exit => m
  }

  function Ingresar(m: Metricas, e: Estado): Metricas {
    match e
    case New => m.(iNew := m.iNew + 1)
    case Ready => m.(iReady := m.iReady + 1)
    case Running => m.(iRunning := m.iRunning + 1)
    case Blocked => m.(iBlocked := m.iBlocked + 1)
    case SuspBlocked => m.(iSusp := m.iSusp + 1)
    case SuspReady => m.(iSusp := m.iSusp + 1)
    case Exit => m
  }

  /** cambiar_estado: nothing at all when the state is already the one asked for. */
  function CambiarEstado(p: Pcb, e: Estado, t: int): Pcb {
    if p.estado == e then p
    else p.(estado := e, ultimoCambio := t, metricas := Ingresar(Acumular(p.metricas, p.estado, t - p.ultimoCambio), e))
  }

  function Suma(m: Metricas): int { m.tNew + m.tReady + m.tRunning + m.tBlocked + m.tSusp }

  /** The accumulated times add up to the time since creation up to the last change, none is
      negative, and READY has been entered once more than left exactly while in it. */
  ghost predicate MetricasOk(p: Pcb, reloj: int) {
    var m := p.metricas;
    && Suma(m) == p.ultimoCambio - p.creado
    && m.tNew >= 0 && m.tReady >= 0 && m.tRunning >= 0 && m.tBlocked >= 0 && m.tSusp >= 0
    && p.ultimoCambio <= reloj
    && m.iReady - m.iRunning == (if p.estado == Ready then 1 else 0)
    && m.iNew == 1
  }

  lemma {:induction false} CambiarMetricas(p: Pcb, e: Estado, t: int, reloj: int)
    requires MetricasOk(p, reloj) && reloj <= t && (p.estado == e || Arista(p.estado, e))
    ensures MetricasOk(CambiarEstado(p, e, t), t)
  {
  }
}
/** The seven queues, and moving a process from the one it is in to the end of another. */
module Colas {
  import opened Comunes
  import opened Estados

  datatype Procesos = Procesos(pcbs: map<int, Pcb>, colas: map<Estado, seq<int>>)

  function Cola(s: Procesos, e: Estado): seq<int> {
    if e in s.colas then s.colas[e] else []
  }

  predicate SinRepetidos(q: seq<int>) { forall i, j :: 0 <= i < j < |q| ==> q[i] != q[j] }

  /** list_remove_element: the first occurrence. */
  function Quitar(q: seq<int>, p: int): seq<int> {
    if q == [] then q
    else if q[0] == p then q[1..]
    else [q[0]] + Quitar(q[1..], p)
  }

  lemma {:induction false} QuitarDice(q: seq<int>, p: int)
    requires SinRepetidos(q)
    ensures var r := Quitar(q, p);
            && SinRepetidos(r) && (forall x :: x in r <==> x in q && x != p)
            && |r| == (if p in q then |q| - 1 else |q|)
            && (q != [] && q[0] == p ==> r == q[1..])
  {
    if q != [] {
      assert q == [q[0]] + q[1..] && q[0] !in q[1..];
      QuitarDice(q[1..], p);
      assert q[0] != p ==> Quitar(q, p)[1..] == Quitar(q[1..], p);
    }
  }

  /** Each process is in exactly one queue, once, and it is the queue of its state. */
  ghost predicate Particion(s: Procesos) {
    && (forall e :: SinRepetidos(Cola(s, e)))
    && (forall e, p :: p in Cola(s, e) <==> p in s.pcbs && s.pcbs[p].estado == e)
  }

  /** Out of the queue of its state, to the end of the queue of e. */
  function Mover(s: Procesos, p: int, e: Estado, t: int): Procesos {
    if p !in s.pcbs || s.pcbs[p].estado == e then s
    else
      var de := s.pcbs[p].estado;
      Procesos(s.pcbs[p := CambiarEstado(s.pcbs[p], e, t)],
               s.colas[de := Quitar(Cola(s, de), p)][e := Cola(s, e) + [p]])
  }

  // Process p alone has gone from the queue of its state to the end of that of e.
  ghost predicate Movido(s: Procesos, r: Procesos, p: int, e: Estado, t: int) {
    && p in s.pcbs && s.pcbs[p].estado != e && r.pcbs == s.pcbs[p := CambiarEstado(s.pcbs[p], e, t)]
    && Cola(r, e) == Cola(s, e) + [p] && |Cola(r, s.pcbs[p].estado)| == |Cola(s, s.pcbs[p].estado)| - 1
    && (forall f :: f != e && f != s.pcbs[p].estado ==> Cola(r, f) == Cola(s, f))
  }

  lemma {:induction false} MoverConserva(s: Procesos, p: int, e: Estado, t: int)
    requires Particion(s) && p in s.pcbs && s.pcbs[p].estado != e
    ensures Particion(Mover(s, p, e, t)) && Movido(s, Mover(s, p, e, t), p, e, t)
  {
    var de := s.pcbs[p].estado;
    assert p in Cola(s, de) && SinRepetidos(Cola(s, de)) && SinRepetidos(Cola(s, e));
    QuitarDice(Cola(s, de), p);
    var r := Mover(s, p, e, t);
    assert p !in Cola(s, e);
    forall f ensures SinRepetidos(Cola(r, f)) { assert SinRepetidos(Cola(s, f)); }
    forall f, q ensures q in Cola(r, f) <==> q in r.pcbs && r.pcbs[q].estado == f {
      assert q in Cola(s, f) <==> q in s.pcbs && s.pcbs[q].estado == f;
    }
  }

  /** A new process, at the end of NEW. */
  function Alta(s: Procesos, p: int, pcb: Pcb): Procesos {
    Procesos(s.pcbs[p := pcb], s.colas[New := Cola(s, New) + [p]])
  }

  lemma {:induction false} AltaConserva(s: Procesos, p: int, pcb: Pcb)
    requires Particion(s) && p !in s.pcbs && pcb.estado == New
    ensures Particion(Alta(s, p, pcb))
  {
    var r := Alta(s, p, pcb);
    forall f ensures SinRepetidos(Cola(r, f)) { assert SinRepetidos(Cola(s, f)); }
    forall f, q ensures q in Cola(r, f) <==> q in r.pcbs && r.pcbs[q].estado == f {
      assert q in Cola(s, f) <==> q in s.pcbs && s.pcbs[q].estado == f;
    }
  }

  /** The first process of EXIT is freed. */
  function Baja(s: Procesos): Procesos
    requires Cola(s, Exit) != []
  {
    Procesos(s.pcbs - {Cola(s, Exit)[0]}, s.colas[Exit := Cola(s, Exit)[1..]])
  }

  lemma {:induction false} PrimeroUnico(q: seq<int>)
    requires q != [] && SinRepetidos(q)
    ensures SinRepetidos(q[1..]) && forall x :: x in q[1..] <==> x in q && x != q[0]
  {
  }

  lemma {:induction false} BajaConserva(s: Procesos)
    requires Particion(s) && Cola(s, Exit) != []
    ensures Particion(Baja(s))
  {
    var r, p := Baja(s), Cola(s, Exit)[0];
    PrimeroUnico(Cola(s, Exit));
    forall f ensures SinRepetidos(Cola(r, f)) { assert SinRepetidos(Cola(s, f)); }
    forall f, q ensures q in Cola(r, f) <==> q in r.pcbs && r.pcbs[q].estado == f {
      assert q in Cola(s, f) <==> q in s.pcbs && s.pcbs[q].estado == f;
      assert p in Cola(s, Exit);
    }
  }

  ghost predicate Reordena(q: seq<int>, orden: seq<int>) { multiset(orden) == multiset(q) }

  lemma {:induction false} ReordenaMismos(q: seq<int>, orden: seq<int>)
    requires Reordena(q, orden)
    ensures |orden| == |q| && (forall x :: x in orden <==> x in q)
    ensures SinRepetidos(q) ==> SinRepetidos(orden)
  {
    assert |multiset(orden)| == |orden| && |multiset(q)| == |q|;
    forall x ensures x in orden <==> x in q {
      assert x in orden <==> x in multiset(orden);
      assert x in q <==> x in multiset(q);
    }
    if SinRepetidos(q) {
      forall i, j | 0 <= i < j < |orden| ensures orden[i] != orden[j] {
        if orden[i] == orden[j] {
          DosVeces(orden, i, j);
          UnaVez(q, orden[i]);
        }
      }
    }
  }

  lemma {:induction false} DosVeces(q: seq<int>, i: nat, j: nat)
    requires i < j < |q| && q[i] == q[j]
    ensures multiset(q)[q[i]] >= 2
  {
    assert q == q[..j] + [q[j]] + q[j + 1..];
    assert q[..j][i] == q[i];
    assert multiset(q) == multiset(q[..j]) + multiset([q[j]]) + multiset(q[j + 1..]);
    assert q[i] in multiset(q[..j]);
  }

  lemma {:induction false} UnaVez(q: seq<int>, x: int)
    requires SinRepetidos(q)
    ensures multiset(q)[x] <= 1
  {
    if q != [] {
      assert q == [q[0]] + q[1..];
      UnaVez(q[1..], x);
      if x == q[0] { assert x !in q[1..]; assert x !in multiset(q[1..]); }
    }
  }

  /** list_sort on the queue of e: `orden` is what it leaves. */
  function Reordenar(s: Procesos, e: Estado, orden: seq<int>): Procesos {
    s.(colas := s.colas[e := orden])
  }

  lemma {:induction false} ReordenarConserva(s: Procesos, e: Estado, orden: seq<int>)
    requires Particion(s) && Reordena(Cola(s, e), orden)
    ensures Particion(Reordenar(s, e, orden)) && |orden| == |Cola(s, e)|
  {
    var r := Reordenar(s, e, orden);
    ReordenaMismos(Cola(s, e), orden);
    forall f ensures SinRepetidos(Cola(r, f)) { assert SinRepetidos(Cola(s, f)); }
    forall f, q ensures q in Cola(r, f) <==> q in r.pcbs && r.pcbs[q].estado == f {
      assert q in Cola(s, f) <==> q in s.pcbs && s.pcbs[q].estado == f;
    }
  }
}
