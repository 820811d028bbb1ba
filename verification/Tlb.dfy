/** The CPU's TLB: what it may hold, and who it evicts under each policy. */
module Tlb {
  import opened Comunes
  import opened Aritmetica
  import opened Tenencia

  datatype EntradaTlb = EntradaTlb(ocupada: bool, pid: int, pagina: int, marco: int, timestamp: nat)

  const TLB_LIBRE := EntradaTlb(false, -1, -1, -1, 0)

  /** ENTRADAS... REEMPLAZO_TLB: with any other name a full TLB is left as it is. */
  datatype AlgTlb = Fifo | Lru | TlbDesconocido

  predicate EsTlb(x: EntradaTlb, c: Clave) {
    x.ocupada && x.pid == c.pid && x.pagina == c.pag
  }

  function DondeTlb(tlb: seq<EntradaTlb>, c: Clave): (r: nat)
    ensures r <= |tlb|
    ensures r < |tlb| ==> EsTlb(tlb[r], c)
    ensures forall i :: 0 <= i < r ==> !EsTlb(tlb[i], c)
  {
    if tlb == [] || EsTlb(tlb[0], c) then 0 else 1 + DondeTlb(tlb[1..], c)
  }

  function PrimeraLibre(tlb: seq<EntradaTlb>): (r: nat)
    ensures r <= |tlb|
    ensures r < |tlb| ==> !tlb[r].ocupada
    ensures forall i :: 0 <= i < r ==> tlb[i].ocupada
  {
    if tlb == [] || !tlb[0].ocupada then 0 else 1 + PrimeraLibre(tlb[1..])
  }

  /** The first entry with the oldest timestamp. */
  function MasViejo(tlb: seq<EntradaTlb>): (r: nat)
    requires tlb != []
    ensures r < |tlb|
    ensures forall i :: 0 <= i < |tlb| ==> tlb[r].timestamp <= tlb[i].timestamp
    ensures forall i :: 0 <= i < r ==> tlb[r].timestamp < tlb[i].timestamp
  {
    var n := |tlb| - 1;
    if n == 0 then 0
    else
      var v := MasViejo(tlb[..n]);
      assert forall i :: 0 <= i < n ==> tlb[..n][i] == tlb[i];
      if tlb[n].timestamp < tlb[v].timestamp then n else v
  }

  /** buscar_en_tlb: under LRU a hit refreshes the entry. */
  function TrasBuscar(alg: AlgTlb, tlb: seq<EntradaTlb>, c: Clave, ahora: nat): seq<EntradaTlb> {
    var i := DondeTlb(tlb, c);
    if i < |tlb| && alg == Lru then tlb[i := tlb[i].(timestamp := ahora)] else tlb
  }

  /** agregar_a_tlb: the first free entry, else the policy's victim. */
  function Agregar(alg: AlgTlb, tlb: seq<EntradaTlb>, puntero: nat, x: EntradaTlb): (seq<EntradaTlb>, nat)
    requires puntero < |tlb| || tlb == []
  {
    var i := PrimeraLibre(tlb);
    if i < |tlb| then (tlb[i := x], puntero)
    else if tlb == [] then (tlb, puntero)
    else
      match alg
      case Lru => (tlb[MasViejo(tlb) := x], puntero)
      case Fifo => (tlb[puntero := x], (puntero + 1) % |tlb|)
      case TlbDesconocido => (tlb, puntero)
  }

  /** One access to page c at time `ahora`: a lookup, and on a miss an insertion. With
      `refrescar` a hit is stamped whatever the policy. */
  function Acceder(alg: AlgTlb, refrescar: bool, tlb: seq<EntradaTlb>, puntero: nat, c: Clave, marco: nat, ahora: nat): (seq<EntradaTlb>, nat)
    requires puntero < |tlb| || tlb == []
  {
    if DondeTlb(tlb, c) < |tlb| then (TrasBuscar(if refrescar then Lru else alg, tlb, c, ahora), puntero)
    else Agregar(alg, tlb, puntero, EntradaTlb(true, c.pid, c.pag, marco, ahora))
  }

  // ---------------------------------------------------------------- coherence

  ghost predicate EntradaTlbOk(x: EntradaTlb, rutas: imap<Clave, nat>) {
    x.ocupada ==> x.pagina >= 0 && Clave(x.pid, x.pagina) in rutas && x.marco == rutas[Clave(x.pid, x.pagina)]
  }

  ghost predicate DistintasTlb(x: EntradaTlb, y: EntradaTlb) {
    x.ocupada && y.ocupada ==> x.pid != y.pid || x.pagina != y.pagina
  }

  /** Every entry is the page table's own translation, and no page has two. */
  ghost predicate TlbOk(tlb: seq<EntradaTlb>, rutas: imap<Clave, nat>) {
    && (forall i :: 0 <= i < |tlb| ==> EntradaTlbOk(tlb[i], rutas))
    && (forall i, j :: 0 <= i < j < |tlb| ==> DistintasTlb(tlb[i], tlb[j]))
  }

  ghost predicate SoloDeTlb(tlb: seq<EntradaTlb>, pid: int) {
    forall i :: 0 <= i < |tlb| && tlb[i].ocupada ==> tlb[i].pid == pid
  }

  lemma {:induction false} PonerTlbOk(tlb: seq<EntradaTlb>, rutas: imap<Clave, nat>, i: nat, x: EntradaTlb, pid: int)
    requires TlbOk(tlb, rutas) && i < |tlb| && EntradaTlbOk(x, rutas)
    requires forall j :: 0 <= j < |tlb| && j != i ==> DistintasTlb(tlb[j], x)
    ensures TlbOk(tlb[i := x], rutas)
    ensures SoloDeTlb(tlb, pid) && (x.ocupada ==> x.pid == pid) ==> SoloDeTlb(tlb[i := x], pid)
  {
  }

  /** Which entry an access writes, and what. */
  lemma {:induction false} AccederPone(alg: AlgTlb, refrescar: bool, tlb: seq<EntradaTlb>, puntero: nat, c: Clave, marco: nat, ahora: nat) returns (i: nat, x: EntradaTlb)
    requires puntero < |tlb| || tlb == []
    ensures Acceder(alg, refrescar, tlb, puntero, c, marco, ahora).0 == tlb
            || (i < |tlb| && Acceder(alg, refrescar, tlb, puntero, c, marco, ahora).0 == tlb[i := x])
    ensures if DondeTlb(tlb, c) < |tlb| then i == DondeTlb(tlb, c) && x == tlb[i].(timestamp := ahora)
            else x == EntradaTlb(true, c.pid, c.pag, marco, ahora)
  {
    i := DondeTlb(tlb, c);
    if i < |tlb| {
      x := tlb[i].(timestamp := ahora);
    } else {
      x := EntradaTlb(true, c.pid, c.pag, marco, ahora);
      i := PrimeraLibre(tlb);
      if i == |tlb| && tlb != [] { i := if alg == Lru then MasViejo(tlb) else puntero; }
    }
  }

  /** An access leaves the TLB coherent, and a hit is the page table's own answer. */
  lemma {:induction false} AccederTlbOk(alg: AlgTlb, refrescar: bool, tlb: seq<EntradaTlb>, puntero: nat, rutas: imap<Clave, nat>, c: Clave, ahora: nat)
    requires TlbOk(tlb, rutas) && (puntero < |tlb| || tlb == [])
    ensures var i := DondeTlb(tlb, c);
            i < |tlb| ==> c in rutas && tlb[i].marco == rutas[c]
    ensures c in rutas ==> var t := Acceder(alg, refrescar, tlb, puntero, c, rutas[c], ahora).0;
                           TlbOk(t, rutas) && (SoloDeTlb(tlb, c.pid) ==> SoloDeTlb(t, c.pid))
  {
    var d := DondeTlb(tlb, c);
    if d < |tlb| { assert EntradaTlbOk(tlb[d], rutas) && EsTlb(tlb[d], c); }
    if c in rutas {
      var i, x := AccederPone(alg, refrescar, tlb, puntero, c, rutas[c], ahora);
      if i < |tlb| {
        forall j | 0 <= j < |tlb| && j != i ensures DistintasTlb(tlb[j], x) {
          assert d < |tlb| ==> DistintasTlb(tlb[j], tlb[d]);
          assert d == |tlb| ==> !EsTlb(tlb[j], c) && EntradaTlbOk(tlb[j], rutas);
        }
        PonerTlbOk(tlb, rutas, i, x, c.pid);
      }
    }
  }

  /** A TLB that holds one process's pages outlives any change to the others' tables. */
  lemma {:induction false} TlbAjenaALosDemas(tlb: seq<EntradaTlb>, rutas: imap<Clave, nat>, otras: imap<Clave, nat>, pid: int)
    requires TlbOk(tlb, rutas) && SoloDeTlb(tlb, pid)
    requires forall c: Clave :: c.pid == pid && c in rutas ==> c in otras && otras[c] == rutas[c]
    ensures TlbOk(tlb, otras)
  {
  }

  // ---------------------------------------------------------------- FIFO is a bounded queue

  datatype Traza = Traza(pid: int, pagina: int, marco: int)

  function Trazas(tlb: seq<EntradaTlb>): (r: seq<Traza>)
    ensures |r| == |tlb|
    ensures forall i :: 0 <= i < |r| ==> r[i] == Traza(tlb[i].pid, tlb[i].pagina, tlb[i].marco)
  {
    if tlb == [] then [] else [Traza(tlb[0].pid, tlb[0].pagina, tlb[0].marco)] + Trazas(tlb[1..])
  }

  // Filled from entry 0 up; the pointer only moves once there is no free entry.
  ghost predicate FifoOk(tlb: seq<EntradaTlb>, puntero: nat) {
    && (puntero < |tlb| || tlb == [])
    && (forall i :: PrimeraLibre(tlb) <= i < |tlb| ==> !tlb[i].ocupada)
    && (PrimeraLibre(tlb) < |tlb| ==> puntero == 0)
  }

  function Rotada(tlb: seq<EntradaTlb>, puntero: nat): seq<EntradaTlb>
    requires puntero <= |tlb|
  {
    tlb[puntero..] + tlb[..puntero]
  }

  /** The translations in order of insertion: the array rotated at the pointer. */
  function Cola(tlb: seq<EntradaTlb>, puntero: nat): seq<Traza>
    requires puntero < |tlb| || tlb == []
  {
    if PrimeraLibre(tlb) < |tlb| then Trazas(tlb[..PrimeraLibre(tlb)])
    else if tlb == [] then []
    else Trazas(Rotada(tlb, puntero))
  }

  /** Under FIFO the TLB is a queue of as many entries as it has: an insertion enqueues, and
      when full the oldest insertion is the one that goes. */
  lemma {:induction false} FifoEsCola(tlb: seq<EntradaTlb>, puntero: nat, x: EntradaTlb)
    requires FifoOk(tlb, puntero) && x.ocupada && tlb != []
    ensures var (t, p) := Agregar(Fifo, tlb, puntero, x);
            && FifoOk(t, p)
            && Cola(t, p) == (if |Cola(tlb, puntero)| == |tlb| then Cola(tlb, puntero)[1..] else Cola(tlb, puntero))
                             + [Traza(x.pid, x.pagina, x.marco)]
  {
    var i := PrimeraLibre(tlb);
    if i < |tlb| {
      FifoEncola(tlb, i, x);
    } else {
      FifoRota(tlb, puntero, x);
    }
  }

  lemma {:induction false} FifoEncola(tlb: seq<EntradaTlb>, i: nat, x: EntradaTlb)
    requires FifoOk(tlb, 0) && x.ocupada && i == PrimeraLibre(tlb) < |tlb|
    ensures FifoOk(tlb[i := x], 0)
    ensures Cola(tlb[i := x], 0) == Cola(tlb, 0) + [Traza(x.pid, x.pagina, x.marco)]
  {
    var t := tlb[i := x];
    assert i + 1 < |tlb| ==> !tlb[i + 1].ocupada && t[i + 1] == tlb[i + 1];
    assert forall j :: 0 <= j <= i ==> t[j].ocupada;
    assert PrimeraLibre(t) == i + 1;
    assert Trazas(t[..i + 1]) == Trazas(tlb[..i]) + [Traza(x.pid, x.pagina, x.marco)];
    assert i + 1 == |t| ==> t[..i + 1] == t[0..] && Trazas(t[..0]) == [];
  }

  lemma {:induction false} RotadaSigue(tlb: seq<EntradaTlb>, p: nat, x: EntradaTlb)
    requires p < |tlb|
    ensures Rotada(tlb[p := x], (p + 1) % |tlb|) == Rotada(tlb, p)[1..] + [x]
  {
    var n := |tlb|;
    var t := tlb[p := x];
    assert t[p + 1..] == tlb[p + 1..] && t[..p + 1] == tlb[..p] + [x];
    assert Rotada(tlb, p)[1..] == tlb[p + 1..] + tlb[..p];
    if p + 1 < n {
      ModMenor(p + 1, n);
    } else {
      DivUnico(p + 1, n, 1, 0);
      assert t[0..] == t[..p + 1];
    }
  }

  lemma {:induction false} FifoRota(tlb: seq<EntradaTlb>, p: nat, x: EntradaTlb)
    requires FifoOk(tlb, p) && x.ocupada && PrimeraLibre(tlb) == |tlb| && p < |tlb|
    ensures var q := (p + 1) % |tlb|;
            FifoOk(tlb[p := x], q)
            && Cola(tlb[p := x], q) == Cola(tlb, p)[1..] + [Traza(x.pid, x.pagina, x.marco)]
  {
    var t := tlb[p := x];
    assert PrimeraLibre(t) == |t|;
    RotadaSigue(tlb, p, x);
    var r := Rotada(tlb, p);
    assert Trazas(r[1..] + [x]) == Trazas(r)[1..] + [Traza(x.pid, x.pagina, x.marco)];
  }

  // ---------------------------------------------------------------- LRU

  /** The accesses so far, latest last. */
  datatype Uso = Uso(clave: Clave, instante: nat)

  function UltimoUso(historia: seq<Uso>, c: Clave): nat
  {
    if historia == [] then 0
    else if historia[|historia| - 1].clave == c then historia[|historia| - 1].instante
    else UltimoUso(historia[..|historia| - 1], c)
  }

  // Each entry's timestamp is when its page was last used.
  ghost predicate LruOk(tlb: seq<EntradaTlb>, historia: seq<Uso>) {
    forall i :: 0 <= i < |tlb| && tlb[i].ocupada && tlb[i].pagina >= 0 ==>
      tlb[i].timestamp == UltimoUso(historia, Clave(tlb[i].pid, tlb[i].pagina))
  }

  // ---------------------------------------------------------------- every list of accesses

  /** One translation asked for: the page, the frame the page table has for it, and when. */
  datatype Acceso = Acceso(clave: Clave, marco: nat, ahora: nat, refrescar: bool)

  /** limpiar_tlb: n free entries, with the pointer at the first. */
  function Vaciada(n: nat): (r: seq<EntradaTlb>)
    ensures |r| == n && forall i :: 0 <= i < n ==> r[i] == TLB_LIBRE
  {
    seq(n, _ => TLB_LIBRE)
  }

  /** The TLB and its pointer after all the accesses since it was emptied. */
  function Plegar(alg: AlgTlb, n: nat, acs: seq<Acceso>): (r: (seq<EntradaTlb>, nat))
    ensures |r.0| == n && (r.1 < n || n == 0)
  {
    if acs == [] then (Vaciada(n), 0)
    else
      var (t, p) := Plegar(alg, n, acs[..|acs| - 1]);
      var a := acs[|acs| - 1];
      Acceder(alg, a.refrescar, t, p, a.clave, a.marco, a.ahora)
  }

  lemma {:induction false} PlegarSigue(alg: AlgTlb, n: nat, acs: seq<Acceso>, a: Acceso)
    ensures var (t, p) := Plegar(alg, n, acs);
            Plegar(alg, n, acs + [a]) == Acceder(alg, a.refrescar, t, p, a.clave, a.marco, a.ahora)
  {
  }

  // Entry by entry, and the pointer (number |t|): what the accesses make of an empty TLB.
  ghost predicate Plegado(alg: AlgTlb, t: seq<EntradaTlb>, p: nat, acs: seq<Acceso>) {
    forall i :: 0 <= i <= |t| ==> EnPliegue(alg, t, p, acs, i)
  }

  ghost predicate EnPliegue(alg: AlgTlb, t: seq<EntradaTlb>, p: nat, acs: seq<Acceso>, i: nat)
    requires i <= |t|
  {
    if i == |t| then p == Plegar(alg, |t|, acs).1 else t[i] == Plegar(alg, |t|, acs).0[i]
  }

  lemma {:induction false} PlegadoEs(alg: AlgTlb, t: seq<EntradaTlb>, p: nat, acs: seq<Acceso>)
    ensures Plegado(alg, t, p, acs) <==> (t, p) == Plegar(alg, |t|, acs)
  {
    if Plegado(alg, t, p, acs) {
      assert EnPliegue(alg, t, p, acs, |t|);
      var u := Plegar(alg, |t|, acs).0;
      forall i | 0 <= i < |t| ensures t[i] == u[i] { assert EnPliegue(alg, t, p, acs, i); }
      assert t == u;
    }
  }

  lemma {:induction false} PlegadoSigue(alg: AlgTlb, t: seq<EntradaTlb>, p: nat, acs: seq<Acceso>, u: seq<EntradaTlb>, q: nat, a: Acceso)
    requires Plegado(alg, t, p, acs) && (p < |t| || t == []) && |u| == |t|
    requires (u, q) == Acceder(alg, a.refrescar, t, p, a.clave, a.marco, a.ahora)
    ensures Plegado(alg, u, q, acs + [a])
  {
    PlegadoEs(alg, t, p, acs);
    PlegarSigue(alg, |t|, acs, a);
    PlegadoEs(alg, u, q, acs + [a]);
  }

  lemma {:induction false} PlegadoVacio(alg: AlgTlb, t: seq<EntradaTlb>)
    requires forall i :: 0 <= i < |t| ==> t[i] == TLB_LIBRE
    ensures Plegado(alg, t, 0, [])
  {
    assert t == Vaciada(|t|);
    PlegadoEs(alg, t, 0, []);
  }

  // No page twice.
  ghost predicate SinRepetir(tlb: seq<EntradaTlb>) {
    && (forall i :: 0 <= i < |tlb| && tlb[i].ocupada ==> tlb[i].pagina >= 0)
    && (forall i, j :: 0 <= i < j < |tlb| ==> DistintasTlb(tlb[i], tlb[j]))
  }

  lemma {:induction false} PlegarSinRepetir(alg: AlgTlb, n: nat, acs: seq<Acceso>)
    ensures SinRepetir(Plegar(alg, n, acs).0)
  {
    if acs != [] { PlegarSinRepetir(alg, n, acs[..|acs| - 1]); }
  }

  // What an access adds to the misses.
  function Fallo(t: seq<EntradaTlb>, a: Acceso): seq<Traza> {
    if DondeTlb(t, a.clave) < |t| then [] else [Traza(a.clave.pid, a.clave.pag, a.marco)]
  }

  /** The misses among the accesses, in order. */
  function Fallos(alg: AlgTlb, n: nat, acs: seq<Acceso>): seq<Traza> {
    if acs == [] then []
    else
      var previos, a := acs[..|acs| - 1], acs[|acs| - 1];
      Fallos(alg, n, previos) + Fallo(Plegar(alg, n, previos).0, a)
  }

  function Ultimas(k: nat, s: seq<Traza>): seq<Traza> { if |s| <= k then s else s[|s| - k..] }

  lemma {:induction false} MismaPrimeraLibre(a: seq<EntradaTlb>, b: seq<EntradaTlb>)
    requires |a| == |b| && forall i :: 0 <= i < |a| ==> a[i].ocupada == b[i].ocupada
    ensures PrimeraLibre(a) == PrimeraLibre(b)
  {
  }

  lemma {:induction false} MismasTrazas(a: seq<EntradaTlb>, b: seq<EntradaTlb>)
    requires |a| == |b| && forall i :: 0 <= i < |a| ==> a[i].(timestamp := 0) == b[i].(timestamp := 0)
    ensures Trazas(a) == Trazas(b)
  {
  }

  /** A hit leaves the queue as it is. */
  lemma {:induction false} AciertoFifo(tlb: seq<EntradaTlb>, puntero: nat, i: nat, ahora: nat)
    requires FifoOk(tlb, puntero) && i < |tlb|
    ensures var t := tlb[i := tlb[i].(timestamp := ahora)];
            FifoOk(t, puntero) && Cola(t, puntero) == Cola(tlb, puntero)
  {
    var t := tlb[i := tlb[i].(timestamp := ahora)];
    MismaPrimeraLibre(t, tlb);
    var k := PrimeraLibre(tlb);
    if k < |tlb| {
      MismasTrazas(t[..k], tlb[..k]);
    } else {
      MismasTrazas(Rotada(t, puntero), Rotada(tlb, puntero));
    }
  }

  lemma {:induction false} AccesoFifo(tlb: seq<EntradaTlb>, puntero: nat, a: Acceso)
    requires FifoOk(tlb, puntero) && tlb != []
    ensures var (t, p) := Acceder(Fifo, a.refrescar, tlb, puntero, a.clave, a.marco, a.ahora);
            var q := Cola(tlb, puntero);
            && FifoOk(t, p)
            && Cola(t, p) == if DondeTlb(tlb, a.clave) < |tlb| then q
                             else (if |q| == |tlb| then q[1..] else q) + [Traza(a.clave.pid, a.clave.pag, a.marco)]
  {
    var i := DondeTlb(tlb, a.clave);
    if i < |tlb| {
      AciertoFifo(tlb, puntero, i, a.ahora);
    } else {
      FifoEsCola(tlb, puntero, EntradaTlb(true, a.clave.pid, a.clave.pag, a.marco, a.ahora));
    }
  }

  lemma {:induction false} UltimasSigue(n: nat, s: seq<Traza>, x: Traza)
    requires n > 0
    ensures Ultimas(n, s + [x]) == (if |Ultimas(n, s)| == n then Ultimas(n, s)[1..] else Ultimas(n, s)) + [x]
  {
  }

  lemma {:induction false} FifoVacia(n: nat)
    requires n > 0
    ensures FifoOk(Vaciada(n), 0) && Cola(Vaciada(n), 0) == []
  {
  }

  /** Under FIFO, whatever has been asked since it was emptied, the TLB holds the last |tlb|
      misses, and read from the pointer on they are in order: the oldest goes first. */
  lemma {:induction false} FifoGuardaLosUltimos(n: nat, acs: seq<Acceso>)
    requires n > 0
    ensures var (t, p) := Plegar(Fifo, n, acs);
            FifoOk(t, p) && Cola(t, p) == Ultimas(n, Fallos(Fifo, n, acs))
  {
    if acs == [] {
      FifoVacia(n);
    } else {
      var previos := acs[..|acs| - 1];
      FifoGuardaLosUltimos(n, previos);
      var (t, p) := Plegar(Fifo, n, previos);
      FifoSigue(t, p, acs[|acs| - 1], Fallos(Fifo, n, previos));
    }
  }

  lemma {:induction false} FifoSigue(t: seq<EntradaTlb>, p: nat, a: Acceso, fallos: seq<Traza>)
    requires t != [] && FifoOk(t, p) && Cola(t, p) == Ultimas(|t|, fallos)
    ensures var (u, q) := Acceder(Fifo, a.refrescar, t, p, a.clave, a.marco, a.ahora);
            FifoOk(u, q) && Cola(u, q) == Ultimas(|t|, fallos + Fallo(t, a))
  {
    AccesoFifo(t, p, a);
    UltimasSigue(|t|, fallos, Traza(a.clave.pid, a.clave.pag, a.marco));
    assert fallos + [] == fallos;
  }

  function Historia(acs: seq<Acceso>): (r: seq<Uso>)
    ensures |r| == |acs|
  {
    if acs == [] then [] else Historia(acs[..|acs| - 1]) + [Uso(acs[|acs| - 1].clave, acs[|acs| - 1].ahora)]
  }

  /** Under LRU each entry's timestamp is when its page was last asked for. */
  lemma {:induction false} LruSellaElUltimoUso(n: nat, acs: seq<Acceso>)
    ensures LruOk(Plegar(Lru, n, acs).0, Historia(acs))
  {
    if acs != [] {
      var previos, a := acs[..|acs| - 1], acs[|acs| - 1];
      LruSellaElUltimoUso(n, previos);
      PlegarSinRepetir(Lru, n, previos);
      var (t, p) := Plegar(Lru, n, previos);
      assert Historia(acs)[..|acs| - 1] == Historia(previos);
      AccesoLru(t, p, Historia(previos), a);
    }
  }

  lemma {:induction false} AccesoLru(tlb: seq<EntradaTlb>, puntero: nat, historia: seq<Uso>, a: Acceso)
    requires SinRepetir(tlb) && LruOk(tlb, historia) && (puntero < |tlb| || tlb == [])
    ensures LruOk(Acceder(Lru, a.refrescar, tlb, puntero, a.clave, a.marco, a.ahora).0, historia + [Uso(a.clave, a.ahora)])
  {
  }

  /** So whenever a miss evicts a page, it is one whose last use is the earliest of all those
      the TLB holds, whatever was asked since it was emptied. */
  lemma {:induction false} LruDesalojaMenosUsada(n: nat, acs: seq<Acceso>, a: Acceso)
    requires var t := Plegar(Lru, n, acs).0; n > 0 && DondeTlb(t, a.clave) == n == PrimeraLibre(t)
    ensures var t := Plegar(Lru, n, acs).0;
            exists v :: 0 <= v < n && Plegar(Lru, n, acs + [a]).0 == t[v := EntradaTlb(true, a.clave.pid, a.clave.pag, a.marco, a.ahora)]
                        && EsPagina(t, v)
                        && forall i :: 0 <= i < n ==> EsPagina(t, i) && UsoDe(t, v, acs) <= UsoDe(t, i, acs)
  {
    LruSellaElUltimoUso(n, acs);
    PlegarSinRepetir(Lru, n, acs);
    var (t, p) := Plegar(Lru, n, acs);
    assert (acs + [a])[..|acs|] == acs;
    var v := MasViejo(t);
    forall i | 0 <= i < n ensures EsPagina(t, i) && UsoDe(t, i, acs) == t[i].timestamp {
      assert t[i].ocupada;
    }
  }

  predicate EsPagina(t: seq<EntradaTlb>, i: int) { 0 <= i < |t| && t[i].pagina >= 0 }

  /** When the page of entry i was last asked for. */
  function UsoDe(t: seq<EntradaTlb>, i: int, acs: seq<Acceso>): nat
    requires EsPagina(t, i)
  {
    UltimoUso(Historia(acs), Clave(t[i].pid, t[i].pagina))
  }
}
