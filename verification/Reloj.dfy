/** The cache as its policy sees it, over any list of accesses: a use bit is up exactly when its
    page was accessed since the pointer last passed it, a modified bit exactly when it was
    written since it came in, and who is evicted follows from that. */
module Reloj {
  import opened Comunes
  import opened Ronda
  import opened Tenencia
  import opened Cache
  import opened Reemplazo

  /** An entry without its frame and its bytes. */
  function Ficha(x: EntradaCache): EntradaCache {
    if x.ocupado then x.(marco := 0, contenido := []) else EntradaCache(false, -1, -1, 0, [], false, false)
  }

  function Fichas(a: seq<EntradaCache>): (r: seq<EntradaCache>)
    ensures |r| == |a| && forall i :: 0 <= i < |a| ==> r[i] == Ficha(a[i])
  {
    seq(|a|, i requires 0 <= i < |a| => Ficha(a[i]))
  }

  /** The best of the first k entries going round from the pointer, the first of its class. */
  function Mejor(alg: AlgCache, a: seq<EntradaCache>, p: nat, k: nat): (r: nat)
    requires p < |a| && 0 < k <= |a|
    ensures r < |a| && Dist(p, r, |a|) < k
    ensures forall i :: 0 <= i < |a| && Dist(p, i, |a|) < k ==>
              Clase(alg, a[r]) < Clase(alg, a[i])
              || (Clase(alg, a[r]) == Clase(alg, a[i]) && Dist(p, r, |a|) <= Dist(p, i, |a|))
  {
    if k == 1 then p
    else
      var r := Mejor(alg, a, p, k - 1);
      var g := Giro(p, k - 1, |a|);
      if Clase(alg, a[g]) < Clase(alg, a[r]) then g else r
  }

  function Victima(alg: AlgCache, a: seq<EntradaCache>, p: nat): (v: nat)
    requires p < |a|
    ensures v < |a| && EsVictima(alg, a, p, v)
  {
    Mejor(alg, a, p, |a|)
  }

  /** One access to page c: a hit, a free entry, or the victim's. */
  function TrasAcceso(alg: AlgCache, a: seq<EntradaCache>, p: nat, c: Clave, escribe: bool): (r: (seq<EntradaCache>, nat))
    requires p < |a| || a == []
    ensures |r.0| == |a| && (r.1 < |a| || a == [])
  {
    var x := EntradaCache(true, c.pid, c.pag, 0, [], true, escribe);
    if Donde(a, c) < |a| then
      var y := a[Donde(a, c)];
      (a[Donde(a, c) := y.(uso := true, modificado := y.modificado || escribe)], p)
    else if Hueco(a) < |a| then (a[Hueco(a) := x], p)
    else if a == [] || alg.CacheDesconocido? then (a, p)
    else
      var v := Victima(alg, a, p);
      (seq(|a|, i requires 0 <= i < |a| => if i == v then x else Bajado(alg, a, p, v, i)), if alg == Clock then v else (v + 1) % |a|)
  }

  // ---------------------------------------------------------------- the real cache

  lemma {:induction false} FichasIguales(a: seq<EntradaCache>, c: Clave)
    ensures Donde(Fichas(a), c) == Donde(a, c) && Hueco(Fichas(a)) == Hueco(a)
  {
    var fs := Fichas(a);
    assert forall i :: 0 <= i < |a| ==> (Es(fs[i], c) <==> Es(a[i], c)) && fs[i].ocupado == a[i].ocupado;
    var i, j := Donde(fs, c), Donde(a, c);
    assert i < |a| ==> Es(a[i], c);
    assert j < |a| ==> Es(fs[j], c);
    var g, h := Hueco(fs), Hueco(a);
    assert g < |a| ==> !a[g].ocupado;
    assert h < |a| ==> !fs[h].ocupado;
  }

  /** A hit in the real cache, to read or to write. */
  lemma {:induction false} AciertoEnFichas(alg: AlgCache, a: seq<EntradaCache>, p: nat, c: Clave, escribe: bool, y: EntradaCache)
    requires (p < |a| || a == []) && Donde(a, c) < |a|
    requires Ficha(y) == Ficha(a[Donde(a, c)]).(uso := true, modificado := a[Donde(a, c)].modificado || escribe)
    ensures Accedida(alg, a, p, a[Donde(a, c) := y], p, c, escribe)
  {
    FichasIguales(a, c);
    var i := Donde(a, c);
    assert Fichas(a[i := y]) == Fichas(a)[i := Ficha(y)];
    AccedidaDe(alg, a, p, a[i := y], p, c, escribe);
  }

  lemma {:induction false} VictimaEnFichas(alg: AlgCache, a: seq<EntradaCache>, p: nat, v: nat)
    requires p < |a| && EsVictima(alg, a, p, v) && Hueco(a) == |a|
    ensures v == Victima(alg, Fichas(a), p)
  {
    var fs := Fichas(a);
    forall i | 0 <= i < |a| ensures Clase(alg, fs[i]) == Clase(alg, a[i]) { assert a[i].ocupado; }
    VictimaUnica(alg, fs, p, v, Victima(alg, fs, p));
  }

  lemma {:induction false} SustituidaEnFichas(alg: AlgCache, a: seq<EntradaCache>, p: nat, e: Entorno, x: EntradaCache, v: nat, b: seq<EntradaCache>, q: nat, f: Entorno, c: Clave)
    requires p < |a| && Sustituida(alg, a, p, e, x, v, b, q, f) && Hueco(a) == |a| && Donde(a, c) == |a| && !alg.CacheDesconocido?
    requires Es(x, c) && x.uso
    ensures (Fichas(b), q) == TrasAcceso(alg, Fichas(a), p, c, x.modificado)
  {
    FichasIguales(a, c);
    VictimaEnFichas(alg, a, p, v);
    var fs := Fichas(a);
    assert a[v].ocupado;
    forall i | 0 <= i < |a| ensures Ficha(b[i]) == if i == v then Ficha(x) else Bajado(alg, fs, p, v, i) { assert a[i].ocupado; }
    assert Fichas(b) == TrasAcceso(alg, fs, p, c, x.modificado).0;
  }

  /** And a miss. */
  lemma {:induction false} InsercionEnFichas(alg: AlgCache, a: seq<EntradaCache>, p: nat, e: Entorno, x: EntradaCache, b: seq<EntradaCache>, q: nat, f: Entorno, c: Clave)
    requires (p < |a| || a == []) && Insertada(alg, a, p, e, x, b, q, f) && Donde(a, c) == |a| && Es(x, c) && x.uso
    ensures Accedida(alg, a, p, b, q, c, x.modificado)
  {
    FichasIguales(a, c);
    if Hueco(a) < |a| {
      assert Fichas(b) == Fichas(a)[Hueco(a) := Ficha(x)];
    } else if a != [] && !alg.CacheDesconocido? {
      var v: nat :| Sustituida(alg, a, p, e, x, v, b, q, f);
      SustituidaEnFichas(alg, a, p, e, x, v, b, q, f, c);
    }
    AccedidaDe(alg, a, p, b, q, c, x.modificado);
  }

  // From a and p to b and q there is one access to c: so every entry, and the pointer (number |a|).
  ghost predicate Accedida(alg: AlgCache, a: seq<EntradaCache>, p: nat, b: seq<EntradaCache>, q: nat, c: Clave, escribe: bool) {
    (p < |a| || a == []) && |b| == |a| && forall i :: 0 <= i <= |a| ==> EnAcceso(alg, a, p, b, q, c, escribe, i)
  }

  ghost predicate EnAcceso(alg: AlgCache, a: seq<EntradaCache>, p: nat, b: seq<EntradaCache>, q: nat, c: Clave, escribe: bool, i: nat)
    requires (p < |a| || a == []) && |b| == |a| && i <= |a|
  {
    if i == |a| then q == TrasAcceso(alg, Fichas(a), p, c, escribe).1
    else Ficha(b[i]) == TrasAcceso(alg, Fichas(a), p, c, escribe).0[i]
  }

  lemma {:induction false} AccedidaEs(alg: AlgCache, a: seq<EntradaCache>, p: nat, b: seq<EntradaCache>, q: nat, c: Clave, escribe: bool)
    requires Accedida(alg, a, p, b, q, c, escribe)
    ensures (Fichas(b), q) == TrasAcceso(alg, Fichas(a), p, c, escribe)
  {
    assert EnAcceso(alg, a, p, b, q, c, escribe, |a|);
    var t := TrasAcceso(alg, Fichas(a), p, c, escribe).0;
    forall i | 0 <= i < |a| ensures Fichas(b)[i] == t[i] { assert EnAcceso(alg, a, p, b, q, c, escribe, i); }
    assert Fichas(b) == t;
  }

  lemma {:induction false} AccedidaDe(alg: AlgCache, a: seq<EntradaCache>, p: nat, b: seq<EntradaCache>, q: nat, c: Clave, escribe: bool)
    requires (p < |a| || a == []) && |b| == |a| && (Fichas(b), q) == TrasAcceso(alg, Fichas(a), p, c, escribe)
    ensures Accedida(alg, a, p, b, q, c, escribe)
  {
    forall i | 0 <= i <= |a| ensures EnAcceso(alg, a, p, b, q, c, escribe, i) {
      if i < |a| { assert Fichas(b)[i] == Ficha(b[i]); }
    }
  }

  // A missed WRITE that finds the cache full under an unknown policy name.
  ghost predicate SePierde(alg: AlgCache, a: seq<EntradaCache>, c: Clave) {
    a != [] && Donde(a, c) == |a| && !Cabe(alg, a)
  }

  // What putting page c in the cache does to readers, and to the policy.
  ghost predicate Guardada(alg: AlgCache, a: seq<EntradaCache>, p: nat, e: Entorno, b: seq<EntradaCache>, q: nat, f: Entorno, c: Clave, contenido: Pagina, modificado: bool) {
    && RutasOk(e) && RutasOk(f) && f.rutas == e.rutas
    && (if Cabe(alg, a) then VistaCon(a, e, b, f, c, contenido) else b == a && f == e)
    && (SoloDe(a, c.pid) ==> SoloDe(b, c.pid) && SoloCambia(e, f, c.pid))
    && Accedida(alg, a, p, b, q, c, modificado)
  }

  // What reading c does, if it could be read.
  ghost predicate Leida(alg: AlgCache, a: seq<EntradaCache>, p: nat, e: Entorno, b: seq<EntradaCache>, q: nat, f: Entorno, c: Clave, hubo: bool) {
    Intacta(a, e, b, f, c.pid) && if hubo then Accedida(alg, a, p, b, q, c, false) else b == a && q == p
  }

  // What writing c does, if it could be written; v is what it read as.
  ghost predicate EscritaEn(alg: AlgCache, a: seq<EntradaCache>, p: nat, e: Entorno, b: seq<EntradaCache>, q: nat, f: Entorno, c: Clave,
                            hubo: bool, v: Option<Pagina>, desde: nat, datos: seq<byte>) {
    && RutasOk(e) && RutasOk(f) && f.rutas == e.rutas
    && (hubo ==> v.Some? && desde + |datos| <= |v.valor|)
    && (if hubo && !SePierde(alg, a, c) then VistaCon(a, e, b, f, c, Pegar(v.valor, desde, datos)) else MismaVista(a, e, b, f))
    && (SoloDe(a, c.pid) ==> SoloDe(b, c.pid) && SoloCambia(e, f, c.pid))
    && if hubo then Accedida(alg, a, p, b, q, c, true) else b == a && q == p
  }

  // The entry of c, if it has one, is used, and written if that is asked.
  ghost predicate Usada(b: seq<EntradaCache>, c: Clave, escribe: bool) {
    forall i :: 0 <= i < |b| && Es(b[i], c) ==> b[i].uso && (escribe ==> b[i].modificado)
  }

  // When c was in the cache already, no other page's use bit changes.
  ghost predicate MismoUso(a: seq<EntradaCache>, b: seq<EntradaCache>, c: Clave) {
    |b| == |a| && (Donde(a, c) < |a| ==> forall i :: 0 <= i < |a| && i != Donde(a, c) && a[i].ocupado ==> b[i].uso == a[i].uso)
  }

  /** It leaves the page used if it is there, and written if it was a write; a hit changes no
      other entry's bits and does not move the pointer. */
  lemma {:induction false} AccedidaUsa(alg: AlgCache, a: seq<EntradaCache>, p: nat, b: seq<EntradaCache>, q: nat, c: Clave, escribe: bool)
    requires Accedida(alg, a, p, b, q, c, escribe) && (forall i :: 0 <= i < |a| && Es(a[i], c) ==> i == Donde(a, c))
    ensures Usada(b, c, escribe) && MismoUso(a, b, c) && (Donde(a, c) < |a| ==> q == p)
  {
    FichasIguales(a, c);
    AccedidaEs(alg, a, p, b, q, c, escribe);
    if a != [] {
      var fs := Fichas(a);
      var v := AccesoToca(alg, fs, p, c, escribe);
      forall i | 0 <= i < |b| && Es(b[i], c) ensures b[i].uso && (escribe ==> b[i].modificado) {
        FichaTocada(alg, fs, p, c, escribe, Fichas(b), v, i);
        assert Fichas(b)[i] == Ficha(b[i]) && fs[i] == Ficha(a[i]);
      }
      forall i | 0 <= i < |b| && i != Donde(a, c) && a[i].ocupado && Donde(a, c) < |a| ensures b[i].uso == a[i].uso {
        assert Fichas(b)[i] == Ficha(b[i]) && fs[i] == Ficha(a[i]);
      }
    }
  }

  /** The same, of an access that may not have been made. */
  lemma {:induction false} UsoTrasAcceso(alg: AlgCache, a: seq<EntradaCache>, p: nat, e: Entorno, tp: nat, b: seq<EntradaCache>, q: nat, hubo: bool, c: Clave, escribe: bool)
    requires CacheOk(a, e, tp) && if hubo then Accedida(alg, a, p, b, q, c, escribe) else b == a
    ensures (hubo ==> Usada(b, c, escribe)) && MismoUso(a, b, c)
  {
    forall i | 0 <= i < |a| && Es(a[i], c) ensures i == Donde(a, c) { DondeUnica(a, e, tp, i, c); }
    if hubo { AccedidaUsa(alg, a, p, b, q, c, escribe); }
  }

  lemma {:induction false} FichaTocada(alg: AlgCache, a: seq<EntradaCache>, p: nat, c: Clave, escribe: bool, b: seq<EntradaCache>, v: nat, i: nat)
    requires p < |a| && i < |a| && Tocada(alg, a, p, c, escribe, b, v) && Es(b[i], c)
    requires forall j :: 0 <= j < |a| && Es(a[j], c) ==> j == Donde(a, c)
    requires v < |a| || Donde(a, c) == |a|
    requires Donde(a, c) < |a| ==> v == Donde(a, c)
    ensures b[i].uso && (escribe ==> b[i].modificado)
  {
  }

  // ---------------------------------------------------------------- every list of accesses

  datatype Toque = Toque(clave: Clave, escribe: bool)

  /** The accesses since the cache was emptied, and where the pointer was then. */
  datatype Historial = Historial(p0: nat, toques: seq<Toque>)

  function Libre(n: nat): (r: seq<EntradaCache>)
    ensures |r| == n && forall i :: 0 <= i < n ==> r[i] == EntradaCache(false, -1, -1, 0, [], false, false)
  {
    seq(n, _ => EntradaCache(false, -1, -1, 0, [], false, false))
  }

  /** The cache and its pointer after all the accesses since it was emptied, with the pointer at
      p0 then. */
  function TrasToques(alg: AlgCache, n: nat, p0: nat, ts: seq<Toque>): (r: (seq<EntradaCache>, nat))
    requires p0 < n || n == 0
    ensures |r.0| == n && (r.1 < n || n == 0)
  {
    if ts == [] then (Libre(n), p0)
    else
      var (a, p) := TrasToques(alg, n, p0, ts[..|ts| - 1]);
      var t := ts[|ts| - 1];
      TrasAcceso(alg, a, p, t.clave, t.escribe)
  }

  // Entry by entry, and the pointer: what the accesses make of an empty cache.
  ghost predicate Girado(alg: AlgCache, a: seq<EntradaCache>, p: nat, h: Historial) {
    (h.p0 < |a| || a == []) && forall i :: 0 <= i <= |a| ==> EnHistorial(alg, a, p, h, i)
  }

  ghost predicate EnHistorial(alg: AlgCache, a: seq<EntradaCache>, p: nat, h: Historial, i: nat)
    requires (h.p0 < |a| || a == []) && i <= |a|
  {
    if i == |a| then p == TrasToques(alg, |a|, h.p0, h.toques).1
    else Ficha(a[i]) == TrasToques(alg, |a|, h.p0, h.toques).0[i]
  }

  lemma {:induction false} GiradoEs(alg: AlgCache, a: seq<EntradaCache>, p: nat, h: Historial)
    requires Girado(alg, a, p, h)
    ensures (Fichas(a), p) == TrasToques(alg, |a|, h.p0, h.toques)
  {
    assert EnHistorial(alg, a, p, h, |a|);
    var t := TrasToques(alg, |a|, h.p0, h.toques).0;
    forall i | 0 <= i < |a| ensures Fichas(a)[i] == t[i] { assert EnHistorial(alg, a, p, h, i); }
    assert Fichas(a) == t;
  }

  lemma {:induction false} GiradoDe(alg: AlgCache, a: seq<EntradaCache>, p: nat, h: Historial)
    requires (h.p0 < |a| || a == []) && (Fichas(a), p) == TrasToques(alg, |a|, h.p0, h.toques)
    ensures Girado(alg, a, p, h)
  {
    forall i | 0 <= i <= |a| ensures EnHistorial(alg, a, p, h, i) {
      if i < |a| { assert Fichas(a)[i] == Ficha(a[i]); }
    }
  }

  /** An emptied cache, whatever was in it and wherever the pointer is. */
  lemma {:induction false} GiradoVacio(alg: AlgCache, a: seq<EntradaCache>, p: nat)
    requires (p < |a| || a == []) && forall i :: 0 <= i < |a| ==> !a[i].ocupado
    ensures Girado(alg, a, p, Historial(p, []))
  {
    assert Fichas(a) == Libre(|a|);
    GiradoDe(alg, a, p, Historial(p, []));
  }

  /** And one access more. */
  lemma {:induction false} GiradoSigue(alg: AlgCache, h: Historial, a: seq<EntradaCache>, p: nat, b: seq<EntradaCache>, q: nat, t: Toque)
    requires Girado(alg, a, p, h) && Accedida(alg, a, p, b, q, t.clave, t.escribe)
    ensures Girado(alg, b, q, Historial(h.p0, h.toques + [t]))
  {
    GiradoEs(alg, a, p, h);
    AccedidaEs(alg, a, p, b, q, t.clave, t.escribe);
    assert (h.toques + [t])[..|h.toques|] == h.toques;
    GiradoDe(alg, b, q, Historial(h.p0, h.toques + [t]));
  }

  lemma {:induction false} SinEntradas(alg: AlgCache, p: nat, c: Clave, escribe: bool)
    ensures Accedida(alg, [], p, [], p, c, escribe)
  {
    AccedidaDe(alg, [], p, [], p, c, escribe);
  }

  /** Which access to c was the last, counting from 1; 0 if there was none. */
  function UltimoToque(ts: seq<Toque>, c: Clave): nat {
    if ts == [] then 0 else if ts[|ts| - 1].clave == c then |ts| else UltimoToque(ts[..|ts| - 1], c)
  }

  function UltimaEscritura(ts: seq<Toque>, c: Clave): nat {
    if ts == [] then 0 else if ts[|ts| - 1] == Toque(c, true) then |ts| else UltimaEscritura(ts[..|ts| - 1], c)
  }

  /** The pointer passes entry i on a miss of a full cache when it and every entry on the way to
      it are used - and, under CLOCK-M, when no entry is unused and clean. */
  ghost predicate Barre(alg: AlgCache, a: seq<EntradaCache>, p: nat, c: Clave, i: nat)
    requires p < |a| && i < |a|
  {
    && Donde(a, c) == |a| && Hueco(a) == |a| && !alg.CacheDesconocido?
    && (alg == ClockM ==> forall j :: 0 <= j < |a| ==> a[j].uso || a[j].modificado)
    && forall j :: 0 <= j < |a| && Dist(p, j, |a|) <= Dist(p, i, |a|) ==> a[j].uso
  }

  /** The access, counting from 1, in which the pointer last passed entry i. */
  ghost function Pasada(alg: AlgCache, n: nat, p0: nat, ts: seq<Toque>, i: nat): nat
    requires p0 < n && i < n
  {
    if ts == [] then 0
    else
      var (a, p) := TrasToques(alg, n, p0, ts[..|ts| - 1]);
      if Barre(alg, a, p, ts[|ts| - 1].clave, i) then |ts| else Pasada(alg, n, p0, ts[..|ts| - 1], i)
  }

  /** The access that brought in the page entry i holds. */
  ghost function Llegada(alg: AlgCache, n: nat, p0: nat, ts: seq<Toque>, i: nat): nat
    requires p0 < n && i < n
  {
    if ts == [] then 0
    else
      var a, b, c := TrasToques(alg, n, p0, ts[..|ts| - 1]).0, TrasToques(alg, n, p0, ts).0, ts[|ts| - 1].clave;
      if Es(b[i], c) && !Es(a[i], c) then |ts| else Llegada(alg, n, p0, ts[..|ts| - 1], i)
  }

  // ---------------------------------------------------------------- what the bits say

  ghost predicate SinDobles(a: seq<EntradaCache>) {
    && (forall i :: 0 <= i < |a| && a[i].ocupado ==> a[i].pagina >= 0)
    && (forall i, j :: 0 <= i < j < |a| ==> Distintas(a[i], a[j]))
  }

  function ClaveDe(x: EntradaCache): Clave
    requires x.pagina >= 0
  {
    Clave(x.pid, x.pagina)
  }

  // The entry's bits, from when its page was last accessed and written, when the pointer last
  // passed, and when it came in.
  predicate Dicen(x: EntradaCache, toque: nat, escritura: nat, pasada: nat, llegada: nat) {
    && (x.uso <==> toque >= pasada)
    && (x.modificado <==> escritura >= llegada)
    && 1 <= llegada <= toque && escritura <= toque
  }

  /** What the sweep passes is what loses its bit. */
  lemma {:induction false} BarreSii(alg: AlgCache, a: seq<EntradaCache>, p: nat, c: Clave, i: nat)
    requires p < |a| && i < |a| && Donde(a, c) == |a| && Hueco(a) == |a| && !alg.CacheDesconocido?
    ensures var v := Victima(alg, a, p);
            Barre(alg, a, p, c, i) <==> a[v].uso || (Dist(p, i, |a|) < Dist(p, v, |a|) && (alg == Clock || a[v].modificado))
  {
    var v := Victima(alg, a, p);
    assert forall j :: 0 <= j < |a| && Dist(p, j, |a|) == Dist(p, v, |a|) ==> j == v;
  }

  // Entry v is the one accessed, none if v is out of range; the others lose at most a use bit.
  ghost predicate Tocada(alg: AlgCache, a: seq<EntradaCache>, p: nat, c: Clave, escribe: bool, b: seq<EntradaCache>, v: nat)
    requires p < |a|
  {
    && |b| == |a|
    && (v < |a| ==>
          if Donde(a, c) < |a| then v == Donde(a, c) && b[v] == a[v].(uso := true, modificado := a[v].modificado || escribe)
          else b[v] == EntradaCache(true, c.pid, c.pag, 0, [], true, escribe))
    && forall i :: 0 <= i < |a| && i != v ==> b[i] == if Barre(alg, a, p, c, i) then a[i].(uso := false) else a[i]
  }

  /** The entry an access goes to. */
  lemma {:induction false} AccesoToca(alg: AlgCache, a: seq<EntradaCache>, p: nat, c: Clave, escribe: bool) returns (v: nat)
    requires p < |a|
    ensures Tocada(alg, a, p, c, escribe, TrasAcceso(alg, a, p, c, escribe).0, v)
    ensures v < |a| || (Donde(a, c) == |a| && Hueco(a) == |a| && alg.CacheDesconocido?)
    ensures Donde(a, c) < |a| ==> v == Donde(a, c)
  {
    v := Donde(a, c);
    if v == |a| {
      v := Hueco(a);
      if v == |a| && !alg.CacheDesconocido? {
        v := Victima(alg, a, p);
        forall i | 0 <= i < |a| && i != v ensures Bajado(alg, a, p, v, i) == if Barre(alg, a, p, c, i) then a[i].(uso := false) else a[i] {
          BarreSii(alg, a, p, c, i);
        }
      }
    }
  }

  lemma {:induction false} TocadaSinDobles(alg: AlgCache, a: seq<EntradaCache>, p: nat, c: Clave, escribe: bool, b: seq<EntradaCache>, v: nat)
    requires p < |a| && SinDobles(a) && Tocada(alg, a, p, c, escribe, b, v)
    ensures SinDobles(b)
  {
    forall i, j | 0 <= i < j < |b| ensures Distintas(b[i], b[j]) {
      assert Distintas(a[i], a[j]);
      assert Donde(a, c) == |a| ==> !Es(a[i], c) && !Es(a[j], c);
    }
  }

  lemma {:induction false} AccesoSinDobles(alg: AlgCache, a: seq<EntradaCache>, p: nat, c: Clave, escribe: bool)
    requires (p < |a| || a == []) && SinDobles(a)
    ensures SinDobles(TrasAcceso(alg, a, p, c, escribe).0)
  {
    if a != [] {
      var v := AccesoToca(alg, a, p, c, escribe);
      TocadaSinDobles(alg, a, p, c, escribe, TrasAcceso(alg, a, p, c, escribe).0, v);
    }
  }

  lemma {:induction false} TrasToquesSinDobles(alg: AlgCache, n: nat, p0: nat, ts: seq<Toque>)
    requires p0 < n || n == 0
    ensures SinDobles(TrasToques(alg, n, p0, ts).0)
  {
    if ts != [] {
      TrasToquesSinDobles(alg, n, p0, ts[..|ts| - 1]);
      var (a, p) := TrasToques(alg, n, p0, ts[..|ts| - 1]);
      AccesoSinDobles(alg, a, p, ts[|ts| - 1].clave, ts[|ts| - 1].escribe);
    }
  }

  // Entry i, if it holds a page, says what the accesses say.
  ghost predicate DiceBien(alg: AlgCache, n: nat, p0: nat, ts: seq<Toque>, i: nat)
    requires p0 < n && i < n
  {
    var x := TrasToques(alg, n, p0, ts).0[i];
    x.ocupado ==>
      x.pagina >= 0 && Dicen(x, UltimoToque(ts, ClaveDe(x)), UltimaEscritura(ts, ClaveDe(x)), Pasada(alg, n, p0, ts, i), Llegada(alg, n, p0, ts, i))
  }

  lemma {:induction false} EscrituraEsToque(ts: seq<Toque>, c: Clave)
    ensures UltimaEscritura(ts, c) <= UltimoToque(ts, c) <= |ts|
  {
    if ts != [] { EscrituraEsToque(ts[..|ts| - 1], c); }
  }

  lemma {:induction false} PasadaAntes(alg: AlgCache, n: nat, p0: nat, ts: seq<Toque>, i: nat)
    requires p0 < n && i < n
    ensures Pasada(alg, n, p0, ts, i) <= |ts|
  {
    if ts != [] { PasadaAntes(alg, n, p0, ts[..|ts| - 1], i); }
  }

  // The entry accessed, in access number k.
  lemma {:induction false} TocadaDice(alg: AlgCache, a: seq<EntradaCache>, p: nat, c: Clave, w: bool, b: seq<EntradaCache>, v: nat,
                                      k: nat, toque: nat, escritura: nat, pasada: nat, llegada: nat)
    requires p < |a| && v < |a| && Tocada(alg, a, p, c, w, b, v) && escritura <= toque < k && pasada < k
    requires Es(a[v], c) ==> Dicen(a[v], toque, escritura, pasada, llegada)
    ensures Es(b[v], c) && b[v].ocupado
    ensures Dicen(b[v], k, if w then k else escritura, if Barre(alg, a, p, c, v) then k else pasada, if Es(a[v], c) then llegada else k)
  {
  }

  // Any other.
  lemma {:induction false} AjenaDice(alg: AlgCache, a: seq<EntradaCache>, p: nat, c: Clave, w: bool, b: seq<EntradaCache>, v: nat, i: nat,
                                     k: nat, toque: nat, escritura: nat, pasada: nat, llegada: nat)
    requires p < |a| && i < |a| && i != v && Tocada(alg, a, p, c, w, b, v) && toque < k
    requires Dicen(a[i], toque, escritura, pasada, llegada)
    ensures Dicen(b[i], toque, escritura, if Barre(alg, a, p, c, i) then k else pasada, llegada)
    ensures b[i].pid == a[i].pid && b[i].pagina == a[i].pagina && b[i].ocupado == a[i].ocupado
  {
  }

  lemma {:induction false} UnicaConClave(a: seq<EntradaCache>, c: Clave, i: nat)
    requires SinDobles(a) && i < |a| && Es(a[i], c)
    ensures Donde(a, c) == i
  {
    var d := Donde(a, c);
    assert d < i ==> Distintas(a[d], a[i]);
  }

  /** After any list of accesses: a use bit is up if and only if its page was accessed since the
      pointer last passed it, and a modified bit if and only if it was written since it came in. */
  lemma {:induction false} LosBitsDicen(alg: AlgCache, n: nat, p0: nat, ts: seq<Toque>, i: nat)
    requires p0 < n && i < n
    ensures DiceBien(alg, n, p0, ts, i)
  {
    if ts != [] {
      LosBitsDicen(alg, n, p0, ts[..|ts| - 1], i);
      UnToqueMas(alg, n, p0, ts, i);
    }
  }

  lemma {:induction false} UnToqueMas(alg: AlgCache, n: nat, p0: nat, ts: seq<Toque>, i: nat)
    requires p0 < n && i < n && ts != [] && DiceBien(alg, n, p0, ts[..|ts| - 1], i)
    ensures DiceBien(alg, n, p0, ts, i)
  {
    var previos, t := ts[..|ts| - 1], ts[|ts| - 1];
    var (a, p) := TrasToques(alg, n, p0, previos);
    var b := TrasAcceso(alg, a, p, t.clave, t.escribe).0;
    TrasToquesSinDobles(alg, n, p0, previos);
    PasadaAntes(alg, n, p0, previos, i);
    var v := AccesoToca(alg, a, p, t.clave, t.escribe);
    var pasada, llegada := Pasada(alg, n, p0, previos, i), Llegada(alg, n, p0, previos, i);
    if Es(a[i], t.clave) { UnicaConClave(a, t.clave, i); }
    if i == v {
      EscrituraEsToque(previos, t.clave);
      TocadaDice(alg, a, p, t.clave, t.escribe, b, v, |ts|, UltimoToque(previos, t.clave), UltimaEscritura(previos, t.clave), pasada, llegada);
    } else if a[i].ocupado {
      var c := ClaveDe(a[i]);
      EscrituraEsToque(previos, c);
      AjenaDice(alg, a, p, t.clave, t.escribe, b, v, i, |ts|, UltimoToque(previos, c), UltimaEscritura(previos, c), pasada, llegada);
    }
  }

  // ---------------------------------------------------------------- who goes

  // The page of entry i was accessed since the pointer last passed it.
  ghost predicate Reciente(alg: AlgCache, n: nat, p0: nat, ts: seq<Toque>, i: nat)
    requires p0 < n && i < n
  {
    var x := TrasToques(alg, n, p0, ts).0[i];
    x.pagina >= 0 && UltimoToque(ts, ClaveDe(x)) >= Pasada(alg, n, p0, ts, i)
  }

  // It was written since it came in.
  ghost predicate Escrita(alg: AlgCache, n: nat, p0: nat, ts: seq<Toque>, i: nat)
    requires p0 < n && i < n
  {
    var x := TrasToques(alg, n, p0, ts).0[i];
    x.pagina >= 0 && UltimaEscritura(ts, ClaveDe(x)) >= Llegada(alg, n, p0, ts, i)
  }

  // Access t finds no entry with its page, and none free.
  ghost predicate Desaloja(alg: AlgCache, n: nat, p0: nat, ts: seq<Toque>, t: Toque)
    requires p0 < n
  {
    var a := TrasToques(alg, n, p0, ts).0;
    Donde(a, t.clave) == n && Hueco(a) == n
  }

  // In entry v there is the page of t, and in every other the page there was.
  ghost predicate Releva(alg: AlgCache, n: nat, p0: nat, ts: seq<Toque>, t: Toque, v: nat)
    requires p0 < n
  {
    var a, b := TrasToques(alg, n, p0, ts).0, TrasToques(alg, n, p0, ts + [t]).0;
    v < n && Es(b[v], t.clave) && forall i :: 0 <= i < n && i != v ==> b[i].pid == a[i].pid && b[i].pagina == a[i].pagina
  }

  lemma {:induction false} BitsDeTodas(alg: AlgCache, n: nat, p0: nat, ts: seq<Toque>, i: nat)
    requires p0 < n && i < n && Hueco(TrasToques(alg, n, p0, ts).0) == n
    ensures var x := TrasToques(alg, n, p0, ts).0[i];
            (x.uso <==> Reciente(alg, n, p0, ts, i)) && (x.modificado <==> Escrita(alg, n, p0, ts, i))
  {
    LosBitsDicen(alg, n, p0, ts, i);
    assert TrasToques(alg, n, p0, ts).0[i].ocupado;
  }

  lemma {:induction false} VictimaReleva(alg: AlgCache, n: nat, p0: nat, ts: seq<Toque>, t: Toque) returns (v: nat)
    requires p0 < n && Desaloja(alg, n, p0, ts, t) && !alg.CacheDesconocido?
    ensures var (a, p) := TrasToques(alg, n, p0, ts);
            && Releva(alg, n, p0, ts, t, v) && EsVictima(alg, a, p, v)
            && TrasToques(alg, n, p0, ts + [t]).1 == if alg == Clock then v else (v + 1) % n
  {
    var (a, p) := TrasToques(alg, n, p0, ts);
    assert (ts + [t])[..|ts|] == ts;
    v := Victima(alg, a, p);
  }

  /** CLOCK, after any list of accesses: every page between the pointer and the one evicted was
      accessed since the pointer last passed it, and the one evicted was not - unless all were,
      and then it is the one at the pointer. The pointer stays where that page was. */
  lemma {:induction false} ClockDesaloja(n: nat, p0: nat, ts: seq<Toque>, t: Toque) returns (v: nat)
    requires p0 < n && Desaloja(Clock, n, p0, ts, t)
    ensures var p := TrasToques(Clock, n, p0, ts).1;
            && Releva(Clock, n, p0, ts, t, v) && TrasToques(Clock, n, p0, ts + [t]).1 == v
            && (forall i: nat :: i < n && Dist(p, i, n) < Dist(p, v, n) ==> Reciente(Clock, n, p0, ts, i))
            && (Reciente(Clock, n, p0, ts, v) ==> v == p && forall i: nat :: i < n ==> Reciente(Clock, n, p0, ts, i))
  {
    v := VictimaReleva(Clock, n, p0, ts, t);
    var (a, p) := TrasToques(Clock, n, p0, ts);
    assert Dist(p, p, n) == 0 && (Clase(Clock, a[v]) < Clase(Clock, a[p]) || Dist(p, v, n) == 0);
    forall i: nat | i < n ensures TrasToques(Clock, n, p0, ts).0[i].uso <==> Reciente(Clock, n, p0, ts, i) {
      BitsDeTodas(Clock, n, p0, ts, i);
    }
  }

  /** CLOCK-M: a page not accessed since the pointer passed goes before one that was, and of
      those a clean one before one written since it came in; the first from the pointer on. */
  lemma {:induction false} ClockMDesaloja(n: nat, p0: nat, ts: seq<Toque>, t: Toque) returns (v: nat)
    requires p0 < n && Desaloja(ClockM, n, p0, ts, t)
    ensures var p := TrasToques(ClockM, n, p0, ts).1;
            && Releva(ClockM, n, p0, ts, t, v) && TrasToques(ClockM, n, p0, ts + [t]).1 == (v + 1) % n
            && forall i: nat :: i < n ==>
                 var rv, ev, ri, ei := Reciente(ClockM, n, p0, ts, v), Escrita(ClockM, n, p0, ts, v), Reciente(ClockM, n, p0, ts, i), Escrita(ClockM, n, p0, ts, i);
                 || (!rv && ri)
                 || (rv == ri && !ev && ei)
                 || (rv == ri && ev == ei && Dist(p, v, n) <= Dist(p, i, n))
  {
    v := VictimaReleva(ClockM, n, p0, ts, t);
    BitsDeTodas(ClockM, n, p0, ts, v);
    forall i: nat | i < n
      ensures TrasToques(ClockM, n, p0, ts).0[i].uso <==> Reciente(ClockM, n, p0, ts, i)
      ensures TrasToques(ClockM, n, p0, ts).0[i].modificado <==> Escrita(ClockM, n, p0, ts, i)
    {
      BitsDeTodas(ClockM, n, p0, ts, i);
    }
  }
}
