/** The CPU's write-back page cache over frames it reaches through translation: what a reader
    of the whole sees, and why insertion and eviction do not change it. */
module Cache {
  import opened Comunes
  import opened Tenencia

  datatype EntradaCache = EntradaCache(
    ocupado: bool, pid: int, pagina: int, marco: int, contenido: Pagina, uso: bool, modificado: bool)

  /** The memory behind the cache: its frames, and which frame each translatable page is in. */
  datatype Entorno = Entorno(ram: seq<Pagina>, rutas: imap<Clave, nat>)

  ghost predicate EntornoOk(e: Entorno, tp: nat) {
    && (forall i :: 0 <= i < |e.ram| ==> |e.ram[i]| == tp)
    && RutasOk(e)
    && (forall c, d :: c in e.rutas && d in e.rutas && e.rutas[c] == e.rutas[d] ==> c == d)
  }

  ghost predicate RutasOk(e: Entorno) {
    forall c :: c in e.rutas ==> e.rutas[c] < |e.ram|
  }

  predicate Es(x: EntradaCache, c: Clave) {
    x.ocupado && x.pid == c.pid && x.pagina == c.pag
  }

  /** Where the lookup loop finds `c`: the first matching entry, or the number of entries. */
  function Donde(cache: seq<EntradaCache>, c: Clave): (r: nat)
    ensures r <= |cache|
    ensures r < |cache| ==> Es(cache[r], c)
    ensures forall i :: 0 <= i < r ==> !Es(cache[i], c)
  {
    if cache == [] || Es(cache[0], c) then 0 else 1 + Donde(cache[1..], c)
  }

  /** The first free entry, or the number of entries. */
  function Hueco(cache: seq<EntradaCache>): (r: nat)
    ensures r <= |cache|
    ensures r < |cache| ==> !cache[r].ocupado
    ensures forall i :: 0 <= i < r ==> cache[i].ocupado
  {
    if cache == [] || !cache[0].ocupado then 0 else 1 + Hueco(cache[1..])
  }

  // The entry holds a page of this memory at the frame translation gives, and a clean one
  // holds what that frame holds.
  ghost predicate EntradaOk(x: EntradaCache, e: Entorno, tp: nat) {
    x.ocupado ==>
      && x.pagina >= 0 && Clave(x.pid, x.pagina) in e.rutas
      && x.marco == e.rutas[Clave(x.pid, x.pagina)] < |e.ram|
      && |x.contenido| == tp
      && (!x.modificado ==> x.contenido == e.ram[x.marco])
  }

  ghost predicate Distintas(x: EntradaCache, y: EntradaCache) {
    x.ocupado && y.ocupado ==> x.pid != y.pid || x.pagina != y.pagina
  }

  ghost predicate CacheOk(cache: seq<EntradaCache>, e: Entorno, tp: nat) {
    && (forall i :: 0 <= i < |cache| ==> EntradaOk(cache[i], e, tp))
    && (forall i, j :: 0 <= i < j < |cache| ==> Distintas(cache[i], cache[j]))
  }

  /** What a page reads as: its cached copy if it is cached, else its frame. */
  ghost function Vista(cache: seq<EntradaCache>, e: Entorno, c: Clave): Option<Pagina>
    requires RutasOk(e)
  {
    var i := Donde(cache, c);
    if i < |cache| then Some(cache[i].contenido)
    else if c in e.rutas then Some(e.ram[e.rutas[c]])
    else None
  }

  /** obtener_pagina and obtener_offset. */
  function ObtenerPagina(dl: nat, tp: nat): nat
    requires tp > 0
  {
    dl / tp
  }

  function ObtenerOffset(dl: nat, tp: nat): nat
    requires tp > 0
  {
    dl % tp
  }

  /** What a READ of `tam` bytes from `desde` on yields of a page. */
  function Lectura(v: Option<Pagina>, tp: nat, desde: nat, tam: nat): Option<seq<byte>> {
    if desde + tam <= tp && v.Some? && |v.valor| == tp then Some(v.valor[desde..desde + tam]) else None
  }

  ghost predicate CabeEn(v: Option<Pagina>, tp: nat, desde: nat, n: nat) {
    desde + n <= tp && v.Some? && |v.valor| == tp
  }

  lemma {:induction false} DondeUnica(cache: seq<EntradaCache>, e: Entorno, tp: nat, i: nat, c: Clave)
    requires CacheOk(cache, e, tp) && i < |cache| && Es(cache[i], c)
    ensures Donde(cache, c) == i
  {
  }

  /** A page can be read exactly when it translates, and is then a whole page. */
  lemma {:induction false} VistaSiiRuta(cache: seq<EntradaCache>, e: Entorno, tp: nat, c: Clave)
    requires CacheOk(cache, e, tp) && EntornoOk(e, tp)
    ensures Vista(cache, e, c).Some? <==> c in e.rutas
    ensures c in e.rutas ==> |Vista(cache, e, c).valor| == tp
  {
  }

  // ---------------------------------------------------------------- use bits

  predicate SalvoUso(x: EntradaCache, y: EntradaCache) {
    x.(uso := y.uso) == y
  }

  ghost predicate CacheSalvoUso(a: seq<EntradaCache>, b: seq<EntradaCache>) {
    |a| == |b| && forall i :: 0 <= i < |a| ==> SalvoUso(a[i], b[i])
  }

  lemma {:induction false} UsoNoImporta(a: seq<EntradaCache>, b: seq<EntradaCache>, e: Entorno, tp: nat)
    requires CacheOk(a, e, tp) && CacheSalvoUso(a, b) && EntornoOk(e, tp)
    ensures CacheOk(b, e, tp)
    ensures forall c :: Donde(b, c) == Donde(a, c)
    ensures forall c :: Vista(b, e, c) == Vista(a, e, c)
  {
  }

  // ---------------------------------------------------------------- replacement

  /** The memory after the victim is written back if it was modified. */
  function TrasDesalojo(x: EntradaCache, e: Entorno): (r: Entorno)
    ensures r.rutas == e.rutas && |r.ram| == |e.ram|
  {
    if x.ocupado && x.modificado && 0 <= x.marco < |e.ram| then e.(ram := e.ram[x.marco := x.contenido]) else e
  }

  ghost predicate Nueva(x: EntradaCache, e: Entorno, c: Clave, tp: nat) {
    && Es(x, c) && c in e.rutas && x.marco == e.rutas[c] < |e.ram| && |x.contenido| == tp
    && (!x.modificado ==> x.contenido == e.ram[x.marco])
  }

  lemma {:induction false} DesalojoEntorno(cache: seq<EntradaCache>, e: Entorno, tp: nat, i: nat)
    requires CacheOk(cache, e, tp) && EntornoOk(e, tp) && i < |cache|
    ensures EntornoOk(TrasDesalojo(cache[i], e), tp)
    ensures forall c :: c in e.rutas && !Es(cache[i], c) ==>
              TrasDesalojo(cache[i], e).ram[e.rutas[c]] == e.ram[e.rutas[c]]
    ensures forall c :: Es(cache[i], c) ==>
              c in e.rutas && TrasDesalojo(cache[i], e).ram[e.rutas[c]] == cache[i].contenido
  {
  }

  lemma {:induction false} ReemplazoOk(cache: seq<EntradaCache>, e: Entorno, tp: nat, i: nat, x: EntradaCache, c: Clave)
    requires CacheOk(cache, e, tp) && EntornoOk(e, tp) && i < |cache|
    requires Donde(cache, c) == |cache| && Nueva(x, e, c, tp)
    ensures CacheOk(cache[i := x], TrasDesalojo(cache[i], e), tp)
  {
  }

  /** Putting a page in some entry, after writing back whoever was there, shows the new
      contents for that page and changes what no other page reads as. */
  lemma {:induction false} ReemplazoVista(cache: seq<EntradaCache>, e: Entorno, tp: nat, i: nat, x: EntradaCache, c: Clave, d: Clave)
    requires CacheOk(cache, e, tp) && EntornoOk(e, tp) && i < |cache|
    requires Donde(cache, c) == |cache| && Nueva(x, e, c, tp)
    ensures EntornoOk(TrasDesalojo(cache[i], e), tp)
    ensures Vista(cache[i := x], TrasDesalojo(cache[i], e), d)
         == if d == c then Some(x.contenido) else Vista(cache, e, d)
  {
    var f := TrasDesalojo(cache[i], e);
    var b := cache[i := x];
    DesalojoEntorno(cache, e, tp, i);
    ReemplazoOk(cache, e, tp, i, x, c);
    if d == c {
      DondeUnica(b, f, tp, i, c);
    } else {
      var j, k := Donde(cache, d), Donde(b, d);
      if j < |cache| && j != i {
        assert b[j] == cache[j];
        DondeUnica(b, f, tp, j, d);
      } else {
        assert forall q :: 0 <= q < |b| ==> !Es(b[q], d);
        assert k == |b|;
      }
    }
  }

  /** Writing back and freeing an entry changes what no page reads as. */
  lemma {:induction false} QuitarVista(cache: seq<EntradaCache>, e: Entorno, tp: nat, i: nat, libre: EntradaCache)
    requires CacheOk(cache, e, tp) && EntornoOk(e, tp) && i < |cache| && !libre.ocupado
    ensures EntornoOk(TrasDesalojo(cache[i], e), tp)
    ensures CacheOk(cache[i := libre], TrasDesalojo(cache[i], e), tp)
    ensures MismaVista(cache, e, cache[i := libre], TrasDesalojo(cache[i], e))
  {
    DesalojoEntorno(cache, e, tp, i);
    QuitarOk(cache, e, tp, i, libre);
    forall d ensures Vista(cache[i := libre], TrasDesalojo(cache[i], e), d) == Vista(cache, e, d) {
      QuitarVistaDe(cache, e, tp, i, libre, d);
    }
  }

  lemma {:induction false} QuitarOk(cache: seq<EntradaCache>, e: Entorno, tp: nat, i: nat, libre: EntradaCache)
    requires CacheOk(cache, e, tp) && EntornoOk(e, tp) && i < |cache| && !libre.ocupado
    ensures CacheOk(cache[i := libre], TrasDesalojo(cache[i], e), tp)
  {
  }

  lemma {:induction false} QuitarVistaDe(cache: seq<EntradaCache>, e: Entorno, tp: nat, i: nat, libre: EntradaCache, d: Clave)
    requires CacheOk(cache, e, tp) && EntornoOk(e, tp) && i < |cache| && !libre.ocupado
    requires EntornoOk(TrasDesalojo(cache[i], e), tp) && CacheOk(cache[i := libre], TrasDesalojo(cache[i], e), tp)
    ensures Vista(cache[i := libre], TrasDesalojo(cache[i], e), d) == Vista(cache, e, d)
  {
    var f := TrasDesalojo(cache[i], e);
    var b := cache[i := libre];
    var j := Donde(cache, d);
    DesalojoEntorno(cache, e, tp, i);
    if j < |cache| && j != i {
      assert b[j] == cache[j];
      DondeUnica(b, f, tp, j, d);
    } else {
      forall q | 0 <= q < |b| ensures !Es(b[q], d) {
        if j == i && q > i { assert Distintas(cache[i], cache[q]); }
      }
      assert Donde(b, d) == |b|;
    }
  }

  // ---------------------------------------------------------------- writes

  /** A write into the cached copy shows in that page and in no other. */
  lemma {:induction false} EscrituraEnCache(cache: seq<EntradaCache>, e: Entorno, tp: nat, i: nat, c: Clave, nuevo: Pagina)
    requires CacheOk(cache, e, tp) && EntornoOk(e, tp) && i < |cache| && Es(cache[i], c) && |nuevo| == tp
    ensures var b := cache[i := cache[i].(contenido := nuevo, modificado := true, uso := true)];
            CacheOk(b, e, tp) && VistaCon(cache, e, b, e, c, nuevo)
  {
    var b := cache[i := cache[i].(contenido := nuevo, modificado := true, uso := true)];
    assert EntradaOk(cache[i], e, tp);
    forall j, k | 0 <= j < k < |b| ensures Distintas(b[j], b[k]) {
      assert Distintas(cache[j], cache[k]);
    }
    forall d ensures Vista(b, e, d) == if d == c then Some(nuevo) else Vista(cache, e, d) {
      if d == c {
        DondeUnica(b, e, tp, i, c);
      } else {
        assert forall q :: 0 <= q < |b| ==> (Es(b[q], d) <==> Es(cache[q], d));
        assert Donde(b, d) == Donde(cache, d);
      }
    }
  }

  /** A write straight into the frame of a page that is not cached. */
  lemma {:induction false} EscrituraDirecta(cache: seq<EntradaCache>, e: Entorno, tp: nat, c: Clave, nuevo: Pagina)
    requires CacheOk(cache, e, tp) && EntornoOk(e, tp) && c in e.rutas && Donde(cache, c) == |cache| && |nuevo| == tp
    ensures var f := e.(ram := e.ram[e.rutas[c] := nuevo]);
            EntornoOk(f, tp) && CacheOk(cache, f, tp)
            && VistaCon(cache, e, cache, f, c, nuevo)
  {
  }

  // ---------------------------------------------------------------- the others

  ghost predicate SoloDe(cache: seq<EntradaCache>, pid: int) {
    forall i :: 0 <= i < |cache| && cache[i].ocupado ==> cache[i].pid == pid
  }

  // The same frames, with the same bytes, for every page of `pid`.
  ghost predicate MismasPaginas(e: Entorno, f: Entorno, pid: int) {
    forall c: Clave :: c.pid == pid ==>
      && (c in e.rutas <==> c in f.rutas)
      && (c in e.rutas ==> f.rutas[c] == e.rutas[c] && e.rutas[c] < |e.ram| && e.rutas[c] < |f.ram|
                           && f.ram[e.rutas[c]] == e.ram[e.rutas[c]])
  }

  /** A cache that holds one process's pages is not disturbed by anything that leaves that
      process's frames alone. */
  lemma {:induction false} CacheAjenaALosDemas(cache: seq<EntradaCache>, e: Entorno, f: Entorno, tp: nat, pid: int)
    requires CacheOk(cache, e, tp) && SoloDe(cache, pid) && MismasPaginas(e, f, pid)
    requires EntornoOk(e, tp) && EntornoOk(f, tp)
    ensures CacheOk(cache, f, tp)
    ensures forall c: Clave :: c.pid == pid ==> Vista(cache, f, c) == Vista(cache, e, c)
  {
  }

  // Only frames of `pid`'s pages may differ, and translation not at all.
  ghost predicate SoloCambia(e: Entorno, f: Entorno, pid: int) {
    f.rutas == e.rutas && |f.ram| == |e.ram| && forall q :: q != pid ==> MismasPaginas(e, f, q)
  }

  lemma {:induction false} SoloCambiaTransitiva(e: Entorno, f: Entorno, g: Entorno, pid: int)
    requires SoloCambia(e, f, pid) && SoloCambia(f, g, pid)
    ensures SoloCambia(e, g, pid)
  {
    forall q | q != pid ensures MismasPaginas(e, g, q) {
      assert MismasPaginas(e, f, q) && MismasPaginas(f, g, q);
    }
  }

  lemma {:induction false} SoloCambiaRefleja(e: Entorno, tp: nat, pid: int)
    requires EntornoOk(e, tp)
    ensures SoloCambia(e, e, pid)
  {
  }

  /** Writing back one of `pid`'s entries, or writing one of its frames, touches nobody else. */
  lemma {:induction false} EscrituraSoloCambia(e: Entorno, tp: nat, c: Clave, nuevo: Pagina)
    requires EntornoOk(e, tp) && c in e.rutas
    ensures SoloCambia(e, e.(ram := e.ram[e.rutas[c] := nuevo]), c.pid)
  {
  }

  lemma {:induction false} DesalojoSoloCambia(cache: seq<EntradaCache>, e: Entorno, tp: nat, i: nat, pid: int)
    requires CacheOk(cache, e, tp) && EntornoOk(e, tp) && i < |cache| && (cache[i].ocupado ==> cache[i].pid == pid)
    ensures SoloCambia(e, TrasDesalojo(cache[i], e), pid)
  {
  }

  // ---------------------------------------------------------------- whole readers' view

  // Every page reads the same.
  ghost predicate MismaVista(a: seq<EntradaCache>, e: Entorno, b: seq<EntradaCache>, f: Entorno)
    requires RutasOk(e) && RutasOk(f)
  {
    forall d :: Vista(b, f, d) == Vista(a, e, d)
  }

  // Every page reads the same but c, which reads as p.
  ghost predicate VistaCon(a: seq<EntradaCache>, e: Entorno, b: seq<EntradaCache>, f: Entorno, c: Clave, p: Pagina)
    requires RutasOk(e) && RutasOk(f)
  {
    forall d :: Vista(b, f, d) == if d == c then Some(p) else Vista(a, e, d)
  }

  // The first i entries have been gone over, and those of `pid` freed.
  ghost predicate Limpiadas(a: seq<EntradaCache>, b: seq<EntradaCache>, pid: int, libre: EntradaCache, i: nat) {
    && i <= |a| == |b|
    && (forall j :: 0 <= j < i ==> b[j] == if a[j].ocupado && a[j].pid == pid then libre else a[j])
    && (forall j :: i <= j < |a| ==> b[j] == a[j])
  }

  // Memory itself now holds what every page of `pid` read as.
  ghost predicate TodoEnRam(a: seq<EntradaCache>, e: Entorno, f: Entorno, pid: int)
    requires RutasOk(e) && RutasOk(f)
  {
    forall d: Clave :: d.pid == pid && d in f.rutas ==> Vista(a, e, d) == Some(f.ram[f.rutas[d]])
  }

  /** With no entry of `pid` left, its pages read as their frames. */
  lemma {:induction false} LimpiadasVista(a: seq<EntradaCache>, e: Entorno, b: seq<EntradaCache>, f: Entorno, pid: int, libre: EntradaCache)
    requires Limpiadas(a, b, pid, libre, |a|) && !libre.ocupado
    requires RutasOk(e) && RutasOk(f) && MismaVista(a, e, b, f)
    ensures TodoEnRam(a, e, f, pid)
  {
  }

  // Nobody reads anything different, translation included, and if only `pid` was cached then it
  // still is and only its frames were written.
  ghost predicate Intacta(a: seq<EntradaCache>, e: Entorno, b: seq<EntradaCache>, f: Entorno, pid: int) {
    && RutasOk(e) && RutasOk(f) && MismaVista(a, e, b, f) && f.rutas == e.rutas
    && (SoloDe(a, pid) ==> SoloDe(b, pid) && SoloCambia(e, f, pid))
  }

  // Half-way through a flush of `pid`.
  ghost predicate EnLimpieza(a: seq<EntradaCache>, e: Entorno, b: seq<EntradaCache>, f: Entorno, pid: int, libre: EntradaCache, i: nat) {
    && RutasOk(e) && RutasOk(f) && MismaVista(a, e, b, f) && SoloCambia(e, f, pid) && Limpiadas(a, b, pid, libre, i)
  }

  /** One entry of the flush: freed, with its page written back, if it is of `pid`. */
  lemma {:induction false} LimpiezaSigue(a: seq<EntradaCache>, e0: Entorno, b: seq<EntradaCache>, e: Entorno, c: seq<EntradaCache>, f: Entorno, pid: int, libre: EntradaCache, i: nat)
    requires EnLimpieza(a, e0, b, e, pid, libre, i) && i < |b|
    requires if b[i].ocupado && b[i].pid == pid
             then c == b[i := libre] && RutasOk(f) && MismaVista(b, e, c, f) && SoloCambia(e, f, pid)
             else c == b && f == e
    ensures EnLimpieza(a, e0, c, f, pid, libre, i + 1)
  {
    if b[i].ocupado && b[i].pid == pid { SoloCambiaTransitiva(e0, e, f, pid); }
  }
}
