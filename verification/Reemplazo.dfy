/** Which entry CLOCK and CLOCK-M give up, said without the sweep that finds it. */
module Reemplazo {
  import opened Comunes
  import opened Ronda
  import opened Tenencia
  import opened Cache

  datatype AlgCache = Clock | ClockM | CacheDesconocido

  /** The better the class, the lower: use bit, and for CLOCK-M the modified bit after it. */
  function Clase(alg: AlgCache, x: EntradaCache): nat
  {
    match alg
    case Clock => if x.uso then 1 else 0
    case _ => (if x.uso then 2 else 0) + (if x.modificado then 1 else 0)
  }

  /** The victim: the first entry going round from the pointer among those of the best class. */
  ghost predicate EsVictima(alg: AlgCache, a: seq<EntradaCache>, p: nat, v: nat)
    requires p < |a|
  {
    v < |a| && forall i :: 0 <= i < |a| ==>
      Clase(alg, a[v]) < Clase(alg, a[i])
      || (Clase(alg, a[v]) == Clase(alg, a[i]) && Dist(p, v, |a|) <= Dist(p, i, |a|))
  }

  /** The use bits the sweep leaves: all down when every one was up; otherwise only those it
      passed, and CLOCK-M passes none when it finds an unused clean entry. */
  function Bajado(alg: AlgCache, a: seq<EntradaCache>, p: nat, v: nat, i: nat): EntradaCache
    requires p < |a| && v < |a| && i < |a|
  {
    if a[v].uso || (Dist(p, i, |a|) < Dist(p, v, |a|) && (alg == Clock || a[v].modificado))
    then a[i].(uso := false) else a[i]
  }

  ghost predicate Bajados(alg: AlgCache, a: seq<EntradaCache>, b: seq<EntradaCache>, p: nat, v: nat)
    requires p < |a| && v < |a|
  {
    |b| == |a| && forall i :: 0 <= i < |a| ==> b[i] == Bajado(alg, a, p, v, i)
  }

  lemma {:induction false} VictimaUnica(alg: AlgCache, a: seq<EntradaCache>, p: nat, v: nat, w: nat)
    requires p < |a| && EsVictima(alg, a, p, v) && EsVictima(alg, a, p, w)
    ensures v == w
  {
    assert Dist(p, v, |a|) == Dist(p, w, |a|);
  }

  // ---------------------------------------------------------------- the sweep

  // The k entries from the pointer on have lost their use bit.
  ghost predicate Barrido(a: seq<EntradaCache>, b: seq<EntradaCache>, p: nat, k: nat)
    requires p < |a|
  {
    |b| == |a| && forall i :: 0 <= i < |a| ==> b[i] == if Dist(p, i, |a|) < k then a[i].(uso := false) else a[i]
  }

  lemma {:induction false} BarridoSigue(a: seq<EntradaCache>, b: seq<EntradaCache>, p: nat, k: nat, g: nat)
    requires p < |a| && k < |a| && Barrido(a, b, p, k) && g == Giro(p, k, |a|)
    ensures Barrido(a, b[g := b[g].(uso := false)], p, k + 1)
    ensures b[g] == a[g]
  {
  }

  predicate Limpia(x: EntradaCache) { !x.uso && !x.modificado }

  predicate Sucia(x: EntradaCache) { !x.uso && x.modificado }

  /** The first unused clean entry is CLOCK-M's victim, and nothing was swept to find it. */
  lemma {:induction false} VictimaLimpia(a: seq<EntradaCache>, p: nat, v: nat)
    requires p < |a| && v < |a| && Limpia(a[v])
    requires forall i :: 0 <= i < |a| && Dist(p, i, |a|) < Dist(p, v, |a|) ==> !Limpia(a[i])
    ensures EsVictima(ClockM, a, p, v) && Bajados(ClockM, a, a, p, v)
  {
  }

  /** Without one, it is the first unused modified entry the sweep meets. */
  lemma {:induction false} VictimaSucia(a: seq<EntradaCache>, b: seq<EntradaCache>, p: nat, k: nat, v: nat)
    requires p < |a| && k < |a| && v == Giro(p, k, |a|) && Sucia(a[v])
    requires forall i :: 0 <= i < |a| ==> !Limpia(a[i])
    requires forall i :: 0 <= i < |a| && Dist(p, i, |a|) < k ==> !Sucia(a[i])
    requires Barrido(a, b, p, k)
    ensures EsVictima(ClockM, a, p, v) && Bajados(ClockM, a, b, p, v)
  {
  }

  // Every entry was in use, and the first round took every use bit down.
  ghost predicate TodasBajadas(a: seq<EntradaCache>, b: seq<EntradaCache>) {
    |b| == |a| && forall i :: 0 <= i < |a| ==> a[i].uso && b[i] == a[i].(uso := false)
  }

  lemma {:induction false} RondaCompleta(a: seq<EntradaCache>, b: seq<EntradaCache>, p: nat)
    requires p < |a| && Barrido(a, b, p, |a|)
    requires forall i :: 0 <= i < |a| ==> !Limpia(a[i]) && !Sucia(a[i])
    ensures TodasBajadas(a, b)
  {
  }

  lemma {:induction false} VictimaSegundaLimpia(a: seq<EntradaCache>, b: seq<EntradaCache>, p: nat, v: nat)
    requires p < |a| && v < |a| && TodasBajadas(a, b) && Limpia(b[v])
    requires forall i :: 0 <= i < |a| && Dist(p, i, |a|) < Dist(p, v, |a|) ==> !Limpia(b[i])
    ensures EsVictima(ClockM, a, p, v) && Bajados(ClockM, a, b, p, v)
  {
  }

  lemma {:induction false} VictimaPuntero(a: seq<EntradaCache>, b: seq<EntradaCache>, p: nat)
    requires p < |a| && TodasBajadas(a, b)
    requires forall i :: 0 <= i < |a| ==> !Limpia(b[i])
    ensures EsVictima(ClockM, a, p, p) && Bajados(ClockM, a, b, p, p)
  {
  }

  // ---------------------------------------------------------------- what replacing does to readers

  // x is in the victim's place and the rest is as the sweep left it.
  ghost predicate Reemplazada(alg: AlgCache, a: seq<EntradaCache>, p: nat, v: nat, x: EntradaCache, b: seq<EntradaCache>)
    requires p < |a| && v < |a|
  {
    |b| == |a| && forall i :: 0 <= i < |a| ==> b[i] == if i == v then x else Bajado(alg, a, p, v, i)
  }

  lemma {:induction false} ReemplazadaDesde(alg: AlgCache, a: seq<EntradaCache>, p: nat, v: nat, x: EntradaCache, b: seq<EntradaCache>, e: Entorno, tp: nat)
    requires p < |a| && v < |a| && Bajados(alg, a, b, p, v) && EntradaOk(a[v], e, tp)
    ensures Reemplazada(alg, a, p, v, x, b[v := x])
    ensures EntradaOk(b[v], e, tp) && b[v].ocupado == a[v].ocupado && TrasDesalojo(b[v], e) == TrasDesalojo(a[v], e)
  {
  }

  /** Replacement under either policy changes what no page reads as, but for the one put in. */
  lemma {:induction false} ReemplazadaVista(alg: AlgCache, a: seq<EntradaCache>, p: nat, v: nat, x: EntradaCache, b: seq<EntradaCache>, e: Entorno, tp: nat, c: Clave)
    requires CacheOk(a, e, tp) && EntornoOk(e, tp) && p < |a| && v < |a|
    requires Donde(a, c) == |a| && Nueva(x, e, c, tp) && Reemplazada(alg, a, p, v, x, b)
    ensures EntornoOk(TrasDesalojo(a[v], e), tp) && CacheOk(b, TrasDesalojo(a[v], e), tp)
    ensures VistaCon(a, e, b, TrasDesalojo(a[v], e), c, x.contenido)
  {
    var s := b[v := Bajado(alg, a, p, v, v)];
    UsoNoImporta(a, s, e, tp);
    assert TrasDesalojo(s[v], e) == TrasDesalojo(a[v], e);
    assert b == s[v := x];
    ReemplazoOk(s, e, tp, v, x, c);
    forall d ensures Vista(b, TrasDesalojo(a[v], e), d) == if d == c then Some(x.contenido) else Vista(a, e, d) {
      ReemplazoVista(s, e, tp, v, x, c, d);
    }
  }

  /** What replacing someone by x leaves of the cache, its pointer and the memory. CLOCK
      leaves the pointer on the victim, CLOCK-M just after it. */
  ghost predicate Sustituida(alg: AlgCache, a: seq<EntradaCache>, p: nat, e: Entorno, x: EntradaCache, v: nat, b: seq<EntradaCache>, q: nat, f: Entorno)
    requires p < |a|
  {
    && v < |a| && EsVictima(alg, a, p, v) && Reemplazada(alg, a, p, v, x, b)
    && q == (if alg == Clock then v else (v + 1) % |a|)
    && f == TrasDesalojo(a[v], e)
  }

  /** What an insertion of x leaves: the first free entry, else the victim's. Nothing changes
      when there is no cache, or when it is full and the policy name is unknown. */
  ghost predicate Insertada(alg: AlgCache, a: seq<EntradaCache>, p: nat, e: Entorno, x: EntradaCache, b: seq<EntradaCache>, q: nat, f: Entorno)
    requires p < |a| || a == []
  {
    if Hueco(a) < |a| then b == a[Hueco(a) := x] && q == p && f == e
    else if a == [] || alg.CacheDesconocido? then b == a && q == p && f == e
    else exists v: nat :: Sustituida(alg, a, p, e, x, v, b, q, f)
  }

  /** Whether an insertion takes place. */
  predicate Cabe(alg: AlgCache, a: seq<EntradaCache>) {
    a != [] && (Hueco(a) < |a| || !alg.CacheDesconocido?)
  }

  lemma {:induction false} InsertadaEnHueco(a: seq<EntradaCache>, e: Entorno, x: EntradaCache, tp: nat, c: Clave)
    requires Hueco(a) < |a|
    requires CacheOk(a, e, tp) && EntornoOk(e, tp) && Donde(a, c) == |a| && Nueva(x, e, c, tp)
    ensures CacheOk(a[Hueco(a) := x], e, tp) && VistaCon(a, e, a[Hueco(a) := x], e, c, x.contenido)
  {
    var i := Hueco(a);
    assert TrasDesalojo(a[i], e) == e;
    ReemplazoOk(a, e, tp, i, x, c);
    var b := a[i := x];
    forall d ensures Vista(b, e, d) == if d == c then Some(x.contenido) else Vista(a, e, d) {
      ReemplazoVista(a, e, tp, i, x, c, d);
    }
  }

  lemma {:induction false} SustituidaSoloCambia(alg: AlgCache, a: seq<EntradaCache>, p: nat, e: Entorno, x: EntradaCache, v: nat, b: seq<EntradaCache>, q: nat, f: Entorno, tp: nat, pid: int)
    requires p < |a| && Sustituida(alg, a, p, e, x, v, b, q, f)
    requires CacheOk(a, e, tp) && EntornoOk(e, tp) && x.pid == pid && SoloDe(a, pid)
    ensures SoloDe(b, pid) && SoloCambia(e, f, pid)
  {
  }

  /** An insertion shows the page put in and changes what no other page reads as; and if the
      cache only held the pages of that page's process, only their frames were written. */
  lemma {:induction false} InsertadaVista(alg: AlgCache, a: seq<EntradaCache>, p: nat, e: Entorno, x: EntradaCache, b: seq<EntradaCache>, q: nat, f: Entorno, tp: nat, c: Clave)
    requires (p < |a| || a == []) && Insertada(alg, a, p, e, x, b, q, f)
    requires CacheOk(a, e, tp) && EntornoOk(e, tp) && Donde(a, c) == |a| && Nueva(x, e, c, tp)
    ensures f.rutas == e.rutas && EntornoOk(f, tp) && CacheOk(b, f, tp) && |b| == |a| && (q < |a| || a == [])
    ensures if Cabe(alg, a) then VistaCon(a, e, b, f, c, x.contenido) else b == a && f == e
    ensures SoloDe(a, c.pid) ==> SoloDe(b, c.pid) && SoloCambia(e, f, c.pid)
  {
    SoloCambiaRefleja(e, tp, c.pid);
    if Hueco(a) < |a| {
      InsertadaEnHueco(a, e, x, tp, c);
    } else if Cabe(alg, a) {
      var v: nat :| Sustituida(alg, a, p, e, x, v, b, q, f);
      ReemplazadaVista(alg, a, p, v, x, b, e, tp, c);
      if SoloDe(a, c.pid) { SustituidaSoloCambia(alg, a, p, e, x, v, b, q, f, tp, c.pid); }
    }
  }

  lemma {:induction false} SustituidaDesde(alg: AlgCache, a: seq<EntradaCache>, p: nat, e: Entorno, x: EntradaCache, v: nat, b: seq<EntradaCache>, tp: nat)
    requires p < |a| && v < |a| && EsVictima(alg, a, p, v) && Bajados(alg, a, b, p, v)
    requires CacheOk(a, e, tp) && Hueco(a) == |a| && !alg.CacheDesconocido?
    ensures EntradaOk(b[v], e, tp) && b[v].ocupado
    ensures Insertada(alg, a, p, e, x, b[v := x], if alg == Clock then v else (v + 1) % |a|, TrasDesalojo(b[v], e))
  {
    ReemplazadaDesde(alg, a, p, v, x, b, e, tp);
    assert Sustituida(alg, a, p, e, x, v, b[v := x], if alg == Clock then v else (v + 1) % |a|, TrasDesalojo(b[v], e));
  }
}
