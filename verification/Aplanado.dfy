/** The pages of a process laid end to end: the flat byte store the cache stands for. */
module Aplanado {
  import opened Comunes
  import opened Aritmetica
  import opened Fisico
  import opened Tenencia
  import opened Pedidos
  import opened Corridas
  import opened Cache
  import opened Programa

  function Aplanar(ps: seq<Pagina>): seq<byte> {
    if ps == [] then [] else Aplanar(ps[..|ps| - 1]) + ps[|ps| - 1]
  }

  ghost predicate Enteras(ps: seq<Pagina>, tp: nat) {
    forall i :: 0 <= i < |ps| ==> |ps[i]| == tp
  }

  lemma {:induction false} AplanarLargo(ps: seq<Pagina>, tp: nat)
    requires Enteras(ps, tp)
    ensures |Aplanar(ps)| == |ps| * tp
  {
    if ps != [] {
      AplanarLargo(ps[..|ps| - 1], tp);
      assert (|ps| - 1) * tp + tp == |ps| * tp;
    }
  }

  lemma {:induction false} PegarDerecha(x: seq<byte>, p: Pagina, desde: nat, datos: seq<byte>)
    requires desde + |datos| <= |p|
    ensures Pegar(x + p, |x| + desde, datos) == x + Pegar(p, desde, datos)
    ensures (x + p)[|x| + desde..|x| + desde + |datos|] == p[desde..desde + |datos|]
  {
  }

  lemma {:induction false} PegarIzquierda(x: seq<byte>, p: Pagina, desde: nat, datos: seq<byte>)
    requires desde + |datos| <= |x|
    ensures Pegar(x + p, desde, datos) == Pegar(x, desde, datos) + p
    ensures (x + p)[desde..desde + |datos|] == x[desde..desde + |datos|]
  {
  }

  lemma {:induction false} AplanarPegar(ps: seq<Pagina>, k: nat, base: nat, desde: nat, datos: seq<byte>)
    requires k < |ps| && base == |Aplanar(ps[..k])| && desde + |datos| <= |ps[k]|
    ensures base + desde + |datos| <= |Aplanar(ps)|
    ensures Aplanar(ps[k := Pegar(ps[k], desde, datos)]) == Pegar(Aplanar(ps), base + desde, datos)
    ensures Aplanar(ps)[base + desde..base + desde + |datos|] == ps[k][desde..desde + |datos|]
  {
    var n := |ps| - 1;
    var qs := ps[k := Pegar(ps[k], desde, datos)];
    var antes := Aplanar(ps[..n]);
    if k == n {
      assert qs[..n] == ps[..n];
      PegarDerecha(antes, ps[n], desde, datos);
    } else {
      assert qs[..n] == ps[..n][k := Pegar(ps[k], desde, datos)] && ps[..n][..k] == ps[..k];
      AplanarPegar(ps[..n], k, base, desde, datos);
      PegarIzquierda(antes, ps[n], base + desde, datos);
    }
  }

  // ---------------------------------------------------------------- a process's pages

  // Page by page, exactly the first n translate.
  ghost predicate Residentes(e: Entorno, pid: int, n: nat) {
    forall k: nat :: Clave(pid, k) in e.rutas <==> k < n
  }

  ghost function PaginasVistas(a: seq<EntradaCache>, e: Entorno, pid: int, n: nat): seq<Pagina>
    requires RutasOk(e)
  {
    seq(n, k requires 0 <= k < n => Vista(a, e, Clave(pid, k)).GetOr([]))
  }

  /** The flat store of a process. */
  ghost function MemPlana(a: seq<EntradaCache>, e: Entorno, pid: int, n: nat): seq<byte>
    requires RutasOk(e)
  {
    Aplanar(PaginasVistas(a, e, pid, n))
  }

  lemma {:induction false} PaginasVistasEnteras(a: seq<EntradaCache>, e: Entorno, tp: nat, pid: int, n: nat)
    requires CacheOk(a, e, tp) && EntornoOk(e, tp) && Residentes(e, pid, n)
    ensures Enteras(PaginasVistas(a, e, pid, n), tp)
    ensures |MemPlana(a, e, pid, n)| == n * tp
  {
    var ps := PaginasVistas(a, e, pid, n);
    forall i | 0 <= i < |ps| ensures |ps[i]| == tp {
      VistaSiiRuta(a, e, tp, Clave(pid, i));
    }
    AplanarLargo(ps, tp);
  }

  lemma {:induction false} PlanaEntera(a: seq<EntradaCache>, e: Entorno, tp: nat, pid: int, n: nat)
    requires CacheOk(a, e, tp) && EntornoOk(e, tp) && Residentes(e, pid, n) && tp > 0
    ensures Entera(tp, MemPlana(a, e, pid, n))
  {
    PaginasVistasEnteras(a, e, tp, pid, n);
    DivUnico(n * tp, tp, n, 0);
  }

  lemma {:induction false} PlanaMisma(a: seq<EntradaCache>, e: Entorno, b: seq<EntradaCache>, f: Entorno, pid: int, n: nat)
    requires RutasOk(e) && RutasOk(f) && MismaVista(a, e, b, f)
    ensures MemPlana(b, f, pid, n) == MemPlana(a, e, pid, n)
  {
    assert PaginasVistas(b, f, pid, n) == PaginasVistas(a, e, pid, n);
  }

  /** An access stays inside a reachable page exactly when it does in the flat store. */
  lemma {:induction false} AccesoPlano(a: seq<EntradaCache>, e: Entorno, tp: nat, pid: int, n: nat, dl: nat, tam: nat)
    requires CacheOk(a, e, tp) && EntornoOk(e, tp) && Residentes(e, pid, n) && tp > 0
    ensures var v := Vista(a, e, Clave(pid, dl / tp));
            EnPagina(tp, MemPlana(a, e, pid, n), dl, tam) <==> dl % tp + tam <= tp && v.Some? && |v.valor| == tp
  {
    PaginasVistasEnteras(a, e, tp, pid, n);
    PaginaDentro(dl, tp, n);
    VistaSiiRuta(a, e, tp, Clave(pid, dl / tp));
  }

  /** A READ through the cache yields the bytes of the flat store. */
  lemma {:induction false} LecturaPlana(a: seq<EntradaCache>, e: Entorno, tp: nat, pid: int, n: nat, dl: nat, tam: nat)
    requires CacheOk(a, e, tp) && EntornoOk(e, tp) && Residentes(e, pid, n) && tp > 0
    ensures EnPagina(tp, MemPlana(a, e, pid, n), dl, tam) ==> dl + tam <= |MemPlana(a, e, pid, n)|
    ensures Lectura(Vista(a, e, Clave(pid, dl / tp)), tp, dl % tp, tam)
         == if EnPagina(tp, MemPlana(a, e, pid, n), dl, tam) then Some(MemPlana(a, e, pid, n)[dl..dl + tam]) else None
  {
    AccesoPlano(a, e, tp, pid, n, dl, tam);
    if EnPagina(tp, MemPlana(a, e, pid, n), dl, tam) {
      PlanaEntera(a, e, tp, pid, n);
      EnPaginaCabe(tp, MemPlana(a, e, pid, n), dl, tam);
      PaginasVistasEnteras(a, e, tp, pid, n);
      PaginaDentro(dl, tp, n);
      var ps := PaginasVistas(a, e, pid, n);
      var v := ps[dl / tp];
      AplanarLargo(ps[..dl / tp], tp);
      AplanarPegar(ps, dl / tp, dl / tp * tp, dl % tp, v[dl % tp..dl % tp + tam]);
    }
  }

  /** A WRITE through the cache writes those bytes of the flat store. */
  lemma {:induction false} EscrituraPlana(a: seq<EntradaCache>, e: Entorno, b: seq<EntradaCache>, f: Entorno, tp: nat, pid: int, n: nat, dl: nat, datos: seq<byte>)
    requires CacheOk(a, e, tp) && EntornoOk(e, tp) && Residentes(e, pid, n) && tp > 0 && RutasOk(f)
    requires EnPagina(tp, MemPlana(a, e, pid, n), dl, |datos|)
    requires var v := Vista(a, e, Clave(pid, dl / tp));
             v.Some? && dl % tp + |datos| <= |v.valor| && VistaCon(a, e, b, f, Clave(pid, dl / tp), Pegar(v.valor, dl % tp, datos))
    ensures dl + |datos| <= |MemPlana(a, e, pid, n)|
    ensures MemPlana(b, f, pid, n) == Pegar(MemPlana(a, e, pid, n), dl, datos)
  {
    PlanaEntera(a, e, tp, pid, n);
    EnPaginaCabe(tp, MemPlana(a, e, pid, n), dl, |datos|);
    PaginasVistasEnteras(a, e, tp, pid, n);
    PaginaDentro(dl, tp, n);
    var ps, k := PaginasVistas(a, e, pid, n), dl / tp;
    PaginaEscrita(a, e, b, f, pid, n, k, Pegar(ps[k], dl % tp, datos));
    AplanarLargo(ps[..k], tp);
    AplanarPegar(ps, k, k * tp, dl % tp, datos);
  }

  lemma {:induction false} PaginaEscrita(a: seq<EntradaCache>, e: Entorno, b: seq<EntradaCache>, f: Entorno, pid: int, n: nat, k: nat, nueva: Pagina)
    requires RutasOk(e) && RutasOk(f) && k < n && VistaCon(a, e, b, f, Clave(pid, k), nueva)
    ensures PaginasVistas(b, f, pid, n) == PaginasVistas(a, e, pid, n)[k := nueva]
  {
  }

  // ---------------------------------------------------------------- between bursts

  ghost predicate NadaCacheado(a: seq<EntradaCache>) {
    forall i :: 0 <= i < |a| ==> !a[i].ocupado
  }

  /** With nothing cached the flat store is the logical image that memory keeps and dumps. */
  lemma {:induction false} PlanaEsImagen(a: seq<EntradaCache>, m: Mem, e: Entorno, pid: int, n: nat)
    requires NadaCacheado(a) && RutasOk(e) && Residentes(e, pid, n)
    requires forall c :: c in e.rutas ==> Imagen(m, c) == Some(e.ram[e.rutas[c]])
    ensures MemPlana(a, e, pid, n) == Imagenes(m, pid, n)
  {
    PlanaEsImagenHasta(a, m, e, pid, n, n);
    assert PaginasVistas(a, e, pid, n)[..n] == PaginasVistas(a, e, pid, n);
  }

  lemma {:induction false} PlanaEsImagenHasta(a: seq<EntradaCache>, m: Mem, e: Entorno, pid: int, n: nat, k: nat)
    requires NadaCacheado(a) && RutasOk(e) && Residentes(e, pid, n) && k <= n
    requires forall c :: c in e.rutas ==> Imagen(m, c) == Some(e.ram[e.rutas[c]])
    ensures Aplanar(PaginasVistas(a, e, pid, n)[..k]) == Imagenes(m, pid, k)
  {
    if k > 0 {
      PlanaEsImagenHasta(a, m, e, pid, n, k - 1);
      var ps := PaginasVistas(a, e, pid, n);
      assert ps[..k][..k - 1] == ps[..k - 1];
      assert Clave(pid, k - 1) in e.rutas;
    }
  }
}
