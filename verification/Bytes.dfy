/** The user memory as one run of bytes, and as frames. */
module Bytes {
  import opened Comunes
  import opened Aritmetica

  function MarcoEn(b: seq<byte>, tp: nat, i: nat): Pagina
  {
    if i * tp + tp <= |b| then b[i * tp..i * tp + tp] else []
  }

  function Partir(b: seq<byte>, tp: nat, n: nat): (r: seq<Pagina>)
    ensures |r| == n && forall i :: 0 <= i < n ==> r[i] == MarcoEn(b, tp, i)
  {
    seq(n, i requires 0 <= i < n => MarcoEn(b, tp, i))
  }

  lemma {:induction false} MarcoCabe(b: seq<byte>, tp: nat, n: nat, i: nat)
    requires |b| == n * tp && i < n
    ensures i * tp + tp <= |b| && |MarcoEn(b, tp, i)| == tp
  {
    MulMonotona(i + 1, n, tp);
    assert (i + 1) * tp == i * tp + tp;
  }

  lemma {:induction false} Separados(tp: nat, i: nat, j: nat)
    requires i != j
    ensures i * tp + tp <= j * tp || j * tp + tp <= i * tp
  {
    MulMonotona(i + 1, j, tp);
    MulMonotona(j + 1, i, tp);
    assert (i + 1) * tp == i * tp + tp && (j + 1) * tp == j * tp + tp;
  }

  lemma {:induction false} Tajada(b: seq<byte>, base: nat, tp: nat, desde: nat, n: nat)
    requires base + tp <= |b| && desde + n <= tp
    ensures b[base..base + tp][desde..desde + n] == b[base + desde..base + desde + n]
  {
    var l, r := b[base..base + tp][desde..desde + n], b[base + desde..base + desde + n];
    assert forall k :: 0 <= k < n ==> l[k] == r[k];
  }

  // `c` is `b` with `datos` written from `dir` on.
  ghost predicate Escrito(b: seq<byte>, c: seq<byte>, dir: nat, datos: seq<byte>) {
    |b| == |c| && forall k :: 0 <= k < |b| ==>
      c[k] == if dir <= k < dir + |datos| then datos[k - dir] else b[k]
  }

  lemma {:induction false} MarcoTras(b: seq<byte>, c: seq<byte>, tp: nat, m: nat, desde: nat, datos: seq<byte>, i: nat)
    requires m * tp + tp <= |b| && i * tp + tp <= |b|
    requires desde + |datos| <= tp && Escrito(b, c, m * tp + desde, datos)
    ensures MarcoEn(c, tp, i) == if i == m then Pegar(MarcoEn(b, tp, m), desde, datos) else MarcoEn(b, tp, i)
  {
    if i != m { Separados(tp, i, m); }
    TramoTras(b, c, tp, m * tp, desde, datos, i * tp);
  }

  lemma {:induction false} TramoTras(b: seq<byte>, c: seq<byte>, tp: nat, base: nat, desde: nat, datos: seq<byte>, otro: nat)
    requires base + tp <= |b| && otro + tp <= |b| && desde + |datos| <= tp && Escrito(b, c, base + desde, datos)
    requires otro == base || otro + tp <= base || base + tp <= otro
    ensures c[otro..otro + tp] == if otro == base then Pegar(b[base..base + tp], desde, datos) else b[otro..otro + tp]
  {
  }

  /** Writing at `m * tp + desde` inside frame m writes that frame and no other. */
  lemma {:induction false} EscribirBytes(b: seq<byte>, c: seq<byte>, tp: nat, n: nat, m: nat, desde: nat, datos: seq<byte>)
    requires |b| == n * tp && m < n && desde + |datos| <= tp && Escrito(b, c, m * tp + desde, datos)
    ensures |MarcoEn(b, tp, m)| == tp
    ensures Partir(c, tp, n) == Partir(b, tp, n)[m := Pegar(MarcoEn(b, tp, m), desde, datos)]
  {
    MarcoCabe(b, tp, n, m);
    var l, r := Partir(c, tp, n), Partir(b, tp, n)[m := Pegar(MarcoEn(b, tp, m), desde, datos)];
    forall i: nat | i < n ensures l[i] == r[i] {
      MarcoCabe(b, tp, n, i);
      MarcoTras(b, c, tp, m, desde, datos, i);
    }
  }
}
