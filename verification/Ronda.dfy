/** Going round: positions on a circle, and the first free one from a starting point on, which is
    how CPUs, I/O instances and cache victims are looked for. */
module Ronda {
  import opened Comunes
  import opened Aritmetica

  /** How far position i is ahead of the pointer, going round. */
  function Dist(p: nat, i: nat, n: nat): nat
    requires p < n && i < n
  {
    if i >= p then i - p else i + n - p
  }

  /** The position k steps ahead of the pointer. */
  function Giro(p: nat, k: nat, n: nat): (r: nat)
    requires p < n && k <= n
    ensures r < n && (k < n ==> Dist(p, r, n) == k)
  {
    if p + k < n then p + k else p + k - n
  }

  lemma {:induction false} GiroEsModulo(p: nat, k: nat, n: nat)
    requires p < n && k <= n
    ensures (p + k) % n == Giro(p, k, n)
  {
  }

  lemma {:induction false} GiroSiguiente(p: nat, k: nat, n: nat)
    requires p < n && k < n
    ensures (Giro(p, k, n) + 1) % n == Giro(p, k + 1, n)
  {
  }

  lemma {:induction false} ModSuma(a: nat, k: nat, n: nat)
    requires n > 0 && k < n
    ensures (a + k) % n == Giro(a % n, k, n)
  {
    var q, r := a / n, a % n;
    var p := q * n;
    assert a == p + r;
    if r + k < n {
      DivUnico(a + k, n, q, r + k);
    } else {
      assert (q + 1) * n == p + n;
      DivUnico(a + k, n, q + 1, r + k - n);
    }
  }

  /** The position tried i steps into a search that starts after the last one used. */
  function Vuelta(ultimo: int, i: nat, n: nat): (r: nat)
    requires ultimo >= -1 && n > 0
    ensures r < n && (i < n ==> r == Giro((ultimo + 1) % n, i, n))
  {
    if i < n then ModSuma(ultimo + 1, i, n); (ultimo + 1 + i) % n else (ultimo + 1 + i) % n
  }

  /** The free position met first from `inicio` on, skipping the first k. */
  function BuscarDesde(libres: seq<bool>, inicio: nat, k: nat): (r: Option<nat>)
    requires inicio < |libres| && k <= |libres|
    ensures r.Some? ==> r.valor < |libres| && libres[r.valor] && Dist(inicio, r.valor, |libres|) >= k
    ensures forall j :: 0 <= j < |libres| && libres[j] && Dist(inicio, j, |libres|) >= k ==>
              r.Some? && Dist(inicio, r.valor, |libres|) <= Dist(inicio, j, |libres|)
    decreases |libres| - k
  {
    if k == |libres| then None
    else if libres[Giro(inicio, k, |libres|)] then Some(Giro(inicio, k, |libres|))
    else BuscarDesde(libres, inicio, k + 1)
  }

  /** Round robin: the first free position after the last one used (-1 if none was). */
  function Siguiente(libres: seq<bool>, ultimo: int): (r: Option<nat>)
    requires ultimo >= -1
    ensures r.Some? ==> r.valor < |libres| && libres[r.valor]
    ensures r.None? <==> forall j :: 0 <= j < |libres| ==> !libres[j]
    ensures r.Some? ==> forall j :: 0 <= j < |libres| && libres[j] ==>
              Dist((ultimo + 1) % |libres|, r.valor, |libres|) <= Dist((ultimo + 1) % |libres|, j, |libres|)
  {
    if libres == [] then None else BuscarDesde(libres, (ultimo + 1) % |libres|, 0)
  }

  lemma {:induction false} SiguienteUnico(libres: seq<bool>, ultimo: int, v: nat)
    requires ultimo >= -1 && v < |libres| && libres[v]
    requires forall j :: 0 <= j < |libres| && Dist((ultimo + 1) % |libres|, j, |libres|) < Dist((ultimo + 1) % |libres|, v, |libres|) ==> !libres[j]
    ensures Siguiente(libres, ultimo) == Some(v)
  {
  }
}
