/** Definitions shared by the three processes of the system. */
module Comunes {
  datatype Option<+T> = None | Some(valor: T) {
    function GetOr(otro: T): T { if Some? then valor else otro }
  }

  newtype byte = x: int | 0 <= x < 256

  type Pagina = seq<byte>

  /** `datos` laid over `p` from `desde` on: what a memcpy into the middle of a page leaves. */
  function Pegar(p: Pagina, desde: nat, datos: seq<byte>): (r: Pagina)
    requires desde + |datos| <= |p|
    ensures |r| == |p|
    ensures forall i :: 0 <= i < |p| ==>
              r[i] == if desde <= i < desde + |datos| then datos[i - desde] else p[i]
  {
    p[..desde] + datos + p[desde + |datos|..]
  }

  function Pot(base: nat, exp: nat): nat
  {
    if exp == 0 then 1 else base * Pot(base, exp - 1)
  }

  /** Position of the first `false`, or the length when there is none: the first-fit
      search that both bitmaps use. */
  function PrimerLibre(b: seq<bool>): (r: nat)
    ensures r <= |b|
    ensures forall i :: 0 <= i < r ==> b[i]
    ensures r < |b| ==> !b[r]
  {
    if b == [] || !b[0] then 0 else 1 + PrimerLibre(b[1..])
  }

  /** How many bits are clear. */
  function Libres(b: seq<bool>): nat
  {
    if b == [] then 0 else Libres(b[..|b| - 1]) + if b[|b| - 1] then 0 else 1
  }

  lemma {:induction false} LibresActualizado(b: seq<bool>, i: nat, v: bool)
    requires i < |b|
    ensures Libres(b[i := v]) == Libres(b) + (if b[i] then 1 else 0) - (if v then 1 else 0)
  {
    var n := |b| - 1;
    var c := b[i := v];
    if i == n {
      assert c[..n] == b[..n];
    } else {
      assert c[..n] == b[..n][i := v];
      LibresActualizado(b[..n], i, v);
    }
  }

  lemma {:induction false} HayLibre(b: seq<bool>)
    ensures Libres(b) > 0 <==> PrimerLibre(b) < |b|
  {
    if b != [] {
      var n := |b| - 1;
      HayLibre(b[..n]);
      assert forall i :: 0 <= i < n ==> b[..n][i] == b[i];
      if Libres(b[..n]) > 0 {
        assert !b[PrimerLibre(b[..n])];
      } else if b[n] {
        assert forall i :: 0 <= i < |b| ==> b[i];
      } else {
        assert !b[n];
      }
    }
  }
}
