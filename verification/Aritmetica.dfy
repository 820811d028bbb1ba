/** Quotients, residues and powers. */
module Aritmetica {
  import opened Comunes

  lemma {:induction false} MulMonotona(a: nat, b: nat, d: nat)
    ensures a <= b ==> a * d <= b * d
  {
  }

  lemma {:induction false} DivUnico(n: nat, d: nat, q: nat, r: nat)
    requires d > 0 && n == q * d + r && r < d
    ensures n / d == q && n % d == r
  {
    var q', r' := n / d, n % d;
    assert n == q' * d + r';
    MulMonotona(q + 1, q', d);
    MulMonotona(q' + 1, q, d);
    assert (q + 1) * d == q * d + d && (q' + 1) * d == q' * d + d;
  }

  lemma {:induction false} Descomponer(a: nat, b: nat, c: nat, E: nat, P: nat)
    requires a == b * E + c && c < E && P > 0
    ensures E * P > 0 && a * P == b * (E * P) + c * P && c * P + P <= E * P
  {
    assert (b * E + c) * P == (b * E) * P + c * P;
    assert (b * E) * P == b * (E * P);
    MulMonotona(c + 1, E, P);
    assert (c + 1) * P == c * P + P;
  }

  /** Splitting a residue: the quotient by an inner block is the index at this level. */
  lemma {:induction false} ModProducto(p: nat, E: nat, P: nat)
    requires E > 0 && P > 0
    ensures E * P > 0
    ensures (p % (E * P)) / P == (p / P) % E
    ensures (p % (E * P)) % P == p % P
  {
    var a, r := p / P, p % P;
    var b, c := a / E, a % E;
    Descomponer(a, b, c, E, P);
    var D := E * P;
    DivUnico(p, D, b, c * P + r);
    DivUnico(c * P + r, P, c, r);
  }

  lemma {:induction false} PotPositiva(b: nat, k: nat)
    requires b > 0
    ensures Pot(b, k) > 0
  {
    if k > 0 { PotPositiva(b, k - 1); }
  }

  lemma {:induction false} PotSuma(b: nat, j: nat, k: nat)
    ensures Pot(b, j + k) == Pot(b, j) * Pot(b, k)
  {
    if j > 0 {
      PotSuma(b, j - 1, k);
      assert b * (Pot(b, j - 1) * Pot(b, k)) == (b * Pot(b, j - 1)) * Pot(b, k);
    }
  }

  lemma {:induction false} PotPot(b: nat, j: nat, k: nat)
    ensures Pot(Pot(b, j), k) == Pot(b, k * j)
  {
    if k > 0 {
      PotPot(b, j, k - 1);
      PotSuma(b, j, (k - 1) * j);
      assert j + (k - 1) * j == k * j;
    }
  }

  lemma {:induction false} DivExacta(a: nat, b: nat)
    requires b > 0
    ensures (a * b) / b == a
  {
    DivUnico(a * b, b, a, 0);
  }

  lemma {:induction false} ModMenor(a: nat, b: nat)
    requires b > 0
    ensures a % b <= a && (a < b ==> a % b == a)
  {
  }

  /** An address is below n whole pages exactly when its page is one of the first n. */
  lemma {:induction false} PaginaDentro(dl: nat, tp: nat, n: nat)
    requires tp > 0
    ensures dl == dl / tp * tp + dl % tp
    ensures dl < n * tp <==> dl / tp < n
    ensures dl / tp < n ==> dl / tp * tp + tp <= n * tp
  {
    var k := dl / tp;
    MulMonotona(n, k, tp);
    MulMonotona(k + 1, n, tp);
    assert (k + 1) * tp == k * tp + tp;
  }
}
