/** N-level page tables, the leaf sequence they stand for, and the arithmetic that takes a
    page number to its leaf. */
module Tablas {
  import opened Comunes
  import opened Fisico
  import opened Recorridos
  import opened Aritmetica

  /** As in the source, one kind of entry serves every level. */
  datatype Entrada = Entrada(presente: bool, marco: int, siguiente: Option<Tabla>, slot: int)
  datatype Tabla = Tabla(entradas: seq<Entrada>)

  const ENTRADA_VACIA := Entrada(false, -1, None, -1)

  function HojaDe(e: Entrada): Hoja { Hoja(e.presente, e.marco, e.slot) }

  ghost predicate Forma(es: seq<Entrada>, E: nat, h: nat)
    decreases h, 1
  {
    h > 0 && |es| == E && forall i :: 0 <= i < E ==> FormaEntrada(es[i], E, h)
  }

  // An inner entry only ever points to a table of the next level; a last-level one never does.
  ghost predicate FormaEntrada(e: Entrada, E: nat, h: nat)
    requires h > 0
    decreases h, 0
  {
    if h == 1 then e.siguiente.None?
    else HojaDe(e) == VACIA && (e.siguiente.Some? ==> Forma(e.siguiente.valor.entradas, E, h - 1))
  }

  /** The last-level entries under `es`, left to right; a missing table stands for as many
      blank ones as it would have held. */
  function Hojas(es: seq<Entrada>, E: nat, h: nat): seq<Hoja>
    requires h > 0
    decreases h, |es|
  {
    if es == [] then [] else Hojas(es[..|es| - 1], E, h) + HojasDe(es[|es| - 1], E, h)
  }

  function HojasDe(e: Entrada, E: nat, h: nat): seq<Hoja>
    requires h > 0
    decreases h, 0
  {
    if h == 1 then [HojaDe(e)]
    else if e.siguiente.None? then Vacias(Pot(E, h - 1))
    else Hojas(e.siguiente.valor.entradas, E, h - 1)
  }

  function HojasRaiz(t: Option<Tabla>, E: nat, h: nat): seq<Hoja>
    requires h > 0
  {
    if t.None? then Vacias(Pot(E, h)) else Hojas(t.valor.entradas, E, h)
  }

  lemma {:induction false} HojasLargo(es: seq<Entrada>, E: nat, h: nat)
    requires h > 0 && forall i :: 0 <= i < |es| ==> FormaEntrada(es[i], E, h)
    ensures |Hojas(es, E, h)| == |es| * Pot(E, h - 1)
    decreases h, |es|
  {
    if es != [] {
      var n := |es| - 1;
      HojasLargo(es[..n], E, h);
      HojasDeLargo(es[n], E, h);
      assert n * Pot(E, h - 1) + Pot(E, h - 1) == |es| * Pot(E, h - 1);
    }
  }

  lemma {:induction false} HojasDeLargo(e: Entrada, E: nat, h: nat)
    requires h > 0 && FormaEntrada(e, E, h)
    ensures |HojasDe(e, E, h)| == Pot(E, h - 1)
    decreases h, 0
  {
    if h > 1 && e.siguiente.Some? {
      HojasLargo(e.siguiente.valor.entradas, E, h - 1);
    }
  }

  /** Where the leaves of entry i start. */
  lemma {:induction false} HojasEn(es: seq<Entrada>, E: nat, h: nat, i: nat, r: nat)
    requires h > 0 && forall j :: 0 <= j < |es| ==> FormaEntrada(es[j], E, h)
    requires i < |es| && r < Pot(E, h - 1)
    ensures |HojasDe(es[i], E, h)| == Pot(E, h - 1)
    ensures i * Pot(E, h - 1) + r < |Hojas(es, E, h)|
    ensures Hojas(es, E, h)[i * Pot(E, h - 1) + r] == HojasDe(es[i], E, h)[r]
    decreases |es|
  {
    var n := |es| - 1;
    var P := Pot(E, h - 1);
    HojasLargo(es[..n], E, h);
    HojasDeLargo(es[n], E, h);
    HojasDeLargo(es[i], E, h);
    assert |es[..n]| == n;
    if i < n {
      HojasEn(es[..n], E, h, i, r);
      assert es[..n][i] == es[i];
    }
  }

  /** A table just created holds only blank leaves. */
  lemma {:induction false} HojasEnBlanco(es: seq<Entrada>, E: nat, h: nat)
    requires h > 0 && forall i :: 0 <= i < |es| ==> es[i] == ENTRADA_VACIA
    ensures Hojas(es, E, h) == Vacias(|es| * Pot(E, h - 1))
  {
    if es != [] {
      var n := |es| - 1;
      HojasEnBlanco(es[..n], E, h);
      assert n * Pot(E, h - 1) + Pot(E, h - 1) == |es| * Pot(E, h - 1);
    }
  }

  lemma {:induction false} HojasSiguiente(es: seq<Entrada>, E: nat, h: nat, i: nat)
    requires h > 0 && i < |es|
    ensures Hojas(es[..i + 1], E, h) == Hojas(es[..i], E, h) + HojasDe(es[i], E, h)
  {
    assert es[..i + 1][..i] == es[..i];
  }

  // ---------------------------------------------------------------- index arithmetic

  /** obtener_indice_de_pagina: shift away the lower levels' bits, mask one level's. On
      non-negative ints, `x >> s` is x / 2^s and `x & (2^b - 1)` is x % 2^b. */
  function IndiceDePagina(pagina: nat, nivel: nat, niveles: nat, bitsPorNivel: nat): nat
    requires nivel <= niveles
  {
    PotPositiva(2, (niveles - nivel) * bitsPorNivel);
    PotPositiva(2, bitsPorNivel);
    pagina / Pot(2, (niveles - nivel) * bitsPorNivel) % Pot(2, bitsPorNivel)
  }

  /** With E = 2^b entries a table, that index is the digit of the page number in base E. */
  lemma {:induction false} IndiceEsDigito(pagina: nat, nivel: nat, niveles: nat, b: nat)
    requires nivel <= niveles
    ensures Pot(2, b) > 0 && Pot(Pot(2, b), niveles - nivel) > 0
    ensures IndiceDePagina(pagina, nivel, niveles, b)
         == pagina / Pot(Pot(2, b), niveles - nivel) % Pot(2, b)
    ensures IndiceDePagina(pagina, nivel, niveles, b) < Pot(2, b)
  {
    PotPositiva(2, b);
    PotPositiva(Pot(2, b), niveles - nivel);
    PotPot(2, b, niveles - nivel);
  }

  /** What descending by those indices reaches from a table of height h. */
  function Caminar(es: seq<Entrada>, E: nat, h: nat, pagina: nat): Option<Hoja>
    requires h > 0 && E > 0 && Forma(es, E, h)
    decreases h
  {
    PotPositiva(E, h - 1);
    var e := es[pagina / Pot(E, h - 1) % E];
    assert FormaEntrada(e, E, h);
    if h == 1 then Some(HojaDe(e))
    else if e.siguiente.None? then None
    else Caminar(e.siguiente.valor.entradas, E, h - 1, pagina)
  }

  /** The walk reaches the leaf whose position is the page number modulo what the tables can
      hold, and stops at a missing table only where that leaf would be blank. */
  lemma {:induction false} CaminarAlcanza(es: seq<Entrada>, E: nat, h: nat, pagina: nat)
    requires h > 0 && E > 0 && Forma(es, E, h)
    ensures Pot(E, h) > 0 && |Hojas(es, E, h)| == Pot(E, h)
    ensures Caminar(es, E, h, pagina).GetOr(VACIA) == Hojas(es, E, h)[pagina % Pot(E, h)]
    decreases h
  {
    var P := Pot(E, h - 1);
    PotPositiva(E, h - 1);
    PotPositiva(E, h);
    HojasLargo(es, E, h);
    ModProducto(pagina, E, P);
    var q := pagina % Pot(E, h);
    var i, r := q / P, q % P;
    assert q == i * P + r;
    HojasEn(es, E, h, i, r);
    assert FormaEntrada(es[i], E, h);
    if h > 1 && es[i].siguiente.Some? {
      CaminarAlcanza(es[i].siguiente.valor.entradas, E, h - 1, pagina);
    }
  }
}
