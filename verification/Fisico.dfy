/** What the memory process keeps outside its page tables (the frame bitmap, RAM, the swap
    bitmap and the swap file) and what its table traversals do to one last-level entry. */
module Fisico {
  import opened Comunes

  /** A last-level table entry: `presente`, `numero_marco`, `posicion_swap`. */
  datatype Hoja = Hoja(presente: bool, marco: int, slot: int)

  const VACIA := Hoja(false, -1, -1)

  /** `ram` is read frame by frame, `swap` slot by slot. The swap bitmap grows with `realloc`
      and the new byte is never cleared: `basura(i)` is the arbitrary value bit i is born with.
      `pendientes` is the counter that asignar_paginas_recursivo decrements through a pointer. */
  datatype Fis = Fis(
    marcos: seq<bool>,
    ram: seq<Pagina>,
    bits: seq<bool>,
    swap: map<nat, Pagina>,
    basura: nat -> bool,
    pendientes: nat)

  ghost predicate Coherente(f: Fis) {
    |f.marcos| == |f.ram| && |f.bits| % 8 == 0
  }

  // Same sizes of memory and the same page size everywhere.
  ghost predicate Paginada(f: Fis, tp: nat) {
    && (forall i :: 0 <= i < |f.ram| ==> |f.ram[i]| == tp)
    && (forall s :: s in f.swap ==> |f.swap[s]| == tp)
  }

  datatype Op = Asignar | Suspender | Desuspender | Liberar

  datatype Resultado = Resultado(hoja: Hoja, fis: Fis)

  /** Clearing a bit of either bitmap, if there is such a bit. */
  function LiberarBit(b: seq<bool>, i: int): (r: seq<bool>)
    ensures |r| == |b|
  {
    if 0 <= i < |b| then b[i := false] else b
  }

  /** The swap bitmap after taking `slot`: one more byte, of unknown contents, when the slot
      is the first one past the end. */
  function OcuparSlot(bits: seq<bool>, slot: nat, basura: nat -> bool): (r: seq<bool>)
    requires slot <= |bits|
    ensures slot < |r| && r[slot]
    ensures |r| == if slot < |bits| then |bits| else |bits| + 8
    ensures forall i :: 0 <= i < |bits| && i != slot ==> r[i] == bits[i]
  {
    (if slot < |bits| then bits else bits + seq(8, j requires 0 <= j < 8 => basura(|bits| + j)))[slot := true]
  }

  /** One entry of the traversal `op`, in the order the source makes the changes. */
  function Paso(op: Op, h: Hoja, f: Fis): Resultado
  {
    match op
    case Asignar =>
      var m := PrimerLibre(f.marcos);
      if f.pendientes > 0 && !h.presente && m < |f.marcos| then
        Resultado(h.(presente := true, marco := m),
                  f.(marcos := f.marcos[m := true], pendientes := f.pendientes - 1))
      else Resultado(h, f)
    case Suspender =>
      if h.presente && 0 <= h.marco < |f.ram| then
        var slot := PrimerLibre(f.bits);
        Resultado(Hoja(false, -1, slot),
                  f.(swap := f.swap[slot := f.ram[h.marco]],
                     bits := OcuparSlot(f.bits, slot, f.basura),
                     marcos := LiberarBit(f.marcos, h.marco)))
      else Resultado(h, f)
    case Desuspender =>
      var m := PrimerLibre(f.marcos);
      if !h.presente && h.slot != -1 && m < |f.marcos| && m < |f.ram| && 0 <= h.slot && h.slot in f.swap then
        Resultado(Hoja(true, m, -1),
                  f.(marcos := f.marcos[m := true],
                     ram := f.ram[m := f.swap[h.slot]],
                     bits := LiberarBit(f.bits, h.slot)))
      else Resultado(h, f)
    case Liberar =>
      if h.presente then Resultado(VACIA, f.(marcos := LiberarBit(f.marcos, h.marco)))
      else if h.slot != -1 then Resultado(VACIA, f.(bits := LiberarBit(f.bits, h.slot)))
      else Resultado(VACIA, f)
  }

  datatype Recorrido = Recorrido(hojas: seq<Hoja>, fis: Fis)

  /** A whole traversal: the leaves left to right, each seeing what the earlier ones left. */
  function Recorrer(op: Op, hs: seq<Hoja>, f: Fis): (r: Recorrido)
    ensures |r.hojas| == |hs|
  {
    if hs == [] then Recorrido([], f)
    else
      var p := Paso(op, hs[0], f);
      var r := Recorrer(op, hs[1..], p.fis);
      Recorrido([p.hoja] + r.hojas, r.fis)
  }

  lemma {:induction false} RecorrerConcat(op: Op, a: seq<Hoja>, b: seq<Hoja>, f: Fis)
    ensures Recorrer(op, a + b, f)
         == Recorrido(Recorrer(op, a, f).hojas + Recorrer(op, b, Recorrer(op, a, f).fis).hojas,
                      Recorrer(op, b, Recorrer(op, a, f).fis).fis)
  {
    if a == [] {
      assert a + b == b;
    } else {
      var p := Paso(op, a[0], f);
      assert (a + b)[1..] == a[1..] + b;
      RecorrerConcat(op, a[1..], b, p.fis);
    }
  }

  lemma {:induction false} RecorrerUna(op: Op, h: Hoja, f: Fis)
    ensures Recorrer(op, [h], f) == Recorrido([Paso(op, h, f).hoja], Paso(op, h, f).fis)
  {
  }

  /** Entries that nothing was ever placed in: the traversals go over them (or over the
      missing table that stands for them) without touching anything. */
  lemma {:induction false} RecorrerVacias(op: Op, hs: seq<Hoja>, f: Fis)
    requires op != Asignar || f.pendientes == 0
    requires forall i :: 0 <= i < |hs| ==> hs[i] == VACIA
    ensures Recorrer(op, hs, f) == Recorrido(hs, f)
  {
    if hs != [] {
      RecorrerVacias(op, hs[1..], f);
    }
  }

  /** Once the counter is spent, or no frame is left, the rest of the traversal does nothing:
      why the early exits of the two allocating loops lose nothing. */
  lemma {:induction false} RecorrerAgotado(op: Op, hs: seq<Hoja>, f: Fis)
    requires op == Asignar || op == Desuspender
    requires PrimerLibre(f.marcos) == |f.marcos| || (op == Asignar && f.pendientes == 0)
    ensures Recorrer(op, hs, f) == Recorrido(hs, f)
  {
    if hs != [] {
      RecorrerAgotado(op, hs[1..], f);
    }
  }

  lemma {:induction false} RecorrerPaginada(op: Op, hs: seq<Hoja>, f: Fis, tp: nat)
    requires Coherente(f) && Paginada(f, tp)
    ensures var g := Recorrer(op, hs, f).fis;
            Coherente(g) && Paginada(g, tp) && |g.marcos| == |f.marcos| && |g.bits| >= |f.bits|
            && g.basura == f.basura && (op != Asignar ==> g.pendientes == f.pendientes)
  {
    if hs != [] {
      RecorrerPaginada(op, hs[1..], Paso(op, hs[0], f).fis, tp);
    }
  }
}
