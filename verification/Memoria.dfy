/** The memory process itself: its arrays, its tables, and its request handlers. */
module Memoria {
  import opened Comunes
  import opened Aritmetica
  import opened Bytes
  import opened Fisico
  import opened Tenencia
  import opened Recorridos
  import opened Pedidos
  import opened Tablas
  import opened Traduccion

  /** proceso_memoria: its size and its root table, absent for a process of no pages. */
  datatype Proceso = Proceso(tam: nat, tabla: Option<Tabla>)

  // ---------------------------------------------------------------- loops over one table

  lemma {:induction false} HojasConcat(a: seq<Entrada>, b: seq<Entrada>, E: nat, h: nat)
    requires h > 0
    ensures Hojas(a + b, E, h) == Hojas(a, E, h) + Hojas(b, E, h)
    decreases |b|
  {
    if b == [] {
      assert a + b == a;
    } else {
      var n := |b| - 1;
      assert (a + b)[..|a + b| - 1] == a + b[..n];
      HojasConcat(a, b[..n], E, h);
    }
  }

  // `es` is `es0` with its first i entries traversed.
  ghost predicate Hasta(op: Op, es0: seq<Entrada>, es: seq<Entrada>, E: nat, h: nat, i: nat, f0: Fis, f: Fis) {
    && h > 0 && i <= |es| == |es0| && es[i..] == es0[i..]
    && Recorrer(op, Hojas(es0[..i], E, h), f0) == Recorrido(Hojas(es[..i], E, h), f)
  }

  lemma {:induction false} HastaInicio(op: Op, es: seq<Entrada>, E: nat, h: nat, f: Fis)
    requires h > 0
    ensures Hasta(op, es, es, E, h, 0, f, f)
  {
  }

  /** One iteration of a traversal loop: entry i becomes `e`. */
  lemma {:induction false} HastaSigue(op: Op, es0: seq<Entrada>, es: seq<Entrada>, E: nat, h: nat, i: nat, f0: Fis, f: Fis, e: Entrada, g: Fis)
    requires Hasta(op, es0, es, E, h, i, f0, f) && i < |es|
    requires Recorrer(op, HojasDe(es0[i], E, h), f) == Recorrido(HojasDe(e, E, h), g)
    ensures Hasta(op, es0, es[i := e], E, h, i + 1, f0, g)
  {
    HojasSiguiente(es0, E, h, i);
    HojasSiguiente(es[i := e], E, h, i);
    assert es[i := e][..i] == es[..i];
    RecorrerConcat(op, Hojas(es0[..i], E, h), HojasDe(es0[i], E, h), f0);
  }

  /** Leaving the loop at entry i when the rest of the traversal would change nothing. */
  lemma {:induction false} HastaFin(op: Op, es0: seq<Entrada>, es: seq<Entrada>, E: nat, h: nat, i: nat, f0: Fis, f: Fis)
    requires Hasta(op, es0, es, E, h, i, f0, f)
    requires i < |es| ==> (op == Asignar || op == Desuspender)
                          && (PrimerLibre(f.marcos) == |f.marcos| || (op == Asignar && f.pendientes == 0))
    ensures Recorrer(op, Hojas(es0, E, h), f0) == Recorrido(Hojas(es, E, h), f)
  {
    assert es0 == es0[..i] + es0[i..] && es == es[..i] + es[i..];
    HojasConcat(es0[..i], es0[i..], E, h);
    HojasConcat(es[..i], es[i..], E, h);
    RecorrerConcat(op, Hojas(es0[..i], E, h), Hojas(es0[i..], E, h), f0);
    if i < |es| {
      RecorrerAgotado(op, Hojas(es0[i..], E, h), f);
    }
  }

  ghost predicate PresentesEnRango(hs: seq<Hoja>, n: nat) {
    forall k :: 0 <= k < |hs| && hs[k].presente ==> 0 <= hs[k].marco < n
  }

  lemma {:induction false} EnRangoEntrada(es: seq<Entrada>, E: nat, h: nat, n: nat, i: nat)
    requires h > 0 && i < |es| && PresentesEnRango(Hojas(es, E, h), n)
    ensures PresentesEnRango(HojasDe(es[i], E, h), n)
  {
    assert es == es[..i + 1] + es[i + 1..];
    HojasConcat(es[..i + 1], es[i + 1..], E, h);
    HojasSiguiente(es, E, h, i);
    var a, b, c := Hojas(es[..i], E, h), HojasDe(es[i], E, h), Hojas(es[i + 1..], E, h);
    assert Hojas(es, E, h) == a + b + c;
    forall k | 0 <= k < |b| && b[k].presente ensures 0 <= b[k].marco < n {
      assert (a + b + c)[|a| + k] == b[k];
    }
  }

  ghost predicate SlotsEnArchivo(hs: seq<Hoja>, a: map<nat, Pagina>) {
    forall k :: 0 <= k < |hs| && !hs[k].presente && hs[k].slot != -1 ==> 0 <= hs[k].slot && hs[k].slot in a
  }

  lemma {:induction false} SlotsEntrada(es: seq<Entrada>, E: nat, h: nat, a: map<nat, Pagina>, i: nat)
    requires h > 0 && i < |es| && SlotsEnArchivo(Hojas(es, E, h), a)
    ensures SlotsEnArchivo(HojasDe(es[i], E, h), a)
  {
    assert es == es[..i + 1] + es[i + 1..];
    HojasConcat(es[..i + 1], es[i + 1..], E, h);
    HojasSiguiente(es, E, h, i);
    var x, b, c := Hojas(es[..i], E, h), HojasDe(es[i], E, h), Hojas(es[i + 1..], E, h);
    assert Hojas(es, E, h) == x + b + c;
    forall k | 0 <= k < |b| && !b[k].presente && b[k].slot != -1 ensures 0 <= b[k].slot && b[k].slot in a {
      assert (x + b + c)[|x| + k] == b[k];
    }
  }

  lemma {:induction false} VaciasNoEnSwap(n: nat)
    ensures EnSwap(Vacias(n)) == 0
  {
    if n > 0 {
      assert Vacias(n)[1..] == Vacias(n - 1);
      VaciasNoEnSwap(n - 1);
    }
  }

  lemma {:induction false} VolcarVacias(n: nat, f: Fis)
    ensures Volcar(Vacias(n), f) == []
  {
    if n > 0 {
      assert Vacias(n)[..n - 1] == Vacias(n - 1);
      VolcarVacias(n - 1, f);
    }
  }

  lemma {:induction false} VolcarUna(x: Hoja, f: Fis)
    ensures Volcar([x], f) == VolcarHoja(x, f)
  {
  }

  lemma {:induction false} VolcarConcat(a: seq<Hoja>, b: seq<Hoja>, f: Fis)
    ensures Volcar(a + b, f) == Volcar(a, f) + Volcar(b, f)
    decreases |b|
  {
    if b == [] {
      assert a + b == a;
    } else {
      var n := |b| - 1;
      assert (a + b)[..|a + b| - 1] == a + b[..n];
      VolcarConcat(a, b[..n], f);
    }
  }

  lemma {:induction false} VolcarSigue(es: seq<Entrada>, E: nat, h: nat, i: nat, f: Fis)
    requires h > 0 && i < |es|
    ensures Volcar(Hojas(es[..i + 1], E, h), f)
         == Volcar(Hojas(es[..i], E, h), f) + Volcar(HojasDe(es[i], E, h), f)
  {
    HojasSiguiente(es, E, h, i);
    VolcarConcat(Hojas(es[..i], E, h), HojasDe(es[i], E, h), f);
  }

  lemma {:induction false} FormaPoner(es: seq<Entrada>, E: nat, h: nat, i: nat, e: Entrada)
    requires Forma(es, E, h) && i < E && FormaEntrada(e, E, h)
    ensures Forma(es[i := e], E, h)
  {
  }

  class Memoria {
    const tamPagina: nat
    const cantidadNiveles: nat
    const bitsPorNivel: nat
    const entradasPorTabla: nat
    const basura: nat -> bool
    const bitmapMarcos: array<bool>
    const memoriaUsuario: array<byte>
    var bitmapSwap: seq<bool>
    var archivoSwap: map<nat, Pagina>
    var procesos: map<int, Proceso>

    ghost predicate Valid()
      reads this
    {
      && tamPagina > 0 && cantidadNiveles > 0
      && entradasPorTabla == Pot(2, bitsPorNivel) && entradasPorTabla > 0
      && memoriaUsuario.Length == bitmapMarcos.Length * tamPagina
      && |bitmapSwap| % 8 == 0
      && (forall s :: s in archivoSwap ==> |archivoSwap[s]| == tamPagina)
    }

    ghost predicate Formadas()
      reads this
    {
      forall pid :: pid in procesos && procesos[pid].tabla.Some? ==>
        Forma(procesos[pid].tabla.valor.entradas, entradasPorTabla, cantidadNiveles)
    }

    /** The state outside the tables, with `pend` pages still to place. */
    ghost function Fisica(pend: nat): Fis
      reads this, bitmapMarcos, memoriaUsuario
    {
      Fis(bitmapMarcos[..], Partir(memoriaUsuario[..], tamPagina, bitmapMarcos.Length),
          bitmapSwap, archivoSwap, basura, pend)
    }

    // ------------------------------------------------------------ frames

    method BuscarMarcoLibre() returns (r: int)
      ensures r == if PrimerLibre(bitmapMarcos[..]) < bitmapMarcos.Length then PrimerLibre(bitmapMarcos[..]) else -1
    {
      var i := 0;
      while i < bitmapMarcos.Length
        invariant 0 <= i <= bitmapMarcos.Length
        invariant forall j :: 0 <= j < i ==> bitmapMarcos[j]
      {
        if !bitmapMarcos[i] {
          return i;
        }
        i := i + 1;
      }
      return -1;
    }

    method OcuparMarco(m: int)
      modifies bitmapMarcos
      ensures bitmapMarcos[..] == if 0 <= m < bitmapMarcos.Length then old(bitmapMarcos[..])[m := true] else old(bitmapMarcos[..])
    {
      if 0 <= m < bitmapMarcos.Length {
        bitmapMarcos[m] := true;
      }
    }

    method DevolverMarco(m: int)
      modifies bitmapMarcos
      ensures bitmapMarcos[..] == LiberarBit(old(bitmapMarcos[..]), m)
    {
      if 0 <= m < bitmapMarcos.Length {
        bitmapMarcos[m] := false;
      }
    }

    method ContarMarcosLibres() returns (libres: nat)
      ensures libres == Libres(bitmapMarcos[..])
    {
      libres := 0;
      var i := 0;
      while i < bitmapMarcos.Length
        invariant 0 <= i <= bitmapMarcos.Length
        invariant libres == Libres(bitmapMarcos[..i])
      {
        if !bitmapMarcos[i] {
          libres := libres + 1;
        }
        assert bitmapMarcos[..i + 1][..i] == bitmapMarcos[..i];
        i := i + 1;
      }
      assert bitmapMarcos[..i] == bitmapMarcos[..];
    }

    // ------------------------------------------------------------ physical accesses

    method LeerMemoriaFisica(dir: int, tam: nat) returns (r: Option<seq<byte>>)
      ensures r == if dir < 0 || dir + tam > memoriaUsuario.Length then None else Some(memoriaUsuario[dir..dir + tam])
    {
      if dir < 0 || dir + tam > memoriaUsuario.Length {
        return None;
      }
      return Some(memoriaUsuario[dir..dir + tam]);
    }

    method EscribirMemoriaFisica(dir: int, valor: seq<byte>) returns (ok: bool)
      modifies memoriaUsuario
      ensures ok == (0 <= dir && dir + |valor| <= memoriaUsuario.Length)
      ensures !ok ==> memoriaUsuario[..] == old(memoriaUsuario[..])
      ensures ok ==> Escrito(old(memoriaUsuario[..]), memoriaUsuario[..], dir, valor)
    {
      if dir < 0 || dir + |valor| > memoriaUsuario.Length {
        return false;
      }
      forall i | 0 <= i < |valor| {
        memoriaUsuario[dir + i] := valor[i];
      }
      return true;
    }

    /** LEER_MEMORIA inside a frame: that frame's bytes. */
    method LeerDireccion(marco: nat, desde: nat, tam: nat) returns (r: Option<seq<byte>>)
      requires Valid() && marco < bitmapMarcos.Length && desde + tam <= tamPagina
      ensures |Fisica(0).ram[marco]| == tamPagina
      ensures r == Some(Fisica(0).ram[marco][desde..desde + tam])
    {
      MarcoCabe(memoriaUsuario[..], tamPagina, bitmapMarcos.Length, marco);
      r := LeerMemoriaFisica(marco * tamPagina + desde, tam);
      Tajada(memoriaUsuario[..], marco * tamPagina, tamPagina, desde, tam);
    }

    /** ESCRIBIR_MEMORIA inside a frame: that frame and nothing else. */
    method EscribirDireccion(marco: nat, desde: nat, datos: seq<byte>) returns (ok: bool)
      requires Valid() && marco < bitmapMarcos.Length && desde + |datos| <= tamPagina
      modifies memoriaUsuario
      ensures Valid() && ok
      ensures |old(Fisica(0)).ram[marco]| == tamPagina
      ensures Fisica(0) == EscribirMarco(old(Fisica(0)), marco, desde, datos)
    {
      ghost var antes := memoriaUsuario[..];
      MarcoCabe(antes, tamPagina, bitmapMarcos.Length, marco);
      ok := EscribirMemoriaFisica(marco * tamPagina + desde, datos);
      EscribirBytes(antes, memoriaUsuario[..], tamPagina, bitmapMarcos.Length, marco, desde, datos);
    }

    // ------------------------------------------------------------ swap

    method BuscarSlotLibre() returns (i: nat)
      ensures i == PrimerLibre(bitmapSwap)
    {
      i := 0;
      while i < |bitmapSwap|
        invariant i <= |bitmapSwap|
        invariant forall j :: 0 <= j < i ==> bitmapSwap[j]
      {
        if !bitmapSwap[i] {
          return;
        }
        i := i + 1;
      }
    }

    method EscribirEnSwap(contenido: Pagina) returns (slot: nat)
      requires Valid() && |contenido| == tamPagina
      modifies this`bitmapSwap, this`archivoSwap
      ensures Valid()
      ensures slot == PrimerLibre(old(bitmapSwap))
      ensures archivoSwap == old(archivoSwap)[slot := contenido]
      ensures bitmapSwap == OcuparSlot(old(bitmapSwap), slot, basura)
    {
      slot := BuscarSlotLibre();
      archivoSwap := archivoSwap[slot := contenido];
      if slot >= |bitmapSwap| {
        var bytes := slot / 8 + 1;
        var viejo := |bitmapSwap|;
        var f := basura;
        bitmapSwap := bitmapSwap + seq(bytes * 8 - viejo, j requires 0 <= j < bytes * 8 - viejo => f(viejo + j));
      }
      bitmapSwap := bitmapSwap[slot := true];
    }

    method DevolverSlot(slot: int)
      modifies this`bitmapSwap
      ensures bitmapSwap == LiberarBit(old(bitmapSwap), slot)
    {
      if 0 <= slot < |bitmapSwap| {
        bitmapSwap := bitmapSwap[slot := false];
      }
    }

    // ------------------------------------------------------------ one last-level entry

    method AsignarEntrada(e: Entrada, restantes: nat) returns (r: Entrada, quedan: nat, ok: bool)
      requires Valid() && e.siguiente.None? && restantes > 0
      modifies bitmapMarcos
      ensures Resultado(HojaDe(r), Fisica(quedan)) == Paso(Asignar, HojaDe(e), old(Fisica(restantes)))
      ensures r.siguiente.None? && (!ok ==> PrimerLibre(bitmapMarcos[..]) == bitmapMarcos.Length)
    {
      r, quedan, ok := e, restantes, true;
      if !e.presente {
        var m := BuscarMarcoLibre();
        if m == -1 {
          return r, quedan, false;
        }
        OcuparMarco(m);
        r := r.(marco := m, presente := true);
        quedan := quedan - 1;
      }
    }

    method SuspenderEntrada(e: Entrada) returns (r: Entrada)
      requires Valid() && e.siguiente.None? && (e.presente ==> 0 <= e.marco < bitmapMarcos.Length)
      modifies bitmapMarcos, this`bitmapSwap, this`archivoSwap
      ensures Valid() && r.siguiente.None?
      ensures Resultado(HojaDe(r), Fisica(0)) == Paso(Suspender, HojaDe(e), old(Fisica(0)))
    {
      r := e;
      if e.presente {
        var contenido := LeerDireccion(e.marco, 0, tamPagina);
        assert contenido.valor == Fisica(0).ram[e.marco];
        var slot := EscribirEnSwap(contenido.valor);
        DevolverMarco(e.marco);
        r := r.(presente := false, slot := slot, marco := -1);
      }
    }

    method DesuspenderEntrada(e: Entrada) returns (r: Entrada, ok: bool)
      requires Valid() && e.siguiente.None?
      requires !e.presente && e.slot != -1 ==> 0 <= e.slot && e.slot in archivoSwap
      modifies bitmapMarcos, memoriaUsuario, this`bitmapSwap
      ensures Valid() && r.siguiente.None?
      ensures Resultado(HojaDe(r), Fisica(0)) == Paso(Desuspender, HojaDe(e), old(Fisica(0)))
      ensures !ok ==> PrimerLibre(bitmapMarcos[..]) == bitmapMarcos.Length
    {
      r, ok := e, true;
      if !e.presente && e.slot != -1 {
        var m := BuscarMarcoLibre();
        if m == -1 {
          return r, false;
        }
        OcuparMarco(m);
        ghost var f := Fisica(0);
        var _ := EscribirDireccion(m, 0, archivoSwap[e.slot]);
        assert Pegar(f.ram[m], 0, archivoSwap[e.slot]) == archivoSwap[e.slot];
        r := r.(presente := true, marco := m, slot := -1);
        DevolverSlot(e.slot);
      }
    }

    method LiberarEntrada(e: Entrada)
      requires Valid()
      modifies bitmapMarcos, this`bitmapSwap
      ensures Valid()
      ensures Fisica(0) == Paso(Liberar, HojaDe(e), old(Fisica(0))).fis
    {
      if e.presente {
        DevolverMarco(e.marco);
      } else if e.slot != -1 {
        DevolverSlot(e.slot);
      }
    }

    // ------------------------------------------------------------ the recursive traversals

    function Altura(nivel: nat): nat
      requires nivel <= cantidadNiveles
    {
      cantidadNiveles - nivel + 1
    }

    method CrearTabla() returns (t: Tabla)
      ensures |t.entradas| == entradasPorTabla && forall i :: 0 <= i < entradasPorTabla ==> t.entradas[i] == ENTRADA_VACIA
    {
      t := Tabla(seq(entradasPorTabla, _ => ENTRADA_VACIA));
    }

    lemma {:induction false} TablaNueva(t: Tabla, nivel: nat)
      requires Valid() && 1 <= nivel <= cantidadNiveles
      requires |t.entradas| == entradasPorTabla && forall i :: 0 <= i < entradasPorTabla ==> t.entradas[i] == ENTRADA_VACIA
      ensures Forma(t.entradas, entradasPorTabla, Altura(nivel))
      ensures Hojas(t.entradas, entradasPorTabla, Altura(nivel)) == Vacias(Pot(entradasPorTabla, Altura(nivel)))
    {
      HojasEnBlanco(t.entradas, entradasPorTabla, Altura(nivel));
    }

    /** asignar_paginas_recursivo. */
    method AsignarPaginas(t: Tabla, nivel: nat, restantes: nat) returns (r: Tabla, quedan: nat, ok: bool)
      requires Valid() && 1 <= nivel <= cantidadNiveles && Forma(t.entradas, entradasPorTabla, Altura(nivel))
      modifies bitmapMarcos
      ensures Forma(r.entradas, entradasPorTabla, Altura(nivel))
      ensures Recorrer(Asignar, Hojas(t.entradas, entradasPorTabla, Altura(nivel)), old(Fisica(restantes)))
           == Recorrido(Hojas(r.entradas, entradasPorTabla, Altura(nivel)), Fisica(quedan))
      ensures !ok ==> PrimerLibre(bitmapMarcos[..]) == bitmapMarcos.Length
      decreases cantidadNiveles - nivel
    {
      ghost var E, h := entradasPorTabla, Altura(nivel);
      ghost var f0 := Fisica(restantes);
      var es := t.entradas;
      quedan := restantes;
      var i := 0;
      HastaInicio(Asignar, es, E, h, f0);
      while i < entradasPorTabla && quedan > 0
        invariant 0 <= i <= entradasPorTabla == E && Forma(es, E, h)
        invariant Hasta(Asignar, t.entradas, es, E, h, i, f0, Fisica(quedan))
      {
        var e := es[i];
        ghost var f := Fisica(quedan);
        assert FormaEntrada(e, E, h);
        if nivel < cantidadNiveles {
          e, quedan, ok := AsignarRama(e, nivel, quedan);
        } else {
          e, quedan, ok := AsignarEntrada(e, quedan);
          RecorrerUna(Asignar, HojaDe(es[i]), f);
        }
        HastaSigue(Asignar, t.entradas, es, E, h, i, f0, f, e, Fisica(quedan));
        FormaPoner(es, E, h, i, e);
        es := es[i := e];
        i := i + 1;
        if !ok {
          HastaFin(Asignar, t.entradas, es, E, h, i, f0, Fisica(quedan));
          return Tabla(es), quedan, false;
        }
      }
      HastaFin(Asignar, t.entradas, es, E, h, i, f0, Fisica(quedan));
      return Tabla(es), quedan, true;
    }

    /** The inner-level half of its loop body: create the table if missing, then descend. */
    method AsignarRama(e: Entrada, nivel: nat, restantes: nat) returns (r: Entrada, quedan: nat, ok: bool)
      requires Valid() && 1 <= nivel < cantidadNiveles && FormaEntrada(e, entradasPorTabla, Altura(nivel))
      modifies bitmapMarcos
      ensures FormaEntrada(r, entradasPorTabla, Altura(nivel))
      ensures Recorrer(Asignar, HojasDe(e, entradasPorTabla, Altura(nivel)), old(Fisica(restantes)))
           == Recorrido(HojasDe(r, entradasPorTabla, Altura(nivel)), Fisica(quedan))
      ensures !ok ==> PrimerLibre(bitmapMarcos[..]) == bitmapMarcos.Length
      decreases cantidadNiveles - nivel, 0
    {
      var s: Tabla;
      if e.siguiente.None? {
        s := CrearTabla();
        TablaNueva(s, nivel + 1);
      } else {
        s := e.siguiente.valor;
      }
      s, quedan, ok := AsignarPaginas(s, nivel + 1, restantes);
      r := e.(siguiente := Some(s));
    }

    /** suspender_paginas_recursivo. */
    method SuspenderPaginas(t: Tabla, nivel: nat) returns (r: Tabla)
      requires Valid() && 1 <= nivel <= cantidadNiveles && Forma(t.entradas, entradasPorTabla, Altura(nivel))
      requires PresentesEnRango(Hojas(t.entradas, entradasPorTabla, Altura(nivel)), bitmapMarcos.Length)
      modifies bitmapMarcos, this`bitmapSwap, this`archivoSwap
      ensures Valid() && Forma(r.entradas, entradasPorTabla, Altura(nivel))
      ensures Recorrer(Suspender, Hojas(t.entradas, entradasPorTabla, Altura(nivel)), old(Fisica(0)))
           == Recorrido(Hojas(r.entradas, entradasPorTabla, Altura(nivel)), Fisica(0))
      decreases cantidadNiveles - nivel
    {
      ghost var E, h := entradasPorTabla, Altura(nivel);
      ghost var f0 := Fisica(0);
      var es := t.entradas;
      var i := 0;
      HastaInicio(Suspender, es, E, h, f0);
      while i < entradasPorTabla
        invariant 0 <= i <= entradasPorTabla == E && Valid() && Forma(es, E, h)
        invariant Hasta(Suspender, t.entradas, es, E, h, i, f0, Fisica(0))
      {
        var e := es[i];
        ghost var f := Fisica(0);
        assert es[i..][0] == t.entradas[i..][0];
        assert FormaEntrada(e, E, h);
        EnRangoEntrada(t.entradas, E, h, bitmapMarcos.Length, i);
        if nivel < cantidadNiveles {
          if e.siguiente.Some? {
            var s := SuspenderPaginas(e.siguiente.valor, nivel + 1);
            e := e.(siguiente := Some(s));
          } else {
            RecorrerVacias(Suspender, HojasDe(e, E, h), f);
          }
        } else {
          assert HojasDe(e, E, h)[0] == HojaDe(e);
          e := SuspenderEntrada(e);
          RecorrerUna(Suspender, HojaDe(es[i]), f);
        }
        HastaSigue(Suspender, t.entradas, es, E, h, i, f0, f, e, Fisica(0));
        FormaPoner(es, E, h, i, e);
        es := es[i := e];
        i := i + 1;
      }
      HastaFin(Suspender, t.entradas, es, E, h, i, f0, Fisica(0));
      return Tabla(es);
    }

    /** desuspender_paginas_recursivo: when no frame is left only the current table's loop stops. */
    method DesuspenderPaginas(t: Tabla, nivel: nat) returns (r: Tabla)
      requires Valid() && 1 <= nivel <= cantidadNiveles && Forma(t.entradas, entradasPorTabla, Altura(nivel))
      requires SlotsEnArchivo(Hojas(t.entradas, entradasPorTabla, Altura(nivel)), archivoSwap)
      modifies bitmapMarcos, memoriaUsuario, this`bitmapSwap
      ensures Valid() && Forma(r.entradas, entradasPorTabla, Altura(nivel))
      ensures Recorrer(Desuspender, Hojas(t.entradas, entradasPorTabla, Altura(nivel)), old(Fisica(0)))
           == Recorrido(Hojas(r.entradas, entradasPorTabla, Altura(nivel)), Fisica(0))
      decreases cantidadNiveles - nivel
    {
      ghost var E, h := entradasPorTabla, Altura(nivel);
      ghost var f0 := Fisica(0);
      var es := t.entradas;
      var i := 0;
      HastaInicio(Desuspender, es, E, h, f0);
      while i < entradasPorTabla
        invariant 0 <= i <= entradasPorTabla == E && Valid() && Forma(es, E, h)
        invariant Hasta(Desuspender, t.entradas, es, E, h, i, f0, Fisica(0))
      {
        var e := es[i];
        ghost var f := Fisica(0);
        var ok := true;
        assert es[i..][0] == t.entradas[i..][0];
        assert FormaEntrada(e, E, h);
        SlotsEntrada(t.entradas, E, h, archivoSwap, i);
        if nivel < cantidadNiveles {
          if e.siguiente.Some? {
            var s := DesuspenderPaginas(e.siguiente.valor, nivel + 1);
            e := e.(siguiente := Some(s));
          } else {
            RecorrerVacias(Desuspender, HojasDe(e, E, h), f);
          }
        } else {
          assert HojasDe(e, E, h)[0] == HojaDe(e);
          e, ok := DesuspenderEntrada(e);
          RecorrerUna(Desuspender, HojaDe(es[i]), f);
        }
        HastaSigue(Desuspender, t.entradas, es, E, h, i, f0, f, e, Fisica(0));
        FormaPoner(es, E, h, i, e);
        es := es[i := e];
        i := i + 1;
        if !ok {
          HastaFin(Desuspender, t.entradas, es, E, h, i, f0, Fisica(0));
          return Tabla(es);
        }
      }
      HastaFin(Desuspender, t.entradas, es, E, h, i, f0, Fisica(0));
      return Tabla(es);
    }

    /** liberar_tablas_proceso: the tables themselves are then gone. */
    method LiberarTablas(t: Tabla, nivel: nat)
      requires Valid() && 1 <= nivel <= cantidadNiveles && Forma(t.entradas, entradasPorTabla, Altura(nivel))
      modifies bitmapMarcos, this`bitmapSwap
      ensures Valid()
      ensures Fisica(0) == Recorrer(Liberar, Hojas(t.entradas, entradasPorTabla, Altura(nivel)), old(Fisica(0))).fis
      decreases cantidadNiveles - nivel, 1
    {
      ghost var E, h := entradasPorTabla, Altura(nivel);
      ghost var f0 := Fisica(0);
      ghost var es := t.entradas;
      var i := 0;
      while i < entradasPorTabla
        invariant 0 <= i <= entradasPorTabla == E && Valid()
        invariant Recorrer(Liberar, Hojas(es[..i], E, h), f0).fis == Fisica(0)
      {
        var e := t.entradas[i];
        assert FormaEntrada(e, E, h);
        LiberarHijo(e, nivel);
        HojasSiguiente(es, E, h, i);
        RecorrerConcat(Liberar, Hojas(es[..i], E, h), HojasDe(e, E, h), f0);
        i := i + 1;
      }
      assert es[..i] == es;
    }

    /** Its loop body: descend, or give back the frame or slot of a last-level entry. */
    method LiberarHijo(e: Entrada, nivel: nat)
      requires Valid() && 1 <= nivel <= cantidadNiveles && FormaEntrada(e, entradasPorTabla, Altura(nivel))
      modifies bitmapMarcos, this`bitmapSwap
      ensures Valid()
      ensures Fisica(0) == Recorrer(Liberar, HojasDe(e, entradasPorTabla, Altura(nivel)), old(Fisica(0))).fis
      decreases cantidadNiveles - nivel, 0
    {
      ghost var f := Fisica(0);
      if nivel < cantidadNiveles {
        if e.siguiente.Some? {
          LiberarTablas(e.siguiente.valor, nivel + 1);
        } else {
          RecorrerVacias(Liberar, HojasDe(e, entradasPorTabla, Altura(nivel)), f);
        }
      } else {
        LiberarEntrada(e);
        RecorrerUna(Liberar, HojaDe(e), f);
      }
    }

    /** contar_paginas_en_swap. */
    method ContarEnSwap(t: Tabla, nivel: nat) returns (n: nat)
      requires Valid() && 1 <= nivel <= cantidadNiveles && Forma(t.entradas, entradasPorTabla, Altura(nivel))
      ensures n == EnSwap(Hojas(t.entradas, entradasPorTabla, Altura(nivel)))
      decreases cantidadNiveles - nivel
    {
      ghost var E, h := entradasPorTabla, Altura(nivel);
      n := 0;
      var i := 0;
      while i < entradasPorTabla
        invariant 0 <= i <= entradasPorTabla
        invariant n == EnSwap(Hojas(t.entradas[..i], E, h))
      {
        var e := t.entradas[i];
        assert FormaEntrada(e, E, h);
        if nivel < cantidadNiveles {
          if e.siguiente.Some? {
            var k := ContarEnSwap(e.siguiente.valor, nivel + 1);
            n := n + k;
          } else {
            VaciasNoEnSwap(Pot(E, h - 1));
          }
        } else {
          assert EnSwap([HojaDe(e)]) == (if !e.presente && e.slot != -1 then 1 else 0) + EnSwap([HojaDe(e)][1..]);
          if !e.presente && e.slot != -1 {
            n := n + 1;
          }
        }
        HojasSiguiente(t.entradas, E, h, i);
        EnSwapConcat(Hojas(t.entradas[..i], E, h), HojasDe(e, E, h));
        i := i + 1;
      }
      assert t.entradas[..i] == t.entradas;
    }

    method DumpearEntrada(e: Entrada) returns (d: seq<byte>)
      requires Valid()
      requires e.presente ==> 0 <= e.marco < bitmapMarcos.Length
      requires !e.presente && e.slot != -1 ==> 0 <= e.slot && e.slot in archivoSwap
      ensures d == VolcarHoja(HojaDe(e), Fisica(0))
    {
      d := [];
      if e.presente {
        var contenido := LeerDireccion(e.marco, 0, tamPagina);
        d := contenido.valor;
        assert d == Fisica(0).ram[e.marco];
      } else if e.slot != -1 {
        d := archivoSwap[e.slot];
      }
    }

    /** dumpear_paginas_recursivo: what it appends to the file. */
    method DumpearPaginas(t: Tabla, nivel: nat) returns (datos: seq<byte>)
      requires Valid() && 1 <= nivel <= cantidadNiveles && Forma(t.entradas, entradasPorTabla, Altura(nivel))
      requires PresentesEnRango(Hojas(t.entradas, entradasPorTabla, Altura(nivel)), bitmapMarcos.Length)
      requires SlotsEnArchivo(Hojas(t.entradas, entradasPorTabla, Altura(nivel)), archivoSwap)
      ensures datos == Volcar(Hojas(t.entradas, entradasPorTabla, Altura(nivel)), Fisica(0))
      decreases cantidadNiveles - nivel, 2
    {
      ghost var E, h := entradasPorTabla, Altura(nivel);
      datos := [];
      var i := 0;
      while i < entradasPorTabla
        invariant 0 <= i <= entradasPorTabla
        invariant datos == Volcar(Hojas(t.entradas[..i], E, h), Fisica(0))
      {
        var d := DumpearIesimo(t, nivel, i);
        datos := datos + d;
        i := i + 1;
      }
      assert t.entradas[..i] == t.entradas;
    }

    method DumpearIesimo(t: Tabla, nivel: nat, i: nat) returns (d: seq<byte>)
      requires Valid() && 1 <= nivel <= cantidadNiveles && Forma(t.entradas, entradasPorTabla, Altura(nivel)) && i < entradasPorTabla
      requires PresentesEnRango(Hojas(t.entradas, entradasPorTabla, Altura(nivel)), bitmapMarcos.Length)
      requires SlotsEnArchivo(Hojas(t.entradas, entradasPorTabla, Altura(nivel)), archivoSwap)
      ensures Volcar(Hojas(t.entradas[..i + 1], entradasPorTabla, Altura(nivel)), Fisica(0))
           == Volcar(Hojas(t.entradas[..i], entradasPorTabla, Altura(nivel)), Fisica(0)) + d
      decreases cantidadNiveles - nivel, 1
    {
      ghost var E, h := entradasPorTabla, Altura(nivel);
      assert FormaEntrada(t.entradas[i], E, h);
      EnRangoEntrada(t.entradas, E, h, bitmapMarcos.Length, i);
      SlotsEntrada(t.entradas, E, h, archivoSwap, i);
      d := DumpearHijo(t.entradas[i], nivel);
      VolcarSigue(t.entradas, E, h, i, Fisica(0));
    }

    /** Its loop body: descend, or write the page of a last-level entry. */
    method DumpearHijo(e: Entrada, nivel: nat) returns (d: seq<byte>)
      requires Valid() && 1 <= nivel <= cantidadNiveles && FormaEntrada(e, entradasPorTabla, Altura(nivel))
      requires PresentesEnRango(HojasDe(e, entradasPorTabla, Altura(nivel)), bitmapMarcos.Length)
      requires SlotsEnArchivo(HojasDe(e, entradasPorTabla, Altura(nivel)), archivoSwap)
      ensures d == Volcar(HojasDe(e, entradasPorTabla, Altura(nivel)), Fisica(0))
      decreases cantidadNiveles - nivel, 0
    {
      d := [];
      if nivel < cantidadNiveles {
        if e.siguiente.Some? {
          d := DumpearPaginas(e.siguiente.valor, nivel + 1);
        } else {
          VolcarVacias(Pot(entradasPorTabla, Altura(nivel) - 1), Fisica(0));
        }
      } else {
        assert HojasDe(e, entradasPorTabla, Altura(nivel))[0] == HojaDe(e);
        d := DumpearEntrada(e);
        VolcarUna(HojaDe(e), Fisica(0));
      }
    }

    // ------------------------------------------------------------ the request handlers

    ghost function CfgDe(): Cfg { Cfg(tamPagina, Pot(entradasPorTabla, cantidadNiveles)) }

    ghost function Procs(ps: map<int, Proceso>): map<int, Proc>
      requires cantidadNiveles > 0
    {
      map pid | pid in ps :: Proc(ps[pid].tam, HojasRaiz(ps[pid].tabla, entradasPorTabla, cantidadNiveles))
    }

    /** The whole memory as the requests of Pedidos see it. */
    ghost function Est(): Mem
      reads this, bitmapMarcos, memoriaUsuario
      requires cantidadNiveles > 0
    {
      Mem(Fisica(0), Procs(procesos))
    }

    ghost predicate Sana()
      reads this, bitmapMarcos, memoriaUsuario
    {
      Valid() && Formadas() && Valida(CfgDe(), Est())
    }

    lemma {:induction false} ProcsPoner(ps: map<int, Proceso>, pid: int, p: Proceso)
      requires cantidadNiveles > 0
      ensures Procs(ps[pid := p])
           == Procs(ps)[pid := Proc(p.tam, HojasRaiz(p.tabla, entradasPorTabla, cantidadNiveles))]
    {
    }

    lemma {:induction false} EnRegla(pid: int)
      requires Sana() && pid in procesos
      ensures PresentesEnRango(Est().procs[pid].hojas, bitmapMarcos.Length)
      ensures SlotsEnArchivo(Est().procs[pid].hojas, archivoSwap)
    {
      forall k | 0 <= k < |Est().procs[pid].hojas| ensures HojaOk(Est().procs[pid].hojas[k], Est().fis) {
        HojasEnRegla(CfgDe(), Est(), pid, k);
      }
    }

    constructor (tamMemoria: nat, tamPagina: nat, niveles: nat, bits: nat, basura: nat -> bool)
      requires tamPagina > 0 && niveles > 0 && tamMemoria % tamPagina == 0
      ensures Sana() && fresh(bitmapMarcos) && fresh(memoriaUsuario)
      ensures Est() == Mem(Fis(seq(tamMemoria / tamPagina, _ => false),
                               seq(tamMemoria / tamPagina, _ => seq(tamPagina, _ => 0 as byte)),
                               seq(8, _ => false), map[], basura, 0), map[])
      ensures CfgDe() == Cfg(tamPagina, Pot(Pot(2, bits), niveles))
    {
      this.tamPagina, cantidadNiveles, bitsPorNivel, entradasPorTabla := tamPagina, niveles, bits, Pot(2, bits);
      this.basura := basura;
      bitmapMarcos := new bool[tamMemoria / tamPagina](_ => false);
      memoriaUsuario := new byte[tamMemoria](_ => 0);
      bitmapSwap, archivoSwap, procesos := seq(8, _ => false), map[], map[];
      new;
      PotPositiva(2, bits);
      var n := tamMemoria / tamPagina;
      assert Partir(memoriaUsuario[..], tamPagina, n) == seq(n, _ => seq(tamPagina, _ => 0 as byte)) by {
        forall i: nat | i < n ensures MarcoEn(memoriaUsuario[..], tamPagina, i) == seq(tamPagina, _ => 0 as byte) {
          MarcoCabe(memoriaUsuario[..], tamPagina, n, i);
        }
      }
    }

    /** The second half of almacenar_proceso_nuevo: tables and frames for `paginas` pages. */
    method Ubicar(pid: int, tam: nat, paginas: nat)
      requires Valid() && Formadas()
      modifies bitmapMarcos, this`procesos
      ensures Valid() && Formadas()
      ensures var b := Mem(old(Fisica(paginas)), old(Est()).procs[pid := Proc(tam, Vacias(Pot(entradasPorTabla, cantidadNiveles)))]);
              Est() == SinPendientes(Recorrida(Asignar, b, pid))
    {
      var tabla := NuevaTabla(paginas);
      ProcsPoner(procesos, pid, Proceso(tam, tabla));
      procesos := procesos[pid := Proceso(tam, tabla)];
    }

    /** No table at all for a process without pages. */
    method NuevaTabla(paginas: nat) returns (tabla: Option<Tabla>)
      requires Valid()
      modifies bitmapMarcos
      ensures Valid()
      ensures tabla.Some? ==> Forma(tabla.valor.entradas, entradasPorTabla, cantidadNiveles)
      ensures var r := Recorrer(Asignar, Vacias(Pot(entradasPorTabla, cantidadNiveles)), old(Fisica(paginas)));
              HojasRaiz(tabla, entradasPorTabla, cantidadNiveles) == r.hojas && Fisica(0) == r.fis.(pendientes := 0)
    {
      if paginas == 0 {
        RecorrerVacias(Asignar, Vacias(Pot(entradasPorTabla, cantidadNiveles)), Fisica(0));
        return None;
      }
      var t := CrearTabla();
      TablaNueva(t, 1);
      var quedan, ok;
      t, quedan, ok := AsignarPaginas(t, 1, paginas);
      tabla := Some(t);
    }

    /** INIT_PROC. */
    method AlmacenarProceso(pid: int, tam: nat) returns (r: Respuesta)
      requires Sana() && pid !in procesos
      modifies bitmapMarcos, this`procesos
      ensures Sana()
      ensures (Est(), r) == IniciarProceso(CfgDe(), old(Est()), pid, tam)
    {
      IniciarValida(CfgDe(), Est(), pid, tam);
      var paginas := PaginasDe(tam);
      if paginas > 0 {
        var libres := ContarMarcosLibres();
        if paginas > libres {
          return NoHayMarcosLibres;
        }
      }
      Ubicar(pid, tam, paginas);
      r := InitProcesoOk;
    }

    method PaginasDe(tam: nat) returns (n: nat)
      requires tamPagina > 0
      ensures n == Paginas(tam, tamPagina)
    {
      n := if tam == 0 then 0 else (tam + tamPagina - 1) / tamPagina;
      assert tam == 0 ==> Paginas(tam, tamPagina) == 0 by { DivUnico(tamPagina - 1, tamPagina, 0, tamPagina - 1); }
    }

    /** FINALIZAR_PROCESO. */
    method Destruir(pid: int) returns (r: Respuesta)
      requires Sana()
      modifies bitmapMarcos, this`bitmapSwap, this`procesos
      ensures Sana()
      ensures (Est(), r) == DestruirProceso(old(Est()), pid)
    {
      DestruirValida(CfgDe(), Est(), pid);
      r := FinalizacionOk;
      if pid in procesos {
        var p := procesos[pid];
        ghost var m := Est();
        procesos := procesos - {pid};
        assert Procs(procesos) == m.procs - {pid} == Recorrida(Liberar, m, pid).procs - {pid};
        if p.tabla.Some? {
          LiberarTablas(p.tabla.valor, 1);
        } else {
          RecorrerVacias(Liberar, m.procs[pid].hojas, m.fis);
        }
      }
    }

    /** SUSPENDER_PROCESO. */
    method ManejarSuspension(pid: int) returns (r: Respuesta)
      requires Sana()
      modifies bitmapMarcos, this`bitmapSwap, this`archivoSwap, this`procesos
      ensures Sana()
      ensures (Est(), r) == SuspenderProceso(old(Est()), pid)
    {
      SuspenderValida(CfgDe(), Est(), pid);
      if pid !in procesos {
        return ErrorPidNoEncontrado;
      }
      var p := procesos[pid];
      ghost var m := Est();
      EnRegla(pid);
      if p.tabla.Some? {
        var t := SuspenderPaginas(p.tabla.valor, 1);
        p := p.(tabla := Some(t));
      } else {
        RecorrerVacias(Suspender, m.procs[pid].hojas, m.fis);
      }
      ProcsPoner(procesos, pid, p);
      procesos := procesos[pid := p];
      r := SuspensionOk;
    }

    /** DESUSPENDER_PROCESO. */
    method ManejarDesuspension(pid: int) returns (r: Respuesta)
      requires Sana()
      modifies bitmapMarcos, memoriaUsuario, this`bitmapSwap, this`procesos
      ensures Sana()
      ensures (Est(), r) == DesuspenderProceso(old(Est()), pid)
    {
      DesuspenderValida(CfgDe(), Est(), pid);
      if pid !in procesos {
        return ErrorPidNoEncontrado;
      }
      var p := procesos[pid];
      ghost var m := Est();
      var aCargar := 0;
      if p.tabla.Some? {
        aCargar := ContarEnSwap(p.tabla.valor, 1);
      } else {
        VaciasNoEnSwap(Pot(entradasPorTabla, cantidadNiveles));
      }
      var libres := ContarMarcosLibres();
      if libres < aCargar {
        return ErrorMemoriaInsuficiente;
      }
      EnRegla(pid);
      if p.tabla.Some? {
        var t := DesuspenderPaginas(p.tabla.valor, 1);
        p := p.(tabla := Some(t));
      } else {
        RecorrerVacias(Desuspender, m.procs[pid].hojas, m.fis);
      }
      ProcsPoner(procesos, pid, p);
      procesos := procesos[pid := p];
      r := DesuspensionOk;
    }

    /** DUMP_MEMORY: the bytes appended to the dump file. */
    method ManejarDump(pid: int) returns (r: Respuesta)
      requires Sana()
      ensures (Est(), r) == Atender(CfgDe(), Est(), Dump(pid))
    {
      if pid !in procesos {
        return ErrorDump;
      }
      EnRegla(pid);
      var t := procesos[pid].tabla;
      var datos: seq<byte> := [];
      if t.Some? {
        datos := DumpearPaginas(t.valor, 1);
      } else {
        VolcarVacias(Pot(entradasPorTabla, cantidadNiveles), Fisica(0));
      }
      r := DumpOk(datos);
    }

    /** ESCRIBIR_MEMORIA inside a frame, on the whole memory. */
    method ManejarEscritura(marco: nat, desde: nat, datos: seq<byte>) returns (ok: bool)
      requires Sana() && marco < bitmapMarcos.Length && desde + |datos| <= tamPagina
      modifies memoriaUsuario
      ensures Sana() && ok
      ensures |old(Est()).fis.ram[marco]| == tamPagina
      ensures Est() == old(Est()).(fis := EscribirMarco(old(Est()).fis, marco, desde, datos))
    {
      EscribirMarcoValida(CfgDe(), Est(), marco, desde, datos);
      ok := EscribirDireccion(marco, desde, datos);
    }

    // ------------------------------------------------------------ translation

    /** Where the walk from a root table ends. */
    ghost function Destino(t: Option<Tabla>, pagina: nat): Option<Hoja>
      requires Valid()
      requires t.Some? ==> Forma(t.valor.entradas, entradasPorTabla, cantidadNiveles)
      reads this
    {
      if t.None? then None else Caminar(t.valor.entradas, entradasPorTabla, cantidadNiveles, pagina)
    }

    static function RespuestaDe(d: Option<Hoja>): Traducida {
      if d.None? then ErrorTraduccion
      else if d.valor.presente then TraduccionOk(d.valor.marco)
      else MarcoNoPresente
    }

    /** In a healthy memory the walk never meets a missing table on the way to a page of the
        process, so what it answers is what the leaf says. */
    lemma {:induction false} DestinoEsTraducir(pid: int, dl: int)
      requires Sana() && pid in procesos && EnRango(CfgDe(), Est(), pid, dl)
      ensures CfgDe().cap > 0
      ensures RespuestaDe(Destino(procesos[pid].tabla, dl / tamPagina)) == Traducir(CfgDe(), Est(), pid, dl)
    {
      PotPositiva(entradasPorTabla, cantidadNiveles);
      var t := procesos[pid].tabla;
      RechazaSiiFueraDeRango(CfgDe(), Est(), pid, dl);
      if t.Some? {
        CaminarAlcanza(t.valor.entradas, entradasPorTabla, cantidadNiveles, dl / tamPagina);
      }
    }

    /** TRADUCIR_TABLA. */
    method TraducirTabla(pid: int, dl: int) returns (r: Traducida)
      requires Sana()
      ensures CfgDe().cap > 0 && r == Traducir(CfgDe(), Est(), pid, dl)
    {
      PotPositiva(entradasPorTabla, cantidadNiveles);
      if pid !in procesos {
        return PidDesconocido;
      }
      if dl < 0 || dl / tamPagina >= (procesos[pid].tam + tamPagina - 1) / tamPagina {
        return PaginaFueraDeRango;
      }
      DestinoEsTraducir(pid, dl);
      r := RecorrerNiveles(procesos[pid].tabla, dl / tamPagina);
    }

    method RecorrerNiveles(raiz: Option<Tabla>, pagina: nat) returns (r: Traducida)
      requires Valid()
      requires raiz.Some? ==> Forma(raiz.valor.entradas, entradasPorTabla, cantidadNiveles)
      ensures r == RespuestaDe(Destino(raiz, pagina))
    {
      r := ErrorTraduccion;
      var actual := raiz;
      var nivel := 1;
      while nivel <= cantidadNiveles
        invariant 1 <= nivel <= cantidadNiveles + 1
        invariant nivel <= cantidadNiveles && actual.None? ==> Destino(raiz, pagina).None?
        invariant nivel <= cantidadNiveles && actual.Some? ==>
                    Forma(actual.valor.entradas, entradasPorTabla, Altura(nivel))
                    && Caminar(actual.valor.entradas, entradasPorTabla, Altura(nivel), pagina) == Destino(raiz, pagina)
        invariant nivel > cantidadNiveles ==> r == RespuestaDe(Destino(raiz, pagina))
      {
        var indice := IndiceDePagina(pagina, nivel, cantidadNiveles, bitsPorNivel);
        IndiceEsDigito(pagina, nivel, cantidadNiveles, bitsPorNivel);
        if actual.None? || indice >= entradasPorTabla {
          return ErrorTraduccion;
        }
        var e := actual.valor.entradas[indice];
        assert FormaEntrada(e, entradasPorTabla, Altura(nivel));
        if nivel == cantidadNiveles {
          r := if e.presente then TraduccionOk(e.marco) else MarcoNoPresente;
        } else {
          actual := e.siguiente;
        }
        nivel := nivel + 1;
      }
    }

    // ------------------------------------------------------------ the connections

    /** One request of a connection; one that its callers may not make is not answered. */
    method Servir(p: Pedido) returns (r: Option<Respuesta>)
      requires Sana()
      modifies bitmapMarcos, memoriaUsuario, this`bitmapSwap, this`archivoSwap, this`procesos
      ensures Sana()
      ensures if Legal(old(Est()), p) then r.Some? && (Est(), r.valor) == Atender(CfgDe(), old(Est()), p)
              else r.None? && Est() == old(Est())
    {
      match p
      case Iniciar(pid, tam) => r := Crear(pid, tam);
      case Finalizar(pid) => var x := Destruir(pid); r := Some(x);
      case Suspension(pid) => var x := ManejarSuspension(pid); r := Some(x);
      case Desuspension(pid) => var x := ManejarDesuspension(pid); r := Some(x);
      case Dump(pid) => var x := ManejarDump(pid); r := Some(x);
      case Escritura(c, desde, datos) =>
        var ok := EscribirPagina(c, desde, datos);
        r := if ok then Some(EscrituraOk) else None;
    }

    method Crear(pid: int, tam: nat) returns (r: Option<Respuesta>)
      requires Sana()
      modifies bitmapMarcos, this`procesos
      ensures Sana()
      ensures if pid !in old(Est()).procs then r.Some? && (Est(), r.valor) == IniciarProceso(CfgDe(), old(Est()), pid, tam)
              else r.None? && Est() == old(Est())
    {
      if pid in procesos {
        return None;
      }
      var x := AlmacenarProceso(pid, tam);
      r := Some(x);
    }

    /** A write at the frame its page translates to, if it has one. */
    method EscribirPagina(c: Clave, desde: nat, datos: seq<byte>) returns (ok: bool)
      requires Sana()
      modifies memoriaUsuario
      ensures Sana() && ok == EscrituraPosible(old(Est()), Escritura(c, desde, datos))
      ensures if ok then Est() == Atender(CfgDe(), old(Est()), Escritura(c, desde, datos)).0 else Est() == old(Est())
    {
      MarcoDePagina(c);
      if desde + |datos| > tamPagina || c.pag >= Pot(entradasPorTabla, cantidadNiveles) {
        return false;
      }
      var t := TraducirTabla(c.pid, c.pag * tamPagina);
      if !t.TraduccionOk? {
        return false;
      }
      ok := ManejarEscritura(t.marco, desde, datos);
    }

    lemma {:induction false} MarcoDePagina(c: Clave)
      requires Sana()
      ensures CfgDe().cap > 0
      ensures c.pag < CfgDe().cap ==>
                var t := Traducir(CfgDe(), Est(), c.pid, c.pag * tamPagina);
                (t.TraduccionOk? <==> Vive(Est(), c) && H(Est(), c).presente)
                && (t.TraduccionOk? ==> t.marco == H(Est(), c).marco && 0 <= t.marco < bitmapMarcos.Length)
      ensures Vive(Est(), c) ==> c.pag < CfgDe().cap
      ensures forall i :: 0 <= i < bitmapMarcos.Length ==> |Est().fis.ram[i]| == tamPagina
    {
      PotPositiva(entradasPorTabla, cantidadNiveles);
      if c.pid in Est().procs {
        assert ProcOk(CfgDe(), Est().procs[c.pid]);
        DivUnico(c.pag * tamPagina, tamPagina, c.pag, 0);
        if c.pag < CfgDe().cap {
          ModMenor(c.pag, CfgDe().cap);
          HojasEnRegla(CfgDe(), Est(), c.pid, c.pag);
        }
      }
    }
  }
}
