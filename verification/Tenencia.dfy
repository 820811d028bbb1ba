/** Who owns each frame and each swap slot, over all live processes: the invariant that one
    leaf step keeps, and the logical image of memory that it does not disturb. */
module Tenencia {
  import opened Comunes
  import opened Fisico

  /** A live process: its size in bytes and its last-level entries in page order. */
  datatype Proc = Proc(tam: nat, hojas: seq<Hoja>)

  datatype Mem = Mem(fis: Fis, procs: map<int, Proc>)

  /** A page of a process. */
  datatype Clave = Clave(pid: int, pag: nat)

  predicate Vive(m: Mem, c: Clave) {
    c.pid in m.procs && c.pag < |m.procs[c.pid].hojas|
  }

  function H(m: Mem, c: Clave): Hoja
    requires Vive(m, c)
  {
    m.procs[c.pid].hojas[c.pag]
  }

  // Never both in RAM and in swap, and what it names is taken and exists.
  ghost predicate HojaOk(h: Hoja, f: Fis) {
    || (h.presente && 0 <= h.marco < |f.marcos| && f.marcos[h.marco] && h.slot == -1)
    || (!h.presente && h.marco == -1 && 0 <= h.slot < |f.bits| && f.bits[h.slot] && h.slot in f.swap)
    || h == VACIA
  }

  predicate Ajenas(a: Hoja, b: Hoja) {
    && !(a.presente && b.presente && a.marco == b.marco)
    && !(!a.presente && !b.presente && a.slot != -1 && a.slot == b.slot)
  }

  ghost predicate Ocupa(m: Mem, c: Clave, marco: nat) {
    Vive(m, c) && H(m, c).presente && H(m, c).marco == marco
  }

  /** The ownership invariant. Only "owned slot implies bit set" holds of the swap bitmap:
      a byte it grew by may be born with bits set that nobody owns. */
  ghost predicate Propiedad(m: Mem) {
    && Coherente(m.fis)
    && (forall c :: Vive(m, c) ==> HojaOk(H(m, c), m.fis))
    && (forall c, d :: Vive(m, c) && Vive(m, d) && c != d ==> Ajenas(H(m, c), H(m, d)))
    && (forall i :: 0 <= i < |m.fis.marcos| && m.fis.marcos[i] ==> exists c :: Ocupa(m, c, i))
  }

  /** The bytes of a page wherever they are. */
  function Imagen(m: Mem, c: Clave): Option<Pagina>
  {
    if !Vive(m, c) then None
    else
      var h := H(m, c);
      if h.presente then
        if 0 <= h.marco < |m.fis.ram| then Some(m.fis.ram[h.marco]) else None
      else if h.slot >= 0 && h.slot in m.fis.swap then Some(m.fis.swap[h.slot])
      else None
  }

  function Poner(m: Mem, c: Clave, h: Hoja, f: Fis): (r: Mem)
    requires Vive(m, c)
    ensures forall d :: Vive(r, d) <==> Vive(m, d)
    ensures forall d :: Vive(m, d) ==> H(r, d) == if d == c then h else H(m, d)
    ensures r.fis == f && r.procs.Keys == m.procs.Keys
  {
    var p := m.procs[c.pid];
    Mem(f, m.procs[c.pid := p.(hojas := p.hojas[c.pag := h])])
  }

  function PasoEn(op: Op, m: Mem, c: Clave): Mem
    requires Vive(m, c)
  {
    var r := Paso(op, H(m, c), m.fis);
    Poner(m, c, r.hoja, r.fis)
  }

  // An allocation step is only ever applied to a leaf nothing was placed in.
  ghost predicate Aplicable(op: Op, h: Hoja) {
    op == Asignar ==> h == VACIA
  }

  lemma {:induction false} PasoHojaOk(op: Op, m: Mem, c: Clave, d: Clave)
    requires Propiedad(m) && Vive(m, c) && Aplicable(op, H(m, c)) && Vive(m, d)
    ensures HojaOk(H(PasoEn(op, m, c), d), PasoEn(op, m, c).fis)
  {
  }

  lemma {:induction false} PasoAjenas(op: Op, m: Mem, c: Clave, d: Clave)
    requires Propiedad(m) && Vive(m, c) && Aplicable(op, H(m, c)) && Vive(m, d) && d != c
    ensures Ajenas(H(PasoEn(op, m, c), c), H(m, d))
  {
  }

  lemma {:induction false} PasoOcupados(op: Op, m: Mem, c: Clave, i: nat)
    requires Propiedad(m) && Vive(m, c) && Aplicable(op, H(m, c))
    requires i < |PasoEn(op, m, c).fis.marcos| && PasoEn(op, m, c).fis.marcos[i]
    ensures exists d :: Ocupa(PasoEn(op, m, c), d, i)
  {
    var n := PasoEn(op, m, c);
    assert HojaOk(H(m, c), m.fis);
    if H(n, c).presente && H(n, c).marco == i {
      assert Ocupa(n, c, i);
    } else {
      assert m.fis.marcos[i];
      var d :| Ocupa(m, d, i);
      assert d != c;
      assert Ocupa(n, d, i);
    }
  }

  /** One leaf step of any traversal keeps ownership. */
  lemma {:induction false} PasoConserva(op: Op, m: Mem, c: Clave)
    requires Propiedad(m) && Vive(m, c) && Aplicable(op, H(m, c))
    ensures Propiedad(PasoEn(op, m, c))
  {
    var n := PasoEn(op, m, c);
    forall d | Vive(n, d) ensures HojaOk(H(n, d), n.fis) { PasoHojaOk(op, m, c, d); }
    forall d, e | Vive(n, d) && Vive(n, e) && d != e ensures Ajenas(H(n, d), H(n, e)) {
      if d == c { PasoAjenas(op, m, c, e); }
      else if e == c { PasoAjenas(op, m, c, d); }
      else { assert Ajenas(H(m, d), H(m, e)); }
    }
    forall i | 0 <= i < |n.fis.marcos| && n.fis.marcos[i] ensures exists d :: Ocupa(n, d, i) {
      PasoOcupados(op, m, c, i);
    }
  }

  /** Moving a page to swap or back keeps every page's bytes; freeing or filling an entry
      keeps those of every other page. */
  lemma {:induction false} PasoImagen(op: Op, m: Mem, c: Clave, d: Clave)
    requires Propiedad(m) && Vive(m, c) && Aplicable(op, H(m, c))
    requires d != c || op == Suspender || op == Desuspender
    ensures Imagen(PasoEn(op, m, c), d) == Imagen(m, d)
  {
  }

  function ConHojas(m: Mem, pid: int, hs: seq<Hoja>, f: Fis): Mem
    requires pid in m.procs
  {
    Mem(f, m.procs[pid := m.procs[pid].(hojas := hs)])
  }

  /** The memory when a traversal of `pid` has gone over its first `k` leaves. */
  function Tras(op: Op, m: Mem, pid: int, k: nat): Mem
    requires pid in m.procs && k <= |m.procs[pid].hojas|
  {
    var hs := m.procs[pid].hojas;
    var r := Recorrer(op, hs[..k], m.fis);
    ConHojas(m, pid, r.hojas + hs[k..], r.fis)
  }

  lemma {:induction false} TrasPaso(op: Op, m: Mem, pid: int, k: nat)
    requires pid in m.procs && k < |m.procs[pid].hojas|
    ensures Vive(Tras(op, m, pid, k), Clave(pid, k))
    ensures H(Tras(op, m, pid, k), Clave(pid, k)) == m.procs[pid].hojas[k]
    ensures Tras(op, m, pid, k + 1) == PasoEn(op, Tras(op, m, pid, k), Clave(pid, k))
  {
    var hs := m.procs[pid].hojas;
    var r := Recorrer(op, hs[..k], m.fis);
    assert hs[..k + 1] == hs[..k] + [hs[k]];
    RecorrerConcat(op, hs[..k], [hs[k]], m.fis);
    RecorrerUna(op, hs[k], r.fis);
    var s := Paso(op, hs[k], r.fis);
    assert (r.hojas + hs[k..])[k := s.hoja] == (r.hojas + [s.hoja]) + hs[k + 1..];
  }

  lemma {:induction false} TrasInicio(op: Op, m: Mem, pid: int)
    requires pid in m.procs
    ensures Tras(op, m, pid, 0) == m
  {
    var hs := m.procs[pid].hojas;
    assert hs[..0] == [] && [] + hs[0..] == hs;
    assert m.procs[pid := m.procs[pid]] == m.procs;
  }

  ghost predicate AplicableA(op: Op, m: Mem, pid: int)
    requires pid in m.procs
  {
    forall i :: 0 <= i < |m.procs[pid].hojas| ==> Aplicable(op, m.procs[pid].hojas[i])
  }

  lemma {:induction false} TrasConserva(op: Op, m: Mem, pid: int, k: nat)
    requires Propiedad(m) && pid in m.procs && k <= |m.procs[pid].hojas| && AplicableA(op, m, pid)
    ensures Propiedad(Tras(op, m, pid, k))
  {
    if k == 0 {
      TrasInicio(op, m, pid);
    } else {
      TrasConserva(op, m, pid, k - 1);
      TrasPaso(op, m, pid, k - 1);
      PasoConserva(op, Tras(op, m, pid, k - 1), Clave(pid, k - 1));
    }
  }

  lemma {:induction false} TrasImagen(op: Op, m: Mem, pid: int, k: nat, d: Clave)
    requires Propiedad(m) && pid in m.procs && k <= |m.procs[pid].hojas| && AplicableA(op, m, pid)
    requires d.pid != pid || op == Suspender || op == Desuspender
    ensures Imagen(Tras(op, m, pid, k), d) == Imagen(m, d)
  {
    if k == 0 {
      TrasInicio(op, m, pid);
    } else {
      TrasImagen(op, m, pid, k - 1, d);
      TrasConserva(op, m, pid, k - 1);
      TrasPaso(op, m, pid, k - 1);
      PasoImagen(op, Tras(op, m, pid, k - 1), Clave(pid, k - 1), d);
    }
  }

  /** The memory after the whole traversal. */
  function Recorrida(op: Op, m: Mem, pid: int): Mem
    requires pid in m.procs
  {
    var r := Recorrer(op, m.procs[pid].hojas, m.fis);
    ConHojas(m, pid, r.hojas, r.fis)
  }

  /** Every traversal keeps ownership; suspending and resuming keep every page of everybody,
      allocating and freeing keep every page of everybody else. */
  lemma {:induction false} RecorridaConserva(op: Op, m: Mem, pid: int)
    requires Propiedad(m) && pid in m.procs && AplicableA(op, m, pid)
    ensures Propiedad(Recorrida(op, m, pid))
    ensures forall d: Clave :: d.pid != pid || op == Suspender || op == Desuspender
              ==> Imagen(Recorrida(op, m, pid), d) == Imagen(m, d)
  {
    var hs := m.procs[pid].hojas;
    var n := |hs|;
    assert hs[..n] == hs && Recorrer(op, hs, m.fis).hojas + hs[n..] == Recorrer(op, hs, m.fis).hojas;
    assert Tras(op, m, pid, n) == Recorrida(op, m, pid);
    TrasConserva(op, m, pid, n);
    forall d: Clave | d.pid != pid || op == Suspender || op == Desuspender
      ensures Imagen(Recorrida(op, m, pid), d) == Imagen(m, d)
    {
      TrasImagen(op, m, pid, n, d);
    }
  }

  /** Dropping a process none of whose leaves names anything any more. */
  lemma {:induction false} QuitarConserva(m: Mem, pid: int)
    requires Propiedad(m) && pid in m.procs
    requires forall i :: 0 <= i < |m.procs[pid].hojas| ==> m.procs[pid].hojas[i] == VACIA
    ensures Propiedad(m.(procs := m.procs - {pid}))
    ensures forall d: Clave :: d.pid != pid ==> Imagen(m.(procs := m.procs - {pid}), d) == Imagen(m, d)
  {
    var n := m.(procs := m.procs - {pid});
    forall d | Vive(n, d) ensures Vive(m, d) && H(n, d) == H(m, d) {}
    forall i | 0 <= i < |n.fis.marcos| && n.fis.marcos[i] ensures exists d :: Ocupa(n, d, i) {
      var d :| Ocupa(m, d, i);
      assert d.pid != pid;
      assert Ocupa(n, d, i);
    }
  }

  /** Adding a process whose table is still blank. */
  lemma {:induction false} AgregarConserva(m: Mem, pid: int, p: Proc, pend: nat)
    requires Propiedad(m) && pid !in m.procs
    requires forall i :: 0 <= i < |p.hojas| ==> p.hojas[i] == VACIA
    ensures var n := Mem(m.fis.(pendientes := pend), m.procs[pid := p]);
            Propiedad(n) && forall d :: Imagen(n, d) == Imagen(m, d)
  {
    var n := Mem(m.fis.(pendientes := pend), m.procs[pid := p]);
    forall d | Vive(n, d) && d.pid != pid ensures Vive(m, d) && H(n, d) == H(m, d) {}
    forall d | Vive(n, d) && d.pid == pid ensures H(n, d) == VACIA {}
    forall i | 0 <= i < |n.fis.marcos| && n.fis.marcos[i] ensures exists d :: Ocupa(n, d, i) {
      var d :| Ocupa(m, d, i);
      assert Ocupa(n, d, i);
    }
  }
}
