/** Swap slots: which ones a suspension takes, that a resumption and a release give them back,
    and that over any run a slot is taken only while a page is in it. */
module Ranuras {
  import opened Comunes
  import opened Fisico
  import opened Tenencia
  import opened Recorridos
  import opened Pedidos
  import opened Corridas

  // The page in slot i is c.
  ghost predicate Guarda(m: Mem, c: Clave, i: nat) {
    Vive(m, c) && !H(m, c).presente && H(m, c).slot == i
  }

  // A bit the bitmap grew with, that was set to begin with and nobody ever wrote the slot of.
  predicate NacidaSucia(f: Fis, i: nat) { i !in f.swap && f.basura(i) }

  /** A set bit is that of a page in swap, or was born set. */
  ghost predicate SinFugas(m: Mem) {
    && (forall s :: s in m.fis.swap ==> s < |m.fis.bits|)
    && (forall i :: 0 <= i < |m.fis.bits| && m.fis.bits[i] ==> (exists c :: Guarda(m, c, i)) || NacidaSucia(m.fis, i))
  }

  // ---------------------------------------------------------------- one step

  lemma {:induction false} BitDeOtro(op: Op, m: Mem, c: Clave, i: nat)
    requires Propiedad(m) && SinFugas(m) && Vive(m, c) && Aplicable(op, H(m, c))
    requires i < |PasoEn(op, m, c).fis.bits| && PasoEn(op, m, c).fis.bits[i] && H(PasoEn(op, m, c), c).slot != i
    ensures (exists d :: Guarda(PasoEn(op, m, c), d, i)) || NacidaSucia(PasoEn(op, m, c).fis, i)
  {
    var n := PasoEn(op, m, c);
    assert HojaOk(H(m, c), m.fis);
    if i < |m.fis.bits| && m.fis.bits[i] && !NacidaSucia(m.fis, i) {
      var d :| Guarda(m, d, i);
      assert d != c ==> Guarda(n, d, i);
    }
  }

  lemma {:induction false} PasoSinFugas(op: Op, m: Mem, c: Clave)
    requires Propiedad(m) && SinFugas(m) && Vive(m, c) && Aplicable(op, H(m, c))
    ensures SinFugas(PasoEn(op, m, c))
  {
    var n := PasoEn(op, m, c);
    assert HojaOk(H(m, c), m.fis);
    PasoHojaOk(op, m, c, c);
    forall i | 0 <= i < |n.fis.bits| && n.fis.bits[i] ensures (exists d :: Guarda(n, d, i)) || NacidaSucia(n.fis, i) {
      if H(n, c).slot == i { assert Guarda(n, c, i); } else { BitDeOtro(op, m, c, i); }
    }
  }

  // ---------------------------------------------------------------- requests and runs

  lemma {:induction false} TrasSinFugas(op: Op, m: Mem, pid: int, k: nat)
    requires Propiedad(m) && SinFugas(m) && pid in m.procs && k <= |m.procs[pid].hojas| && AplicableA(op, m, pid)
    ensures SinFugas(Tras(op, m, pid, k))
  {
    if k == 0 {
      TrasInicio(op, m, pid);
    } else {
      TrasSinFugas(op, m, pid, k - 1);
      TrasConserva(op, m, pid, k - 1);
      TrasPaso(op, m, pid, k - 1);
      PasoSinFugas(op, Tras(op, m, pid, k - 1), Clave(pid, k - 1));
    }
  }

  lemma {:induction false} RecorridaSinFugas(op: Op, m: Mem, pid: int)
    requires Propiedad(m) && SinFugas(m) && pid in m.procs && AplicableA(op, m, pid)
    ensures SinFugas(Recorrida(op, m, pid))
  {
    var hs := m.procs[pid].hojas;
    assert hs[..|hs|] == hs && Recorrer(op, hs, m.fis).hojas + hs[|hs|..] == Recorrer(op, hs, m.fis).hojas;
    assert Tras(op, m, pid, |hs|) == Recorrida(op, m, pid);
    TrasSinFugas(op, m, pid, |hs|);
  }

  // The same slots, with the same pages in them.
  lemma {:induction false} MismasRanuras(m: Mem, n: Mem)
    requires SinFugas(m) && n.fis.bits == m.fis.bits && n.fis.swap == m.fis.swap && n.fis.basura == m.fis.basura
    requires forall c, i :: Guarda(m, c, i) ==> Guarda(n, c, i)
    ensures SinFugas(n)
  {
    forall i | 0 <= i < |n.fis.bits| && n.fis.bits[i] ensures (exists d :: Guarda(n, d, i)) || NacidaSucia(n.fis, i) {
      if !NacidaSucia(m.fis, i) {
        var d :| Guarda(m, d, i);
        assert Guarda(n, d, i);
      }
    }
  }

  lemma {:induction false} IniciarSinFugas(cfg: Cfg, m: Mem, pid: int, tam: nat)
    requires Valida(cfg, m) && SinFugas(m) && pid !in m.procs
    ensures SinFugas(IniciarProceso(cfg, m, pid, tam).0)
  {
    var n := Paginas(tam, cfg.tp);
    if n <= Libres(m.fis.marcos) {
      var b := EnBlanco(cfg, m, pid, tam);
      AgregarConserva(m, pid, Proc(tam, Vacias(cfg.cap)), n);
      MismasRanuras(m, b);
      RecorridaSinFugas(Asignar, b, pid);
      MismasRanuras(Recorrida(Asignar, b, pid), SinPendientes(Recorrida(Asignar, b, pid)));
    }
  }

  lemma {:induction false} DestruirSinFugas(cfg: Cfg, m: Mem, pid: int)
    requires Valida(cfg, m) && SinFugas(m)
    ensures SinFugas(DestruirProceso(m, pid).0)
  {
    if pid in m.procs {
      var n := Recorrida(Liberar, m, pid);
      RecorridaSinFugas(Liberar, m, pid);
      LiberarVacia(m.procs[pid].hojas, m.fis);
      assert TodasVacias(n.procs[pid].hojas);
      forall c, i: nat | Guarda(n, c, i) ensures Guarda(n.(procs := n.procs - {pid}), c, i) {
        assert Vive(n, c) && H(n, c) == n.procs[c.pid].hojas[c.pag];
      }
      MismasRanuras(n, n.(procs := n.procs - {pid}));
    }
  }

  /** No request leaks a slot. */
  lemma {:induction false} AtenderSinFugas(cfg: Cfg, m: Mem, p: Pedido)
    requires Valida(cfg, m) && SinFugas(m) && Legal(m, p)
    ensures SinFugas(Atender(cfg, m, p).0)
  {
    match p
    case Iniciar(pid, tam) => IniciarSinFugas(cfg, m, pid, tam);
    case Finalizar(pid) => DestruirSinFugas(cfg, m, pid);
    case Suspension(pid) => if pid in m.procs { RecorridaSinFugas(Suspender, m, pid); }
    case Desuspension(pid) => if pid in m.procs { RecorridaSinFugas(Desuspender, m, pid); }
    case Escritura(_, _, _) => MismasRanuras(m, Atender(cfg, m, p).0);
    case Dump(_) =>
  }

  lemma {:induction false} CorridaSinFugas(cfg: Cfg, m: Mem, ps: seq<Pedido>)
    requires Valida(cfg, m) && SinFugas(m) && Legales(cfg, m, ps)
    ensures SinFugas(Correr(cfg, m, ps))
    decreases |ps|
  {
    if ps != [] {
      AtenderConserva(cfg, m, ps[0]);
      AtenderSinFugas(cfg, m, ps[0]);
      CorridaSinFugas(cfg, Atender(cfg, m, ps[0]).0, ps[1..]);
    }
  }

  /** From boot, after any run: a slot's bit is set exactly when a page of a live process is in
      it, and then it is of one page only - but for bits the bitmap grew with that were set to
      begin with, whose slots were never written. */
  lemma {:induction false} RanuraTomadaSii(cfg: Cfg, marcos: nat, basura: nat -> bool, ps: seq<Pedido>, i: nat)
    requires cfg.tp > 0 && Legales(cfg, Arranque(cfg, marcos, basura), ps)
    ensures var m := Correr(cfg, Arranque(cfg, marcos, basura), ps);
            && (i in m.fis.swap ==> i < |m.fis.bits| && (m.fis.bits[i] <==> exists c :: Guarda(m, c, i)))
            && (i < |m.fis.bits| && i !in m.fis.swap && m.fis.bits[i] ==> m.fis.basura(i))
            && (forall c, d :: Guarda(m, c, i) && Guarda(m, d, i) ==> c == d)
  {
    var m0 := Arranque(cfg, marcos, basura);
    ArranqueValida(cfg, marcos, basura);
    CorridaValida(cfg, m0, ps);
    CorridaSinFugas(cfg, m0, ps);
    var m := Correr(cfg, m0, ps);
    forall c | Guarda(m, c, i) ensures i < |m.fis.bits| && m.fis.bits[i] && i in m.fis.swap { assert HojaOk(H(m, c), m.fis); }
    forall c, d | Guarda(m, c, i) && Guarda(m, d, i) ensures c == d {
      assert c != d ==> Ajenas(H(m, c), H(m, d));
    }
  }

  // ---------------------------------------------------------------- giving back

  lemma {:induction false} NadieGuarda(m: Mem, n: Mem, c: Clave, i: nat)
    requires Propiedad(m) && Guarda(m, c, i) && i in m.fis.swap && m.fis.swap.Keys <= n.fis.swap.Keys && SinFugas(n)
    requires forall d: Clave :: d.pid != c.pid && Vive(n, d) ==> Vive(m, d) && H(n, d) == H(m, d)
    requires forall d: Clave :: d.pid == c.pid && Vive(n, d) ==> H(n, d).slot == -1
    ensures i < |n.fis.bits| && !n.fis.bits[i]
  {
    forall d ensures !Guarda(n, d, i) {
      if Vive(n, d) && d.pid != c.pid { assert Ajenas(H(m, c), H(m, d)); }
    }
  }

  lemma {:induction false} MismoArchivo(op: Op, hs: seq<Hoja>, f: Fis)
    requires op != Suspender
    ensures Recorrer(op, hs, f).fis.swap == f.swap
  {
    if hs != [] { MismoArchivo(op, hs[1..], Paso(op, hs[0], f).fis); }
  }

  /** A granted resumption clears the bit of every slot the process had. */
  lemma {:induction false} DesuspenderDevuelve(cfg: Cfg, m: Mem, c: Clave, i: nat)
    requires Valida(cfg, m) && SinFugas(m) && Guarda(m, c, i) && DesuspenderProceso(m, c.pid).1 == DesuspensionOk
    ensures var n := DesuspenderProceso(m, c.pid).0; i < |n.fis.bits| && !n.fis.bits[i]
  {
    var n := DesuspenderProceso(m, c.pid).0;
    DesuspenderValida(cfg, m, c.pid);
    AtenderSinFugas(cfg, m, Desuspension(c.pid));
    MismoArchivo(Desuspender, m.procs[c.pid].hojas, m.fis);
    assert HojaOk(H(m, c), m.fis);
    DesuspenderCompleta(m, c.pid);
    forall d: Clave | d.pid == c.pid && Vive(n, d) ensures H(n, d).slot == -1 {
      assert HojaOk(H(n, d), n.fis) && H(n, d) == n.procs[c.pid].hojas[d.pag];
    }
    NadieGuarda(m, n, c, i);
  }

  /** And so does the end of the process. */
  lemma {:induction false} DestruirDevuelve(cfg: Cfg, m: Mem, c: Clave, i: nat)
    requires Valida(cfg, m) && SinFugas(m) && Guarda(m, c, i)
    ensures var n := DestruirProceso(m, c.pid).0; i < |n.fis.bits| && !n.fis.bits[i]
  {
    DestruirValida(cfg, m, c.pid);
    AtenderSinFugas(cfg, m, Finalizar(c.pid));
    MismoArchivo(Liberar, m.procs[c.pid].hojas, m.fis);
    assert HojaOk(H(m, c), m.fis);
    NadieGuarda(m, DestruirProceso(m, c.pid).0, c, i);
  }

  // ---------------------------------------------------------------- which slots, which frames

  function Presentes(hs: seq<Hoja>): nat { if hs == [] then 0 else (if hs[0].presente then 1 else 0) + Presentes(hs[1..]) }

  lemma {:induction false} UnaRanura(h: Hoja, f: Fis)
    requires h.presente && 0 <= h.marco < |f.ram| && Libres(f.bits) > 0
    ensures var g := Paso(Suspender, h, f).fis;
            && |g.bits| == |f.bits| && |g.ram| == |f.ram|
            && MarcosLibres(f.bits) == [Paso(Suspender, h, f).hoja.slot] + MarcosLibres(g.bits)
            && Libres(g.bits) == Libres(f.bits) - 1
  {
    TomarPrimero(f.bits);
  }

  /** While there are clear slots a suspension takes the lowest ones, one for each page, and the
      swap file does not grow. */
  lemma {:induction false} SuspenderRanuras(hs: seq<Hoja>, f: Fis)
    requires Presentes(hs) <= Libres(f.bits)
    requires forall i :: 0 <= i < |hs| ==> hs[i].presente ==> 0 <= hs[i].marco < |f.ram|
    ensures var g := Recorrer(Suspender, hs, f).fis;
            |g.bits| == |f.bits| && MarcosLibres(g.bits) == MarcosLibres(f.bits)[Presentes(hs)..]
  {
    if hs != [] {
      var g := Paso(Suspender, hs[0], f).fis;
      if hs[0].presente { UnaRanura(hs[0], f); }
      SuspenderRanuras(hs[1..], g);
    }
  }

  /** The k-th page, in page order, goes to the k-th lowest of them. */
  lemma {:induction false} SuspenderHojas(hs: seq<Hoja>, f: Fis, k: nat)
    requires Presentes(hs) <= Libres(f.bits) && k < |hs| && hs[k].presente
    requires forall i :: 0 <= i < |hs| ==> hs[i].presente ==> 0 <= hs[i].marco < |f.ram|
    ensures Presentes(hs[..k]) < Libres(f.bits)
    ensures Recorrer(Suspender, hs, f).hojas[k] == Hoja(false, -1, MarcosLibres(f.bits)[Presentes(hs[..k])])
  {
    if hs[0].presente { UnaRanura(hs[0], f); }
    if k > 0 {
      assert hs[..k][1..] == hs[1..][..k - 1];
      SuspenderHojas(hs[1..], Paso(Suspender, hs[0], f).fis, k - 1);
    } else {
      assert hs[..0] == [];
    }
  }

  /** A resumption takes the lowest free frames, one for each page in swap. */
  lemma {:induction false} DesuspenderMarcos(hs: seq<Hoja>, f: Fis)
    requires EnSwap(hs) <= Libres(f.marcos) && |f.marcos| == |f.ram|
    requires forall i :: 0 <= i < |hs| ==> hs[i].presente || hs[i].slot == -1 || (0 <= hs[i].slot && hs[i].slot in f.swap)
    ensures MarcosLibres(Recorrer(Desuspender, hs, f).fis.marcos) == MarcosLibres(f.marcos)[EnSwap(hs)..]
  {
    if hs != [] {
      if !hs[0].presente && hs[0].slot != -1 { TomarPrimero(f.marcos); }
      DesuspenderMarcos(hs[1..], Paso(Desuspender, hs[0], f).fis);
    }
  }
}
