/** What a client sees through address translation. */
module Traduccion {
  import opened Comunes
  import opened Fisico
  import opened Tenencia
  import opened Recorridos
  import opened Pedidos
  import opened Aritmetica

  datatype Traducida = TraduccionOk(marco: int) | PaginaFueraDeRango | MarcoNoPresente | ErrorTraduccion | PidDesconocido

  /** A logical address the process owns. */
  predicate EnRango(cfg: Cfg, m: Mem, pid: int, dl: int)
    requires cfg.tp > 0
  {
    pid in m.procs && 0 <= dl && dl / cfg.tp < Paginas(m.procs[pid].tam, cfg.tp)
  }

  /** manejar_traduccion_tabla over the leaves: the walk down the tables reaches the leaf whose
      position is the page number modulo what the tables can describe. */
  ghost function Traducir(cfg: Cfg, m: Mem, pid: int, dl: int): Traducida
    requires cfg.cap > 0 && Valida(cfg, m)
  {
    if pid !in m.procs then PidDesconocido
    else if !EnRango(cfg, m, pid, dl) then PaginaFueraDeRango
    else
      assert ProcOk(cfg, m.procs[pid]);
      var h := m.procs[pid].hojas[dl / cfg.tp % cfg.cap];
      if h.presente then TraduccionOk(h.marco) else MarcoNoPresente
  }

  /** Translation agrees with allocation: right after creation, page k of a process that fits
      its tables is at the k-th lowest of the frames that were free. */
  lemma {:induction false} TraduccionDeProcesoNuevo(cfg: Cfg, m: Mem, pid: int, tam: nat, dl: int)
    requires cfg.cap > 0 && Valida(cfg, m) && pid !in m.procs
    requires Paginas(tam, cfg.tp) <= cfg.cap && Paginas(tam, cfg.tp) <= Libres(m.fis.marcos)
    requires 0 <= dl && dl / cfg.tp < Paginas(tam, cfg.tp)
    ensures var n := IniciarProceso(cfg, m, pid, tam).0;
            Valida(cfg, n) && Traducir(cfg, n, pid, dl) == TraduccionOk(MarcosLibres(m.fis.marcos)[dl / cfg.tp])
  {
    IniciarValida(cfg, m, pid, tam);
    var b := EnBlanco(cfg, m, pid, tam);
    var k := dl / cfg.tp;
    AsignarHojas(b.procs[pid].hojas, b.fis, k);
    ModMenor(k, cfg.cap);
    var n := IniciarProceso(cfg, m, pid, tam).0;
    assert n.procs[pid].hojas[k] == Hoja(true, MarcosLibres(m.fis.marcos)[k], -1);
  }

  /** An address is refused exactly when it is negative or past the last page; no address of
      the process ever lands on a blank entry. */
  lemma {:induction false} RechazaSiiFueraDeRango(cfg: Cfg, m: Mem, pid: int, dl: int)
    requires cfg.cap > 0 && Valida(cfg, m) && pid in m.procs
    ensures Traducir(cfg, m, pid, dl) == PaginaFueraDeRango
            <==> dl < 0 || dl / cfg.tp >= (m.procs[pid].tam + cfg.tp - 1) / cfg.tp
    ensures EnRango(cfg, m, pid, dl) ==>
              var k := dl / cfg.tp % cfg.cap;
              m.procs[pid].hojas[k] != VACIA
              && (Traducir(cfg, m, pid, dl) == MarcoNoPresente <==> m.procs[pid].hojas[k].slot >= 0)
  {
    assert ProcOk(cfg, m.procs[pid]);
    if EnRango(cfg, m, pid, dl) {
      var k := dl / cfg.tp % cfg.cap;
      assert k <= dl / cfg.tp by { ModMenor(dl / cfg.tp, cfg.cap); }
      assert HojaOk(H(m, Clave(pid, k)), m.fis);
    }
  }

  /** Two addresses translate to one frame only when they are of one process and their page
      numbers agree modulo the capacity of its tables: what the CPU's cache relies on. */
  lemma {:induction false} TraduccionInyectiva(cfg: Cfg, m: Mem, p: int, a: int, q: int, b: int)
    requires cfg.cap > 0 && Valida(cfg, m)
    requires Traducir(cfg, m, p, a).TraduccionOk? && Traducir(cfg, m, q, b).TraduccionOk?
    ensures Traducir(cfg, m, p, a) == Traducir(cfg, m, q, b)
            <==> p == q && a / cfg.tp % cfg.cap == b / cfg.tp % cfg.cap
    ensures 0 <= Traducir(cfg, m, p, a).marco < |m.fis.ram|
  {
    var c, d := Clave(p, a / cfg.tp % cfg.cap), Clave(q, b / cfg.tp % cfg.cap);
    assert ProcOk(cfg, m.procs[p]) && ProcOk(cfg, m.procs[q]);
    assert HojaOk(H(m, c), m.fis);
    assert c != d ==> Ajenas(H(m, c), H(m, d));
  }

  // Different pages of the process are in different frames.
  ghost predicate SinAlias(cfg: Cfg, m: Mem, pid: int)
    requires cfg.cap > 0 && Valida(cfg, m)
  {
    forall a, b | EnRango(cfg, m, pid, a) && EnRango(cfg, m, pid, b)
        && Traducir(cfg, m, pid, a) == Traducir(cfg, m, pid, b)
      :: a / cfg.tp == b / cfg.tp
  }

  /** Nothing checks that a process fits its tables. It is exactly then that its pages do not
      share frames: a larger one is admitted too, and the index mask folds its pages past the
      capacity onto its first ones. */
  lemma {:induction false} SinAliasSiiCabe(cfg: Cfg, m: Mem, pid: int)
    requires cfg.cap > 0 && Valida(cfg, m) && Residente(m, pid)
    ensures SinAlias(cfg, m, pid) <==> Paginas(m.procs[pid].tam, cfg.tp) <= cfg.cap
  {
    if Paginas(m.procs[pid].tam, cfg.tp) <= cfg.cap {
      SiCabeSinAlias(cfg, m, pid);
    } else {
      SiNoCabeAlias(cfg, m, pid);
    }
  }

  lemma {:induction false} SiCabeSinAlias(cfg: Cfg, m: Mem, pid: int)
    requires cfg.cap > 0 && Valida(cfg, m) && Residente(m, pid) && Paginas(m.procs[pid].tam, cfg.tp) <= cfg.cap
    ensures SinAlias(cfg, m, pid)
  {
    forall a, b | EnRango(cfg, m, pid, a) && EnRango(cfg, m, pid, b)
                  && Traducir(cfg, m, pid, a) == Traducir(cfg, m, pid, b)
      ensures a / cfg.tp == b / cfg.tp
    {
      MismaPagina(cfg, m, pid, a, b);
    }
  }

  lemma {:induction false} MismaPagina(cfg: Cfg, m: Mem, pid: int, a: int, b: int)
    requires cfg.cap > 0 && Valida(cfg, m) && Residente(m, pid) && Paginas(m.procs[pid].tam, cfg.tp) <= cfg.cap
    requires EnRango(cfg, m, pid, a) && EnRango(cfg, m, pid, b)
    requires Traducir(cfg, m, pid, a) == Traducir(cfg, m, pid, b)
    ensures a / cfg.tp == b / cfg.tp
  {
    EnRangoPresente(cfg, m, pid, a);
    EnRangoPresente(cfg, m, pid, b);
    TraduccionInyectiva(cfg, m, pid, a, pid, b);
    PaginaChica(cfg, m, pid, a);
    PaginaChica(cfg, m, pid, b);
  }

  lemma {:induction false} PaginaChica(cfg: Cfg, m: Mem, pid: int, a: int)
    requires cfg.cap > 0 && cfg.tp > 0 && EnRango(cfg, m, pid, a) && Paginas(m.procs[pid].tam, cfg.tp) <= cfg.cap
    ensures a / cfg.tp % cfg.cap == a / cfg.tp
  {
  }

  lemma {:induction false} SiNoCabeAlias(cfg: Cfg, m: Mem, pid: int)
    requires cfg.cap > 0 && Valida(cfg, m) && pid in m.procs && Paginas(m.procs[pid].tam, cfg.tp) > cfg.cap
    ensures !SinAlias(cfg, m, pid)
  {
    var b := cfg.cap * cfg.tp;
    DivExacta(cfg.cap, cfg.tp);
    DivExacta(0, cfg.tp);
    DivUnico(cfg.cap, cfg.cap, 1, 0);
    ModMenor(0, cfg.cap);
    assert EnRango(cfg, m, pid, 0) && EnRango(cfg, m, pid, b);
    assert Traducir(cfg, m, pid, 0) == Traducir(cfg, m, pid, b);
  }

  lemma {:induction false} EnRangoPresente(cfg: Cfg, m: Mem, pid: int, a: int)
    requires cfg.cap > 0 && Valida(cfg, m) && Residente(m, pid) && EnRango(cfg, m, pid, a)
    ensures Traducir(cfg, m, pid, a).TraduccionOk?
  {
    RechazaSiiFueraDeRango(cfg, m, pid, a);
    var c := Clave(pid, a / cfg.tp % cfg.cap);
    assert ProcOk(cfg, m.procs[pid]);
    assert HojaOk(H(m, c), m.fis);
  }

  /** A concrete process that shows it: two pages of four bytes in tables that describe one. */
  lemma {:induction false} AliasConcreto(basura: nat -> bool)
    ensures var cfg := Cfg(4, 1);
            var m := Mem(Fis([false, false], [[0, 0, 0, 0], [0, 0, 0, 0]], seq(8, _ => false), map[], basura, 0), map[]);
            Valida(cfg, m)
            && IniciarProceso(cfg, m, 7, 8).1 == InitProcesoOk
            && Valida(cfg, IniciarProceso(cfg, m, 7, 8).0)
            && Traducir(cfg, IniciarProceso(cfg, m, 7, 8).0, 7, 0) == TraduccionOk(0)
            && Traducir(cfg, IniciarProceso(cfg, m, 7, 8).0, 7, 4) == TraduccionOk(0)
  {
    var cfg := Cfg(4, 1);
    var m := Mem(Fis([false, false], [[0, 0, 0, 0], [0, 0, 0, 0]], seq(8, _ => false), map[], basura, 0), map[]);
    assert [false, false][..1] == [false] && [false][..0] == [];
    assert Libres(m.fis.marcos) == 2;
    IniciarValida(cfg, m, 7, 8);
    var b := EnBlanco(cfg, m, 7, 8);
    AsignarHojas(b.procs[7].hojas, b.fis, 0);
    assert MarcosLibres(m.fis.marcos)[0] == 0;
  }
}
