/** The memory as the CPUs see it: frames, and which page is in which. */
module Entornos {
  import opened Comunes
  import opened Aritmetica
  import opened Fisico
  import opened Tenencia
  import opened Pedidos
  import opened Traduccion
  import opened Cache

  /** Which frame each resident page is in. */
  ghost function Rutas(m: Mem): imap<Clave, nat> {
    imap c: Clave | Vive(m, c) && H(m, c).presente && H(m, c).marco >= 0 :: H(m, c).marco
  }

  ghost function EntornoDe(m: Mem): Entorno { Entorno(m.fis.ram, Rutas(m)) }

  // The process fits the tables it was given: the premise without which two of its pages may
  // share a frame.
  ghost predicate CabeEnTablas(cfg: Cfg, m: Mem, pid: int) {
    cfg.tp > 0 && (pid in m.procs ==> Paginas(m.procs[pid].tam, cfg.tp) <= cfg.cap)
  }

  /** The ownership invariant is what makes the memory behind the cache well behaved. */
  lemma {:induction false} EntornoSano(cfg: Cfg, m: Mem)
    requires Valida(cfg, m)
    ensures EntornoOk(EntornoDe(m), cfg.tp)
    ensures forall c :: c in Rutas(m) ==> Imagen(m, c) == Some(m.fis.ram[Rutas(m)[c]])
  {
  }

  lemma {:induction false} TraducirEsRuta(cfg: Cfg, m: Mem, pid: int, dl: nat)
    requires cfg.cap > 0 && Valida(cfg, m) && CabeEnTablas(cfg, m, pid)
    ensures var c := Clave(pid, dl / cfg.tp);
            var r := Traducir(cfg, m, pid, dl);
            (c in Rutas(m) <==> r.TraduccionOk?) && (r.TraduccionOk? ==> r.marco == Rutas(m)[c])
  {
    var k := dl / cfg.tp;
    var c := Clave(pid, k);
    if pid in m.procs {
      assert ProcOk(cfg, m.procs[pid]);
      if k < Paginas(m.procs[pid].tam, cfg.tp) {
        ModMenor(k, cfg.cap);
        assert HojaOk(H(m, c), m.fis);
      } else if Vive(m, c) {
        assert H(m, c) == VACIA;
      }
    }
  }
}
