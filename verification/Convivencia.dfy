/** Why a CPU's cache and TLB stay right while everybody else keeps using the memory. */
module Convivencia {
  import opened Comunes
  import opened Aritmetica
  import opened Fisico
  import opened Tenencia
  import opened Recorridos
  import opened Pedidos
  import opened Corridas
  import opened Traduccion
  import opened Cache
  import opened Tlb
  import opened Aplanado
  import opened Entornos

  // Requests that neither touch the pages of `pid` nor move them: the others', and dumps.
  predicate Ajeno(p: Pedido, pid: int) {
    !Toca(p, pid) && p != Suspension(pid) && p != Desuspension(pid)
  }

  lemma {:induction false} PedidoAjeno(cfg: Cfg, m: Mem, p: Pedido, pid: int)
    requires Valida(cfg, m) && Legal(m, p) && Ajeno(p, pid)
    ensures var n := Atender(cfg, m, p).0;
            Valida(cfg, n)
            && (pid in n.procs <==> pid in m.procs) && (pid in m.procs ==> n.procs[pid] == m.procs[pid])
            && MismasPaginas(EntornoDe(m), EntornoDe(n), pid)
  {
    AtenderConserva(cfg, m, p);
    var n := Atender(cfg, m, p).0;
    assert (pid in n.procs <==> pid in m.procs) && (pid in m.procs ==> n.procs[pid] == m.procs[pid]);
    EntornoSano(cfg, m);
    EntornoSano(cfg, n);
    forall c: Clave | c.pid == pid
      ensures c in Rutas(m) <==> c in Rutas(n)
      ensures c in Rutas(m) ==> Rutas(n)[c] == Rutas(m)[c] && n.fis.ram[Rutas(m)[c]] == m.fis.ram[Rutas(m)[c]]
    {
      assert Vive(n, c) <==> Vive(m, c);
      assert Imagen(n, c) == Imagen(m, c);
    }
  }

  predicate TodosAjenos(ps: seq<Pedido>, pid: int) {
    forall i :: 0 <= i < |ps| ==> Ajeno(ps[i], pid)
  }

  /** In the middle of a burst of `pid`, whatever the other processes, their CPUs and the
      kernel ask of the memory, this CPU's cache and TLB stay coherent with it and `pid` reads
      the same bytes. */
  lemma {:induction false} PedidoAislado(cfg: Cfg, m: Mem, p: Pedido, cache: seq<EntradaCache>, tlb: seq<EntradaTlb>, pid: int, n: nat)
    requires Valida(cfg, m) && Legal(m, p) && Ajeno(p, pid)
    requires CacheOk(cache, EntornoDe(m), cfg.tp) && SoloDe(cache, pid)
    requires TlbOk(tlb, Rutas(m)) && SoloDeTlb(tlb, pid)
    ensures var h := Atender(cfg, m, p).0;
            var f := EntornoDe(h);
            && EntornoOk(f, cfg.tp) && CacheOk(cache, f, cfg.tp) && TlbOk(tlb, f.rutas)
            && (pid in h.procs <==> pid in m.procs) && (pid in m.procs ==> h.procs[pid] == m.procs[pid])
            && RutasOk(EntornoDe(m)) && RutasOk(f)
            && (Residentes(EntornoDe(m), pid, n) ==> Residentes(f, pid, n))
            && MemPlana(cache, f, pid, n) == MemPlana(cache, EntornoDe(m), pid, n)
  {
    PedidoAjeno(cfg, m, p, pid);
    EntornoSano(cfg, m);
    EntornoSano(cfg, Atender(cfg, m, p).0);
    EntornosMismos(cfg, EntornoDe(m), EntornoDe(Atender(cfg, m, p).0), cache, tlb, pid, n);
  }

  lemma {:induction false} EntornosMismos(cfg: Cfg, e: Entorno, f: Entorno, cache: seq<EntradaCache>, tlb: seq<EntradaTlb>, pid: int, n: nat)
    requires EntornoOk(e, cfg.tp) && EntornoOk(f, cfg.tp) && MismasPaginas(e, f, pid)
    requires CacheOk(cache, e, cfg.tp) && SoloDe(cache, pid) && TlbOk(tlb, e.rutas) && SoloDeTlb(tlb, pid)
    ensures RutasOk(e) && RutasOk(f) && CacheOk(cache, f, cfg.tp) && TlbOk(tlb, f.rutas)
    ensures Residentes(e, pid, n) ==> Residentes(f, pid, n)
    ensures MemPlana(cache, f, pid, n) == MemPlana(cache, e, pid, n)
  {
    CacheAjenaALosDemas(cache, e, f, cfg.tp, pid);
    TlbAjenaALosDemas(tlb, e.rutas, f.rutas, pid);
    assert PaginasVistas(cache, f, pid, n) == PaginasVistas(cache, e, pid, n);
  }

  /** A running process that fits its tables has exactly its pages translatable. */
  lemma {:induction false} ResidentesDe(cfg: Cfg, m: Mem, pid: int)
    requires Valida(cfg, m) && CabeEnTablas(cfg, m, pid) && Residente(m, pid)
    ensures Residentes(EntornoDe(m), pid, Paginas(m.procs[pid].tam, cfg.tp))
  {
  }

  /** Between bursts the image stays, suspended or not, so the next one starts from where the
      last one left it, on whatever CPU. */
  lemma {:induction false} EntreRafagas(cfg: Cfg, m: Mem, ps: seq<Pedido>, pid: int, n: nat)
    requires Valida(cfg, m) && Legales(cfg, m, ps) && NoTocan(ps, pid)
    ensures Imagenes(Correr(cfg, m, ps), pid, n) == Imagenes(m, pid, n)
  {
    forall k: nat | k < n ensures Imagen(Correr(cfg, m, ps), Clave(pid, k)) == Imagen(m, Clave(pid, k)) {
      ImagenConstante(cfg, m, ps, Clave(pid, k));
    }
    MismasImagenes(m, Correr(cfg, m, ps), pid, n);
  }
}
