/** Whole runs of the memory process, from the state it boots in. */
module Corridas {
  import opened Comunes
  import opened Fisico
  import opened Tenencia
  import opened Recorridos
  import opened Pedidos

  /** Boot: zeroed RAM, every frame free, one zeroed byte of swap bitmap, an empty swap file. */
  function Arranque(cfg: Cfg, marcos: nat, basura: nat -> bool): Mem {
    Mem(Fis(seq(marcos, _ => false), seq(marcos, _ => seq(cfg.tp, _ => 0 as byte)), seq(8, _ => false), map[], basura, 0), map[])
  }

  ghost predicate Legales(cfg: Cfg, m: Mem, ps: seq<Pedido>)
    decreases |ps|
  {
    cfg.tp > 0 && (ps == [] || (Legal(m, ps[0]) && Legales(cfg, Atender(cfg, m, ps[0]).0, ps[1..])))
  }

  ghost function Correr(cfg: Cfg, m: Mem, ps: seq<Pedido>): Mem
    requires Legales(cfg, m, ps)
    decreases |ps|
  {
    if ps == [] then m else Correr(cfg, Atender(cfg, m, ps[0]).0, ps[1..])
  }

  lemma {:induction false} ArranqueValida(cfg: Cfg, marcos: nat, basura: nat -> bool)
    requires cfg.tp > 0
    ensures Valida(cfg, Arranque(cfg, marcos, basura))
  {
  }

  // Requests that may change the bytes of some page of `pid`.
  predicate Toca(p: Pedido, pid: int) {
    match p
    case Iniciar(q, _) => q == pid
    case Finalizar(q) => q == pid
    case Escritura(c, _, _) => c.pid == pid
    case _ => false
  }

  /** One request keeps the invariant, and the image of every process it does not touch. */
  lemma {:induction false} AtenderConserva(cfg: Cfg, m: Mem, p: Pedido)
    requires Valida(cfg, m) && Legal(m, p)
    ensures Valida(cfg, Atender(cfg, m, p).0)
    ensures forall d: Clave :: !Toca(p, d.pid) ==> Imagen(Atender(cfg, m, p).0, d) == Imagen(m, d)
  {
    match p
    case Iniciar(pid, tam) => IniciarValida(cfg, m, pid, tam);
    case Finalizar(pid) => DestruirValida(cfg, m, pid);
    case Suspension(pid) => SuspenderValida(cfg, m, pid);
    case Desuspension(pid) => DesuspenderValida(cfg, m, pid);
    case Escritura(c, desde, datos) => EscribirValida(cfg, m, c, desde, datos);
    case Dump(_) =>
  }

  /** Ownership over every run. */
  lemma {:induction false} CorridaValida(cfg: Cfg, m: Mem, ps: seq<Pedido>)
    requires Valida(cfg, m) && Legales(cfg, m, ps)
    ensures Valida(cfg, Correr(cfg, m, ps))
    decreases |ps|
  {
    if ps != [] {
      AtenderConserva(cfg, m, ps[0]);
      CorridaValida(cfg, Atender(cfg, m, ps[0]).0, ps[1..]);
    }
  }

  /** What the invariant says to someone holding a frame: its bit is set exactly when one
      leaf of one live process names it, and no other leaf does. */
  lemma {:induction false} MarcoTieneUnDuenio(cfg: Cfg, marcos: nat, basura: nat -> bool, ps: seq<Pedido>, i: nat)
    requires cfg.tp > 0 && i < marcos && Legales(cfg, Arranque(cfg, marcos, basura), ps)
    ensures var m := Correr(cfg, Arranque(cfg, marcos, basura), ps);
            && |m.fis.marcos| == marcos
            && (m.fis.marcos[i] <==> exists c :: Ocupa(m, c, i))
            && (forall c, d :: Ocupa(m, c, i) && Ocupa(m, d, i) ==> c == d)
  {
    ArranqueValida(cfg, marcos, basura);
    CorridaValida(cfg, Arranque(cfg, marcos, basura), ps);
    MismosMarcos(cfg, Arranque(cfg, marcos, basura), ps);
    var m := Correr(cfg, Arranque(cfg, marcos, basura), ps);
    forall c | Ocupa(m, c, i) ensures m.fis.marcos[i] { assert HojaOk(H(m, c), m.fis); }
    forall c, d | Ocupa(m, c, i) && Ocupa(m, d, i) ensures c == d {
      assert c != d ==> Ajenas(H(m, c), H(m, d));
    }
  }

  lemma {:induction false} AtenderMismosMarcos(cfg: Cfg, m: Mem, p: Pedido)
    requires Valida(cfg, m) && Legal(m, p)
    ensures |Atender(cfg, m, p).0.fis.marcos| == |m.fis.marcos|
  {
    match p
    case Iniciar(pid, tam) =>
      var b := EnBlanco(cfg, m, pid, tam);
      RecorrerPaginada(Asignar, b.procs[pid].hojas, b.fis, cfg.tp);
    case Finalizar(pid) =>
      if pid in m.procs { RecorrerPaginada(Liberar, m.procs[pid].hojas, m.fis, cfg.tp); }
    case Suspension(pid) =>
      if pid in m.procs { RecorrerPaginada(Suspender, m.procs[pid].hojas, m.fis, cfg.tp); }
    case Desuspension(pid) =>
      if pid in m.procs { RecorrerPaginada(Desuspender, m.procs[pid].hojas, m.fis, cfg.tp); }
    case _ =>
  }

  lemma {:induction false} MismosMarcos(cfg: Cfg, m: Mem, ps: seq<Pedido>)
    requires Valida(cfg, m) && Legales(cfg, m, ps)
    ensures |Correr(cfg, m, ps).fis.marcos| == |m.fis.marcos|
    decreases |ps|
  {
    if ps != [] {
      AtenderConserva(cfg, m, ps[0]);
      AtenderMismosMarcos(cfg, m, ps[0]);
      MismosMarcos(cfg, Atender(cfg, m, ps[0]).0, ps[1..]);
    }
  }

  ghost predicate NoTocan(ps: seq<Pedido>, pid: int) {
    forall i :: 0 <= i < |ps| ==> !Toca(ps[i], pid)
  }

  /** Contents survive: whatever the others create, write, suspend, resume, dump or destroy,
      and however often `pid` itself goes to swap and back, its pages keep their bytes. */
  lemma {:induction false} ImagenConstante(cfg: Cfg, m: Mem, ps: seq<Pedido>, d: Clave)
    requires Valida(cfg, m) && Legales(cfg, m, ps) && NoTocan(ps, d.pid)
    ensures Imagen(Correr(cfg, m, ps), d) == Imagen(m, d)
    decreases |ps|
  {
    if ps != [] {
      AtenderConserva(cfg, m, ps[0]);
      ImagenConstante(cfg, Atender(cfg, m, ps[0]).0, ps[1..], d);
    }
  }

  /** Suspend, anything by the others, resume: every page of the resumed process is in RAM,
      in a frame of its own, with the bytes it had at suspension. */
  lemma {:induction false} SuspenderYReanudar(cfg: Cfg, m: Mem, ps: seq<Pedido>, c: Clave)
    requires Valida(cfg, m) && Vive(m, c) && H(m, c) != VACIA
    requires Legales(cfg, SuspenderProceso(m, c.pid).0, ps) && NoTocan(ps, c.pid)
    ensures var medio := Correr(cfg, SuspenderProceso(m, c.pid).0, ps);
            var r := DesuspenderProceso(medio, c.pid);
            && !H(SuspenderProceso(m, c.pid).0, c).presente
            && Imagen(m, c).Some?
            && (r.1 == DesuspensionOk ==>
                  Vive(r.0, c) && H(r.0, c).presente
                  && 0 <= H(r.0, c).marco < |r.0.fis.marcos| == |r.0.fis.ram|
                  && r.0.fis.marcos[H(r.0, c).marco]
                  && r.0.fis.ram[H(r.0, c).marco] == Imagen(m, c).valor)
            && (r.1 != DesuspensionOk ==> r == (medio, ErrorMemoriaInsuficiente))
            && Imagen(r.0, c) == Imagen(m, c)
  {
    var s := SuspenderProceso(m, c.pid).0;
    SuspenderValida(cfg, m, c.pid);
    assert Vive(s, c) && HojaOk(H(m, c), m.fis);
    CorridaValida(cfg, s, ps);
    ImagenConstante(cfg, s, ps, c);
    var medio := Correr(cfg, s, ps);
    assert Imagen(medio, c).Some?;
    assert Vive(medio, c) && H(medio, c) != VACIA;
    DesuspenderValida(cfg, medio, c.pid);
    var r := DesuspenderProceso(medio, c.pid);
    if r.1 == DesuspensionOk {
      assert HojaOk(H(r.0, c), r.0.fis);
    }
  }

  // ---------------------------------------------------------------- dumps

  /** The pages 0..n-1 of a process, one after the other, wherever each of them is. */
  function Imagenes(m: Mem, pid: int, n: nat): seq<byte>
  {
    if n == 0 then []
    else
      var i := Imagen(m, Clave(pid, n - 1));
      Imagenes(m, pid, n - 1) + if i.Some? then i.valor else []
  }

  lemma {:induction false} VolcarEsImagen(m: Mem, pid: int, n: nat)
    requires pid in m.procs && n <= |m.procs[pid].hojas|
    ensures Volcar(m.procs[pid].hojas[..n], m.fis) == Imagenes(m, pid, n)
  {
    if n > 0 {
      VolcarEsImagen(m, pid, n - 1);
      var hs := m.procs[pid].hojas[..n];
      assert hs[..n - 1] == m.procs[pid].hojas[..n - 1];
      assert H(m, Clave(pid, n - 1)) == hs[n - 1];
    }
  }

  /** A dump is the logical image of the process: its pages in page order, a whole page each,
      and nothing for the entries past its size. */
  lemma {:induction false} DumpEsImagen(cfg: Cfg, m: Mem, pid: int)
    requires Valida(cfg, m) && pid in m.procs && Paginas(m.procs[pid].tam, cfg.tp) <= cfg.cap
    ensures var n := Paginas(m.procs[pid].tam, cfg.tp);
            Atender(cfg, m, Dump(pid)) == (m, DumpOk(Imagenes(m, pid, n)))
            && |Imagenes(m, pid, n)| == n * cfg.tp
  {
    var n := Paginas(m.procs[pid].tam, cfg.tp);
    var hs := m.procs[pid].hojas;
    assert hs[..|hs|] == hs;
    VolcarEsImagen(m, pid, |hs|);
    assert ProcOk(cfg, m.procs[pid]);
    ImagenesCola(cfg, m, pid, n, |hs|);
    ImagenesLargo(cfg, m, pid, n);
  }

  lemma {:induction false} ImagenesCola(cfg: Cfg, m: Mem, pid: int, n: nat, k: nat)
    requires Valida(cfg, m) && pid in m.procs && Paginas(m.procs[pid].tam, cfg.tp) <= n <= k <= cfg.cap
    ensures Imagenes(m, pid, k) == Imagenes(m, pid, n)
  {
    if n < k {
      assert ProcOk(cfg, m.procs[pid]);
      assert H(m, Clave(pid, k - 1)) == VACIA;
      ImagenesCola(cfg, m, pid, n, k - 1);
    }
  }

  lemma {:induction false} ImagenesLargo(cfg: Cfg, m: Mem, pid: int, k: nat)
    requires Valida(cfg, m) && pid in m.procs && k <= Paginas(m.procs[pid].tam, cfg.tp) && k <= cfg.cap
    ensures |Imagenes(m, pid, k)| == k * cfg.tp
  {
    if k > 0 {
      ImagenesLargo(cfg, m, pid, k - 1);
      assert ProcOk(cfg, m.procs[pid]);
      var c := Clave(pid, k - 1);
      assert H(m, c) != VACIA && HojaOk(H(m, c), m.fis);
      assert (k - 1) * cfg.tp + cfg.tp == k * cfg.tp;
    }
  }

  /** So it is the same dump before the suspension, while suspended, after the resumption,
      and after any run of requests that touch other processes. */
  lemma {:induction false} DumpConstante(cfg: Cfg, m: Mem, ps: seq<Pedido>, pid: int)
    requires Valida(cfg, m) && Legales(cfg, m, ps) && NoTocan(ps, pid)
    requires pid in m.procs
    ensures Atender(cfg, Correr(cfg, m, ps), Dump(pid)).1 == Atender(cfg, m, Dump(pid)).1
  {
    var n := Correr(cfg, m, ps);
    CorridaValida(cfg, m, ps);
    SigueVivo(cfg, m, ps, pid);
    var a, b := m.procs[pid].hojas, n.procs[pid].hojas;
    assert ProcOk(cfg, m.procs[pid]) && ProcOk(cfg, n.procs[pid]);
    assert a[..cfg.cap] == a && b[..cfg.cap] == b;
    VolcarEsImagen(m, pid, cfg.cap);
    VolcarEsImagen(n, pid, cfg.cap);
    forall k: nat | k < cfg.cap ensures Imagen(n, Clave(pid, k)) == Imagen(m, Clave(pid, k)) {
      ImagenConstante(cfg, m, ps, Clave(pid, k));
    }
    MismasImagenes(m, n, pid, cfg.cap);
  }

  lemma {:induction false} SigueVivo(cfg: Cfg, m: Mem, ps: seq<Pedido>, pid: int)
    requires Valida(cfg, m) && Legales(cfg, m, ps) && NoTocan(ps, pid) && pid in m.procs
    ensures pid in Correr(cfg, m, ps).procs
    decreases |ps|
  {
    if ps != [] {
      AtenderConserva(cfg, m, ps[0]);
      SigueVivo(cfg, Atender(cfg, m, ps[0]).0, ps[1..], pid);
    }
  }

  lemma {:induction false} MismasImagenes(m: Mem, n: Mem, pid: int, k: nat)
    requires forall i: nat :: i < k ==> Imagen(n, Clave(pid, i)) == Imagen(m, Clave(pid, i))
    ensures Imagenes(n, pid, k) == Imagenes(m, pid, k)
  {
    if k > 0 { MismasImagenes(m, n, pid, k - 1); }
  }
}
