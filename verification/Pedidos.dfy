/** The requests the memory process serves, on the whole memory, and what holds over every
    run of them. */
module Pedidos {
  import opened Comunes
  import opened Aritmetica
  import opened Fisico
  import opened Tenencia
  import opened Recorridos

  /** Page size, and how many pages one process's tables can describe. */
  datatype Cfg = Cfg(tp: nat, cap: nat)

  datatype Respuesta =
    | InitProcesoOk | NoHayMarcosLibres
    | FinalizacionOk
    | SuspensionOk | DesuspensionOk | ErrorMemoriaInsuficiente
    | EscrituraOk
    | DumpOk(datos: seq<byte>) | ErrorDump
    | ErrorPidNoEncontrado

  /** What a client may ask. A write names the page whose translation it was given. */
  datatype Pedido =
    | Iniciar(pid: int, tam: nat)
    | Finalizar(pid: int)
    | Suspension(pid: int)
    | Desuspension(pid: int)
    | Escritura(clave: Clave, desde: nat, datos: seq<byte>)
    | Dump(pid: int)

  /** How many pages a process of `tam` bytes needs. */
  function Paginas(tam: nat, tp: nat): nat
    requires tp > 0
  {
    (tam + tp - 1) / tp
  }

  /** The least number of whole pages that holds them. */
  lemma {:induction false} PaginasJustas(tam: nat, tp: nat, n: nat)
    requires tp > 0
    ensures Paginas(tam, tp) <= n <==> tam <= n * tp
  {
    var q := Paginas(tam, tp);
    var r := (tam + tp - 1) % tp;
    assert tam + tp - 1 == q * tp + r;
    if q <= n { MulMonotona(q, n, tp); } else { MulMonotona(n + 1, q, tp); assert (n + 1) * tp == n * tp + tp; }
  }

  function EnBlanco(cfg: Cfg, m: Mem, pid: int, tam: nat): Mem
    requires cfg.tp > 0
  {
    Mem(m.fis.(pendientes := Paginas(tam, cfg.tp)), m.procs[pid := Proc(tam, Vacias(cfg.cap))])
  }

  function SinPendientes(m: Mem): Mem { m.(fis := m.fis.(pendientes := 0)) }

  /** almacenar_proceso_nuevo: refused before anything is touched, or all its pages at once. */
  function IniciarProceso(cfg: Cfg, m: Mem, pid: int, tam: nat): (Mem, Respuesta)
    requires cfg.tp > 0
  {
    if Paginas(tam, cfg.tp) > Libres(m.fis.marcos) then (m, NoHayMarcosLibres)
    else (SinPendientes(Recorrida(Asignar, EnBlanco(cfg, m, pid, tam), pid)), InitProcesoOk)
  }

  function DestruirProceso(m: Mem, pid: int): (Mem, Respuesta)
  {
    if pid !in m.procs then (m, FinalizacionOk)
    else
      var n := Recorrida(Liberar, m, pid);
      (n.(procs := n.procs - {pid}), FinalizacionOk)
  }

  function SuspenderProceso(m: Mem, pid: int): (Mem, Respuesta)
  {
    if pid !in m.procs then (m, ErrorPidNoEncontrado)
    else (Recorrida(Suspender, m, pid), SuspensionOk)
  }

  function DesuspenderProceso(m: Mem, pid: int): (Mem, Respuesta)
  {
    if pid !in m.procs then (m, ErrorPidNoEncontrado)
    else if Libres(m.fis.marcos) < EnSwap(m.procs[pid].hojas) then (m, ErrorMemoriaInsuficiente)
    else (Recorrida(Desuspender, m, pid), DesuspensionOk)
  }

  function EscribirMarco(f: Fis, marco: nat, desde: nat, datos: seq<byte>): Fis
    requires marco < |f.ram| && desde + |datos| <= |f.ram[marco]|
  {
    f.(ram := f.ram[marco := Pegar(f.ram[marco], desde, datos)])
  }

  /** The entry of the dump for one leaf: its frame, else its slot, else nothing. */
  function VolcarHoja(h: Hoja, f: Fis): seq<byte>
  {
    if h.presente then (if 0 <= h.marco < |f.ram| then f.ram[h.marco] else [])
    else if h.slot >= 0 && h.slot in f.swap then f.swap[h.slot]
    else []
  }

  function Volcar(hs: seq<Hoja>, f: Fis): seq<byte>
  {
    if hs == [] then [] else Volcar(hs[..|hs| - 1], f) + VolcarHoja(hs[|hs| - 1], f)
  }

  ghost predicate EscrituraPosible(m: Mem, p: Pedido) {
    && p.Escritura? && Vive(m, p.clave) && H(m, p.clave).presente && 0 <= H(m, p.clave).marco < |m.fis.ram|
    && p.desde + |p.datos| <= |m.fis.ram[H(m, p.clave).marco]|
  }

  /** What the callers keep: the kernel never reuses a pid, and the CPU writes inside a page
      of the process, at the frame the translation named. */
  ghost predicate Legal(m: Mem, p: Pedido) {
    match p
    case Iniciar(pid, _) => pid !in m.procs
    case Escritura(_, _, _) => EscrituraPosible(m, p)
    case _ => true
  }

  ghost function Atender(cfg: Cfg, m: Mem, p: Pedido): (Mem, Respuesta)
    requires cfg.tp > 0 && Legal(m, p)
  {
    match p
    case Iniciar(pid, tam) => IniciarProceso(cfg, m, pid, tam)
    case Finalizar(pid) => DestruirProceso(m, pid)
    case Suspension(pid) => SuspenderProceso(m, pid)
    case Desuspension(pid) => DesuspenderProceso(m, pid)
    case Escritura(c, desde, datos) =>
      (m.(fis := EscribirMarco(m.fis, H(m, c).marco, desde, datos)), EscrituraOk)
    case Dump(pid) =>
      (m, if pid in m.procs then DumpOk(Volcar(m.procs[pid].hojas, m.fis)) else ErrorDump)
  }

  ghost predicate ProcOk(cfg: Cfg, p: Proc)
    requires cfg.tp > 0
  {
    && |p.hojas| == cfg.cap
    && forall k :: 0 <= k < cfg.cap ==> (p.hojas[k] == VACIA <==> k >= Paginas(p.tam, cfg.tp))
  }

  /** The invariant between requests. */
  ghost predicate Valida(cfg: Cfg, m: Mem) {
    && cfg.tp > 0 && Propiedad(m) && Paginada(m.fis, cfg.tp) && m.fis.pendientes == 0
    && forall pid :: pid in m.procs ==> ProcOk(cfg, m.procs[pid])
  }

  /** The process exists and has nothing in swap. */
  predicate Residente(m: Mem, pid: int) {
    pid in m.procs && forall i :: 0 <= i < |m.procs[pid].hojas| ==> m.procs[pid].hojas[i].slot == -1
  }

  // ---------------------------------------------------------------- one request

  lemma {:induction false} IniciarValida(cfg: Cfg, m: Mem, pid: int, tam: nat)
    requires Valida(cfg, m) && pid !in m.procs
    ensures Valida(cfg, IniciarProceso(cfg, m, pid, tam).0)
    ensures forall d: Clave :: d.pid != pid ==> Imagen(IniciarProceso(cfg, m, pid, tam).0, d) == Imagen(m, d)
    ensures var r := IniciarProceso(cfg, m, pid, tam);
            if Paginas(tam, cfg.tp) > Libres(m.fis.marcos) then r == (m, NoHayMarcosLibres)
            else r.1 == InitProcesoOk && pid in r.0.procs && r.0.procs[pid].tam == tam && Residente(r.0, pid)
  {
    var n := Paginas(tam, cfg.tp);
    if n <= Libres(m.fis.marcos) {
      var b := EnBlanco(cfg, m, pid, tam);
      var p := Proc(tam, Vacias(cfg.cap));
      AgregarConserva(m, pid, p, n);
      RecorridaConserva(Asignar, b, pid);
      RecorrerPaginada(Asignar, p.hojas, b.fis, cfg.tp);
      var r := Recorrida(Asignar, b, pid);
      PropiedadSinPendientes(r);
      forall k | 0 <= k < cfg.cap
        ensures r.procs[pid].hojas[k] == VACIA <==> k >= n
        ensures r.procs[pid].hojas[k].slot == -1
      {
        AsignarHojas(p.hojas, b.fis, k);
      }
    }
  }

  /** The guard of a creation is what an interleaved one needs: it ends with the first pages of
      the process in RAM, all those its tables can describe. */
  lemma {:induction false} CreacionEntrelazada(cfg: Cfg, m: Mem, pid: int, tam: nat, turnos: seq<Turno>)
    requires Valida(cfg, m) && pid !in m.procs && Paginas(tam, cfg.tp) <= Libres(m.fis.marcos)
    requires Entrelazar(Asignar, EnBlanco(cfg, m, pid, tam), pid, 0, turnos).1 == cfg.cap
    ensures var n := Entrelazar(Asignar, EnBlanco(cfg, m, pid, tam), pid, 0, turnos).0;
            Propiedad(n) && Puestas(n.procs[pid].hojas, 0, Min(Paginas(tam, cfg.tp), cfg.cap))
  {
    var b := EnBlanco(cfg, m, pid, tam);
    AgregarConserva(m, pid, Proc(tam, Vacias(cfg.cap)), Paginas(tam, cfg.tp));
    assert b.procs[pid].hojas[0..] == b.procs[pid].hojas;
    AdmisionTermina(Asignar, b, pid, turnos);
  }

  /** And so is that of a resumption: nothing is left in swap. */
  lemma {:induction false} ResumenEntrelazado(cfg: Cfg, m: Mem, pid: int, turnos: seq<Turno>)
    requires Valida(cfg, m) && pid in m.procs && EnSwap(m.procs[pid].hojas) <= Libres(m.fis.marcos)
    requires Entrelazar(Desuspender, m, pid, 0, turnos).1 == cfg.cap
    ensures var n := Entrelazar(Desuspender, m, pid, 0, turnos).0;
            Propiedad(n) && EnSwap(n.procs[pid].hojas) == 0
  {
    assert m.procs[pid].hojas[0..] == m.procs[pid].hojas && m.procs[pid].hojas[..0] == [];
    assert ProcOk(cfg, m.procs[pid]);
    AdmisionTermina(Desuspender, m, pid, turnos);
  }

  lemma {:induction false} PropiedadSinPendientes(m: Mem)
    requires Propiedad(m)
    ensures Propiedad(SinPendientes(m))
    ensures forall d :: Imagen(SinPendientes(m), d) == Imagen(m, d)
  {
    var n := SinPendientes(m);
    forall d | Vive(n, d) ensures Vive(m, d) && H(n, d) == H(m, d) {}
    forall i | 0 <= i < |n.fis.marcos| && n.fis.marcos[i] ensures exists d :: Ocupa(n, d, i) {
      var d :| Ocupa(m, d, i);
      assert Ocupa(n, d, i);
    }
  }

  lemma {:induction false} DestruirValida(cfg: Cfg, m: Mem, pid: int)
    requires Valida(cfg, m)
    ensures Valida(cfg, DestruirProceso(m, pid).0)
    ensures forall d: Clave :: d.pid != pid ==> Imagen(DestruirProceso(m, pid).0, d) == Imagen(m, d)
  {
    if pid in m.procs {
      var n := Recorrida(Liberar, m, pid);
      RecorridaConserva(Liberar, m, pid);
      RecorrerPaginada(Liberar, m.procs[pid].hojas, m.fis, cfg.tp);
      LiberarVacia(m.procs[pid].hojas, m.fis);
      QuitarConserva(n, pid);
    }
  }

  lemma {:induction false} SuspenderValida(cfg: Cfg, m: Mem, pid: int)
    requires Valida(cfg, m)
    ensures Valida(cfg, SuspenderProceso(m, pid).0)
    ensures forall d :: Imagen(SuspenderProceso(m, pid).0, d) == Imagen(m, d)
    ensures forall d: Clave :: d.pid == pid && Vive(m, d) ==> !H(SuspenderProceso(m, pid).0, d).presente
  {
    if pid in m.procs {
      var hs := m.procs[pid].hojas;
      var n := Recorrida(Suspender, m, pid);
      RecorridaConserva(Suspender, m, pid);
      RecorrerPaginada(Suspender, hs, m.fis, cfg.tp);
      forall i | 0 <= i < |hs| ensures hs[i].presente ==> 0 <= hs[i].marco < |m.fis.ram| {
        assert hs[i] == H(m, Clave(pid, i));
      }
      SuspenderVaciaRam(hs, m.fis);
      assert ProcOk(cfg, m.procs[pid]);
      forall d | Vive(m, d) && d.pid == pid ensures !H(n, d).presente {
        assert H(n, d) == n.procs[pid].hojas[d.pag];
      }
    }
  }

  lemma {:induction false} DesuspenderMismasVacias(hs: seq<Hoja>, f: Fis, i: nat)
    requires i < |hs|
    ensures Recorrer(Desuspender, hs, f).hojas[i] == VACIA <==> hs[i] == VACIA
  {
    if i > 0 { DesuspenderMismasVacias(hs[1..], Paso(Desuspender, hs[0], f).fis, i - 1); }
  }

  lemma {:induction false} DesuspenderValida(cfg: Cfg, m: Mem, pid: int)
    requires Valida(cfg, m)
    ensures Valida(cfg, DesuspenderProceso(m, pid).0)
    ensures forall d :: Imagen(DesuspenderProceso(m, pid).0, d) == Imagen(m, d)
    ensures DesuspenderProceso(m, pid).1 == DesuspensionOk ==>
              forall d: Clave :: d.pid == pid && Vive(m, d) && H(m, d) != VACIA
                ==> H(DesuspenderProceso(m, pid).0, d).presente
  {
    if pid in m.procs && EnSwap(m.procs[pid].hojas) <= Libres(m.fis.marcos) {
      var hs := m.procs[pid].hojas;
      var n := Recorrida(Desuspender, m, pid);
      RecorridaConserva(Desuspender, m, pid);
      RecorrerPaginada(Desuspender, hs, m.fis, cfg.tp);
      DesuspenderCompleta(m, pid);
      forall k | 0 <= k < cfg.cap ensures n.procs[pid].hojas[k] == VACIA <==> hs[k] == VACIA {
        DesuspenderMismasVacias(hs, m.fis, k);
      }
      assert ProcOk(cfg, m.procs[pid]);
      forall d: Clave | d.pid == pid && Vive(m, d) && H(m, d) != VACIA ensures H(n, d).presente {
        assert H(n, d) == n.procs[pid].hojas[d.pag];
      }
    }
  }

  /** A write inside any one frame keeps the invariant, and the pages whose frame it is not. */
  lemma {:induction false} EscribirMarcoValida(cfg: Cfg, m: Mem, marco: nat, desde: nat, datos: seq<byte>)
    requires Valida(cfg, m) && marco < |m.fis.ram| && desde + |datos| <= |m.fis.ram[marco]|
    ensures var n := m.(fis := EscribirMarco(m.fis, marco, desde, datos));
            Valida(cfg, n) && forall d :: !Ocupa(m, d, marco) ==> Imagen(n, d) == Imagen(m, d)
  {
    var n := m.(fis := EscribirMarco(m.fis, marco, desde, datos));
    forall d | Vive(n, d) ensures Vive(m, d) && H(n, d) == H(m, d) {}
    forall i | 0 <= i < |n.fis.marcos| && n.fis.marcos[i] ensures exists d :: Ocupa(n, d, i) {
      var d :| Ocupa(m, d, i);
      assert Ocupa(n, d, i);
    }
  }

  lemma {:induction false} EscribirValida(cfg: Cfg, m: Mem, c: Clave, desde: nat, datos: seq<byte>)
    requires Valida(cfg, m) && EscrituraPosible(m, Escritura(c, desde, datos))
    ensures var n := m.(fis := EscribirMarco(m.fis, H(m, c).marco, desde, datos));
            Valida(cfg, n)
            && Imagen(m, c).Some? && desde + |datos| <= |Imagen(m, c).valor|
            && Imagen(n, c) == Some(Pegar(Imagen(m, c).valor, desde, datos))
            && forall d :: d != c ==> Imagen(n, d) == Imagen(m, d)
  {
    var n := m.(fis := EscribirMarco(m.fis, H(m, c).marco, desde, datos));
    EscribirMarcoValida(cfg, m, H(m, c).marco, desde, datos);
    assert Vive(n, c) && H(n, c) == H(m, c);
    forall d | d != c ensures !Ocupa(m, d, H(m, c).marco) {
      if Vive(m, d) { assert Ajenas(H(m, c), H(m, d)); }
    }
  }

  lemma {:induction false} HojasEnRegla(cfg: Cfg, m: Mem, pid: int, k: nat)
    requires Valida(cfg, m) && pid in m.procs && k < |m.procs[pid].hojas|
    ensures HojaOk(m.procs[pid].hojas[k], m.fis)
  {
    assert H(m, Clave(pid, k)) == m.procs[pid].hojas[k];
  }

  /** What memory answers to each request: yes, or the one reason there is to say no. */
  lemma {:induction false} Contesta(cfg: Cfg, m: Mem, p: Pedido)
    requires Valida(cfg, m) && Legal(m, p)
    ensures var (n, r) := Atender(cfg, m, p);
            match p
            case Iniciar(_, tam) => if tam <= Libres(m.fis.marcos) * cfg.tp then r == InitProcesoOk else r == NoHayMarcosLibres && n == m
            case Finalizar(pid) => r == FinalizacionOk && (pid !in m.procs ==> n == m)
            case Suspension(pid) => if pid in m.procs then r == SuspensionOk else r == ErrorPidNoEncontrado && n == m
            case Desuspension(pid) =>
              if pid !in m.procs then r == ErrorPidNoEncontrado && n == m
              else if EnSwap(m.procs[pid].hojas) <= Libres(m.fis.marcos) then r == DesuspensionOk
              else r == ErrorMemoriaInsuficiente && n == m
            case Escritura(_, _, _) => r == EscrituraOk
            case Dump(pid) => n == m && (r == ErrorDump <==> pid !in m.procs)
  {
    match p
    case Iniciar(_, tam) => PaginasJustas(tam, cfg.tp, Libres(m.fis.marcos));
    case _ =>
  }
}
