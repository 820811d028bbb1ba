/** What each whole traversal achieves: which frames an allocation takes, that a suspension
    leaves nothing in RAM, that a guarded admission never stops halfway. */
module Recorridos {
  import opened Comunes
  import opened Fisico
  import opened Tenencia

  /** The free frames in ascending order. */
  function MarcosLibres(b: seq<bool>): (r: seq<nat>)
    ensures |r| == Libres(b)
    ensures forall k :: 0 <= k < |r| ==> r[k] < |b| && !b[r[k]]
    ensures forall j, k :: 0 <= j < k < |r| ==> r[j] < r[k]
  {
    if b == [] then []
    else MarcosLibres(b[..|b| - 1]) + if b[|b| - 1] then [] else [|b| - 1]
  }

  /** First fit takes the head of that list and leaves its tail. */
  lemma {:induction false} TomarPrimero(b: seq<bool>)
    requires Libres(b) > 0
    ensures PrimerLibre(b) < |b|
    ensures MarcosLibres(b) == [PrimerLibre(b)] + MarcosLibres(b[PrimerLibre(b) := true])
  {
    HayLibre(b);
    var n := |b| - 1;
    var a := b[..n];
    if Libres(a) > 0 {
      TomarPrimero(a);
      MismoPrimero(a, b);
      MarcarAntes(b, PrimerLibre(a));
    } else {
      HayLibre(a);
      SinLibres(a, b);
      MarcarUltimo(b);
    }
  }

  lemma {:induction false} MarcarAntes(b: seq<bool>, p: nat)
    requires p < |b| - 1
    ensures MarcosLibres(b[p := true]) == MarcosLibres(b[..|b| - 1][p := true]) + if b[|b| - 1] then [] else [|b| - 1]
  {
  }

  lemma {:induction false} MarcarUltimo(b: seq<bool>)
    requires b != []
    ensures MarcosLibres(b[|b| - 1 := true]) == MarcosLibres(b[..|b| - 1])
  {
  }

  lemma {:induction false} SinLibres(a: seq<bool>, b: seq<bool>)
    requires |b| == |a| + 1 && b[..|a|] == a && PrimerLibre(a) == |a| && PrimerLibre(b) < |b|
    ensures PrimerLibre(b) == |a| && !b[|a|]
  {
  }

  lemma {:induction false} MismoPrimero(a: seq<bool>, b: seq<bool>)
    requires a <= b && PrimerLibre(a) < |a|
    ensures PrimerLibre(b) == PrimerLibre(a)
  {
  }

  function Min(a: nat, b: nat): nat { if a < b then a else b }

  ghost predicate TodasVacias(hs: seq<Hoja>) {
    forall i :: 0 <= i < |hs| ==> hs[i] == VACIA
  }

  function Vacias(n: nat): (r: seq<Hoja>)
    ensures |r| == n && TodasVacias(r)
  {
    seq(n, _ => VACIA)
  }

  lemma {:induction false} UnaAsignacion(f: Fis)
    requires f.pendientes > 0 && Libres(f.marcos) > 0
    ensures var g := Paso(Asignar, VACIA, f).fis;
            && g == f.(marcos := g.marcos, pendientes := f.pendientes - 1)
            && MarcosLibres(g.marcos) == MarcosLibres(f.marcos)[1..]
            && Libres(g.marcos) == Libres(f.marcos) - 1
  {
    TomarPrimero(f.marcos);
  }

  lemma {:induction false} AsignarMarcos(hs: seq<Hoja>, f: Fis)
    requires TodasVacias(hs) && Min(f.pendientes, |hs|) <= Libres(f.marcos)
    ensures var n := Min(f.pendientes, |hs|);
            var r := Recorrer(Asignar, hs, f).fis;
            && r.pendientes == f.pendientes - n
            && MarcosLibres(r.marcos) == MarcosLibres(f.marcos)[n..]
            && r == f.(marcos := r.marcos, pendientes := r.pendientes)
  {
    if hs != [] {
      if f.pendientes == 0 {
        RecorrerVacias(Asignar, hs, f);
      } else {
        UnaAsignacion(f);
        AsignarMarcos(hs[1..], Paso(Asignar, hs[0], f).fis);
      }
    }
  }

  /** Allocating into a blank table fills its first leaves, in page order, with the lowest
      free frames in ascending order, and leaves the rest blank. */
  lemma {:induction false} AsignarHojas(hs: seq<Hoja>, f: Fis, k: nat)
    requires TodasVacias(hs) && Min(f.pendientes, |hs|) <= Libres(f.marcos) && k < |hs|
    ensures Recorrer(Asignar, hs, f).hojas[k]
         == if k < f.pendientes then Hoja(true, MarcosLibres(f.marcos)[k], -1) else VACIA
  {
    if f.pendientes == 0 {
      RecorrerVacias(Asignar, hs, f);
    } else {
      TomarPrimero(f.marcos);
      if k > 0 {
        AsignarHojas(hs[1..], Paso(Asignar, hs[0], f).fis, k - 1);
      }
    }
  }

  function EnSwap(hs: seq<Hoja>): nat
  {
    if hs == [] then 0
    else (if !hs[0].presente && hs[0].slot != -1 then 1 else 0) + EnSwap(hs[1..])
  }

  /** What is still to be placed: pages of a new table, or pages to bring back from swap. */
  function Necesita(op: Op, hs: seq<Hoja>, f: Fis): nat
  {
    if op == Asignar then f.pendientes else EnSwap(hs)
  }

  // ---------------------------------------------------------------- suspension

  lemma {:induction false} SuspenderVaciaRam(hs: seq<Hoja>, f: Fis)
    requires forall i :: 0 <= i < |hs| ==> (hs[i].presente ==> 0 <= hs[i].marco < |f.ram|)
    ensures var r := Recorrer(Suspender, hs, f);
            forall i :: 0 <= i < |hs| ==> !r.hojas[i].presente && (r.hojas[i] == VACIA <==> hs[i] == VACIA)
  {
    if hs != [] {
      SuspenderVaciaRam(hs[1..], Paso(Suspender, hs[0], f).fis);
    }
  }

  lemma {:induction false} LiberarVacia(hs: seq<Hoja>, f: Fis)
    ensures TodasVacias(Recorrer(Liberar, hs, f).hojas)
  {
    if hs != [] {
      LiberarVacia(hs[1..], Paso(Liberar, hs[0], f).fis);
    }
  }

  // ---------------------------------------------------------------- guarded admission

  /** Who moves next while an admission is under way: the admission's own next leaf, or one
      leaf of a suspension or of a destruction of some other process. */
  datatype Turno = Propio | Ajeno(op: Op, clave: Clave)

  function Turnar(op: Op, m: Mem, pid: int, k: nat, t: Turno): (r: (Mem, nat))
    requires pid in m.procs && k <= |m.procs[pid].hojas|
    ensures pid in r.0.procs && |r.0.procs[pid].hojas| == |m.procs[pid].hojas| && k <= r.1 <= |m.procs[pid].hojas|
  {
    match t
    case Propio =>
      if k < |m.procs[pid].hojas| then (PasoEn(op, m, Clave(pid, k)), k + 1) else (m, k)
    case Ajeno(o, c) =>
      if Vive(m, c) && c.pid != pid && (o == Suspender || o == Liberar) then (PasoEn(o, m, c), k) else (m, k)
  }

  /** An admission (`op` on the leaves of `pid`, from leaf k on) interleaved leaf by leaf with
      the releases that run without its lock. */
  function Entrelazar(op: Op, m: Mem, pid: int, k: nat, turnos: seq<Turno>): (r: (Mem, nat))
    requires pid in m.procs && k <= |m.procs[pid].hojas|
    ensures pid in r.0.procs && |r.0.procs[pid].hojas| == |m.procs[pid].hojas| && k <= r.1 <= |m.procs[pid].hojas|
    decreases |turnos|
  {
    if turnos == [] then (m, k)
    else
      var s := Turnar(op, m, pid, k, turnos[0]);
      Entrelazar(op, s.0, pid, s.1, turnos[1..])
  }

  // Leaves before k are done; those from k on still have what they need.
  ghost predicate EnCurso(op: Op, m: Mem, pid: int, k: nat)
  {
    && (op == Asignar || op == Desuspender)
    && Propiedad(m) && pid in m.procs && k <= |m.procs[pid].hojas|
    && Necesita(op, m.procs[pid].hojas[k..], m.fis) <= Libres(m.fis.marcos)
    && (op == Asignar ==> TodasVacias(m.procs[pid].hojas[k..]))
    && (op == Desuspender ==> EnSwap(m.procs[pid].hojas[..k]) == 0)
  }

  lemma {:induction false} EnSwapConcat(a: seq<Hoja>, b: seq<Hoja>)
    ensures EnSwap(a + b) == EnSwap(a) + EnSwap(b)
  {
    if a == [] {
      assert a + b == b;
    } else {
      assert (a + b)[1..] == a[1..] + b;
      EnSwapConcat(a[1..], b);
    }
  }

  lemma {:induction false} PasoPropioAsignar(m: Mem, pid: int, k: nat)
    requires EnCurso(Asignar, m, pid, k) && k < |m.procs[pid].hojas|
    ensures EnCurso(Asignar, PasoEn(Asignar, m, Clave(pid, k)), pid, k + 1)
  {
    var hs := m.procs[pid].hojas;
    var n := PasoEn(Asignar, m, Clave(pid, k));
    assert hs[k..][0] == hs[k];
    PasoConserva(Asignar, m, Clave(pid, k));
    assert n.procs[pid].hojas[k + 1..] == hs[k..][1..];
    HayLibre(m.fis.marcos);
    if m.fis.pendientes > 0 {
      LibresActualizado(m.fis.marcos, PrimerLibre(m.fis.marcos), true);
    }
  }

  lemma {:induction false} PasoPropioDesuspender(m: Mem, pid: int, k: nat)
    requires EnCurso(Desuspender, m, pid, k) && k < |m.procs[pid].hojas|
    ensures EnCurso(Desuspender, PasoEn(Desuspender, m, Clave(pid, k)), pid, k + 1)
  {
    var hs := m.procs[pid].hojas;
    var n := PasoEn(Desuspender, m, Clave(pid, k));
    var gs := n.procs[pid].hojas;
    assert H(m, Clave(pid, k)) == hs[k];
    assert hs[k..][0] == hs[k] && hs[k..][1..] == hs[k + 1..];
    PasoConserva(Desuspender, m, Clave(pid, k));
    assert gs[k + 1..] == hs[k + 1..] && gs[..k + 1] == hs[..k] + [gs[k]];
    HayLibre(m.fis.marcos);
    if !hs[k].presente && hs[k].slot != -1 {
      LibresActualizado(m.fis.marcos, PrimerLibre(m.fis.marcos), true);
    }
    EnSwapConcat(hs[..k], [gs[k]]);
    assert [gs[k]][1..] == [];
  }

  lemma {:induction false} PasoPropio(op: Op, m: Mem, pid: int, k: nat)
    requires EnCurso(op, m, pid, k) && k < |m.procs[pid].hojas|
    ensures EnCurso(op, PasoEn(op, m, Clave(pid, k)), pid, k + 1)
  {
    if op == Asignar { PasoPropioAsignar(m, pid, k); } else { PasoPropioDesuspender(m, pid, k); }
  }

  lemma {:induction false} PasoAjeno(op: Op, m: Mem, pid: int, k: nat, o: Op, c: Clave)
    requires EnCurso(op, m, pid, k) && Vive(m, c) && c.pid != pid && (o == Suspender || o == Liberar)
    ensures EnCurso(op, PasoEn(o, m, c), pid, k)
    ensures PasoEn(o, m, c).procs[pid] == m.procs[pid] && PasoEn(o, m, c).fis.pendientes == m.fis.pendientes
  {
    PasoConserva(o, m, c);
    var h := H(m, c);
    assert HojaOk(h, m.fis);
    if h.presente {
      LibresActualizado(m.fis.marcos, h.marco, false);
    }
  }

  lemma {:induction false} TurnoConserva(op: Op, m: Mem, pid: int, k: nat, t: Turno)
    requires EnCurso(op, m, pid, k)
    ensures var s := Turnar(op, m, pid, k, t);
            EnCurso(op, s.0, pid, s.1)
            && (op == Asignar ==> s.0.fis.pendientes == m.fis.pendientes - Min(m.fis.pendientes, s.1 - k))
            && (forall i :: 0 <= i < k ==> s.0.procs[pid].hojas[i] == m.procs[pid].hojas[i])
            && (op == Asignar && m.fis.pendientes > 0 && k < s.1 ==> s.1 == k + 1 && s.0.procs[pid].hojas[k].presente)
  {
    match t
    case Propio =>
      if k < |m.procs[pid].hojas| {
        PasoPropio(op, m, pid, k);
        PendientesBajan(op, m, pid, k);
      }
    case Ajeno(o, c) =>
      if Vive(m, c) && c.pid != pid && (o == Suspender || o == Liberar) {
        PasoAjeno(op, m, pid, k, o, c);
      }
  }

  lemma {:induction false} MinSuma(p: nat, a: nat, b: nat)
    ensures Min(p, a) + Min(p - Min(p, a), b) == Min(p, a + b)
  {
  }

  lemma {:induction false} EntrelazarUno(op: Op, m: Mem, pid: int, k: nat, turnos: seq<Turno>)
    requires pid in m.procs && k <= |m.procs[pid].hojas| && turnos != []
    ensures var s := Turnar(op, m, pid, k, turnos[0]);
            Entrelazar(op, m, pid, k, turnos) == Entrelazar(op, s.0, pid, s.1, turnos[1..])
  {
  }

  // In course, and an allocation that began at leaf k0 with p0 pages to place has placed one in
  // each leaf since, while there were any.
  ghost predicate EnCursoDesde(op: Op, m: Mem, pid: int, k: nat, p0: nat, k0: nat) {
    EnCurso(op, m, pid, k) && k0 <= k
    && (op == Asignar ==> m.fis.pendientes == p0 - Min(p0, k - k0) && Puestas(m.procs[pid].hojas, k0, k0 + Min(p0, k - k0)))
  }

  predicate Puestas(hs: seq<Hoja>, desde: nat, hasta: nat) {
    hasta <= |hs| && forall i :: desde <= i < hasta ==> hs[i].presente
  }

  lemma {:induction false} TurnoDesde(op: Op, m: Mem, pid: int, k: nat, t: Turno, p0: nat, k0: nat)
    requires EnCursoDesde(op, m, pid, k, p0, k0)
    ensures var s := Turnar(op, m, pid, k, t); EnCursoDesde(op, s.0, pid, s.1, p0, k0)
  {
    TurnoConserva(op, m, pid, k, t);
    MinSuma(p0, k - k0, Turnar(op, m, pid, k, t).1 - k);
  }

  lemma {:induction false} EntrelazadaDesde(op: Op, m: Mem, pid: int, k: nat, turnos: seq<Turno>, p0: nat, k0: nat)
    requires EnCursoDesde(op, m, pid, k, p0, k0)
    ensures var r := Entrelazar(op, m, pid, k, turnos); EnCursoDesde(op, r.0, pid, r.1, p0, k0)
    decreases |turnos|
  {
    if turnos != [] {
      var s := Turnar(op, m, pid, k, turnos[0]);
      TurnoDesde(op, m, pid, k, turnos[0], p0, k0);
      EntrelazarUno(op, m, pid, k, turnos);
      EntrelazadaDesde(op, s.0, pid, s.1, turnos[1..], p0, k0);
    }
  }

  /** A guarded admission never fails halfway. If the free frames counted beforehand suffice,
      then whatever releases of other processes run between its leaves, every leaf it passes
      is placed and what is left to place still fits. Ownership holds throughout. */
  lemma {:induction false} AdmisionEntrelazada(op: Op, m: Mem, pid: int, k: nat, turnos: seq<Turno>)
    requires EnCurso(op, m, pid, k)
    ensures var r := Entrelazar(op, m, pid, k, turnos);
            EnCurso(op, r.0, pid, r.1)
            && (op == Asignar ==>
                  var puestas := Min(m.fis.pendientes, r.1 - k);
                  r.0.fis.pendientes == m.fis.pendientes - puestas && Puestas(r.0.procs[pid].hojas, k, k + puestas))
  {
    EntrelazadaDesde(op, m, pid, k, turnos, m.fis.pendientes, k);
  }

  /** So when it has passed all its leaves, a resumption leaves nothing in swap and a new
      process has in RAM every page it asked for and its table can describe. */
  lemma {:induction false} AdmisionTermina(op: Op, m: Mem, pid: int, turnos: seq<Turno>)
    requires EnCurso(op, m, pid, 0)
    requires Entrelazar(op, m, pid, 0, turnos).1 == |m.procs[pid].hojas|
    ensures var n := Entrelazar(op, m, pid, 0, turnos).0;
            && Propiedad(n)
            && (op == Desuspender ==> EnSwap(n.procs[pid].hojas) == 0)
            && (op == Asignar ==>
                  var puestas := Min(m.fis.pendientes, |m.procs[pid].hojas|);
                  n.fis.pendientes == m.fis.pendientes - puestas && Puestas(n.procs[pid].hojas, 0, puestas))
  {
    AdmisionEntrelazada(op, m, pid, 0, turnos);
    EnCursoFin(op, Entrelazar(op, m, pid, 0, turnos).0, pid);
  }

  lemma {:induction false} EnCursoFin(op: Op, n: Mem, pid: int)
    requires pid in n.procs && EnCurso(op, n, pid, |n.procs[pid].hojas|)
    ensures Propiedad(n) && (op == Desuspender ==> EnSwap(n.procs[pid].hojas) == 0)
  {
    var hs := n.procs[pid].hojas;
    assert hs[..|hs|] == hs;
  }

  lemma {:induction false} PendientesBajan(op: Op, m: Mem, pid: int, k: nat)
    requires EnCurso(op, m, pid, k) && k < |m.procs[pid].hojas|
    ensures op == Asignar ==>
              var n := PasoEn(op, m, Clave(pid, k));
              && n.fis.pendientes == m.fis.pendientes - Min(m.fis.pendientes, 1)
              && (m.fis.pendientes > 0 ==> n.procs[pid].hojas[k].presente)
  {
    assert m.procs[pid].hojas[k..][0] == H(m, Clave(pid, k));
    HayLibre(m.fis.marcos);
  }

  lemma {:induction false} TrasEnCurso(op: Op, m: Mem, pid: int, k: nat)
    requires EnCurso(op, m, pid, 0) && k <= |m.procs[pid].hojas|
    ensures EnCurso(op, Tras(op, m, pid, k), pid, k)
  {
    if k == 0 {
      TrasInicio(op, m, pid);
    } else {
      TrasEnCurso(op, m, pid, k - 1);
      TrasPaso(op, m, pid, k - 1);
      PasoPropio(op, Tras(op, m, pid, k - 1), pid, k - 1);
    }
  }

  /** A resumption that passed its frame count brings every page back. */
  lemma {:induction false} DesuspenderCompleta(m: Mem, pid: int)
    requires Propiedad(m) && pid in m.procs && EnSwap(m.procs[pid].hojas) <= Libres(m.fis.marcos)
    ensures EnSwap(Recorrida(Desuspender, m, pid).procs[pid].hojas) == 0
    ensures forall i :: 0 <= i < |m.procs[pid].hojas| ==>
              var h := Recorrida(Desuspender, m, pid).procs[pid].hojas[i];
              h.presente || h == VACIA
  {
    var hs := m.procs[pid].hojas;
    assert hs[0..] == hs && hs[..0] == [];
    TrasEnCurso(Desuspender, m, pid, |hs|);
    var n := Recorrida(Desuspender, m, pid);
    var gs := n.procs[pid].hojas;
    assert hs[..|hs|] == hs && gs + hs[|hs|..] == gs;
    assert Tras(Desuspender, m, pid, |hs|) == n;
    assert gs[..|hs|] == gs;
    forall i | 0 <= i < |hs| ensures gs[i].presente || gs[i] == VACIA {
      SinSwap(gs, i);
      assert HojaOk(H(n, Clave(pid, i)), n.fis);
    }
  }

  lemma {:induction false} SinSwap(hs: seq<Hoja>, i: nat)
    requires EnSwap(hs) == 0 && i < |hs|
    ensures hs[i].presente || hs[i].slot == -1
  {
    if i > 0 { SinSwap(hs[1..], i - 1); }
  }
}
