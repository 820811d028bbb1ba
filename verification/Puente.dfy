/** What the kernel makes of the bursts of a program: it resumes it where it stopped, and takes
    it out when it has ended, or asked for a device there is not. */
module Puente {
  import opened Comunes
  import opened Estados
  import opened Colas
  import opened GruposIo
  import opened Nucleo
  import opened InvColas
  import opened Vidas
  import opened KernelCorridas
  import opened Efectos
  import P = Programa

  /** The motive a CPU reports: with the device and the time of an IO, and nothing but "other"
      for a fatal error. */
  function AlKernel(i: P.Instruccion, m: P.Motivo): Motivo {
    match m
    case MotivoIo => if i.Io? then MotivoIo(i.dispositivo, i.ms) else MotivoOtro
    case MotivoDump => MotivoDump
    case MotivoExit => MotivoExit
    case MotivoFatal => MotivoOtro
    case MotivoSegfault => MotivoSegfault
    case MotivoInterrupcion => MotivoInterrupcion
  }

  // The answer of a CPU that ran p's program from s for at most `plazo` instructions.
  ghost predicate DelPrograma(tp: nat, prog: seq<P.Instruccion>, s: P.Plano, plazo: nat, r: Respuesta)
    requires P.Entera(tp, s.mem) && plazo > 0
  {
    var (t, m) := P.Rafaga(tp, prog, s, plazo);
    r.pc == t.pc && r.motivo == AlKernel(P.Ultima(prog, t, m), m)
  }

  // What the program's own semantics makes of it.
  function Despues(tp: nat, prog: seq<P.Instruccion>, s: P.Plano, plazo: nat): P.Corrida
    requires P.Entera(tp, s.mem) && plazo > 0
  {
    var (t, m) := P.Rafaga(tp, prog, s, plazo);
    P.Desenlace(P.Ultima(prog, t, m), t, m)
  }

  predicate PideDispositivo(io: map<seq<char>, Grupo>, r: Respuesta) { r.motivo.MotivoIo? ==> r.motivo.dispositivo in io }

  /** The kernel finishes the process if and only if its program has ended, or asks for a device
      nobody offers; otherwise it keeps the program counter the program goes on from. */
  lemma {:induction false} DesenlaceEnElKernel(tp: nat, prog: seq<P.Instruccion>, s: P.Plano, plazo: nat, k: Foto, i: nat, r: Respuesta, t: int)
    requires P.Entera(tp, s.mem) && plazo > 0 && DelPrograma(tp, prog, s, plazo, r)
    requires Inv(k) && Posible(k, CpuResponder(i, r, t)) && k.cpus[i].pcb == Some(r.pid)
    ensures Sano(k)
    ensures var h := Paso(k, CpuResponder(i, r, t));
            var c := Despues(tp, prog, s, plazo);
            && r.pid in h.procs.pcbs
            && (EsDe(h, r.pid, Exit) <==> c.Fin? || !PideDispositivo(k.io, r))
            && (c.Sigue? ==> h.procs.pcbs[r.pid].pc == c.s.pc)
  {
    P.UltimaEsLaLlamada(tp, prog, s, plazo);
    RespuestaDestina(k, i, r, t);
    RespuestaAnota(k, i, r, t);
  }

  // Every answer for p in the run is one of its program, resumed where it stopped, in bursts of
  // at most so many instructions; and none comes after its end.
  ghost predicate Fiel(tp: nat, prog: seq<P.Instruccion>, k: Foto, evs: seq<Evento>, p: int, s: P.Plano, plazos: seq<nat>)
    requires Posibles(k, evs)
    decreases |evs|
  {
    if evs == [] then plazos == []
    else
      var h := Paso(k, evs[0]);
      if Contesta(k, evs[0], p) then
        && plazos != [] && plazos[0] > 0 && P.Entera(tp, s.mem) && DelPrograma(tp, prog, s, plazos[0], evs[0].r)
        && PideDispositivo(k.io, evs[0].r)
        && var c := Despues(tp, prog, s, plazos[0]);
           if c.Fin? then plazos[1..] == [] else Fiel(tp, prog, h, evs[1..], p, c.s, plazos[1..])
      else Fiel(tp, prog, h, evs[1..], p, s, plazos)
  }

  // Out, or about to be.
  predicate Termino(k: Foto, p: int) { p in k.procs.pcbs ==> k.procs.pcbs[p].estado == Exit }

  lemma {:induction false} TerminoSigue(k: Foto, evs: seq<Evento>, p: int)
    requires Inv(k) && Posibles(k, evs) && p < k.proximo && Termino(k, p)
    ensures Termino(Correr(k, evs), p)
    decreases |evs|
  {
    if evs != [] {
      EvolucionPaso(k, evs[0]);
      FueraPaso(k, evs[0], p);
      InvPaso(k, evs[0]);
      TerminoSigue(Paso(k, evs[0]), evs[1..], p);
    }
  }

  lemma {:induction false} PlazosDeFiel(tp: nat, prog: seq<P.Instruccion>, k: Foto, evs: seq<Evento>, p: int, s: P.Plano, plazos: seq<nat>)
    requires Posibles(k, evs) && Fiel(tp, prog, k, evs, p, s, plazos)
    ensures forall j :: 0 <= j < |plazos| ==> plazos[j] > 0
    decreases |evs|
  {
    if evs != [] {
      var h := Paso(k, evs[0]);
      if Contesta(k, evs[0], p) {
        var c := Despues(tp, prog, s, plazos[0]);
        if c.Sigue? { PlazosDeFiel(tp, prog, h, evs[1..], p, c.s, plazos[1..]); }
      } else {
        PlazosDeFiel(tp, prog, h, evs[1..], p, s, plazos);
      }
    }
  }

  /** Through any run of the kernel, whatever it does with the others, a process that is still to
      go on is to be resumed where its program, cut into those bursts, goes on from; and one
      whose program ended is out. */
  lemma {:induction false} ElKernelSigueAlPrograma(tp: nat, prog: seq<P.Instruccion>, k: Foto, evs: seq<Evento>, p: int, s: P.Plano, plazos: seq<nat>)
    requires Inv(k) && Posibles(k, evs) && P.Entera(tp, s.mem) && Fiel(tp, prog, k, evs, p, s, plazos)
    requires p in k.procs.pcbs && k.procs.pcbs[p].pc == s.pc
    ensures forall j :: 0 <= j < |plazos| ==> plazos[j] > 0
    ensures var h := Correr(k, evs);
            var c := P.Rafagas(tp, prog, s, plazos);
            && (c.Fin? ==> Termino(h, p))
            && (c.Sigue? && p in h.procs.pcbs ==> h.procs.pcbs[p].pc == c.s.pc)
    decreases |evs|
  {
    PlazosDeFiel(tp, prog, k, evs, p, s, plazos);
    if evs != [] {
      var h := Paso(k, evs[0]);
      InvPaso(k, evs[0]);
      PcPaso(k, evs[0], p);
      FueraPaso(k, evs[0], p);
      if p !in h.procs.pcbs {
        NoVuelveNunca(h, evs[1..], p);
      } else if Contesta(k, evs[0], p) {
        UnaRespuesta(tp, prog, k, evs, p, s, plazos);
      } else {
        ElKernelSigueAlPrograma(tp, prog, h, evs[1..], p, s, plazos);
      }
    }
  }

  lemma {:induction false} UnaRespuesta(tp: nat, prog: seq<P.Instruccion>, k: Foto, evs: seq<Evento>, p: int, s: P.Plano, plazos: seq<nat>)
    requires Inv(k) && Posibles(k, evs) && P.Entera(tp, s.mem) && Fiel(tp, prog, k, evs, p, s, plazos)
    requires evs != [] && Contesta(k, evs[0], p) && forall j :: 0 <= j < |plazos| ==> plazos[j] > 0
    ensures var h := Correr(k, evs);
            var c := P.Rafagas(tp, prog, s, plazos);
            && (c.Fin? ==> Termino(h, p))
            && (c.Sigue? && p in h.procs.pcbs ==> h.procs.pcbs[p].pc == c.s.pc)
    decreases |evs|, 0
  {
    var h := Paso(k, evs[0]);
    InvPaso(k, evs[0]);
    DesenlaceEnElKernel(tp, prog, s, plazos[0], k, evs[0].i, evs[0].r, evs[0].t);
    var c := Despues(tp, prog, s, plazos[0]);
    if c.Fin? {
      TerminoSigue(h, evs[1..], p);
    } else {
      ElKernelSigueAlPrograma(tp, prog, h, evs[1..], p, c.s, plazos[1..]);
    }
  }
}
