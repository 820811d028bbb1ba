/** A process from its first burst to its last: on whatever CPUs, cut wherever, swapped out and
    back in between, among everybody else's requests. */
module Ejecucion {
  import opened Comunes
  import opened Fisico
  import opened Tenencia
  import opened Pedidos
  import opened Corridas
  import opened Convivencia
  import P = Programa

  /** One burst as `Cpu.Cpu.AtenderPcb` leaves it, and what is asked of memory until the next. */
  datatype Tramo = Tramo(plazo: nat, despues: Mem, sigue: int, enviadas: seq<P.Instruccion>, motivo: P.Motivo, entre: seq<Pedido>)

  /** What the bytes of the process, its program counter and its system calls are. */
  function Estado(m: Mem, pid: int, n: nat, pc: int, llamadas: seq<P.Instruccion>): P.Plano {
    P.Plano(pc, Imagenes(m, pid, n), llamadas)
  }

  // The contract of AtenderPcb, from memory m to memory t.despues.
  ghost predicate EsRafaga(cfg: Cfg, prog: seq<P.Instruccion>, pid: int, n: nat, m: Mem, pc: int, llamadas: seq<P.Instruccion>, t: Tramo) {
    && t.plazo > 0 && Valida(cfg, t.despues) && P.Entera(cfg.tp, Imagenes(m, pid, n))
    && (Estado(t.despues, pid, n, t.sigue, llamadas + t.enviadas), t.motivo)
       == P.Rafaga(cfg.tp, prog, Estado(m, pid, n, pc, llamadas), t.plazo)
  }

  /** What the kernel makes of it. */
  function Queda(prog: seq<P.Instruccion>, pid: int, n: nat, llamadas: seq<P.Instruccion>, t: Tramo): P.Corrida {
    var s := Estado(t.despues, pid, n, t.sigue, llamadas + t.enviadas);
    P.Desenlace(P.Ultima(prog, s, t.motivo), s, t.motivo)
  }

  /** Burst after burst: each starts in what the requests since the last one left of the memory,
      at the program counter the last one reported, and none comes after the end. */
  ghost predicate Ejecutan(cfg: Cfg, prog: seq<P.Instruccion>, pid: int, n: nat, m: Mem, pc: int, llamadas: seq<P.Instruccion>, ts: seq<Tramo>)
    decreases |ts|
  {
    ts == [] ||
    var t := ts[0];
    var q := Queda(prog, pid, n, llamadas, t);
    && EsRafaga(cfg, prog, pid, n, m, pc, llamadas, t)
    && if q.Fin? then |ts| == 1
       else Legales(cfg, t.despues, t.entre) && NoTocan(t.entre, pid)
            && Ejecutan(cfg, prog, pid, n, Correr(cfg, t.despues, t.entre), q.s.pc, q.s.llamadas, ts[1..])
  }

  function Plazos(ts: seq<Tramo>): (r: seq<nat>)
    ensures |r| == |ts| && forall j :: 0 <= j < |ts| ==> r[j] == ts[j].plazo
  {
    seq(|ts|, j requires 0 <= j < |ts| => ts[j].plazo)
  }

  /** Where the last burst leaves the process. */
  function Ultimo(prog: seq<P.Instruccion>, pid: int, n: nat, llamadas: seq<P.Instruccion>, ts: seq<Tramo>): P.Corrida
    requires ts != []
    decreases |ts|
  {
    var q := Queda(prog, pid, n, llamadas, ts[0]);
    if |ts| == 1 then q else Ultimo(prog, pid, n, q.s.llamadas, ts[1..])
  }

  lemma {:induction false} PlazosPositivos(cfg: Cfg, prog: seq<P.Instruccion>, pid: int, n: nat, m: Mem, pc: int, llamadas: seq<P.Instruccion>, ts: seq<Tramo>)
    requires Ejecutan(cfg, prog, pid, n, m, pc, llamadas, ts)
    ensures forall j :: 0 <= j < |ts| ==> ts[j].plazo > 0
    decreases |ts|
  {
    if ts != [] {
      var t := ts[0];
      var q := Queda(prog, pid, n, llamadas, t);
      if q.Sigue? { PlazosPositivos(cfg, prog, pid, n, Correr(cfg, t.despues, t.entre), q.s.pc, q.s.llamadas, ts[1..]); }
    }
  }

  /** The bursts through the real memory are the bursts of the program over a flat store. */
  lemma {:induction false} SonRafagas(cfg: Cfg, prog: seq<P.Instruccion>, pid: int, n: nat, m: Mem, pc: int, llamadas: seq<P.Instruccion>, ts: seq<Tramo>)
    requires Ejecutan(cfg, prog, pid, n, m, pc, llamadas, ts) && ts != []
    ensures forall j :: 0 <= j < |ts| ==> ts[j].plazo > 0
    ensures P.Entera(cfg.tp, Imagenes(m, pid, n))
    ensures P.Rafagas(cfg.tp, prog, Estado(m, pid, n, pc, llamadas), Plazos(ts)) == Ultimo(prog, pid, n, llamadas, ts)
    decreases |ts|
  {
    PlazosPositivos(cfg, prog, pid, n, m, pc, llamadas, ts);
    var t := ts[0];
    var q := Queda(prog, pid, n, llamadas, t);
    assert Plazos(ts)[1..] == Plazos(ts[1..]);
    if q.Sigue? {
      EntreRafagas(cfg, t.despues, t.entre, pid, n);
      assert Estado(Correr(cfg, t.despues, t.entre), pid, n, q.s.pc, q.s.llamadas) == q.s;
      if |ts| > 1 {
        SonRafagas(cfg, prog, pid, n, Correr(cfg, t.despues, t.entre), q.s.pc, q.s.llamadas, ts[1..]);
      }
    }
  }

  /** The whole system is transparent to a program of NOOP, READ, WRITE, GOTO and EXIT: if it
      ends, it ends for the cause, and with the bytes in memory, of a program that runs alone on
      a flat store without a break; and it has ended if that one does within as many
      instructions as the bursts left uncut. */
  lemma {:induction false} EjecucionTransparente(cfg: Cfg, prog: seq<P.Instruccion>, pid: int, n: nat, m: Mem, ts: seq<Tramo>)
    requires Ejecutan(cfg, prog, pid, n, m, 0, [], ts) && ts != [] && P.SinLlamadas(prog)
    ensures P.Entera(cfg.tp, Imagenes(m, pid, n))
    ensures var fin := Ultimo(prog, pid, n, [], ts);
            var solo := Estado(m, pid, n, 0, []);
            && (fin.Fin? ==> exists k: nat :: P.Correr(cfg.tp, prog, solo, P.SinCortes(k)) == fin)
            && (forall k: nat :: k <= P.Aporte(Plazos(ts)) && P.Correr(cfg.tp, prog, solo, P.SinCortes(k)).Fin? ==>
                  P.Correr(cfg.tp, prog, solo, P.SinCortes(k)) == fin)
  {
    SonRafagas(cfg, prog, pid, n, m, 0, [], ts);
    P.ExpropiacionTransparente(cfg.tp, prog, Estado(m, pid, n, 0, []), Plazos(ts));
  }
}
