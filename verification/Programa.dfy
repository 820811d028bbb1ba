/** A process's program over a flat byte store: what it means to run it, and that cutting it
    with interrupts, however often, does not change where it ends. */
module Programa {
  import opened Comunes
  import opened Aritmetica

  /** READ and WRITE carry a logical address; IO may come without its two parameters. */
  datatype Instruccion =
    | Noop
    | Leer(dl: nat, tam: nat)
    | Escribir(dl: nat, datos: seq<byte>)
    | Goto(destino: int)
    | Exit
    | Io(dispositivo: seq<char>, ms: int)
    | IoInvalida
    | InitProc(path: seq<char>, tamProceso: int)
    | DumpMemory
    | Desconocida

  /** Program counter, memory, and the system calls the kernel has been given. */
  datatype Plano = Plano(pc: int, mem: seq<byte>, llamadas: seq<Instruccion>)

  datatype Resultado = EjecucionOk | BloqueadoIo | BloqueadoDump | FinalizadoExit | ErrorFatal | SegmentationFault

  /** Why a burst ended, as the kernel is told. */
  datatype Motivo = MotivoIo | MotivoDump | MotivoExit | MotivoFatal | MotivoSegfault | MotivoInterrupcion

  function Fetch(prog: seq<Instruccion>, pc: int): Option<Instruccion> {
    if 0 <= pc < |prog| then Some(prog[pc]) else None
  }

  /** The access stays inside one page, and the page is one of the process's. */
  predicate EnPagina(tp: nat, mem: seq<byte>, dl: nat, n: nat)
    requires tp > 0
  {
    dl % tp + n <= tp && dl < |mem|
  }

  predicate Entera(tp: nat, mem: seq<byte>)
  {
    tp > 0 && |mem| % tp == 0
  }

  lemma {:induction false} EnPaginaCabe(tp: nat, mem: seq<byte>, dl: nat, n: nat)
    requires Entera(tp, mem) && EnPagina(tp, mem, dl, n)
    ensures dl + n <= |mem|
  {
    assert |mem| == |mem| / tp * tp;
    PaginaDentro(dl, tp, |mem| / tp);
  }

  /** One instruction. IO and DUMP_MEMORY move the program counter themselves. */
  function Ejecutar(tp: nat, i: Instruccion, s: Plano): (r: (Resultado, Plano))
    requires Entera(tp, s.mem)
    ensures |r.1.mem| == |s.mem|
  {
    match i
    case Noop => (EjecucionOk, s)
    case Leer(dl, tam) => (if EnPagina(tp, s.mem, dl, tam) then EjecucionOk else SegmentationFault, s)
    case Escribir(dl, datos) =>
      if EnPagina(tp, s.mem, dl, |datos|) then
        EnPaginaCabe(tp, s.mem, dl, |datos|);
        (EjecucionOk, s.(mem := Pegar(s.mem, dl, datos)))
      else (SegmentationFault, s)
    case Goto(destino) => (EjecucionOk, s.(pc := destino))
    case Exit => (FinalizadoExit, s)
    case Io(_, _) => (BloqueadoIo, s.(pc := s.pc + 1))
    case IoInvalida => (ErrorFatal, s)
    case InitProc(_, _) => (EjecucionOk, s.(llamadas := s.llamadas + [i]))
    case DumpMemory => (BloqueadoDump, s.(pc := s.pc + 1))
    case Desconocida => (ErrorFatal, s)
  }

  function MotivoDe(r: Resultado): Motivo
    requires r != EjecucionOk
  {
    match r
    case BloqueadoIo => MotivoIo
    case BloqueadoDump => MotivoDump
    case FinalizadoExit => MotivoExit
    case ErrorFatal => MotivoFatal
    case SegmentationFault => MotivoSegfault
  }

  function Avanzar(i: Instruccion, s: Plano): Plano {
    if i.Goto? then s else s.(pc := s.pc + 1)
  }

  /** ciclo_instruccion: a burst whose interrupt is found pending after its `plazo`-th
      instruction, if it gets that far. The interrupt overrides whatever the instruction
      resulted in, and the program counter is not advanced. */
  function Rafaga(tp: nat, prog: seq<Instruccion>, s: Plano, plazo: nat): (r: (Plano, Motivo))
    requires Entera(tp, s.mem) && plazo > 0
    ensures |r.0.mem| == |s.mem|
    decreases plazo
  {
    var i := Fetch(prog, s.pc);
    if i.None? then (s, MotivoFatal)
    else
      var (r, t) := Ejecutar(tp, i.valor, s);
      if plazo == 1 then (t, MotivoInterrupcion)
      else if r == EjecucionOk then Rafaga(tp, prog, Avanzar(i.valor, t), plazo - 1)
      else (t, MotivoDe(r))
  }

  // ---------------------------------------------------------------- what a burst does, step by step

  predicate EnLaPagina(tp: nat, total: nat, dl: nat, n: nat, k: nat) {
    k * tp <= dl < k * tp + tp && dl + n <= k * tp + tp <= total
  }

  /** Some page of the process holds the whole access. */
  ghost predicate Accesible(tp: nat, total: nat, dl: nat, n: nat) { exists k: nat :: EnLaPagina(tp, total, dl, n, k) }

  lemma {:induction false} EnPaginaSii(tp: nat, mem: seq<byte>, dl: nat, n: nat)
    requires Entera(tp, mem)
    ensures EnPagina(tp, mem, dl, n) <==> Accesible(tp, |mem|, dl, n)
  {
    var k := dl / tp;
    assert dl == k * tp + dl % tp && |mem| == |mem| / tp * tp;
    if EnPagina(tp, mem, dl, n) {
      PaginaDentro(dl, tp, |mem| / tp);
      assert EnLaPagina(tp, |mem|, dl, n, k);
    }
    if Accesible(tp, |mem|, dl, n) {
      var j: nat :| EnLaPagina(tp, |mem|, dl, n, j);
      DivUnico(dl, tp, j, dl - j * tp);
    }
  }

  // The accesses of the instruction can be made.
  ghost predicate Puede(tp: nat, i: Instruccion, total: nat) {
    (i.Leer? ==> Accesible(tp, total, i.dl, i.tam)) && (i.Escribir? ==> Accesible(tp, total, i.dl, |i.datos|))
  }

  // WRITE lays its bytes from its address on; nothing else changes a byte.
  predicate Escrita(i: Instruccion, a: seq<byte>, b: seq<byte>) {
    |b| == |a| && forall k :: 0 <= k < |a| ==>
      b[k] == if i.Escribir? && i.dl <= k < i.dl + |i.datos| then i.datos[k - i.dl] else a[k]
  }

  // INIT_PROC is asked of the kernel there and then.
  predicate Llamadas(i: Instruccion, a: seq<Instruccion>, b: seq<Instruccion>) { b == if i.InitProc? then a + [i] else a }

  /** An instruction after which the burst goes on: GOTO to its destination, the rest to the next. */
  ghost predicate Prosigue(tp: nat, i: Instruccion, s: Plano, t: Plano) {
    && (i.Noop? || i.Leer? || i.Escribir? || i.Goto? || i.InitProc?) && Puede(tp, i, |s.mem|)
    && t.pc == (if i.Goto? then i.destino else s.pc + 1)
    && Escrita(i, s.mem, t.mem) && Llamadas(i, s.llamadas, t.llamadas)
  }

  /** One that ends it, and why: IO and DUMP_MEMORY behind them, the others where they are. */
  ghost predicate Concluye(tp: nat, i: Instruccion, s: Plano, t: Plano, m: Motivo) {
    && t.mem == s.mem && t.llamadas == s.llamadas
    && match m
       case MotivoIo => i.Io? && t.pc == s.pc + 1
       case MotivoDump => i.DumpMemory? && t.pc == s.pc + 1
       case MotivoExit => i.Exit? && t.pc == s.pc
       case MotivoFatal => (i.IoInvalida? || i.Desconocida?) && t.pc == s.pc
       case MotivoSegfault => (i.Leer? || i.Escribir?) && !Puede(tp, i, |s.mem|) && t.pc == s.pc
       case MotivoInterrupcion => false
  }

  /** One after which an interrupt is found, whatever came of it. */
  ghost predicate Interrumpida(tp: nat, i: Instruccion, s: Plano, t: Plano) {
    && t.pc == (if i.Goto? then i.destino else if i.Io? || i.DumpMemory? then s.pc + 1 else s.pc)
    && (if Puede(tp, i, |s.mem|) then Escrita(i, s.mem, t.mem) else t.mem == s.mem)
    && Llamadas(i, s.llamadas, t.llamadas)
  }

  // From one state to the next the instruction at the program counter is done.
  ghost predicate Camino(tp: nat, prog: seq<Instruccion>, ss: seq<Plano>) {
    forall k :: 0 <= k < |ss| - 1 ==> EntreDos(tp, prog, ss, k)
  }

  ghost predicate EntreDos(tp: nat, prog: seq<Instruccion>, ss: seq<Plano>, k: nat)
    requires k + 1 < |ss|
  {
    0 <= ss[k].pc < |prog| && Prosigue(tp, prog[ss[k].pc], ss[k], ss[k + 1])
  }

  // How the burst leaves the last of those states.
  ghost predicate Final(tp: nat, prog: seq<Instruccion>, hechas: nat, plazo: nat, u: Plano, t: Plano, m: Motivo) {
    if !(0 <= u.pc < |prog|) then m == MotivoFatal && t == u && hechas < plazo
    else if m == MotivoInterrupcion then hechas + 1 == plazo && Interrumpida(tp, prog[u.pc], u, t)
    else hechas + 1 < plazo && Concluye(tp, prog[u.pc], u, t, m)
  }

  /** The whole burst, state by state. */
  ghost predicate Recorre(tp: nat, prog: seq<Instruccion>, s: Plano, plazo: nat, t: Plano, m: Motivo) {
    exists ss :: ss != [] && ss[0] == s && Camino(tp, prog, ss) && Final(tp, prog, |ss| - 1, plazo, ss[|ss| - 1], t, m)
  }

  // One instruction, before the loop looks at what it resulted in.
  ghost predicate Hecha(tp: nat, i: Instruccion, s: Plano, r: Resultado, t: Plano) {
    && Interrumpida(tp, i, s, t)
    && if r == EjecucionOk then Prosigue(tp, i, s, if i.Goto? then t else t.(pc := t.pc + 1)) else Concluye(tp, i, s, t, MotivoDe(r))
  }

  lemma {:induction false} UnaInstruccion(tp: nat, i: Instruccion, s: Plano)
    requires Entera(tp, s.mem)
    ensures Hecha(tp, i, s, Ejecutar(tp, i, s).0, Ejecutar(tp, i, s).1)
  {
    match i
    case Leer(dl, tam) => EnPaginaSii(tp, s.mem, dl, tam);
    case Escribir(dl, datos) => EnPaginaSii(tp, s.mem, dl, |datos|);
    case _ =>
  }

  /** Where each instruction leads, and which ones end a burst and with what reason. */
  lemma {:induction false} RafagaRecorre(tp: nat, prog: seq<Instruccion>, s: Plano, plazo: nat)
    requires Entera(tp, s.mem) && plazo > 0
    ensures Recorre(tp, prog, s, plazo, Rafaga(tp, prog, s, plazo).0, Rafaga(tp, prog, s, plazo).1)
    decreases plazo
  {
    var (t, m) := Rafaga(tp, prog, s, plazo);
    if Fetch(prog, s.pc).Some? { UnaInstruccion(tp, prog[s.pc], s); }
    if Continua(tp, prog, s, plazo) {
      var v := Avanzar(prog[s.pc], Ejecutar(tp, prog[s.pc], s).1);
      RafagaRecorre(tp, prog, v, plazo - 1);
      RecorreCon(tp, prog, s, v, plazo, t, m);
    } else {
      RecorreFin(tp, prog, s, plazo, t, m);
    }
  }

  lemma {:induction false} RecorreFin(tp: nat, prog: seq<Instruccion>, s: Plano, plazo: nat, t: Plano, m: Motivo)
    requires Final(tp, prog, 0, plazo, s, t, m)
    ensures Recorre(tp, prog, s, plazo, t, m)
  {
    var ss := [s];
    assert Camino(tp, prog, ss) && Final(tp, prog, |ss| - 1, plazo, ss[|ss| - 1], t, m);
  }

  lemma {:induction false} RecorreCon(tp: nat, prog: seq<Instruccion>, s: Plano, v: Plano, plazo: nat, t: Plano, m: Motivo)
    requires plazo > 0 && 0 <= s.pc < |prog| && Prosigue(tp, prog[s.pc], s, v) && Recorre(tp, prog, v, plazo - 1, t, m)
    ensures Recorre(tp, prog, s, plazo, t, m)
  {
    var vs :| vs != [] && vs[0] == v && Camino(tp, prog, vs) && Final(tp, prog, |vs| - 1, plazo - 1, vs[|vs| - 1], t, m);
    CaminoCon(tp, prog, s, vs);
    var ss := [s] + vs;
    assert ss[|ss| - 1] == vs[|vs| - 1] && ss[0] == s;
    assert Final(tp, prog, |ss| - 1, plazo, ss[|ss| - 1], t, m);
  }

  /** A burst that ends for a system call stops just behind it. */
  lemma {:induction false} UltimaEsLaLlamada(tp: nat, prog: seq<Instruccion>, s: Plano, plazo: nat)
    requires Entera(tp, s.mem) && plazo > 0
    ensures var (t, m) := Rafaga(tp, prog, s, plazo);
            (m == MotivoIo ==> Ultima(prog, t, m).Io?) && (m == MotivoDump ==> Ultima(prog, t, m).DumpMemory?)
  {
    RafagaRecorre(tp, prog, s, plazo);
  }

  lemma {:induction false} CaminoCon(tp: nat, prog: seq<Instruccion>, s: Plano, vs: seq<Plano>)
    requires vs != [] && Camino(tp, prog, vs) && 0 <= s.pc < |prog| && Prosigue(tp, prog[s.pc], s, vs[0])
    ensures Camino(tp, prog, [s] + vs)
  {
    var ss := [s] + vs;
    forall k | 0 <= k < |ss| - 1 ensures EntreDos(tp, prog, ss, k) {
      if k > 0 { assert EntreDos(tp, prog, vs, k - 1); }
    }
  }

  /** Where a process is after a run: still to go on, or out. */
  datatype Corrida = Sigue(s: Plano) | Fin(s: Plano, motivo: Motivo)

  /** What the kernel does with the end of a burst: note the system call and later run the
      process again from the stored program counter, or take it out. */
  function Desenlace(i: Instruccion, t: Plano, m: Motivo): Corrida {
    match m
    case MotivoInterrupcion => Sigue(t)
    case MotivoIo => Sigue(t.(llamadas := t.llamadas + [i]))
    case MotivoDump => Sigue(t.(llamadas := t.llamadas + [i]))
    case _ => Fin(t, m)
  }

  /** One instruction of the run, with or without an interrupt pending at its end. */
  function Paso(tp: nat, prog: seq<Instruccion>, s: Plano, corte: bool): (c: Corrida)
    requires Entera(tp, s.mem)
    ensures |c.s.mem| == |s.mem|
  {
    var i := Fetch(prog, s.pc);
    if i.None? then Fin(s, MotivoFatal)
    else
      var (r, t) := Ejecutar(tp, i.valor, s);
      if corte then Sigue(t)
      else if r == EjecucionOk then Sigue(Avanzar(i.valor, t))
      else Desenlace(i.valor, t, MotivoDe(r))
  }

  /** A run over as many instructions as the schedule says: an interrupt where it is true. */
  function Correr(tp: nat, prog: seq<Instruccion>, s: Plano, cortes: seq<bool>): (c: Corrida)
    requires Entera(tp, s.mem)
    ensures |c.s.mem| == |s.mem|
    decreases |cortes|
  {
    if cortes == [] then Sigue(s)
    else
      var c := Paso(tp, prog, s, cortes[0]);
      if c.Fin? then c else Correr(tp, prog, c.s, cortes[1..])
  }

  function SinCortes(n: nat): (r: seq<bool>)
    ensures |r| == n
    ensures n > 0 ==> r[0] == false && r[1..] == SinCortes(n - 1)
  {
    seq(n, _ => false)
  }

  function Aciertos(cortes: seq<bool>): nat {
    if cortes == [] then 0 else (if cortes[0] then 0 else 1) + Aciertos(cortes[1..])
  }

  // Not to be repeated: the kernel hears of it.
  predicate EsLlamada(i: Instruccion) {
    i.Io? || i.InitProc? || i.DumpMemory?
  }

  predicate SinLlamadas(prog: seq<Instruccion>) {
    forall k :: 0 <= k < |prog| ==> !EsLlamada(prog[k])
  }

  // No interrupt of the schedule is found pending at the end of a system call.
  ghost predicate CortesInocuos(tp: nat, prog: seq<Instruccion>, s: Plano, cortes: seq<bool>)
    requires Entera(tp, s.mem)
    decreases |cortes|
  {
    cortes == []
    || ((cortes[0] && Fetch(prog, s.pc).Some? ==> !EsLlamada(Fetch(prog, s.pc).valor))
        && (Paso(tp, prog, s, cortes[0]).Sigue? ==> CortesInocuos(tp, prog, Paso(tp, prog, s, cortes[0]).s, cortes[1..])))
  }

  // ---------------------------------------------------------------- the simulation

  // x is where an uncut run is at b, or one instruction ahead of it in memory alone: that
  // instruction was cut and will be run again.
  ghost predicate Alcanza(tp: nat, prog: seq<Instruccion>, x: Plano, b: Plano)
    requires Entera(tp, b.mem)
  {
    x == b
    || (var i := Fetch(prog, b.pc);
        i.Some? && !i.valor.Goto? && !EsLlamada(i.valor) && x == Ejecutar(tp, i.valor, b).1)
  }

  /** Running an instruction that was cut once more lands where it would have landed uncut. */
  lemma {:induction false} Repetible(tp: nat, prog: seq<Instruccion>, x: Plano, b: Plano)
    requires Entera(tp, b.mem) && Alcanza(tp, prog, x, b)
    ensures Entera(tp, x.mem) && Paso(tp, prog, x, false) == Paso(tp, prog, b, false)
  {
  }

  /** A cut step: the uncut run stays where it was and waits, or (GOTO) goes along. */
  lemma {:induction false} PasoCortado(tp: nat, prog: seq<Instruccion>, x: Plano, b: Plano)
    requires Entera(tp, b.mem) && Alcanza(tp, prog, x, b) && Fetch(prog, x.pc).Some? && !EsLlamada(Fetch(prog, x.pc).valor)
    ensures Entera(tp, x.mem) && Paso(tp, prog, x, true).Sigue?
    ensures var y := Paso(tp, prog, x, true).s;
            Alcanza(tp, prog, y, b) || Paso(tp, prog, b, false) == Sigue(y)
  {
  }

  // The run `c` reached is the one `d` reached, up to one instruction to be run again.
  ghost predicate MismoFinal(tp: nat, prog: seq<Instruccion>, c: Corrida, d: Corrida)
    requires Entera(tp, d.s.mem)
  {
    if c.Fin? then d == c else d.Sigue? && Alcanza(tp, prog, c.s, d.s)
  }

  lemma {:induction false} UnPasoMas(tp: nat, prog: seq<Instruccion>, s: Plano, k: nat)
    requires Entera(tp, s.mem)
    ensures Correr(tp, prog, s, SinCortes(k + 1))
         == var c := Paso(tp, prog, s, false); if c.Fin? then c else Correr(tp, prog, c.s, SinCortes(k))
  {
  }

  /** Preemption is transparent, one way: whatever a cut run does, the uncut run of some number
      of instructions does too - the same end with the same memory, the same fault, the same
      system calls - as long as no interrupt lands on a system call. */
  lemma {:induction false} ExpropiacionSegura(tp: nat, prog: seq<Instruccion>, x: Plano, b: Plano, cortes: seq<bool>)
    requires Entera(tp, b.mem) && Alcanza(tp, prog, x, b) && Entera(tp, x.mem) && CortesInocuos(tp, prog, x, cortes)
    ensures exists k: nat :: k <= |cortes| && MismoFinal(tp, prog, Correr(tp, prog, x, cortes), Correr(tp, prog, b, SinCortes(k)))
    decreases |cortes|
  {
    if cortes == [] {
      assert MismoFinal(tp, prog, Correr(tp, prog, x, cortes), Correr(tp, prog, b, SinCortes(0)));
    } else {
      Repetible(tp, prog, x, b);
      var c := Paso(tp, prog, x, cortes[0]);
      UnPasoMas(tp, prog, b, 0);
      if c.Fin? {
        assert MismoFinal(tp, prog, c, Correr(tp, prog, b, SinCortes(1)));
      } else if !cortes[0] {
        ExpropiacionSegura(tp, prog, c.s, c.s, cortes[1..]);
        var k: nat :| k <= |cortes| - 1 && MismoFinal(tp, prog, Correr(tp, prog, c.s, cortes[1..]), Correr(tp, prog, c.s, SinCortes(k)));
        UnPasoMas(tp, prog, b, k);
        assert MismoFinal(tp, prog, Correr(tp, prog, x, cortes), Correr(tp, prog, b, SinCortes(k + 1)));
      } else {
        PasoCortado(tp, prog, x, b);
        if Alcanza(tp, prog, c.s, b) {
          ExpropiacionSegura(tp, prog, c.s, b, cortes[1..]);
        } else {
          ExpropiacionSegura(tp, prog, c.s, c.s, cortes[1..]);
          var k: nat :| k <= |cortes| - 1 && MismoFinal(tp, prog, Correr(tp, prog, c.s, cortes[1..]), Correr(tp, prog, c.s, SinCortes(k)));
          UnPasoMas(tp, prog, b, k);
          assert MismoFinal(tp, prog, Correr(tp, prog, x, cortes), Correr(tp, prog, b, SinCortes(k + 1)));
        }
      }
    }
  }

  /** And the other way: if the uncut run ends within k instructions, so does, in the same
      state and for the same reason, every cut run that lets at least k instructions finish. */
  lemma {:induction false} ExpropiacionCompleta(tp: nat, prog: seq<Instruccion>, x: Plano, b: Plano, k: nat, cortes: seq<bool>)
    requires Entera(tp, b.mem) && Alcanza(tp, prog, x, b) && Entera(tp, x.mem) && CortesInocuos(tp, prog, x, cortes)
    requires Correr(tp, prog, b, SinCortes(k)).Fin? && Aciertos(cortes) >= k
    ensures Correr(tp, prog, x, cortes) == Correr(tp, prog, b, SinCortes(k))
    decreases |cortes|
  {
    assert k > 0 && cortes != [];
    UnPasoMas(tp, prog, b, k - 1);
    Repetible(tp, prog, x, b);
    var c := Paso(tp, prog, x, cortes[0]);
    if !cortes[0] {
      if c.Sigue? { ExpropiacionCompleta(tp, prog, c.s, c.s, k - 1, cortes[1..]); }
    } else if c.Sigue? {
      PasoCortado(tp, prog, x, b);
      if Alcanza(tp, prog, c.s, b) {
        ExpropiacionCompleta(tp, prog, c.s, b, k, cortes[1..]);
      } else {
        ExpropiacionCompleta(tp, prog, c.s, c.s, k - 1, cortes[1..]);
      }
    }
  }

  /** For programs of NOOP, READ, WRITE, GOTO and EXIT every schedule is harmless. */
  lemma {:induction false} SinLlamadasInocuos(tp: nat, prog: seq<Instruccion>, s: Plano, cortes: seq<bool>)
    requires Entera(tp, s.mem) && SinLlamadas(prog)
    ensures CortesInocuos(tp, prog, s, cortes)
    decreases |cortes|
  {
    if cortes != [] && Paso(tp, prog, s, cortes[0]).Sigue? {
      SinLlamadasInocuos(tp, prog, Paso(tp, prog, s, cortes[0]).s, cortes[1..]);
    }
  }

  // ---------------------------------------------------------------- where it is not

  /** The state when the instruction cut at s is finally behind: the stored program counter is
      already past it for IO, DUMP_MEMORY and GOTO; the others are run again. */
  function Recuperado(tp: nat, prog: seq<Instruccion>, s: Plano): Corrida
    requires Entera(tp, s.mem) && Fetch(prog, s.pc).Some?
  {
    var i := Fetch(prog, s.pc).valor;
    var t := Paso(tp, prog, s, true).s;
    if i.Goto? || i.Io? || i.DumpMemory? then Sigue(t) else Paso(tp, prog, t, false)
  }

  /** A cut leaves no trace exactly when it does not land on a system call: a cut IO or
      DUMP_MEMORY never reaches the kernel, and a cut INIT_PROC is asked for twice. */
  lemma {:induction false} CorteTransparenteSii(tp: nat, prog: seq<Instruccion>, s: Plano)
    requires Entera(tp, s.mem) && Fetch(prog, s.pc).Some?
    ensures Recuperado(tp, prog, s) == Paso(tp, prog, s, false) <==> !EsLlamada(Fetch(prog, s.pc).valor)
    ensures var i := Fetch(prog, s.pc).valor;
            var bien := Paso(tp, prog, s, false);
            && (i.Io? || i.DumpMemory? ==>
                  bien.Sigue? && Recuperado(tp, prog, s) == Sigue(bien.s.(llamadas := s.llamadas)) && bien.s.llamadas == s.llamadas + [i])
            && (i.InitProc? ==>
                  bien.Sigue? && Recuperado(tp, prog, s) == Sigue(bien.s.(llamadas := s.llamadas + [i, i])) && bien.s.llamadas == s.llamadas + [i])
  {
  }

  // ---------------------------------------------------------------- bursts

  // The schedule of one burst of at most `plazo` instructions that ended after n of them.
  function CortesDe(n: nat, m: Motivo): seq<bool>
    requires m == MotivoInterrupcion ==> n > 0
  {
    if m == MotivoInterrupcion then SinCortes(n - 1) + [true] else SinCortes(n)
  }

  /** The instruction a burst ended on. */
  function Ultima(prog: seq<Instruccion>, t: Plano, m: Motivo): Instruccion {
    if (m == MotivoIo || m == MotivoDump) && Fetch(prog, t.pc - 1).Some? then Fetch(prog, t.pc - 1).valor else Noop
  }

  // The burst goes on after its first instruction.
  predicate Continua(tp: nat, prog: seq<Instruccion>, s: Plano, plazo: nat)
    requires Entera(tp, s.mem)
  {
    Fetch(prog, s.pc).Some? && plazo > 1 && Ejecutar(tp, Fetch(prog, s.pc).valor, s).0 == EjecucionOk
  }

  lemma {:induction false} TerminaYa(tp: nat, prog: seq<Instruccion>, s: Plano, plazo: nat)
    requires Entera(tp, s.mem) && plazo > 0 && !Continua(tp, prog, s, plazo)
    ensures var (t, m) := Rafaga(tp, prog, s, plazo);
            && Paso(tp, prog, s, m == MotivoInterrupcion) == Desenlace(Ultima(prog, t, m), t, m)
            && (m == MotivoInterrupcion ==> plazo == 1)
            && (m == MotivoIo || m == MotivoDump ==> !SinLlamadas(prog))
  {
  }

  lemma {:induction false} CorrerUno(tp: nat, prog: seq<Instruccion>, s: Plano, corte: bool, resto: seq<bool>)
    requires Entera(tp, s.mem)
    ensures var c := Paso(tp, prog, s, corte);
            Correr(tp, prog, s, [corte] + resto) == if c.Fin? then c else Correr(tp, prog, c.s, resto)
  {
  }

  lemma {:induction false} CortesSigue(k: nat, m: Motivo, resto: seq<bool>)
    requires k > 0
    ensures CortesDe(k + 1, m) + resto == [false] + (CortesDe(k, m) + resto)
  {
  }

  /** A burst is a stretch of the run: no cut before its end, and one there if the kernel is
      told it was interrupted. */
  lemma {:induction false} RafagaEsTramo(tp: nat, prog: seq<Instruccion>, s: Plano, plazo: nat, resto: seq<bool>) returns (n: nat)
    requires Entera(tp, s.mem) && plazo > 0
    ensures var (t, m) := Rafaga(tp, prog, s, plazo);
            && 0 < n <= plazo && (m == MotivoInterrupcion ==> n == plazo)
            && (m == MotivoIo || m == MotivoDump ==> !SinLlamadas(prog))
            && var d := Desenlace(Ultima(prog, t, m), t, m);
               Correr(tp, prog, s, CortesDe(n, m) + resto) == if d.Fin? then d else Correr(tp, prog, d.s, resto)
    decreases plazo
  {
    var (t, m) := Rafaga(tp, prog, s, plazo);
    n := 1;
    if Continua(tp, prog, s, plazo) {
      var u := Paso(tp, prog, s, false).s;
      var k := RafagaEsTramo(tp, prog, u, plazo - 1, resto);
      n := k + 1;
      CortesSigue(k, m, resto);
      CorrerUno(tp, prog, s, false, CortesDe(k, m) + resto);
    } else {
      TerminaYa(tp, prog, s, plazo);
      CorrerUno(tp, prog, s, m == MotivoInterrupcion, resto);
      assert CortesDe(1, m) == [m == MotivoInterrupcion];
    }
  }

  /** The life of a process as the kernel sees it: burst after burst, each resumed from the
      program counter the last one reported. */
  function Rafagas(tp: nat, prog: seq<Instruccion>, s: Plano, plazos: seq<nat>): (c: Corrida)
    requires Entera(tp, s.mem) && forall j :: 0 <= j < |plazos| ==> plazos[j] > 0
    decreases |plazos|
  {
    if plazos == [] then Sigue(s)
    else
      var (t, m) := Rafaga(tp, prog, s, plazos[0]);
      var d := Desenlace(Ultima(prog, t, m), t, m);
      if d.Fin? then d else Rafagas(tp, prog, d.s, plazos[1..])
  }

  function Aporte(plazos: seq<nat>): int {
    if plazos == [] then 0 else plazos[0] - 1 + Aporte(plazos[1..])
  }

  lemma {:induction false} AciertosConcat(a: nat, b: seq<bool>)
    ensures Aciertos(SinCortes(a) + b) == a + Aciertos(b)
  {
    var c := SinCortes(a) + b;
    if a == 0 {
      assert c == b;
    } else {
      assert c[1..] == SinCortes(a - 1) + b;
      AciertosConcat(a - 1, b);
    }
  }

  lemma {:induction false} AciertosDeRafaga(n: nat, resto: seq<bool>)
    requires n > 0
    ensures Aciertos(CortesDe(n, MotivoInterrupcion) + resto) == n - 1 + Aciertos(resto)
  {
    assert CortesDe(n, MotivoInterrupcion) + resto == SinCortes(n - 1) + ([true] + resto);
    AciertosConcat(n - 1, [true] + resto);
    assert ([true] + resto)[1..] == resto;
  }

  lemma {:induction false} RafagasSonCorrida(tp: nat, prog: seq<Instruccion>, s: Plano, plazos: seq<nat>) returns (cortes: seq<bool>)
    requires Entera(tp, s.mem) && forall j :: 0 <= j < |plazos| ==> plazos[j] > 0
    ensures Rafagas(tp, prog, s, plazos) == Correr(tp, prog, s, cortes)
    ensures SinLlamadas(prog) && Rafagas(tp, prog, s, plazos).Sigue? ==> Aciertos(cortes) == Aporte(plazos)
    decreases |plazos|
  {
    cortes := [];
    if plazos != [] {
      var (t, m) := Rafaga(tp, prog, s, plazos[0]);
      var d := Desenlace(Ultima(prog, t, m), t, m);
      if d.Sigue? {
        cortes := RafagasSonCorrida(tp, prog, d.s, plazos[1..]);
      }
      var resto := cortes;
      var n := RafagaEsTramo(tp, prog, s, plazos[0], resto);
      cortes := CortesDe(n, m) + resto;
      if m == MotivoInterrupcion { AciertosDeRafaga(n, resto); }
    }
  }

  lemma {:induction false} Determinista(tp: nat, prog: seq<Instruccion>, s: Plano, j: nat, k: nat)
    requires Entera(tp, s.mem) && Correr(tp, prog, s, SinCortes(j)).Fin? && Correr(tp, prog, s, SinCortes(k)).Fin?
    ensures Correr(tp, prog, s, SinCortes(j)) == Correr(tp, prog, s, SinCortes(k))
    decreases j
  {
    UnPasoMas(tp, prog, s, j - 1);
    UnPasoMas(tp, prog, s, k - 1);
    var c := Paso(tp, prog, s, false);
    if c.Sigue? { Determinista(tp, prog, c.s, j - 1, k - 1); }
  }

  /** Preemption transparency over bursts: however a program of NOOP, READ, WRITE, GOTO and
      EXIT is cut into bursts, if it ends it ends as the uninterrupted program does, in memory
      and in cause; and it does end if the uninterrupted program ends within as many
      instructions as the bursts leave uncut. */
  lemma {:induction false} ExpropiacionTransparente(tp: nat, prog: seq<Instruccion>, s: Plano, plazos: seq<nat>)
    requires Entera(tp, s.mem) && SinLlamadas(prog) && forall j :: 0 <= j < |plazos| ==> plazos[j] > 0
    ensures Rafagas(tp, prog, s, plazos).Fin? ==>
              exists k: nat :: Correr(tp, prog, s, SinCortes(k)) == Rafagas(tp, prog, s, plazos)
    ensures forall k: nat :: k <= Aporte(plazos) && Correr(tp, prog, s, SinCortes(k)).Fin? ==>
              Correr(tp, prog, s, SinCortes(k)) == Rafagas(tp, prog, s, plazos)
  {
    var cortes := RafagasSonCorrida(tp, prog, s, plazos);
    var c := Rafagas(tp, prog, s, plazos);
    SinLlamadasInocuos(tp, prog, s, cortes);
    ExpropiacionSegura(tp, prog, s, s, cortes);
    forall k: nat | k <= Aporte(plazos) && Correr(tp, prog, s, SinCortes(k)).Fin?
      ensures Correr(tp, prog, s, SinCortes(k)) == c
    {
      if c.Sigue? {
        ExpropiacionCompleta(tp, prog, s, s, k, cortes);
      } else {
        var j: nat :| Correr(tp, prog, s, SinCortes(j)) == c;
        Determinista(tp, prog, s, j, k);
      }
    }
  }
}
