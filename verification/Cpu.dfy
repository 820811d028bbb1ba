/** A CPU: its cache and TLB arrays, the replacement sweeps, and READ and WRITE over the
    memory process. */
module Cpu {
  import opened Comunes
  import opened Aritmetica
  import opened Fisico
  import opened Tenencia
  import opened Pedidos
  import opened Traduccion
  import opened Memoria
  import opened Cache
  import opened Tlb
  import opened Ronda
  import opened Reemplazo
  import opened Reloj
  import opened Aplanado
  import opened Entornos
  import opened Convivencia
  import P = Programa
  import C = Corridas
  import E = Ejecucion

  const CACHE_LIBRE := EntradaCache(false, -1, -1, -1, [], false, false)

  // The requests that others make after each instruction of `pid`, and the case of none.
  ghost predicate DeOtros(otros: nat -> seq<Pedido>, pid: int) { forall k :: TodosAjenos(otros(k), pid) }

  ghost predicate Solos(otros: nat -> seq<Pedido>) { forall k :: otros(k) == [] }

  lemma {:induction false} Asocia(a: seq<P.Instruccion>, b: seq<P.Instruccion>, c: seq<P.Instruccion>)
    ensures a + b + c == a + (b + c)
  {
  }

  class Cpu {
    const mem: Memoria
    const tamPagina: nat
    const algCache: AlgCache
    const algTlb: AlgTlb
    const cache: array<EntradaCache>
    const tlb: array<EntradaTlb>
    var punteroClock: nat
    var punteroFifo: nat
    /** The translations asked for since the TLB was emptied. */
    ghost var accesos: seq<Acceso>
    /** The accesses to the cache in this burst. */
    ghost var historial: Historial

    constructor (m: Memoria, ac: AlgCache, at: AlgTlb, entradasCache: nat, entradasTlb: nat)
      requires m.Sana()
      ensures mem == m && algCache == ac && algTlb == at
      ensures fresh(cache) && cache.Length == entradasCache && fresh(tlb) && tlb.Length == entradasTlb
      ensures punteroClock == 0 && punteroFifo == 0
      ensures Ok() && Vacia()
    {
      EntornoSano(m.CfgDe(), m.Est());
      mem, tamPagina, algCache, algTlb := m, m.tamPagina, ac, at;
      cache := new EntradaCache[entradasCache](_ => CACHE_LIBRE);
      tlb := new EntradaTlb[entradasTlb](_ => TLB_LIBRE);
      punteroClock, punteroFifo, accesos, historial := 0, 0, [], Historial(0, []);
      new;
      assert forall i :: 0 <= i < cache.Length ==> cache[i] == CACHE_LIBRE;
      assert forall i :: 0 <= i < tlb.Length ==> tlb[i] == TLB_LIBRE;
      PlegadoVacio(algTlb, tlb[..]);
    }

    /** Nothing cached: what holds between bursts. */
    ghost predicate Vacia()
      reads cache, tlb
    {
      (forall i :: 0 <= i < cache.Length ==> !cache[i].ocupado) && (forall i :: 0 <= i < tlb.Length ==> !tlb[i].ocupada)
    }

    ghost predicate Forma()
      reads this`punteroClock, this`punteroFifo
    {
      && tamPagina == mem.tamPagina
      && (punteroClock < cache.Length || cache.Length == 0)
      && (punteroFifo < tlb.Length || tlb.Length == 0)
    }

    /** The memory behind this CPU. */
    ghost function Ent(): Entorno
      reads mem, mem.bitmapMarcos, mem.memoriaUsuario
      requires mem.cantidadNiveles > 0
    {
      EntornoDe(mem.Est())
    }

    ghost predicate MemOk()
      reads mem, mem.bitmapMarcos, mem.memoriaUsuario
    {
      mem.Sana() && tamPagina == mem.tamPagina && EntornoOk(Ent(), tamPagina)
    }

    // The premise of translation, for the process that runs.
    ghost predicate Entra(pid: int)
      reads mem
    {
      mem.tamPagina > 0
      && (pid in mem.procesos ==> Paginas(mem.procesos[pid].tam, mem.tamPagina) <= Pot(mem.entradasPorTabla, mem.cantidadNiveles))
    }

    ghost predicate CacheSana()
      reads this`punteroClock, this`punteroFifo, cache, mem, mem.bitmapMarcos, mem.memoriaUsuario
    {
      Forma() && MemOk() && CacheOk(cache[..], Ent(), tamPagina)
    }

    ghost predicate TlbSana()
      reads this`punteroClock, this`punteroFifo, this`accesos, tlb, mem, mem.bitmapMarcos, mem.memoriaUsuario
    {
      Forma() && MemOk() && TlbOk(tlb[..], Ent().rutas) && Plegada()
    }

    ghost predicate Ok()
      reads this`punteroClock, this`punteroFifo, this`accesos, cache, tlb, mem, mem.bitmapMarcos, mem.memoriaUsuario
    {
      CacheSana() && TlbSana()
    }

    // The TLB and its pointer are what those accesses make of an empty one.
    ghost predicate Plegada()
      reads this`punteroFifo, this`accesos, tlb
    {
      Plegado(algTlb, tlb[..], punteroFifo, accesos)
    }

    /** What this CPU's READ would see of page c. */
    ghost function Ve(c: Clave): Option<Pagina>
      reads cache, mem, mem.bitmapMarcos, mem.memoriaUsuario
      requires MemOk()
    {
      Vista(cache[..], Ent(), c)
    }

    // ------------------------------------------------------------ the memory process

    method PedirTraduccion(pid: int, dl: nat) returns (marco: int)
      requires MemOk() && Entra(pid)
      ensures marco == if Clave(pid, dl / tamPagina) in Ent().rutas then Ent().rutas[Clave(pid, dl / tamPagina)] else -1
    {
      var r := mem.TraducirTabla(pid, dl);
      TraducirEsRuta(mem.CfgDe(), mem.Est(), pid, dl);
      marco := if r.TraduccionOk? then r.marco else -1;
    }

    method LeerPagina(marco: nat) returns (p: Pagina)
      requires MemOk() && marco < |Ent().ram|
      ensures p == Ent().ram[marco] && |p| == tamPagina
    {
      var r := mem.LeerDireccion(marco, 0, tamPagina);
      assert r.valor == Ent().ram[marco];
      p := r.valor;
    }

    method EscribirBytesEn(marco: nat, desde: nat, datos: seq<byte>)
      requires MemOk() && marco < |Ent().ram| && desde + |datos| <= tamPagina
      modifies mem.memoriaUsuario
      ensures MemOk()
      ensures |old(Ent()).ram[marco]| == tamPagina
      ensures Ent() == old(Ent()).(ram := old(Ent()).ram[marco := Pegar(old(Ent()).ram[marco], desde, datos)])
    {
      ghost var m := mem.Est();
      var _ := mem.ManejarEscritura(marco, desde, datos);
      assert Rutas(mem.Est()) == Rutas(m) by {
        assert forall c :: Vive(mem.Est(), c) <==> Vive(m, c);
      }
    }

    method EnviarPagina(marco: nat, contenido: Pagina)
      requires MemOk() && marco < |Ent().ram| && |contenido| == tamPagina
      modifies mem.memoriaUsuario
      ensures MemOk()
      ensures Ent() == old(Ent()).(ram := old(Ent()).ram[marco := contenido])
    {
      ghost var e := Ent();
      EscribirBytesEn(marco, 0, contenido);
      assert Pegar(e.ram[marco], 0, contenido) == contenido;
    }

    // ------------------------------------------------------------ the TLB

    method BuscarEnTlb(c: Clave, ahora: nat) returns (i: nat)
      modifies tlb
      ensures i == DondeTlb(old(tlb[..]), c)
      ensures tlb[..] == TrasBuscar(algTlb, old(tlb[..]), c, ahora)
    {
      i := 0;
      while i < tlb.Length
        invariant 0 <= i <= tlb.Length && tlb[..] == old(tlb[..])
        invariant forall j :: 0 <= j < i ==> !EsTlb(tlb[j], c)
      {
        if EsTlb(tlb[i], c) {
          assert DondeTlb(tlb[..], c) == i;
          if algTlb == Lru {
            tlb[i] := tlb[i].(timestamp := ahora);
          }
          return;
        }
        i := i + 1;
      }
      assert DondeTlb(tlb[..], c) == tlb.Length;
    }

    method AgregarATlb(c: Clave, marco: nat, ahora: nat)
      requires Forma()
      modifies this`punteroFifo, tlb
      ensures Forma()
      ensures (tlb[..], punteroFifo)
           == Agregar(algTlb, old(tlb[..]), old(punteroFifo), EntradaTlb(true, c.pid, c.pag, marco, ahora))
    {
      var i := 0;
      while i < tlb.Length
        invariant 0 <= i <= tlb.Length && tlb[..] == old(tlb[..]) && punteroFifo == old(punteroFifo)
        invariant forall j :: 0 <= j < i ==> tlb[j].ocupada
      {
        if !tlb[i].ocupada {
          assert PrimeraLibre(tlb[..]) == i;
          tlb[i] := EntradaTlb(true, c.pid, c.pag, marco, ahora);
          return;
        }
        i := i + 1;
      }
      assert PrimeraLibre(tlb[..]) == tlb.Length;
      if tlb.Length > 0 {
        ReemplazarEnTlb(EntradaTlb(true, c.pid, c.pag, marco, ahora));
      }
    }

    /** reemplazar_en_tlb: the oldest timestamp under LRU, the pointer under FIFO. */
    method ReemplazarEnTlb(x: EntradaTlb)
      requires Forma() && tlb.Length > 0 && PrimeraLibre(tlb[..]) == tlb.Length
      modifies this`punteroFifo, tlb
      ensures Forma()
      ensures (tlb[..], punteroFifo) == Agregar(algTlb, old(tlb[..]), old(punteroFifo), x)
    {
      match algTlb
      case Lru =>
        var victima := -1;
        var i := 0;
        while i < tlb.Length
          invariant 0 <= i <= tlb.Length
          invariant if i == 0 then victima == -1 else victima == MasViejo(tlb[..i])
        {
          assert tlb[..i + 1][..i] == tlb[..i];
          if victima == -1 || tlb[i].timestamp < tlb[victima].timestamp {
            victima := i;
          }
          i := i + 1;
        }
        assert tlb[..i] == tlb[..];
        tlb[victima] := x;
      case Fifo =>
        tlb[punteroFifo] := x;
        punteroFifo := (punteroFifo + 1) % tlb.Length;
      case TlbDesconocido =>
    }

    method LimpiarTlb()
      requires Forma()
      modifies this`punteroFifo, this`accesos, tlb
      ensures Forma() && punteroFifo == 0 && Plegada()
      ensures forall i :: 0 <= i < tlb.Length ==> tlb[i] == TLB_LIBRE
    {
      var i := 0;
      while i < tlb.Length
        invariant 0 <= i <= tlb.Length
        invariant forall j :: 0 <= j < i ==> tlb[j] == TLB_LIBRE
      {
        tlb[i] := TLB_LIBRE;
        i := i + 1;
      }
      punteroFifo, accesos := 0, [];
      PlegadoVacio(algTlb, tlb[..]);
    }

    /** The translation the TLB has, if it has one. An uncached WRITE stamps the entry it hits
        whatever the policy. */
    method MarcoDeTlb(c: Clave, ahora: nat, refrescar: bool) returns (marco: Option<int>)
      requires Forma()
      modifies tlb
      ensures tlb[..] == TrasBuscar(if refrescar then Lru else algTlb, old(tlb[..]), c, ahora)
      ensures if DondeTlb(old(tlb[..]), c) < tlb.Length then marco == Some(old(tlb[..])[DondeTlb(old(tlb[..]), c)].marco)
              else marco == None
    {
      var i := BuscarEnTlb(c, ahora);
      if i == tlb.Length {
        return None;
      }
      if refrescar {
        tlb[i] := tlb[i].(timestamp := ahora);
      }
      marco := Some(tlb[i].marco);
    }

    /** The frame of page c, through the TLB; the TLB is left alone when there is none. */
    method Marco(c: Clave, dl: nat, ahora: nat, refrescar: bool) returns (marco: int)
      requires Entra(c.pid)
      requires TlbSana() && c.pag == dl / tamPagina
      modifies this`punteroFifo, this`accesos, tlb
      ensures TlbSana()
      ensures marco == if c in Ent().rutas then Ent().rutas[c] else -1
      ensures accesos == old(accesos) + if c in Ent().rutas then [Acceso(c, Ent().rutas[c], ahora, refrescar)] else []
      ensures SoloDeTlb(old(tlb[..]), c.pid) ==> SoloDeTlb(tlb[..], c.pid)
    {
      ghost var t, p := tlb[..], punteroFifo;
      marco := MarcoPorTlb(c, dl, ahora, refrescar);
      if marco == -1 {
        assert tlb[..] == t && punteroFifo == p;
        return;
      }
      Anotar(Acceso(c, marco, ahora, refrescar), t, p);
    }

    /** What the TLB holds at any time: under FIFO the last misses since it was emptied, in
        order; under LRU pages stamped with their last use. */
    lemma {:induction false} TlbSegunPolitica()
      requires TlbSana()
      ensures algTlb == Fifo && tlb.Length > 0 ==>
                FifoOk(tlb[..], punteroFifo)
                && Cola(tlb[..], punteroFifo) == Ultimas(tlb.Length, Fallos(Fifo, tlb.Length, accesos))
      ensures algTlb == Lru ==> LruOk(tlb[..], Historia(accesos))
    {
      PlegadoEs(algTlb, tlb[..], punteroFifo, accesos);
      if algTlb == Fifo && tlb.Length > 0 { FifoGuardaLosUltimos(tlb.Length, accesos); }
      if algTlb == Lru { LruSellaElUltimoUso(tlb.Length, accesos); }
    }

    ghost method Anotar(a: Acceso, t: seq<EntradaTlb>, p: nat)
      requires Forma() && MemOk() && TlbOk(tlb[..], Ent().rutas)
      requires |t| == tlb.Length && Plegado(algTlb, t, p, accesos) && (p < |t| || t == [])
      requires (tlb[..], punteroFifo) == Acceder(algTlb, a.refrescar, t, p, a.clave, a.marco, a.ahora)
      modifies this`accesos
      ensures TlbSana() && accesos == old(accesos) + [a]
    {
      PlegadoSigue(algTlb, t, p, accesos, tlb[..], punteroFifo, a);
      accesos := accesos + [a];
    }

    method MarcoPorTlb(c: Clave, dl: nat, ahora: nat, refrescar: bool) returns (marco: int)
      requires Entra(c.pid)
      requires Forma() && MemOk() && TlbOk(tlb[..], Ent().rutas) && c.pag == dl / tamPagina
      modifies this`punteroFifo, tlb
      ensures Forma() && MemOk() && TlbOk(tlb[..], Ent().rutas)
      ensures SoloDeTlb(old(tlb[..]), c.pid) ==> SoloDeTlb(tlb[..], c.pid)
      ensures marco == if c in Ent().rutas then Ent().rutas[c] else -1
      ensures (tlb[..], punteroFifo)
           == if c in Ent().rutas then Acceder(algTlb, refrescar, old(tlb[..]), old(punteroFifo), c, Ent().rutas[c], ahora)
              else (old(tlb[..]), old(punteroFifo))
    {
      AccederTlbOk(algTlb, refrescar, tlb[..], punteroFifo, Ent().rutas, c, ahora);
      var hallado := MarcoDeTlb(c, ahora, refrescar);
      if hallado.Some? {
        marco := hallado.valor;
      } else {
        marco := MarcoDeMemoria(c, dl, ahora);
      }
    }

    /** The TLB miss: ask memory, and remember the answer if there is one. */
    method MarcoDeMemoria(c: Clave, dl: nat, ahora: nat) returns (marco: int)
      requires Entra(c.pid)
      requires Forma() && MemOk() && c.pag == dl / tamPagina
      modifies this`punteroFifo, tlb
      ensures Forma() && MemOk()
      ensures marco == if c in Ent().rutas then Ent().rutas[c] else -1
      ensures (tlb[..], punteroFifo)
           == if c in Ent().rutas then Agregar(algTlb, old(tlb[..]), old(punteroFifo), EntradaTlb(true, c.pid, c.pag, Ent().rutas[c], ahora))
              else (old(tlb[..]), old(punteroFifo))
    {
      marco := PedirTraduccion(c.pid, dl);
      if marco != -1 {
        AgregarATlb(c, marco, ahora);
      }
    }

    // ------------------------------------------------------------ the cache

    method BuscarEnCache(c: Clave) returns (i: nat)
      ensures i == Donde(cache[..], c)
    {
      i := 0;
      while i < cache.Length
        invariant 0 <= i <= cache.Length
        invariant forall j :: 0 <= j < i ==> !Es(cache[j], c)
      {
        if Es(cache[i], c) {
          return;
        }
        i := i + 1;
      }
    }

    /** CLOCK's sweep. The pointer is left on the victim. */
    method ElegirClock() returns (v: nat)
      requires Forma() && cache.Length > 0 && Hueco(cache[..]) == cache.Length
      modifies this`punteroClock, cache
      ensures Forma() && v < cache.Length && punteroClock == v
      ensures EsVictima(Clock, old(cache[..]), old(punteroClock), v)
      ensures Bajados(Clock, old(cache[..]), cache[..], old(punteroClock), v)
    {
      ghost var a, p, k := cache[..], punteroClock, 0;
      while cache[punteroClock].ocupado && cache[punteroClock].uso
        invariant Forma() && k <= |a| && punteroClock == Giro(p, k, |a|)
        invariant Barrido(a, cache[..], p, k)
        invariant forall i :: 0 <= i < |a| && Dist(p, i, |a|) < k ==> a[i].uso
        decreases |a| - k
      {
        BarridoSigue(a, cache[..], p, k, punteroClock);
        GiroSiguiente(p, k, |a|);
        cache[punteroClock] := cache[punteroClock].(uso := false);
        punteroClock := (punteroClock + 1) % cache.Length;
        k := k + 1;
      }
      v := punteroClock;
    }

    /** CLOCK-M's first scan: the first unused clean entry from the pointer on, or -1. */
    method BuscarLimpia() returns (v: int)
      requires Forma() && cache.Length > 0
      ensures -1 <= v < cache.Length
      ensures v == -1 ==> forall i :: 0 <= i < cache.Length ==> !Limpia(cache[i])
      ensures v != -1 ==> Limpia(cache[v])
      ensures v != -1 ==> forall i :: 0 <= i < cache.Length && Dist(punteroClock, i, cache.Length) < Dist(punteroClock, v, cache.Length) ==> !Limpia(cache[i])
    {
      var i := 0;
      while i < cache.Length
        invariant 0 <= i <= cache.Length
        invariant forall j :: 0 <= j < cache.Length && Dist(punteroClock, j, cache.Length) < i ==> !Limpia(cache[j])
      {
        var idx := (punteroClock + i) % cache.Length;
        GiroEsModulo(punteroClock, i, cache.Length);
        if Limpia(cache[idx]) {
          return idx;
        }
        i := i + 1;
      }
      return -1;
    }

    /** Its second scan: the first unused modified entry, taking use bits down on the way. */
    method BajarHastaSucia() returns (v: int, ghost k: nat)
      requires Forma() && cache.Length > 0
      modifies this`punteroClock, cache
      ensures Forma() && k <= cache.Length && -1 <= v < cache.Length
      ensures Barrido(old(cache[..]), cache[..], old(punteroClock), k)
      ensures punteroClock == Giro(old(punteroClock), k, cache.Length)
      ensures forall i :: 0 <= i < cache.Length && Dist(old(punteroClock), i, cache.Length) < k ==> !Sucia(old(cache[..])[i])
      ensures if v == -1 then k == cache.Length else k < cache.Length && v == punteroClock && Sucia(old(cache[..])[v])
    {
      ghost var a, p := cache[..], punteroClock;
      var i := 0;
      while i < cache.Length
        invariant 0 <= i <= cache.Length && Forma() && punteroClock == Giro(p, i, |a|)
        invariant Barrido(a, cache[..], p, i)
        invariant forall j :: 0 <= j < |a| && Dist(p, j, |a|) < i ==> !Sucia(a[j])
      {
        BarridoSigue(a, cache[..], p, i, punteroClock);
        GiroSiguiente(p, i, |a|);
        if Sucia(cache[punteroClock]) {
          return punteroClock, i;
        }
        cache[punteroClock] := cache[punteroClock].(uso := false);
        punteroClock := (punteroClock + 1) % cache.Length;
        i := i + 1;
      }
      return -1, i;
    }

    /** CLOCK-M: at most two rounds of the two scans. */
    method ElegirClockM() returns (v: nat)
      requires Forma() && cache.Length > 0
      modifies this`punteroClock, cache
      ensures Forma() && v < cache.Length
      ensures EsVictima(ClockM, old(cache[..]), old(punteroClock), v)
      ensures Bajados(ClockM, old(cache[..]), cache[..], old(punteroClock), v)
    {
      ghost var a, p := cache[..], punteroClock;
      ghost var ronda := 0;
      while true
        invariant Forma() && ronda <= 1 && punteroClock == p
        invariant if ronda == 0 then cache[..] == a else TodasBajadas(a, cache[..])
        decreases 1 - ronda
      {
        var encontrada := BuscarLimpia();
        if encontrada != -1 {
          if ronda == 0 { VictimaLimpia(a, p, encontrada); } else { VictimaSegundaLimpia(a, cache[..], p, encontrada); }
          return encontrada;
        }
        ghost var b := cache[..];
        assert Dist(p, p, |a|) == 0 && (ronda == 1 ==> Sucia(b[p]));
        ghost var k: nat;
        encontrada, k := BajarHastaSucia();
        if encontrada != -1 {
          if ronda == 0 {
            VictimaSucia(a, cache[..], p, k, encontrada);
          } else {
            VictimaPuntero(a, b, p);
            assert k == 0 && cache[..] == b;
          }
          return encontrada;
        }
        RondaCompleta(a, cache[..], p);
        ronda := ronda + 1;
      }
    }

    method ElegirVictima() returns (v: nat)
      requires Forma() && cache.Length > 0 && Hueco(cache[..]) == cache.Length && !algCache.CacheDesconocido?
      modifies this`punteroClock, cache
      ensures Forma() && v < cache.Length
      ensures EsVictima(algCache, old(cache[..]), old(punteroClock), v)
      ensures Bajados(algCache, old(cache[..]), cache[..], old(punteroClock), v)
      ensures algCache == Clock ==> punteroClock == v
    {
      if algCache == Clock {
        v := ElegirClock();
      } else {
        v := ElegirClockM();
      }
    }

    /** Entry i goes back to memory if it was modified, and x takes its place. */
    method Desalojar(i: nat, x: EntradaCache)
      requires MemOk() && i < cache.Length && EntradaOk(cache[i], Ent(), tamPagina) && cache[i].ocupado
      modifies cache, mem.memoriaUsuario
      ensures MemOk() && Ent() == TrasDesalojo(old(cache[i]), old(Ent()))
      ensures cache[..] == old(cache[..])[i := x]
    {
      if cache[i].modificado {
        EnviarPagina(cache[i].marco, cache[i].contenido);
      }
      cache[i] := x;
    }

    /** seleccionar_victima_cache: sweep, write the victim back if it was modified, put x in
        its place. With an unknown policy name nothing happens. */
    method SeleccionarVictima(x: EntradaCache)
      requires Forma() && MemOk() && cache.Length > 0 && Hueco(cache[..]) == cache.Length
      requires CacheOk(cache[..], Ent(), tamPagina)
      modifies this`punteroClock, cache, mem.memoriaUsuario
      ensures Forma() && MemOk()
      ensures Insertada(algCache, old(cache[..]), old(punteroClock), old(Ent()), x, cache[..], punteroClock, Ent())
    {
      if algCache.CacheDesconocido? {
        return;
      }
      Sustituir(x);
    }

    method Sustituir(x: EntradaCache)
      requires Forma() && MemOk() && cache.Length > 0 && Hueco(cache[..]) == cache.Length && !algCache.CacheDesconocido?
      requires CacheOk(cache[..], Ent(), tamPagina)
      modifies this`punteroClock, cache, mem.memoriaUsuario
      ensures Forma() && MemOk()
      ensures Insertada(algCache, old(cache[..]), old(punteroClock), old(Ent()), x, cache[..], punteroClock, Ent())
    {
      ghost var a, p, e := cache[..], punteroClock, Ent();
      var i := VictimaDesalojable(x, a, p, e);
      Desalojar(i, x);
      Avanzar(i);
    }

    method Avanzar(i: nat)
      requires Forma() && i < cache.Length && (algCache == Clock ==> punteroClock == i) && !algCache.CacheDesconocido?
      modifies this`punteroClock
      ensures Forma() && punteroClock == if algCache == Clock then i else (i + 1) % cache.Length
    {
      if algCache == ClockM {
        punteroClock := (i + 1) % cache.Length;
      }
    }

    /** The sweep, with what its outcome means for the insertion of x. */
    method VictimaDesalojable(ghost x: EntradaCache, ghost a: seq<EntradaCache>, ghost p: nat, ghost e: Entorno) returns (i: nat)
      requires a == cache[..] && p == punteroClock && Forma() && cache.Length > 0 && Hueco(a) == cache.Length && !algCache.CacheDesconocido?
      requires CacheOk(a, e, tamPagina)
      modifies this`punteroClock, cache
      ensures Forma() && i < cache.Length && (algCache == Clock ==> punteroClock == i)
      ensures EntradaOk(cache[i], e, tamPagina) && cache[i].ocupado && (p < |a| || a == [])
      ensures Insertada(algCache, a, p, e, x, cache[..][i := x],
                        if algCache == Clock then i else (i + 1) % cache.Length, TrasDesalojo(cache[i], e))
    {
      i := ElegirVictima();
      SustituidaDesde(algCache, a, p, e, x, i, cache[..], tamPagina);
    }

    method BuscarHueco() returns (i: nat)
      ensures i == Hueco(cache[..])
    {
      i := 0;
      while i < cache.Length && cache[i].ocupado
        invariant 0 <= i <= cache.Length
        invariant forall j :: 0 <= j < i ==> cache[j].ocupado
      {
        i := i + 1;
      }
    }

    /** insertar_en_cache: the first free entry, else the victim's. */
    method Colocar(x: EntradaCache)
      requires Forma() && MemOk() && CacheOk(cache[..], Ent(), tamPagina)
      modifies this`punteroClock, cache, mem.memoriaUsuario
      ensures Forma() && MemOk()
      ensures Insertada(algCache, old(cache[..]), old(punteroClock), old(Ent()), x, cache[..], punteroClock, Ent())
    {
      var i := BuscarHueco();
      if i < cache.Length {
        cache[i] := x;
      } else if cache.Length > 0 {
        SeleccionarVictima(x);
      }
    }

    method Cachear(c: Clave, marco: nat, contenido: Pagina, modificado: bool)
      requires Ok() && Donde(cache[..], c) == cache.Length
      requires Nueva(EntradaCache(true, c.pid, c.pag, marco, contenido, true, modificado), Ent(), c, tamPagina)
      modifies this`punteroClock, cache, mem.memoriaUsuario
      ensures Ok() && Guardada(algCache, old(cache[..]), old(punteroClock), old(Ent()), cache[..], punteroClock, Ent(), c, contenido, modificado)
    {
      InsertarEnCache(c, marco, contenido, modificado);
    }

    method InsertarEnCache(c: Clave, marco: nat, contenido: Pagina, modificado: bool)
      requires CacheSana() && Donde(cache[..], c) == cache.Length
      requires Nueva(EntradaCache(true, c.pid, c.pag, marco, contenido, true, modificado), Ent(), c, tamPagina)
      modifies this`punteroClock, cache, mem.memoriaUsuario
      ensures CacheSana()
      ensures Insertada(algCache, old(cache[..]), old(punteroClock), old(Ent()),
                        EntradaCache(true, c.pid, c.pag, marco, contenido, true, modificado),
                        cache[..], punteroClock, Ent())
      ensures Guardada(algCache, old(cache[..]), old(punteroClock), old(Ent()), cache[..], punteroClock, Ent(), c, contenido, modificado)
    {
      ghost var a, p, e := cache[..], punteroClock, Ent();
      var x := EntradaCache(true, c.pid, c.pag, marco, contenido, true, modificado);
      Colocar(x);
      InsertadaVista(algCache, a, p, e, x, cache[..], punteroClock, Ent(), tamPagina, c);
      InsercionEnFichas(algCache, a, p, e, x, cache[..], punteroClock, Ent(), c);
    }

    /** The body of the flush: write back if modified, then free. */
    method LimpiarEntrada(i: nat)
      requires CacheSana() && i < cache.Length && cache[i].ocupado
      modifies cache, mem.memoriaUsuario
      ensures CacheSana() && Ent() == TrasDesalojo(old(cache[i]), old(Ent()))
      ensures cache[..] == old(cache[..])[i := CACHE_LIBRE]
      ensures RutasOk(old(Ent())) && RutasOk(Ent()) && MismaVista(old(cache[..]), old(Ent()), cache[..], Ent())
      ensures SoloCambia(old(Ent()), Ent(), old(cache[i]).pid)
    {
      ghost var a, e := cache[..], Ent();
      QuitarVista(a, e, tamPagina, i, CACHE_LIBRE);
      DesalojoSoloCambia(a, e, tamPagina, i, cache[i].pid);
      assert EntradaOk(a[i], e, tamPagina);
      Desalojar(i, CACHE_LIBRE);
    }

    method LimpiarSiEs(i: nat, pid: int, ghost a: seq<EntradaCache>, ghost e0: Entorno)
      requires CacheSana() && i < cache.Length && EnLimpieza(a, e0, cache[..], Ent(), pid, CACHE_LIBRE, i)
      modifies cache, mem.memoriaUsuario
      ensures CacheSana() && EnLimpieza(a, e0, cache[..], Ent(), pid, CACHE_LIBRE, i + 1)
    {
      ghost var b, e := cache[..], Ent();
      if cache[i].ocupado && cache[i].pid == pid {
        LimpiarEntrada(i);
      }
      LimpiezaSigue(a, e0, b, e, cache[..], Ent(), pid, CACHE_LIBRE, i);
    }

    /** limpiar_cache_de_proceso: write back and free every entry of `pid`. */
    method LimpiarCacheDeProceso(pid: int)
      requires CacheSana()
      modifies cache, mem.memoriaUsuario
      ensures CacheSana()
      ensures Limpiadas(old(cache[..]), cache[..], pid, CACHE_LIBRE, cache.Length)
      ensures MismaVista(old(cache[..]), old(Ent()), cache[..], Ent())
      ensures TodoEnRam(old(cache[..]), old(Ent()), Ent(), pid)
      ensures SoloCambia(old(Ent()), Ent(), pid)
    {
      ghost var a, e0 := cache[..], Ent();
      SoloCambiaRefleja(e0, tamPagina, pid);
      var i := 0;
      while i < cache.Length
        invariant 0 <= i <= cache.Length && CacheSana() && EnLimpieza(a, e0, cache[..], Ent(), pid, CACHE_LIBRE, i)
      {
        LimpiarSiEs(i, pid, a, e0);
        i := i + 1;
      }
      LimpiadasVista(a, e0, cache[..], Ent(), pid, CACHE_LIBRE);
    }

    // ------------------------------------------------------------ READ and WRITE

    /** READ: the bytes it copies out, or None for a segmentation fault. Whatever the cache and
        the TLB are and do, they are the bytes of the page as seen before, and no page reads
        differently afterwards. */
    method Read(pid: int, dl: nat, tam: nat, ahora: nat) returns (r: Option<seq<byte>>)
      requires Entra(pid)
      requires Ok()
      modifies this`punteroClock, this`punteroFifo, this`accesos, cache, tlb, mem.memoriaUsuario
      ensures Ok() && Leida(algCache, old(cache[..]), old(punteroClock), old(Ent()), cache[..], punteroClock, Ent(), Clave(pid, ObtenerPagina(dl, tamPagina)), r.Some?)
      ensures r == Lectura(old(Ve(Clave(pid, ObtenerPagina(dl, tamPagina)))), tamPagina, ObtenerOffset(dl, tamPagina), tam)
      ensures (r.Some? ==> Usada(cache[..], Clave(pid, ObtenerPagina(dl, tamPagina)), false)) && MismoUso(old(cache[..]), cache[..], Clave(pid, ObtenerPagina(dl, tamPagina)))
      ensures SoloDeTlb(old(tlb[..]), pid) ==> SoloDeTlb(tlb[..], pid)
    {
      ghost var a, p, e := cache[..], punteroClock, Ent();
      r := LeerTramo(Clave(pid, ObtenerPagina(dl, tamPagina)), dl, ObtenerOffset(dl, tamPagina), tam, ahora);
      UsoTrasAcceso(algCache, a, p, e, tamPagina, cache[..], punteroClock, r.Some?, Clave(pid, ObtenerPagina(dl, tamPagina)), false);
    }

    method LeerTramo(c: Clave, dl: nat, desde: nat, tam: nat, ahora: nat) returns (r: Option<seq<byte>>)
      requires Entra(c.pid)
      requires Ok() && c.pag == dl / tamPagina
      modifies this`punteroClock, this`punteroFifo, this`accesos, cache, tlb, mem.memoriaUsuario
      ensures Ok() && Leida(algCache, old(cache[..]), old(punteroClock), old(Ent()), cache[..], punteroClock, Ent(), c, r.Some?) && r == Lectura(old(Ve(c)), tamPagina, desde, tam)
      ensures SoloDeTlb(old(tlb[..]), c.pid) ==> SoloDeTlb(tlb[..], c.pid)
    {
      SoloCambiaRefleja(Ent(), tamPagina, c.pid);
      VistaSiiRuta(cache[..], Ent(), tamPagina, c);
      if desde + tam > tamPagina {
        return None;
      }
      var pagina := LeerPaginaLogica(c, dl, ahora);
      r := if pagina.None? then None else Some(pagina.valor[desde..desde + tam]);
    }

    method LeerPaginaLogica(c: Clave, dl: nat, ahora: nat) returns (pagina: Option<Pagina>)
      requires Entra(c.pid)
      requires Ok() && c.pag == dl / tamPagina
      modifies this`punteroClock, this`punteroFifo, this`accesos, cache, tlb, mem.memoriaUsuario
      ensures Ok() && Leida(algCache, old(cache[..]), old(punteroClock), old(Ent()), cache[..], punteroClock, Ent(), c, pagina.Some?) && pagina == old(Ve(c))
      ensures SoloDeTlb(old(tlb[..]), c.pid) ==> SoloDeTlb(tlb[..], c.pid)
    {
      var i := BuscarEnCache(c);
      if i < cache.Length {
        pagina := LeerEntrada(c, i);
      } else {
        pagina := LeerConFallo(c, dl, ahora);
      }
    }

    method LeerEntrada(c: Clave, i: nat) returns (pagina: Option<Pagina>)
      requires Ok() && i < cache.Length && i == Donde(cache[..], c)
      modifies cache
      ensures Ok() && Leida(algCache, old(cache[..]), old(punteroClock), old(Ent()), cache[..], punteroClock, Ent(), c, pagina.Some?) && pagina == old(Ve(c)) && pagina.Some?
    {
      ghost var a := cache[..];
      SoloCambiaRefleja(Ent(), tamPagina, c.pid);
      assert EntradaOk(a[i], Ent(), tamPagina);
      pagina := Some(cache[i].contenido);
      UsoNoImporta(a, a[i := a[i].(uso := true)], Ent(), tamPagina);
      cache[i] := cache[i].(uso := true);
      assert cache[..] == a[i := a[i].(uso := true)];
      AciertoEnFichas(algCache, a, punteroClock, c, false, cache[i]);
    }

    /** The missed READ: translate, fetch the whole page, cache it. */
    method LeerConFallo(c: Clave, dl: nat, ahora: nat) returns (pagina: Option<Pagina>)
      requires Entra(c.pid)
      requires Ok() && Donde(cache[..], c) == cache.Length && c.pag == dl / tamPagina
      modifies this`punteroClock, this`punteroFifo, this`accesos, cache, tlb, mem.memoriaUsuario
      ensures Ok() && Leida(algCache, old(cache[..]), old(punteroClock), old(Ent()), cache[..], punteroClock, Ent(), c, pagina.Some?) && pagina == old(Ve(c)) && (pagina.Some? ==> |pagina.valor| == tamPagina)
      ensures SoloDeTlb(old(tlb[..]), c.pid) ==> SoloDeTlb(tlb[..], c.pid)
    {
      ghost var a, e := cache[..], Ent();
      VistaSiiRuta(a, e, tamPagina, c);
      SoloCambiaRefleja(e, tamPagina, c.pid);
      var marco := Marco(c, dl, ahora, false);
      if marco == -1 {
        return None;
      }
      pagina := TraerPagina(c, marco);
    }

    method TraerPagina(c: Clave, marco: nat) returns (pagina: Option<Pagina>)
      requires Ok() && Donde(cache[..], c) == cache.Length && c in Ent().rutas && marco == Ent().rutas[c]
      modifies this`punteroClock, cache, mem.memoriaUsuario
      ensures Ok() && Leida(algCache, old(cache[..]), old(punteroClock), old(Ent()), cache[..], punteroClock, Ent(), c, true) && pagina == old(Ve(c)) && pagina.Some? && |pagina.valor| == tamPagina
    {
      VistaSiiRuta(cache[..], Ent(), tamPagina, c);
      var p := LeerPagina(marco);
      Cachear(c, marco, p, false);
      pagina := Some(p);
    }

    /** WRITE: it fails exactly when it would leave the page or the page cannot be reached;
        otherwise exactly those bytes of that page read differently afterwards - except that
        an unknown policy name loses a missed write to a full cache. */
    method Write(pid: int, dl: nat, datos: seq<byte>, ahora: nat) returns (ok: bool)
      requires Entra(pid)
      requires Ok()
      modifies this`punteroClock, this`punteroFifo, this`accesos, cache, tlb, mem.memoriaUsuario
      ensures ok == CabeEn(old(Ve(Clave(pid, ObtenerPagina(dl, tamPagina)))), tamPagina, ObtenerOffset(dl, tamPagina), |datos|)
      ensures Ok() && EscritaEn(algCache, old(cache[..]), old(punteroClock), old(Ent()), cache[..], punteroClock, Ent(), Clave(pid, ObtenerPagina(dl, tamPagina)), ok, old(Ve(Clave(pid, ObtenerPagina(dl, tamPagina)))), ObtenerOffset(dl, tamPagina), datos)
      ensures (ok ==> Usada(cache[..], Clave(pid, ObtenerPagina(dl, tamPagina)), true)) && MismoUso(old(cache[..]), cache[..], Clave(pid, ObtenerPagina(dl, tamPagina)))
      ensures SoloDeTlb(old(tlb[..]), pid) ==> SoloDeTlb(tlb[..], pid)
    {
      ghost var a, p, e := cache[..], punteroClock, Ent();
      ok := EscribirTramo(Clave(pid, ObtenerPagina(dl, tamPagina)), dl, ObtenerOffset(dl, tamPagina), datos, ahora);
      UsoTrasAcceso(algCache, a, p, e, tamPagina, cache[..], punteroClock, ok, Clave(pid, ObtenerPagina(dl, tamPagina)), true);
    }

    method EscribirTramo(c: Clave, dl: nat, desde: nat, datos: seq<byte>, ahora: nat) returns (ok: bool)
      requires Entra(c.pid)
      requires Ok() && c.pag == dl / tamPagina
      modifies this`punteroClock, this`punteroFifo, this`accesos, cache, tlb, mem.memoriaUsuario
      ensures Ok() && EscritaEn(algCache, old(cache[..]), old(punteroClock), old(Ent()), cache[..], punteroClock, Ent(), c, ok, old(Ve(c)), desde, datos)
      ensures ok == CabeEn(old(Ve(c)), tamPagina, desde, |datos|)
      ensures SoloDeTlb(old(tlb[..]), c.pid) ==> SoloDeTlb(tlb[..], c.pid)
    {
      VistaSiiRuta(cache[..], Ent(), tamPagina, c);
      SoloCambiaRefleja(Ent(), tamPagina, c.pid);
      if desde + |datos| > tamPagina {
        return false;
      }
      if cache.Length > 0 {
        ok := EscribirEnCache(c, dl, desde, datos);
      } else {
        ok := EscribirSinCache(c, dl, desde, datos, ahora);
      }
    }

    /** WRITE with a cache: in its entry if it has one, else in a new one. */
    method EscribirEnCache(c: Clave, dl: nat, desde: nat, datos: seq<byte>) returns (ok: bool)
      requires Entra(c.pid)
      requires Ok() && cache.Length > 0 && c.pag == dl / tamPagina && desde + |datos| <= tamPagina
      modifies this`punteroClock, cache, mem.memoriaUsuario
      ensures Ok() && EscritaEn(algCache, old(cache[..]), old(punteroClock), old(Ent()), cache[..], punteroClock, Ent(), c, ok, old(Ve(c)), desde, datos)
      ensures ok == old(Ve(c)).Some? && (ok ==> |old(Ve(c)).valor| == tamPagina)
    {
      SoloCambiaRefleja(Ent(), tamPagina, c.pid);
      var i := BuscarEnCache(c);
      if i < cache.Length {
        EscribirEntrada(c, i, desde, datos);
        ok := true;
      } else {
        ok := EscribirConFallo(c, dl, desde, datos);
      }
    }

    method EscribirEntrada(c: Clave, i: nat, desde: nat, datos: seq<byte>)
      requires Ok() && i < cache.Length && i == Donde(cache[..], c) && desde + |datos| <= tamPagina
      modifies cache
      ensures Ok() && EscritaEn(algCache, old(cache[..]), old(punteroClock), old(Ent()), cache[..], punteroClock, Ent(), c, true, old(Ve(c)), desde, datos)
      ensures old(Ve(c)).Some? && |old(Ve(c)).valor| == tamPagina
    {
      ghost var a, e := cache[..], Ent();
      VistaSiiRuta(a, e, tamPagina, c);
      SoloCambiaRefleja(e, tamPagina, c.pid);
      assert EntradaOk(a[i], e, tamPagina);
      var nuevo := Pegar(cache[i].contenido, desde, datos);
      EscrituraEnCache(a, e, tamPagina, i, c, nuevo);
      cache[i] := cache[i].(contenido := nuevo, modificado := true, uso := true);
      assert cache[..] == a[i := a[i].(contenido := nuevo, modificado := true, uso := true)];
      AciertoEnFichas(algCache, a, punteroClock, c, true, cache[i]);
    }

    /** The missed WRITE: it asks memory for the translation without going to the TLB. */
    method EscribirConFallo(c: Clave, dl: nat, desde: nat, datos: seq<byte>) returns (ok: bool)
      requires Entra(c.pid)
      requires Ok() && cache.Length > 0 && Donde(cache[..], c) == cache.Length && c.pag == dl / tamPagina
      requires desde + |datos| <= tamPagina
      modifies this`punteroClock, cache, mem.memoriaUsuario
      ensures Ok() && EscritaEn(algCache, old(cache[..]), old(punteroClock), old(Ent()), cache[..], punteroClock, Ent(), c, ok, old(Ve(c)), desde, datos)
      ensures ok == old(Ve(c)).Some? && (ok ==> |old(Ve(c)).valor| == tamPagina)
    {
      ghost var a, e := cache[..], Ent();
      VistaSiiRuta(a, e, tamPagina, c);
      SoloCambiaRefleja(e, tamPagina, c.pid);
      var marco := PedirTraduccion(c.pid, dl);
      if marco == -1 {
        return false;
      }
      var pagina := LeerPagina(marco);
      Cachear(c, marco, Pegar(pagina, desde, datos), true);
      ok := true;
    }

    /** WRITE with no cache: straight to the frame. */
    method EscribirSinCache(c: Clave, dl: nat, desde: nat, datos: seq<byte>, ahora: nat) returns (ok: bool)
      requires Entra(c.pid)
      requires Ok() && cache.Length == 0 && c.pag == dl / tamPagina && desde + |datos| <= tamPagina
      modifies this`punteroFifo, this`accesos, tlb, mem.memoriaUsuario
      ensures Ok() && EscritaEn(algCache, old(cache[..]), old(punteroClock), old(Ent()), cache[..], punteroClock, Ent(), c, ok, old(Ve(c)), desde, datos)
      ensures ok == old(Ve(c)).Some? && (ok ==> |old(Ve(c)).valor| == tamPagina)
      ensures SoloDeTlb(old(tlb[..]), c.pid) ==> SoloDeTlb(tlb[..], c.pid)
    {
      ghost var a, e := cache[..], Ent();
      VistaSiiRuta(a, e, tamPagina, c);
      SoloCambiaRefleja(e, tamPagina, c.pid);
      var marco := Marco(c, dl, ahora, true);
      if marco == -1 {
        return false;
      }
      EscrituraDirecta(a, e, tamPagina, c, Pegar(e.ram[marco], desde, datos));
      EscrituraSoloCambia(e, tamPagina, c, Pegar(e.ram[marco], desde, datos));
      EscribirBytesEn(marco, desde, datos);
      SinEntradas(algCache, punteroClock, c, true);
      ok := true;
    }

    // ------------------------------------------------------------ instructions and bursts

    // In the middle of a burst of `pid`: only its pages are cached, the page table covers its
    // n pages, and the replacement policy is one of the two.
    ghost predicate EnMarcha(pid: int, n: nat)
      reads this`punteroClock, this`punteroFifo, this`accesos, this`historial, cache, tlb, mem, mem.bitmapMarcos, mem.memoriaUsuario
    {
      && Ok() && Entra(pid) && SoloDe(cache[..], pid) && SoloDeTlb(tlb[..], pid) && Residentes(Ent(), pid, n) && !algCache.CacheDesconocido?
      && P.Entera(tamPagina, MemPlana(cache[..], Ent(), pid, n)) && Girada()
    }

    // The cache and its pointer are what the accesses of the burst make of an empty cache.
    ghost predicate Girada()
      reads this`punteroClock, this`historial, cache
    {
      Girado(algCache, cache[..], punteroClock, historial)
    }

    /** What the two bits of an entry say at any time of a burst. */
    lemma {:induction false} CacheSegunPolitica(pid: int, n: nat, i: nat)
      requires EnMarcha(pid, n) && i < cache.Length && cache[i].ocupado
      ensures cache[i].pagina >= 0
      ensures var c := ClaveDe(cache[i]);
              && (cache[i].uso <==> UltimoToque(historial.toques, c) >= Pasada(algCache, cache.Length, historial.p0, historial.toques, i))
              && (cache[i].modificado <==> UltimaEscritura(historial.toques, c) >= Llegada(algCache, cache.Length, historial.p0, historial.toques, i))
    {
      GiradoEs(algCache, cache[..], punteroClock, historial);
      LosBitsDicen(algCache, cache.Length, historial.p0, historial.toques, i);
      assert Fichas(cache[..])[i] == Ficha(cache[i]);
    }

    ghost function Plana(pid: int, n: nat): seq<byte>
      reads this`punteroClock, this`punteroFifo, this`accesos, this`historial, cache, tlb, mem, mem.bitmapMarcos, mem.memoriaUsuario
      requires EnMarcha(pid, n)
    {
      MemPlana(cache[..], Ent(), pid, n)
    }

    // A burst begins with nothing accessed.
    ghost method Empezar()
      requires Forma() && Vacia()
      modifies this`historial
      ensures Girada()
    {
      historial := Historial(punteroClock, []);
      GiradoVacio(algCache, cache[..], punteroClock);
    }

    method LeerTocando(pid: int, dl: nat, tam: nat, ahora: nat) returns (r: Option<seq<byte>>)
      requires Entra(pid)
      requires Ok() && Girada()
      modifies this`punteroClock, this`punteroFifo, this`accesos, this`historial, cache, tlb, mem.memoriaUsuario
      ensures Ok() && Girada() && Leida(algCache, old(cache[..]), old(punteroClock), old(Ent()), cache[..], punteroClock, Ent(), Clave(pid, ObtenerPagina(dl, tamPagina)), r.Some?)
      ensures r == Lectura(old(Ve(Clave(pid, ObtenerPagina(dl, tamPagina)))), tamPagina, ObtenerOffset(dl, tamPagina), tam)
      ensures SoloDeTlb(old(tlb[..]), pid) ==> SoloDeTlb(tlb[..], pid)
    {
      ghost var a, p, h, t := cache[..], punteroClock, historial, Toque(Clave(pid, ObtenerPagina(dl, tamPagina)), false);
      if Lectura(Ve(t.clave), tamPagina, ObtenerOffset(dl, tamPagina), tam).Some? { historial := Historial(h.p0, h.toques + [t]); }
      r := Read(pid, dl, tam, ahora);
      if r.Some? { GiradoSigue(algCache, h, a, p, cache[..], punteroClock, t); }
    }

    method EscribirTocando(pid: int, dl: nat, datos: seq<byte>, ahora: nat) returns (ok: bool)
      requires Entra(pid)
      requires Ok() && Girada() && !algCache.CacheDesconocido?
      modifies this`punteroClock, this`punteroFifo, this`accesos, this`historial, cache, tlb, mem.memoriaUsuario
      ensures ok == CabeEn(old(Ve(Clave(pid, ObtenerPagina(dl, tamPagina)))), tamPagina, ObtenerOffset(dl, tamPagina), |datos|)
      ensures Ok() && Girada() && EscritaEn(algCache, old(cache[..]), old(punteroClock), old(Ent()), cache[..], punteroClock, Ent(), Clave(pid, ObtenerPagina(dl, tamPagina)), ok, old(Ve(Clave(pid, ObtenerPagina(dl, tamPagina)))), ObtenerOffset(dl, tamPagina), datos)
      ensures SoloDeTlb(old(tlb[..]), pid) ==> SoloDeTlb(tlb[..], pid)
    {
      ghost var a, p, h, t := cache[..], punteroClock, historial, Toque(Clave(pid, ObtenerPagina(dl, tamPagina)), true);
      if CabeEn(Ve(t.clave), tamPagina, ObtenerOffset(dl, tamPagina), |datos|) { historial := Historial(h.p0, h.toques + [t]); }
      ok := Write(pid, dl, datos, ahora);
      if ok { GiradoSigue(algCache, h, a, p, cache[..], punteroClock, t); }
    }

    /** READ over the flat store: the bytes are those of the store, and the store stays. */
    method LeerPlano(pid: int, dl: nat, tam: nat, ahora: nat, ghost n: nat) returns (r: Option<seq<byte>>)
      requires EnMarcha(pid, n)
      modifies this`punteroClock, this`punteroFifo, this`accesos, this`historial, cache, tlb, mem.memoriaUsuario
      ensures EnMarcha(pid, n) && Plana(pid, n) == old(Plana(pid, n)) && SoloCambia(old(Ent()), Ent(), pid)
      ensures r.Some? <==> P.EnPagina(tamPagina, old(Plana(pid, n)), dl, tam)
      ensures r.Some? ==> dl + tam <= |old(Plana(pid, n))| && r.valor == old(Plana(pid, n))[dl..dl + tam]
    {
      ghost var a, e := cache[..], Ent();
      LecturaPlana(a, e, tamPagina, pid, n, dl, tam);
      r := LeerTocando(pid, dl, tam, ahora);
      PlanaMisma(a, e, cache[..], Ent(), pid, n);
    }

    /** WRITE over the flat store: exactly those bytes of it change. */
    method EscribirPlano(pid: int, dl: nat, datos: seq<byte>, ahora: nat, ghost n: nat) returns (ok: bool)
      requires EnMarcha(pid, n)
      modifies this`punteroClock, this`punteroFifo, this`accesos, this`historial, cache, tlb, mem.memoriaUsuario
      ensures EnMarcha(pid, n) && SoloCambia(old(Ent()), Ent(), pid)
      ensures ok <==> P.EnPagina(tamPagina, old(Plana(pid, n)), dl, |datos|)
      ensures ok ==> dl + |datos| <= |old(Plana(pid, n))|
      ensures Plana(pid, n) == if ok then Pegar(old(Plana(pid, n)), dl, datos) else old(Plana(pid, n))
    {
      ghost var a, e := cache[..], Ent();
      AccesoPlano(a, e, tamPagina, pid, n, dl, |datos|);
      ok := EscribirTocando(pid, dl, datos, ahora);
      if ok {
        EscrituraPlana(a, e, cache[..], Ent(), tamPagina, pid, n, dl, datos);
      } else {
        PlanaMisma(a, e, cache[..], Ent(), pid, n);
      }
    }

    /** ejecutar_instruccion: one instruction of the program means what it means over the flat
        store. `enviadas` are the system calls sent to the kernel on the spot. */
    method EjecutarInstruccion(pid: int, i: P.Instruccion, pc: int, ahora: nat, ghost n: nat, ghost antes: seq<P.Instruccion>)
      returns (r: P.Resultado, sigue: int, enviadas: seq<P.Instruccion>)
      requires EnMarcha(pid, n)
      modifies this`punteroClock, this`punteroFifo, this`accesos, this`historial, cache, tlb, mem.memoriaUsuario
      ensures EnMarcha(pid, n) && SoloCambia(old(Ent()), Ent(), pid)
      ensures (r, P.Plano(sigue, Plana(pid, n), antes + enviadas))
           == P.Ejecutar(tamPagina, i, P.Plano(pc, old(Plana(pid, n)), antes))
      ensures P.Hecha(tamPagina, i, P.Plano(pc, old(Plana(pid, n)), antes), r, P.Plano(sigue, Plana(pid, n), antes + enviadas))
    {
      P.UnaInstruccion(tamPagina, i, P.Plano(pc, Plana(pid, n), antes));
      SoloCambiaRefleja(Ent(), tamPagina, pid);
      sigue, enviadas := pc, [];
      assert antes + [] == antes;
      match i
      case Noop => r := P.EjecucionOk;
      case Leer(dl, tam) =>
        var leido := LeerPlano(pid, dl, tam, ahora, n);
        r := if leido.Some? then P.EjecucionOk else P.SegmentationFault;
      case Escribir(dl, datos) =>
        var ok := EscribirPlano(pid, dl, datos, ahora, n);
        r := if ok then P.EjecucionOk else P.SegmentationFault;
      case Goto(destino) =>
        sigue := destino;
        r := P.EjecucionOk;
      case Exit => r := P.FinalizadoExit;
      case Io(_, _) =>
        sigue := pc + 1;
        r := P.BloqueadoIo;
      case IoInvalida => r := P.ErrorFatal;
      case InitProc(_, _) =>
        enviadas := [i];
        r := P.EjecucionOk;
      case DumpMemory =>
        sigue := pc + 1;
        r := P.BloqueadoDump;
      case Desconocida => r := P.ErrorFatal;
    }

    /** What the others ask of memory between two instructions of `pid`. */
    method Convivir(pid: int, otros: seq<Pedido>, ghost n: nat)
      requires EnMarcha(pid, n) && TodosAjenos(otros, pid)
      modifies mem, mem.bitmapMarcos, mem.memoriaUsuario
      ensures EnMarcha(pid, n) && Plana(pid, n) == old(Plana(pid, n))
      ensures otros == [] ==> Ent() == old(Ent())
    {
      var i := 0;
      while i < |otros|
        invariant 0 <= i <= |otros| && EnMarcha(pid, n) && Plana(pid, n) == old(Plana(pid, n))
        invariant i == 0 ==> Ent() == old(Ent())
      {
        ConvivirUno(pid, otros[i], n);
        i := i + 1;
      }
    }

    lemma {:induction false} EntraSii(pid: int)
      requires mem.Sana()
      ensures Entra(pid) <==> CabeEnTablas(mem.CfgDe(), mem.Est(), pid)
    {
    }

    method ConvivirUno(pid: int, p: Pedido, ghost n: nat)
      requires EnMarcha(pid, n) && Ajeno(p, pid)
      modifies mem, mem.bitmapMarcos, mem.memoriaUsuario
      ensures EnMarcha(pid, n) && Plana(pid, n) == old(Plana(pid, n))
    {
      ServirAjeno(pid, p, cache[..], tlb[..], n);
    }

    /** A request of another process, seen from what this CPU holds. */
    method ServirAjeno(pid: int, p: Pedido, ghost a: seq<EntradaCache>, ghost t: seq<EntradaTlb>, ghost n: nat)
      requires MemOk() && Entra(pid) && Ajeno(p, pid)
      requires CacheOk(a, Ent(), tamPagina) && SoloDe(a, pid) && TlbOk(t, Ent().rutas) && SoloDeTlb(t, pid)
      modifies mem, mem.bitmapMarcos, mem.memoriaUsuario
      ensures MemOk() && Entra(pid) && CacheOk(a, Ent(), tamPagina) && TlbOk(t, Ent().rutas)
      ensures Residentes(old(Ent()), pid, n) ==> Residentes(Ent(), pid, n)
      ensures RutasOk(old(Ent())) && RutasOk(Ent()) && MemPlana(a, Ent(), pid, n) == MemPlana(a, old(Ent()), pid, n)
    {
      ghost var m := mem.Est();
      EntraSii(pid);
      if Legal(m, p) { PedidoAislado(mem.CfgDe(), m, p, a, t, pid, n); }
      var _ := mem.Servir(p);
      EntraSii(pid);
    }

    /** The loop of ciclo_instruccion. An interrupt is found pending after instruction number
        `plazo`, if the burst gets there; after instruction k the others make the requests
        `otros(k)` of the memory. */
    method Ciclo(pid: int, prog: seq<P.Instruccion>, pc: int, plazo: nat, reloj: nat -> nat, otros: nat -> seq<Pedido>, ghost n: nat, ghost antes: seq<P.Instruccion>)
      returns (sigue: int, motivo: P.Motivo, enviadas: seq<P.Instruccion>)
      requires EnMarcha(pid, n) && plazo > 0 && DeOtros(otros, pid)
      modifies this`punteroClock, this`punteroFifo, this`accesos, this`historial, cache, tlb, mem, mem.bitmapMarcos, mem.memoriaUsuario
      ensures EnMarcha(pid, n) && (Solos(otros) ==> SoloCambia(old(Ent()), Ent(), pid))
      ensures (P.Plano(sigue, Plana(pid, n), antes + enviadas), motivo)
           == P.Rafaga(tamPagina, prog, P.Plano(pc, old(Plana(pid, n)), antes), plazo)
      ensures P.Recorre(tamPagina, prog, P.Plano(pc, old(Plana(pid, n)), antes), plazo, P.Plano(sigue, Plana(pid, n), antes + enviadas), motivo)
    {
      P.RafagaRecorre(tamPagina, prog, P.Plano(pc, Plana(pid, n), antes), plazo);
      sigue, motivo, enviadas := Vueltas(pid, prog, pc, plazo, reloj, otros, n, antes);
    }

    method Vueltas(pid: int, prog: seq<P.Instruccion>, pc: int, plazo: nat, reloj: nat -> nat, otros: nat -> seq<Pedido>, ghost n: nat, ghost antes: seq<P.Instruccion>)
      returns (sigue: int, motivo: P.Motivo, enviadas: seq<P.Instruccion>)
      requires EnMarcha(pid, n) && plazo > 0 && DeOtros(otros, pid)
      modifies this`punteroClock, this`punteroFifo, this`accesos, this`historial, cache, tlb, mem, mem.bitmapMarcos, mem.memoriaUsuario
      ensures EnMarcha(pid, n) && (Solos(otros) ==> SoloCambia(old(Ent()), Ent(), pid))
      ensures (P.Plano(sigue, Plana(pid, n), antes + enviadas), motivo)
           == P.Rafaga(tamPagina, prog, P.Plano(pc, old(Plana(pid, n)), antes), plazo)
    {
      SoloCambiaRefleja(Ent(), tamPagina, pid);
      ghost var e0, fin := Ent(), P.Rafaga(tamPagina, prog, P.Plano(pc, Plana(pid, n), antes), plazo);
      sigue, enviadas := pc, [];
      assert antes + [] == antes;
      var hechas := 0;
      while true
        invariant hechas < plazo && EnMarcha(pid, n) && (Solos(otros) ==> SoloCambia(e0, Ent(), pid))
        invariant fin == P.Rafaga(tamPagina, prog, P.Plano(sigue, Plana(pid, n), antes + enviadas), plazo - hechas)
        decreases plazo - hechas
      {
        var i := P.Fetch(prog, sigue);
        if i.None? {
          motivo := P.MotivoFatal;
          return;
        }
        var r, t, env := Turno(pid, i.valor, sigue, reloj(hechas), otros(hechas), n, antes + enviadas, e0, Solos(otros));
        Asocia(antes, enviadas, env);
        sigue, enviadas, hechas := t, enviadas + env, hechas + 1;
        if hechas == plazo {
          motivo := P.MotivoInterrupcion;
          return;
        }
        if r != P.EjecucionOk {
          motivo := P.MotivoDe(r);
          return;
        }
        if !i.valor.Goto? {
          sigue := sigue + 1;
        }
      }
    }

    /** One instruction, and what the others ask before the next. */
    method Turno(pid: int, i: P.Instruccion, pc: int, ahora: nat, otros: seq<Pedido>, ghost n: nat, ghost antes: seq<P.Instruccion>, ghost e0: Entorno, ghost solos: bool)
      returns (r: P.Resultado, sigue: int, enviadas: seq<P.Instruccion>)
      requires EnMarcha(pid, n) && TodosAjenos(otros, pid) && (solos ==> otros == [] && SoloCambia(e0, Ent(), pid))
      modifies this`punteroClock, this`punteroFifo, this`accesos, this`historial, cache, tlb, mem, mem.bitmapMarcos, mem.memoriaUsuario
      ensures EnMarcha(pid, n) && (solos ==> SoloCambia(e0, Ent(), pid))
      ensures (r, P.Plano(sigue, Plana(pid, n), antes + enviadas))
           == P.Ejecutar(tamPagina, i, P.Plano(pc, old(Plana(pid, n)), antes))
    {
      ghost var e := Ent();
      r, sigue, enviadas := EjecutarInstruccion(pid, i, pc, ahora, n, antes);
      if solos { SoloCambiaTransitiva(e0, e, Ent(), pid); }
      Convivir(pid, otros, n);
    }

    method Limpiar(pid: int, ghost n: nat)
      requires EnMarcha(pid, n)
      modifies this`punteroFifo, this`accesos, this`historial, cache, tlb, mem.memoriaUsuario
      ensures EnMarcha(pid, n) && Vacia() && Plana(pid, n) == old(Plana(pid, n)) && SoloCambia(old(Ent()), Ent(), pid)
    {
      ghost var a, e := cache[..], Ent();
      LimpiarTodo(pid);
      Empezar();
      PlanaMisma(a, e, cache[..], Ent(), pid, n);
    }

    method LimpiarTodo(pid: int)
      requires Ok() && SoloDe(cache[..], pid)
      modifies this`punteroFifo, this`accesos, cache, tlb, mem.memoriaUsuario
      ensures Ok() && Vacia()
      ensures MismaVista(old(cache[..]), old(Ent()), cache[..], Ent()) && SoloCambia(old(Ent()), Ent(), pid)
    {
      LimpiarTlb();
      LimpiarCacheDeProceso(pid);
    }

    // The flush before a burst, and what the flat store is then.
    method ComenzarRafaga(pid: int, ghost n: nat)
      requires Ok() && Vacia() && Entra(pid) && Residentes(Ent(), pid, n) && !algCache.CacheDesconocido?
      modifies this`punteroFifo, this`accesos, this`historial, cache, tlb, mem.memoriaUsuario
      ensures EnMarcha(pid, n) && SoloCambia(old(Ent()), Ent(), pid) && Plana(pid, n) == old(C.Imagenes(mem.Est(), pid, n))
    {
      Empezar();
      PlanaEntera(cache[..], Ent(), tamPagina, pid, n);
      EntornoSano(mem.CfgDe(), mem.Est());
      PlanaEsImagen(cache[..], mem.Est(), Ent(), pid, n);
      Limpiar(pid, n);
    }

    // The flush after it.
    method TerminarRafaga(pid: int, ghost n: nat)
      requires EnMarcha(pid, n)
      modifies this`punteroFifo, this`accesos, this`historial, cache, tlb, mem.memoriaUsuario
      ensures Ok() && Vacia() && Residentes(Ent(), pid, n) && SoloCambia(old(Ent()), Ent(), pid)
      ensures C.Imagenes(mem.Est(), pid, n) == old(Plana(pid, n))
    {
      Limpiar(pid, n);
      EntornoSano(mem.CfgDe(), mem.Est());
      PlanaEsImagen(cache[..], mem.Est(), Ent(), pid, n);
    }

    /** One dispatched process, from an empty CPU to an empty CPU. The cache and the TLB leave
        no trace, and whatever the others ask of memory meanwhile makes no difference: the
        logical image that memory keeps (the one a dump writes) goes through the burst of the
        program over a flat store, and the burst changes no other page. */
    method AtenderPcb(pid: int, prog: seq<P.Instruccion>, pc: int, plazo: nat, reloj: nat -> nat, otros: nat -> seq<Pedido>, ghost n: nat, ghost antes: seq<P.Instruccion>)
      returns (sigue: int, motivo: P.Motivo, enviadas: seq<P.Instruccion>)
      requires Ok() && Vacia() && Entra(pid) && Residentes(Ent(), pid, n) && !algCache.CacheDesconocido? && plazo > 0
      requires DeOtros(otros, pid)
      modifies this`punteroClock, this`punteroFifo, this`accesos, this`historial, cache, tlb, mem, mem.bitmapMarcos, mem.memoriaUsuario
      ensures Ok() && Vacia() && Residentes(Ent(), pid, n) && (Solos(otros) ==> SoloCambia(old(Ent()), Ent(), pid))
      ensures P.Entera(tamPagina, old(C.Imagenes(mem.Est(), pid, n)))
      ensures E.EsRafaga(mem.CfgDe(), prog, pid, n, old(mem.Est()), pc, antes, E.Tramo(plazo, mem.Est(), sigue, enviadas, motivo, []))
      ensures (P.Plano(sigue, C.Imagenes(mem.Est(), pid, n), antes + enviadas), motivo)
           == P.Rafaga(tamPagina, prog, P.Plano(pc, old(C.Imagenes(mem.Est(), pid, n)), antes), plazo)
      ensures P.Recorre(tamPagina, prog, P.Plano(pc, old(C.Imagenes(mem.Est(), pid, n)), antes), plazo,
                        P.Plano(sigue, C.Imagenes(mem.Est(), pid, n), antes + enviadas), motivo)
    {
      ghost var e0 := Ent();
      ComenzarRafaga(pid, n);
      ghost var e1 := Ent();
      sigue, motivo, enviadas := Ciclo(pid, prog, pc, plazo, reloj, otros, n, antes);
      ghost var e2 := Ent();
      TerminarRafaga(pid, n);
      if Solos(otros) {
        SoloCambiaTransitiva(e0, e1, e2, pid);
        SoloCambiaTransitiva(e0, e2, Ent(), pid);
      }
    }
  }
}
