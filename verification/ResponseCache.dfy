/**
 The in-memory response cache. A miss runs a factory and stores its value when it resolves, so a
 call is two steps with any others in between: requests, resolutions of older factories, and
 deletions by prefix. Instants are milliseconds; the clock of a run never goes back.
 */
module ResponseCache {
  import opened Wrappers

  /** A computed value, labelled with the key it was computed for and when that computation began. */
  datatype Valor = Valor(clave: string, inicio: int, ttl: int, contenido: nat)

  datatype Entry = Entry(valor: Valor, expiresAt: int)

  /** A factory in flight, with the instant its caller read. */
  datatype Llamada = Llamada(clave: string, ttl: int, now: int)

  /** A value answered from the store. */
  datatype Acierto = Acierto(clave: string, t: int, valor: Valor)

  datatype Cache = Cache(store: map<string, Entry>, cleanupAt: int, vuelos: map<nat, Llamada>, aciertos: seq<Acierto>)

  function Vigente(store: map<string, Entry>, k: string, t: int): Option<Valor> {
    if k in store && store[k].expiresAt > t then Some(store[k].valor) else None
  }

  function SinVencidas(store: map<string, Entry>, now: int): map<string, Entry> {
    map k | k in store && store[k].expiresAt > now :: store[k]
  }

  function SinPrefijo(store: map<string, Entry>, p: string): map<string, Entry> {
    map k | k in store && !(p <= k) :: store[k]
  }

  datatype Evento =
    | Pedido(id: nat, clave: string, ttl: int, t: int)
    | Resuelto(id: nat, contenido: nat, t: int)
    | Rechazado(id: nat, t: int)
    | Borrado(prefijo: string, t: int)

  /** getOrSet up to its await. */
  function Pedir(c: Cache, id: nat, clave: string, ttl: int, t: int): Cache {
    match Vigente(c.store, clave, t)
    case Some(v) => c.(aciertos := c.aciertos + [Acierto(clave, t, v)])
    case None => if id in c.vuelos then c else c.(vuelos := c.vuelos[id := Llamada(clave, ttl, t)])
  }

  /** getOrSet after its await; the cleanup works with the instant read before the factory ran. */
  function Resolver(c: Cache, id: nat, contenido: nat, limpia: bool): Cache {
    if id !in c.vuelos then c
    else
      var f := c.vuelos[id];
      var store := c.store[f.clave := Entry(Valor(f.clave, f.now, f.ttl, contenido), f.now + f.ttl)];
      if !limpia || f.now < c.cleanupAt then Cache(store, c.cleanupAt, c.vuelos - {id}, c.aciertos)
      else Cache(SinVencidas(store, f.now), f.now + 60_000, c.vuelos - {id}, c.aciertos)
  }

  /** With `limpia` false this is the specification: a map with expiry that never cleans up. */
  function Paso(c: Cache, e: Evento, limpia: bool): Cache {
    match e
    case Pedido(id, clave, ttl, t) => Pedir(c, id, clave, ttl, t)
    case Resuelto(id, contenido, _) => Resolver(c, id, contenido, limpia)
    case Rechazado(id, _) => c.(vuelos := c.vuelos - {id})
    case Borrado(p, _) => c.(store := SinPrefijo(c.store, p))
  }

  function Correr(c: Cache, es: seq<Evento>, limpia: bool): Cache {
    if |es| == 0 then c else Paso(Correr(c, es[..|es| - 1], limpia), es[|es| - 1], limpia)
  }

  predicate EnOrden(es: seq<Evento>) {
    forall i, j :: 0 <= i < j < |es| ==> es[i].t <= es[j].t
  }

  const VACIA: Cache := Cache(map[], 0, map[], [])

  // ---------------------------------------------------------------- freshness

  predicate Fresco(a: Acierto) {
    a.valor.clave == a.clave && a.t - a.valor.ttl < a.valor.inicio <= a.t
  }

  ghost predicate CacheOk(c: Cache, t: int) {
    && (forall k :: k in c.store ==>
          c.store[k].valor.clave == k && c.store[k].expiresAt == c.store[k].valor.inicio + c.store[k].valor.ttl
          && c.store[k].valor.inicio <= t)
    && (forall id :: id in c.vuelos ==> c.vuelos[id].now <= t)
    && (forall i :: 0 <= i < |c.aciertos| ==> Fresco(c.aciertos[i]))
  }

  /**
   Every hit answers a value computed for its own key by a factory that began less than that
   value's time to live before the hit, whatever was deleted or resolved meanwhile.
   */
  lemma {:induction false} HitsAreFresh(es: seq<Evento>, t: int, limpia: bool)
    requires EnOrden(es) && forall i :: 0 <= i < |es| ==> es[i].t <= t
    ensures CacheOk(Correr(VACIA, es, limpia), t)
  {
    if |es| == 0 {
    } else {
      var u, e := es[..|es| - 1], es[|es| - 1];
      HitsAreFresh(u, e.t, limpia);
      PasoKeepsCache(Correr(VACIA, u, limpia), e, t, limpia);
    }
  }

  lemma PasoKeepsCache(c: Cache, e: Evento, t: int, limpia: bool)
    requires CacheOk(c, e.t) && e.t <= t
    ensures CacheOk(Paso(c, e, limpia), t)
  {
  }

  // ---------------------------------------------------------------- cleanup is unobservable

  /** From instant t on, the two caches answer alike. */
  ghost predicate Igual(a: Cache, b: Cache, t: int) {
    && a.vuelos == b.vuelos && a.aciertos == b.aciertos
    && (forall k, u :: u >= t ==> Vigente(a.store, k, u) == Vigente(b.store, k, u))
    && (forall id :: id in a.vuelos ==> a.vuelos[id].now <= t)
  }

  lemma PasoKeepsIgual(a: Cache, b: Cache, e: Evento, t: int)
    requires Igual(a, b, t) && t <= e.t
    ensures Igual(Paso(a, e, true), Paso(b, e, false), e.t)
  {
    var x, y := Paso(a, e, true), Paso(b, e, false);
    assert Vigente(a.store, if e.Pedido? then e.clave else "", e.t) == Vigente(b.store, if e.Pedido? then e.clave else "", e.t);
    forall k, u | u >= e.t ensures Vigente(x.store, k, u) == Vigente(y.store, k, u) {
      assert Vigente(a.store, k, u) == Vigente(b.store, k, u);
    }
  }

  /** The cache refines the map that never cleans up: over any run the same hits answer the same values. */
  lemma {:induction false} CleanupIsUnobservable(es: seq<Evento>, t: int)
    requires EnOrden(es) && forall i :: 0 <= i < |es| ==> es[i].t <= t
    ensures Igual(Correr(VACIA, es, true), Correr(VACIA, es, false), t)
  {
    if |es| == 0 {
    } else {
      var u, e := es[..|es| - 1], es[|es| - 1];
      CleanupIsUnobservable(u, e.t);
      PasoKeepsIgual(Correr(VACIA, u, true), Correr(VACIA, u, false), e, e.t);
    }
  }

  /**
   What the store holds once a factory has resolved. Its own value goes in; a cleanup runs only when a
   minute has passed since the instant of the last one, and then takes out exactly what had expired at
   the instant the factory began, its own value included if that is already past.
   */
  lemma ResolutionStores(c: Cache, id: nat, contenido: nat)
    requires id in c.vuelos
    ensures var f, r := c.vuelos[id], Resolver(c, id, contenido, true);
            var todas := c.store[f.clave := Entry(Valor(f.clave, f.now, f.ttl, contenido), f.now + f.ttl)];
            && r.aciertos == c.aciertos && id !in r.vuelos
            && r.cleanupAt == (if c.cleanupAt <= f.now then f.now + 60_000 else c.cleanupAt)
            && (forall k :: k in r.store <==> k in todas && (f.now < c.cleanupAt || f.now < todas[k].expiresAt))
            && forall k :: k in r.store ==> r.store[k] == todas[k]
  {
  }

  // ---------------------------------------------------------------- exactly when a request is a hit

  /** The value of the last factory for key k that resolved along a run and was not deleted since. */
  function Ultimo(es: seq<Evento>, k: string): Option<Valor> {
    if |es| == 0 then None
    else
      var u, vuelos := es[..|es| - 1], Correr(VACIA, es[..|es| - 1], false).vuelos;
      match es[|es| - 1]
      case Resuelto(id, contenido, _) =>
        if id in vuelos && vuelos[id].clave == k then Some(Valor(k, vuelos[id].now, vuelos[id].ttl, contenido)) else Ultimo(u, k)
      case Borrado(p, _) => if p <= k then None else Ultimo(u, k)
      case _ => Ultimo(u, k)
  }

  lemma {:induction false} StoreIsLast(es: seq<Evento>, k: string)
    ensures var store := Correr(VACIA, es, false).store;
            match Ultimo(es, k)
            case None => k !in store
            case Some(v) => k in store && store[k] == Entry(v, v.inicio + v.ttl)
  {
    if |es| == 0 {
    } else {
      StoreIsLast(es[..|es| - 1], k);
    }
  }

  /**
   After any run a request is a hit exactly when the last value computed for its key, and not deleted
   since, has not expired, and it answers that value; otherwise it starts a factory of its own.
   */
  lemma HitIff(es: seq<Evento>, id: nat, k: string, ttl: int, t: int)
    requires EnOrden(es) && forall i :: 0 <= i < |es| ==> es[i].t <= t
    ensures var c := Correr(VACIA, es, true);
            var r, v := Paso(c, Pedido(id, k, ttl, t), true), Ultimo(es, k);
            if v.Some? && t < v.value.inicio + v.value.ttl then r == c.(aciertos := c.aciertos + [Acierto(k, t, v.value)])
            else if id in c.vuelos then r == c
            else r == c.(vuelos := c.vuelos[id := Llamada(k, ttl, t)])
  {
    hide Correr, Ultimo;
    CleanupIsUnobservable(es, t);
    StoreIsLast(es, k);
    var a, b := Correr(VACIA, es, true), Correr(VACIA, es, false);
    assert Vigente(a.store, k, t) == Vigente(b.store, k, t);
  }

  /** A factory is in flight from its miss until it resolves or fails; a failure, like a hit, stores nothing. */
  lemma FlightAfter(c: Cache, e: Evento, id: nat, limpia: bool)
    ensures var r := Paso(c, e, limpia);
            && (id in r.vuelos <==>
                  || (id in c.vuelos && !((e.Resuelto? || e.Rechazado?) && e.id == id))
                  || (e.Pedido? && e.id == id && r.aciertos == c.aciertos))
            && (id in c.vuelos && id in r.vuelos ==> r.vuelos[id] == c.vuelos[id])
            && (!e.Resuelto? && !e.Borrado? ==> r.store == c.store)
  {
  }

  // ---------------------------------------------------------------- deletion by prefix

  /** Everything stored or in flight under prefix p began at t or later. */
  ghost predicate DesdeEntonces(c: Cache, p: string, t: int) {
    && (forall k :: k in c.store && p <= k ==> c.store[k].valor.inicio >= t)
    && (forall id :: id in c.vuelos && p <= c.vuelos[id].clave ==> c.vuelos[id].now >= t)
  }

  lemma PasoKeepsDesde(c: Cache, e: Evento, p: string, t: int, limpia: bool)
    requires DesdeEntonces(c, p, t) && t <= e.t
    ensures var r := Paso(c, e, limpia);
            && DesdeEntonces(r, p, t)
            && (r.aciertos == c.aciertos
                || (|r.aciertos| == |c.aciertos| + 1 && r.aciertos[..|c.aciertos|] == c.aciertos
                    && (p <= r.aciertos[|c.aciertos|].clave ==> r.aciertos[|c.aciertos|].valor.inicio >= t)))
  {
  }

  /**
   If no factory under the prefix is in flight when it is deleted, no later hit under it answers a
   value from before the deletion.
   */
  lemma {:induction false} DeletionHolds(c: Cache, p: string, t: int, es: seq<Evento>, limpia: bool)
    requires forall id :: id in c.vuelos ==> !(p <= c.vuelos[id].clave)
    requires EnOrden(es) && forall i :: 0 <= i < |es| ==> t <= es[i].t
    ensures var b := Paso(c, Borrado(p, t), limpia);
            var r := Correr(b, es, limpia);
            && DesdeEntonces(r, p, t)
            && |c.aciertos| <= |r.aciertos|
            && forall i :: |c.aciertos| <= i < |r.aciertos| && p <= r.aciertos[i].clave ==> r.aciertos[i].valor.inicio >= t
  {
    if |es| == 0 {
    } else {
      var u := es[..|es| - 1];
      DeletionHolds(c, p, t, u, limpia);
      PasoKeepsDesde(Correr(Paso(c, Borrado(p, t), limpia), u, limpia), es[|es| - 1], p, t, limpia);
    }
  }

  /**
   A factory in flight while its prefix is deleted stores its older value afterwards, and requests
   get it exactly until it expires.
   */
  lemma FlightUndoesDeletionIff(c: Cache, p: string, id: nat, contenido: nat, t: int, u: int)
    requires id in c.vuelos && p <= c.vuelos[id].clave && c.vuelos[id].ttl > 0
    requires c.vuelos[id].now <= t <= u
    ensures var f := c.vuelos[id];
            var r := Paso(Paso(c, Borrado(p, t), true), Resuelto(id, contenido, t), true);
            Vigente(r.store, f.clave, u) == Some(Valor(f.clave, f.now, f.ttl, contenido)) <==> u < f.now + f.ttl
  {
  }

  // ---------------------------------------------------------------- the service as written

  class ResponseCacheService {
    var store: map<string, Entry>
    var cleanupAt: int

    constructor ()
      ensures store == map[] && cleanupAt == 0
    {
      store, cleanupAt := map[], 0;
    }

    /** getOrSet up to its await: a hit answers, a miss leaves the factory to run. */
    method Get(key: string, now: int) returns (hit: Option<Valor>)
      ensures hit == Vigente(store, key, now)
    {
      if key in store {
        var entry := store[key];
        if entry.expiresAt > now { return Some(entry.valor); }
      }
      hit := None;
    }

    /** getOrSet after its await. */
    method Set(id: nat, call: Llamada, contenido: nat, ghost vuelos: map<nat, Llamada>, ghost aciertos: seq<Acierto>)
      requires id in vuelos && vuelos[id] == call
      modifies this
      ensures Cache(store, cleanupAt, vuelos - {id}, aciertos)
              == Resolver(Cache(old(store), old(cleanupAt), vuelos, aciertos), id, contenido, true)
    {
      store := store[call.clave := Entry(Valor(call.clave, call.now, call.ttl, contenido), call.now + call.ttl)];
      Cleanup(call.now);
    }

    method DeletePrefix(prefix: string)
      modifies `store
      ensures store == SinPrefijo(old(store), prefix)
    {
      var keys := store.Keys;
      while keys != {}
        invariant keys <= old(store).Keys
        invariant store == map k | k in old(store) && (k in keys || !(prefix <= k)) :: old(store)[k]
        decreases |keys|
      {
        var key :| key in keys;
        keys := keys - {key};
        if prefix <= key {
          store := store - {key};
        }
      }
    }

    method Cleanup(now: int)
      modifies this
      ensures now < old(cleanupAt) ==> store == old(store) && cleanupAt == old(cleanupAt)
      ensures now >= old(cleanupAt) ==> store == SinVencidas(old(store), now) && cleanupAt == now + 60_000
    {
      if now < cleanupAt { return; }
      cleanupAt := now + 60_000;
      var keys := store.Keys;
      while keys != {}
        invariant keys <= old(store).Keys && cleanupAt == now + 60_000
        invariant store == map k | k in old(store) && (k in keys || old(store)[k].expiresAt > now) :: old(store)[k]
        decreases |keys|
      {
        var key :| key in keys;
        keys := keys - {key};
        if store[key].expiresAt <= now {
          store := store - {key};
        }
      }
    }
  }
}
