/**
 The billing status of a sale: what one call of the worker leaves on the job and the sale, and whose
 status stays on the sale over a run of workers, deliveries, failures and re-issues.
 */
module OutboxStatus {
  import opened Wrappers
  import opened BillingOutbox
  import D = DocumentMirror

  // ---------------------------------------------------------------- one undisturbed call

  /** The call comes to nothing: refused, unanswered, or answered and not mirrored. */
  predicate Fracasa(resp: Respuesta) { !resp.Contestada? || resp.reflejoFalla }

  /**
   A claimed job whose document is answered is done, and the sale shows exactly that status, that
   instant and the document registered for it, unless it already showed a newer one.
   */
  lemma AnsweredCallLeaves(m: Mundo, k: Clave, resp: Respuesta, nuevo: nat, now: int)
    requires FiscalOk(m) && Reclamable(m, k) && VentaDe(m, k.venta).ambiente == Some(k.ambiente) && !Fracasa(resp)
    ensures var r, j, v := Procesar(m, k, resp, nuevo, now), m.jobs[k], VentaDe(m, k.venta);
            && r.jobs == m.jobs[k := Job(k, DONE, j.attempts + 1, j.nextAttemptAt)]
            && r.remoto.Keys == m.remoto.Keys + {k} && Crece(m, r)
            && (k !in m.remoto ==> r.remoto[k] == Documento(nuevo, k.venta, k.ambiente))
            && (forall u :: u != k.venta ==> VentaDe(r, u) == VentaDe(m, u))
            && VentaDe(r, k.venta) ==
               if v.updatedAt.Some? && v.updatedAt.value > resp.updatedAt then v
               else Venta(Some(r.remoto[k].id), Some(k.ambiente), Some(resp.status), Some(resp.updatedAt))
  {
  }

  /**
   A call that comes to nothing, or whose sale is no longer in the job's environment, leaves the job due
   again within the growing delay, or dead once no further try makes sense; the sale says so, with the
   local instant, and keeps its document.
   */
  lemma FailedCallLeaves(m: Mundo, k: Clave, resp: Respuesta, nuevo: nat, now: int)
    requires FiscalOk(m) && Reclamable(m, k)
    requires Fracasa(resp) || VentaDe(m, k.venta).ambiente != Some(k.ambiente)
    ensures var r, v := Procesar(m, k, resp, nuevo, now), VentaDe(m, k.venta);
            var enviada := v.ambiente == Some(k.ambiente) && !resp.Rechazada?;
            var n := m.jobs[k].attempts + 1;
            var dead := n >= 12 || (v.ambiente == Some(k.ambiente) && resp.Rechazada? && !resp.retryable);
            && k in r.jobs && r.jobs == m.jobs[k := r.jobs[k]]
            && r.jobs[k].estado == (if dead then DEAD else RETRY) && r.jobs[k].attempts == n && r.jobs[k].clave == k
            && now + 20_000 <= r.jobs[k].nextAttemptAt <= now + 640_000
            && r.remoto.Keys == m.remoto.Keys + (if enviada then {k} else {}) && Crece(m, r)
            && (forall u :: u != k.venta ==> VentaDe(r, u) == VentaDe(m, u))
            && VentaDe(r, k.venta)
               == Venta(v.documento, v.ambiente, Some(if dead then FAILED else RETRY_SCHEDULED), Some(now))
  {
    hide Fracasar, Crece;
    var n, v, t := m.jobs[k].attempts + 1, VentaDe(m, k.venta), Tomar(m, k);
    if v.ambiente != Some(k.ambiente) {
      FailureWrites(t, k, n, true, now);
    } else if resp.Rechazada? {
      FailureWrites(t, k, n, resp.retryable, now);
    } else {
      var b := t.(remoto := t.remoto[k := Registrado(t, k, k, nuevo)]);
      var c := b.(jobs := b.jobs[k := b.jobs[k].(estado := DONE)]);
      FailureWrites(b, k, n, true, now);
      FailureWrites(c, k, n, true, now);
    }
    CallKeepsRegister(m, k, resp, nuevo, now);
  }

  lemma FailureWrites(m: Mundo, k: Clave, attempts: nat, retryable: bool, now: int)
    requires k in m.jobs && attempts >= 1
    ensures var r, v := Fracasar(m, k, attempts, retryable, now), VentaDe(m, k.venta);
            var dead := !retryable || attempts >= 12;
            && r.jobs == m.jobs[k := m.jobs[k].(estado := if dead then DEAD else RETRY, nextAttemptAt := r.jobs[k].nextAttemptAt)]
            && now + 20_000 <= r.jobs[k].nextAttemptAt <= now + 640_000
            && r.remoto == m.remoto && r.obreros == m.obreros
            && (forall u :: u != k.venta ==> VentaDe(r, u) == VentaDe(m, u))
            && VentaDe(r, k.venta) == v.(status := Some(if dead then FAILED else RETRY_SCHEDULED), updatedAt := Some(now))
  {
    hide Demora;
    DemoraBounds(attempts, attempts);
  }

  lemma CallKeepsRegister(m: Mundo, k: Clave, resp: Respuesta, nuevo: nat, now: int)
    requires FiscalOk(m)
    ensures Crece(m, Procesar(m, k, resp, nuevo, now))
  {
    hide Demora;
  }

  /** A job that cannot be claimed is left alone, and so is everything else. */
  lemma UnclaimedCallLeaves(m: Mundo, k: Clave, resp: Respuesta, nuevo: nat, now: int)
    ensures (k in m.jobs && m.jobs[k].estado in {PENDING, RETRY}) || Procesar(m, k, resp, nuevo, now) == m
  {
  }

  // ---------------------------------------------------------------- arming and claiming a job

  /** An idle worker takes a job exactly when it is pending or in retry: processing, one attempt more, the rest kept. */
  lemma ClaimIff(m: Mundo, w: nat, k: Clave)
    requires FaseDe(m, w) == Libre
    ensures var r := Paso(m, Trabajo(w, Reclamo(k)));
            && r.ventas == m.ventas && r.remoto == m.remoto
            && if k in m.jobs && m.jobs[k].estado in {PENDING, RETRY}
               then FaseDe(r, w) == Reclamado(k)
                    && r.jobs == m.jobs[k := m.jobs[k].(estado := PROCESSING, attempts := m.jobs[k].attempts + 1)]
               else r == m
  {
  }

  /** An enqueue leaves the job pending and due now, with the key and the attempts it had, if it had any; no other job changes. */
  lemma EnqueueLeaves(m: Mundo, k: Clave, now: int)
    ensures var r := Paso(m, Encolado(k, now));
            && r == m.(jobs := r.jobs) && r.jobs.Keys == m.jobs.Keys + {k}
            && (forall c :: c in m.jobs && c != k ==> r.jobs[c] == m.jobs[c])
            && r.jobs[k] == if k in m.jobs then Job(m.jobs[k].clave, PENDING, m.jobs[k].attempts, now) else Job(k, PENDING, 0, now)
  {
  }

  /**
   A sale without a document is issued by queueing it and its job together, and re-armed by making every
   job of it, in whatever status, pending and due now; nothing else changes. With a document neither
   does anything.
   */
  lemma IssueAndRearmLeave(m: Mundo, v: string, a: Ambiente, now: int)
    ensures var r := Paso(m, Emision(v, a, now));
            if VentaDe(m, v).documento.Some? then r == m
            else
              && VentaDe(r, v) == Venta(None, Some(a), Some(QUEUED), Some(now))
              && (forall u :: u != v ==> VentaDe(r, u) == VentaDe(m, u))
              && r.(ventas := m.ventas) == Paso(m, Encolado(Clave(v, a), now))
    ensures var r := Paso(m, Rearme(v, now));
            if VentaDe(m, v).documento.Some? then r == m
            else
              && r == m.(jobs := r.jobs) && r.jobs.Keys == m.jobs.Keys
              && forall k :: k in m.jobs ==>
                   r.jobs[k] == if k.venta == v then Job(m.jobs[k].clave, PENDING, m.jobs[k].attempts, now) else m.jobs[k]
  {
  }

  // ---------------------------------------------------------------- the last write stays

  /** What a step writes on sale v, if it writes on it. */
  function Escribe(m: Mundo, e: Evento, v: string): Option<Venta> {
    var x := VentaDe(m, v);
    match e
    case Emision(u, a, now) =>
      if u == v && x.documento.None? then Some(Venta(None, Some(a), Some(QUEUED), Some(now))) else None
    case Entrega(k, status, at) =>
      if k in m.remoto && k.venta == v && !(x.updatedAt.Some? && x.updatedAt.value > at)
      then Some(Venta(Some(m.remoto[k].id), Some(k.ambiente), Some(status), Some(at))) else None
    case Trabajo(w, Reflejo(status, at, false)) =>
      var f := FaseDe(m, w);
      if f.Marcado? && f.k.venta == v && !(x.updatedAt.Some? && x.updatedAt.value > at) && f.k in m.remoto
      then Some(Venta(Some(m.remoto[f.k].id), Some(f.k.ambiente), Some(status), Some(at))) else None
    case Trabajo(w, Fallo(now)) =>
      var f := FaseDe(m, w);
      if f.Fallado? && f.k.venta == v && f.k in m.jobs
      then Some(x.(status := Some(if f.retryable && f.attempts < 12 then RETRY_SCHEDULED else FAILED), updatedAt := Some(now)))
      else None
    case _ => None
  }

  /** The last write on sale v along a run. */
  function Ultima(es: seq<Evento>, v: string): Venta {
    if |es| == 0 then Venta(None, None, None, None)
    else
      var x := Escribe(Correr(INICIO, es[..|es| - 1]), es[|es| - 1], v);
      if x.Some? then x.value else Ultima(es[..|es| - 1], v)
  }

  lemma StepWrites(m: Mundo, e: Evento, v: string)
    requires FiscalOk(m)
    ensures VentaDe(Paso(m, e), v) == match Escribe(m, e, v) case Some(x) => x case None => VentaDe(m, v)
  {
    hide Demora;
    if e.Trabajo? { assert FaseDocOk(m, FaseDe(m, e.w)); }
  }

  /**
   Over any run of issues, re-arms, workers, stops and deliveries the sale shows what was last written
   on it: the status of an issue, of a version not older than the one shown, or of a failed call.
   */
  lemma {:induction false} SaleShowsLastWrite(es: seq<Evento>, v: string)
    ensures VentaDe(Correr(INICIO, es), v) == Ultima(es, v)
  {
    hide Paso, FiscalOk, Escribe;
    if |es| == 0 {
    } else {
      var u := es[..|es| - 1];
      SaleShowsLastWrite(u, v);
      InicioIsFiscal();
      RunKeepsFiscal(INICIO, u);
      StepWrites(Correr(INICIO, u), es[|es| - 1], v);
    }
  }

  lemma InicioIsFiscal()
    ensures FiscalOk(INICIO)
  {
  }

  // ---------------------------------------------------------------- without failures the newest version stays

  function EstadoRemoto(s: BillingStatus): D.Status {
    match s
    case QUEUED => D.QUEUED
    case INPROCESS => D.PROCESSING
    case ACCEPTED => D.ACCEPTED
    case ACCEPTED_WITH_OBSERVATIONS => D.ACCEPTED_WITH_OBSERVATIONS
    case REJECTED => D.REJECTED
    case RETRY_SCHEDULED => D.RETRY_SCHEDULED
    case FAILED => D.FAILED
  }

  /** A version as the document mirror sees it; sales have no series to raise. */
  function Version(id: nat, a: Ambiente, s: BillingStatus, at: int): D.Entrega {
    D.Entrega(D.Documento(id, a == PRODUCTION, EstadoRemoto(s), "", 0, None, None), Some(at), 0)
  }

  /** The sale row as the document mirror sees it. */
  function Fila(x: Venta): D.Fila {
    D.Fila(if x.documento.Some? && x.ambiente.Some? && x.status.Some?
           then Some(D.Reflejo(Version(x.documento.value, x.ambiente.value, x.status.value, 0).doc)) else None,
           x.updatedAt, 0)
  }

  /** The version of sale v that a step brings. */
  function Llega(m: Mundo, e: Evento, v: string): Option<D.Entrega> {
    match e
    case Entrega(k, status, at) =>
      if k in m.remoto && k.venta == v then Some(Version(m.remoto[k].id, k.ambiente, status, at)) else None
    case Trabajo(w, Reflejo(status, at, false)) =>
      var f := FaseDe(m, w);
      if f.Marcado? && f.k.venta == v && f.k in m.remoto then Some(Version(m.remoto[f.k].id, f.k.ambiente, status, at)) else None
    case _ => None
  }

  function Versiones(m: Mundo, es: seq<Evento>, v: string): seq<D.Entrega> {
    if |es| == 0 then []
    else
      var x := Llega(Correr(m, es[..|es| - 1]), es[|es| - 1], v);
      Versiones(m, es[..|es| - 1], v) + (if x.Some? then [x.value] else [])
  }

  /** An issue of the sale, or a failed call of a worker on it. */
  predicate Ajena(m: Mundo, e: Evento, v: string) {
    || (e.Emision? && e.venta == v)
    || (e.Trabajo? && e.accion.Fallo? && FaseDe(m, e.w).Fallado? && FaseDe(m, e.w).k.venta == v)
  }

  ghost predicate SoloVersiones(m: Mundo, es: seq<Evento>, v: string) {
    |es| == 0 || (SoloVersiones(m, es[..|es| - 1], v) && !Ajena(Correr(m, es[..|es| - 1]), es[|es| - 1], v))
  }

  lemma StepIsAplicar(m: Mundo, e: Evento, v: string)
    requires FiscalOk(m) && !Ajena(m, e, v)
    ensures Fila(VentaDe(Paso(m, e), v))
            == match Llega(m, e, v) case Some(x) => D.Aplicar(Fila(VentaDe(m, v)), x) case None => Fila(VentaDe(m, v))
  {
    hide Paso;
    StepWrites(m, e, v);
  }

  /** Between issues and failures the sale row is the document mirror of the versions that arrive, whoever brings them. */
  lemma {:induction false} SaleIsMirror(m: Mundo, es: seq<Evento>, v: string)
    requires FiscalOk(m) && SoloVersiones(m, es, v)
    ensures Fila(VentaDe(Correr(m, es), v)) == D.AplicarTodas(Fila(VentaDe(m, v)), Versiones(m, es, v))
  {
    hide Paso, FiscalOk, Llega, Fila, D.Aplicar;
    if |es| == 0 {
    } else {
      var u := es[..|es| - 1];
      SaleIsMirror(m, u, v);
      RunKeepsFiscal(m, u);
      StepIsAplicar(Correr(m, u), es[|es| - 1], v);
      var ds, ds' := Versiones(m, u, v), Versiones(m, es, v);
      if Llega(Correr(m, u), es[|es| - 1], v).Some? {
        assert ds'[..|ds'| - 1] == ds;
      } else {
        assert ds' == ds;
      }
    }
  }

  /**
   So whatever the order of worker, webhooks and polls, the sale ends with the status, the instant and
   the document of the newest version, unless it started with a newer one.
   */
  lemma NewestVersionStays(m: Mundo, es: seq<Evento>, v: string, id: nat, a: Ambiente, s: BillingStatus, at: int)
    requires FiscalOk(m) && SoloVersiones(m, es, v)
    requires var ds := Versiones(m, es, v); D.SinEmpates(ds) && Version(id, a, s, at) in ds && D.MasNueva(Version(id, a, s, at), ds)
    requires VentaDe(m, v).updatedAt.Some? ==> VentaDe(m, v).updatedAt.value <= at
    ensures VentaDe(Correr(m, es), v) == Venta(Some(id), Some(a), Some(s), Some(at))
  {
    hide FiscalOk, SoloVersiones, Correr, D.AplicarTodas, D.MasNueva, D.SinEmpates, Versiones;
    SaleIsMirror(m, es, v);
    D.NewestWins(Fila(VentaDe(m, v)), Versiones(m, es, v), Version(id, a, s, at));
    var x := VentaDe(Correr(m, es), v);
    assert Fila(x).campos == Some(D.Reflejo(Version(id, a, s, at).doc));
  }
}
