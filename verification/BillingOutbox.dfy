/**
 The emission outbox: any number of workers (cron ticks and print requests) claim jobs by a
 conditional update, post with an idempotency key, then complete, back off or die; they may stop
 at any point. Operators re-arm jobs, and webhooks and polls deliver documents at any time.
 Every awaited database write or remote call of `process` is a step of its own.
 A sale is named by its public id; a job by the sale and the environment it issues in.
 */
module BillingOutbox {
  import opened Sums
  import opened Wrappers

  datatype Ambiente = BETA | PRODUCTION

  datatype Clave = Clave(venta: string, ambiente: Ambiente)

  datatype Estado = PENDING | PROCESSING | RETRY | DONE | DEAD

  /** `clave` is what the job's idempotency key names; it is written once, when the job is created. */
  datatype Job = Job(clave: Clave, estado: Estado, attempts: nat, nextAttemptAt: int)

  /** A fiscal document in the remote register. */
  datatype Documento = Documento(id: nat, venta: string, ambiente: Ambiente)

  datatype BillingStatus = QUEUED | INPROCESS | ACCEPTED | ACCEPTED_WITH_OBSERVATIONS | REJECTED | RETRY_SCHEDULED | FAILED

  datatype Venta = Venta(
    documento: Option<nat>, ambiente: Option<Ambiente>, status: Option<BillingStatus>, updatedAt: Option<int>)

  /** Where a worker is inside `process`. */
  datatype Fase =
    | Libre
    | Reclamado(k: Clave)
    | Leido(k: Clave, clave: Clave, attempts: nat)
    | Respondido(k: Clave, attempts: nat, doc: Documento)
    | Marcado(k: Clave, attempts: nat, doc: Documento)
    | Fallado(k: Clave, attempts: nat, retryable: bool)

  /** The remote register is idempotent: it keeps one document under each key it has seen. */
  datatype Mundo = Mundo(
    jobs: map<Clave, Job>, obreros: map<nat, Fase>, remoto: map<Clave, Documento>, ventas: map<string, Venta>)

  const MAX_ATTEMPTS: nat := 12

  function Minusculas(a: Ambiente): string {
    match a case BETA => "beta" case PRODUCTION => "production"
  }

  function IdempotencyKey(k: Clave): string {
    "nuvex:" + Minusculas(k.ambiente) + ":sale:" + k.venta + ":issue"
  }

  /**
   Distinct sales or environments never share an idempotency key, so the register may be indexed
   by what the key names.
   */
  lemma IdempotencyKeyInjective(a: Clave, b: Clave)
    requires IdempotencyKey(a) == IdempotencyKey(b)
    ensures a == b
  {
    var x, y := IdempotencyKey(a), IdempotencyKey(b);
    assert x[6] == Minusculas(a.ambiente)[0] && y[6] == Minusculas(b.ambiente)[0];
    var n := 6 + |Minusculas(a.ambiente)| + 6;
    assert x[n..|x| - 6] == a.venta;
    assert y[n..|y| - 6] == b.venta;
  }

  function Pow2(n: nat): nat { if n == 0 then 1 else 2 * Pow2(n - 1) }

  /** Milliseconds until the next attempt. */
  function Demora(attempts: nat): nat { Min(15 * 60_000, 10_000 * Pow2(Min(attempts, 6))) }

  /** After at least one claim the delay grows from 20 to 640 seconds: the 15-minute cap never binds. */
  lemma DemoraBounds(a: nat, b: nat)
    requires 1 <= a <= b
    ensures 20_000 <= Demora(a) <= Demora(b) <= 640_000
    ensures Demora(a) == 10_000 * Pow2(Min(a, 6)) < 15 * 60_000
  {
    assert Pow2(1) == 2 && Pow2(2) == 4 && Pow2(3) == 8;
    assert Pow2(4) == 16 && Pow2(5) == 32 && Pow2(6) == 64;
  }

  function FaseDe(m: Mundo, w: nat): Fase { if w in m.obreros then m.obreros[w] else Libre }

  function Poner(m: Mundo, w: nat, f: Fase): (r: Mundo)
    ensures r.jobs == m.jobs && r.remoto == m.remoto && r.ventas == m.ventas
    ensures forall x: nat :: FaseDe(r, x) == if x == w then f else FaseDe(m, x)
  {
    m.(obreros := m.obreros[w := f])
  }

  function VentaDe(m: Mundo, v: string): Venta {
    if v in m.ventas then m.ventas[v] else Venta(None, None, None, None)
  }

  // ---------------------------------------------------------------- steps

  /** enqueue: an upsert whose update branch re-arms the job and keeps its key and attempts. */
  function Encolar(jobs: map<Clave, Job>, k: Clave, now: int): map<Clave, Job> {
    jobs[k := if k in jobs then jobs[k].(estado := PENDING, nextAttemptAt := now) else Job(k, PENDING, 0, now)]
  }

  /** A sale is created or converted: its row and its job are written together. */
  function Emitir(m: Mundo, v: string, a: Ambiente, now: int): Mundo {
    if VentaDe(m, v).documento.Some? then m
    else m.(ventas := m.ventas[v := Venta(None, Some(a), Some(QUEUED), Some(now))],
            jobs := Encolar(m.jobs, Clave(v, a), now))
  }

  /** retry of a sale without document: every job of the sale, whatever its status. */
  function Rearmar(m: Mundo, v: string, now: int): Mundo {
    if VentaDe(m, v).documento.Some? then m
    else m.(jobs := map k | k in m.jobs ::
              if k.venta == v then m.jobs[k].(estado := PENDING, nextAttemptAt := now) else m.jobs[k])
  }

  predicate Reclamable(m: Mundo, k: Clave) {
    k in m.jobs && (m.jobs[k].estado == PENDING || m.jobs[k].estado == RETRY)
  }

  /** The conditional update at the head of `process`. */
  function Reclamar(m: Mundo, w: nat, k: Clave): Mundo {
    if FaseDe(m, w) == Libre && Reclamable(m, k)
    then Poner(m.(jobs := m.jobs[k := m.jobs[k].(estado := PROCESSING, attempts := m.jobs[k].attempts + 1)]), w, Reclamado(k))
    else m
  }

  /** Reads the claimed job, then the sale, which must still be in the job's environment. */
  function Leer(m: Mundo, w: nat): Mundo {
    var f := FaseDe(m, w);
    if !f.Reclamado? then m
    else if f.k !in m.jobs then Poner(m, w, Libre)
    else if VentaDe(m, f.k.venta).ambiente != Some(f.k.ambiente) then Poner(m, w, Fallado(f.k, m.jobs[f.k].attempts, true))
    else Poner(m, w, Leido(f.k, m.jobs[f.k].clave, m.jobs[f.k].attempts))
  }

  /** A local check or the remote refuses without creating anything. */
  function Rechazar(m: Mundo, w: nat, retryable: bool): Mundo {
    var f := FaseDe(m, w);
    if f.Leido? then Poner(m, w, Fallado(f.k, f.attempts, retryable)) else m
  }

  predicate IdNuevo(m: Mundo, nuevo: nat) {
    forall c :: c in m.remoto ==> m.remoto[c].id != nuevo
  }

  /** POST: the register answers the document stored under the key or creates one; the answer may be lost. */
  function Enviar(m: Mundo, w: nat, nuevo: nat, perdida: bool): Mundo {
    var f := FaseDe(m, w);
    if !f.Leido? || (f.clave !in m.remoto && !IdNuevo(m, nuevo)) then m
    else
      var doc := if f.clave in m.remoto then m.remoto[f.clave] else Documento(nuevo, f.k.venta, f.k.ambiente);
      Poner(m.(remoto := m.remoto[f.clave := doc]), w,
            if perdida then Fallado(f.k, f.attempts, true) else Respondido(f.k, f.attempts, doc))
  }

  /** The job is marked DONE before the document is mirrored. */
  function Marcar(m: Mundo, w: nat): Mundo {
    var f := FaseDe(m, w);
    if f.Respondido? && f.k in m.jobs
    then Poner(m.(jobs := m.jobs[f.k := m.jobs[f.k].(estado := DONE)]), w, Marcado(f.k, f.attempts, f.doc))
    else m
  }

  /** applyDocument on the sale row: the newer remote timestamp wins. */
  function AplicarDocumento(v: Venta, doc: Documento, status: BillingStatus, updatedAt: int): Venta {
    if v.updatedAt.Some? && v.updatedAt.value > updatedAt then v
    else Venta(Some(doc.id), Some(doc.ambiente), Some(status), Some(updatedAt))
  }

  function Reflejar(m: Mundo, w: nat, status: BillingStatus, at: int, falla: bool): Mundo {
    var f := FaseDe(m, w);
    if !f.Marcado? then m
    else if falla then Poner(m, w, Fallado(f.k, f.attempts, true))
    else Poner(m.(ventas := m.ventas[f.k.venta := AplicarDocumento(VentaDe(m, f.k.venta), f.doc, status, at)]), w, Libre)
  }

  /** The catch block: back off or die, on the job and on the sale. */
  function EscribirFallo(m: Mundo, w: nat, now: int): Mundo {
    var f := FaseDe(m, w);
    if !f.Fallado? || f.k !in m.jobs then m
    else
      var dead := !f.retryable || f.attempts >= MAX_ATTEMPTS;
      var v := VentaDe(m, f.k.venta).(status := Some(if dead then FAILED else RETRY_SCHEDULED), updatedAt := Some(now));
      Poner(m.(jobs := m.jobs[f.k := m.jobs[f.k].(estado := if dead then DEAD else RETRY,
                                                  nextAttemptAt := now + Demora(f.attempts))],
               ventas := m.ventas[f.k.venta := v]), w, Libre)
  }

  /** Webhook, reconciliation or remote retry: a document the register holds, for its own sale. */
  function Entregar(m: Mundo, k: Clave, status: BillingStatus, at: int): Mundo {
    if k !in m.remoto then m
    else
      var doc := m.remoto[k];
      m.(ventas := m.ventas[doc.venta := AplicarDocumento(VentaDe(m, doc.venta), doc, status, at)])
  }

  /** What a worker does next. */
  datatype Accion =
    | Reclamo(k: Clave)
    | Lectura
    | Rechazo(retryable: bool)
    | Envio(nuevo: nat, respuestaPerdida: bool)
    | Marca
    | Reflejo(status: BillingStatus, updatedAt: int, falla: bool)
    | Fallo(now: int)
    | Caida

  function Trabajar(m: Mundo, w: nat, a: Accion): Mundo {
    match a
    case Reclamo(k) => Reclamar(m, w, k)
    case Lectura => Leer(m, w)
    case Rechazo(r) => Rechazar(m, w, r)
    case Envio(nuevo, perdida) => Enviar(m, w, nuevo, perdida)
    case Marca => Marcar(m, w)
    case Reflejo(status, at, falla) => Reflejar(m, w, status, at, falla)
    case Fallo(now) => EscribirFallo(m, w, now)
    case Caida => Poner(m, w, Libre)
  }

  datatype Evento =
    | Emision(venta: string, ambiente: Ambiente, now: int)
    | Encolado(k: Clave, now: int)
    | Rearme(venta: string, now: int)
    | Entrega(k: Clave, status: BillingStatus, updatedAt: int)
    | Trabajo(w: nat, accion: Accion)

  function Paso(m: Mundo, e: Evento): Mundo {
    match e
    case Emision(v, a, now) => Emitir(m, v, a, now)
    case Encolado(k, now) => m.(jobs := Encolar(m.jobs, k, now))
    case Rearme(v, now) => Rearmar(m, v, now)
    case Entrega(k, status, at) => Entregar(m, k, status, at)
    case Trabajo(w, a) => Trabajar(m, w, a)
  }

  function Correr(m: Mundo, es: seq<Evento>): Mundo {
    if |es| == 0 then m else Paso(Correr(m, es[..|es| - 1]), es[|es| - 1])
  }

  const INICIO: Mundo := Mundo(map[], map[], map[], map[])

  /** Worker phase f is inside `process` for the job of k. */
  predicate Tiene(f: Fase, k: Clave) { !f.Libre? && f.k == k }

  /** A worker moves only itself, and writes no job but the one it holds or claims. */
  lemma TrabajarIsLocal(m: Mundo, w: nat, a: Accion)
    ensures forall x: nat :: x != w ==> FaseDe(Trabajar(m, w, a), x) == FaseDe(m, x)
    ensures forall k :: k in m.jobs <==> k in Trabajar(m, w, a).jobs
    ensures forall k :: k in m.jobs && !Tiene(FaseDe(m, w), k) && a != Reclamo(k) ==> Trabajar(m, w, a).jobs[k] == m.jobs[k]
    ensures forall k :: Tiene(FaseDe(Trabajar(m, w, a), w), k) ==> Tiene(FaseDe(m, w), k) || (a == Reclamo(k) && Reclamable(m, k))
  {
  }

  // ---------------------------------------------------------------- one fiscal document per sale and environment

  /** The register only holds documents under the key of their own sale and environment. */
  ghost predicate RemotoOk(m: Mundo) {
    && (forall c :: c in m.remoto ==> c == Clave(m.remoto[c].venta, m.remoto[c].ambiente))
    && (forall c, d :: c in m.remoto && d in m.remoto && m.remoto[c].id == m.remoto[d].id ==> c == d)
  }

  ghost predicate FaseDocOk(m: Mundo, f: Fase) {
    && (f.Leido? ==> f.clave == f.k)
    && (f.Respondido? || f.Marcado? ==> f.k in m.remoto && m.remoto[f.k] == f.doc)
  }

  ghost predicate VentaDocOk(m: Mundo, v: string) {
    var x := VentaDe(m, v);
    x.documento.Some? ==>
      x.ambiente.Some? && Clave(v, x.ambiente.value) in m.remoto && m.remoto[Clave(v, x.ambiente.value)].id == x.documento.value
  }

  ghost predicate FiscalOk(m: Mundo) {
    && RemotoOk(m)
    && (forall k :: k in m.jobs ==> m.jobs[k].clave == k)
    && (forall w: nat :: FaseDocOk(m, FaseDe(m, w)))
    && (forall v :: VentaDocOk(m, v))
  }

  /** The register only grows. */
  ghost predicate Crece(m: Mundo, r: Mundo) {
    forall c :: c in m.remoto ==> c in r.remoto && r.remoto[c] == m.remoto[c]
  }

  lemma EnviarKeepsRemoto(m: Mundo, w: nat, nuevo: nat, perdida: bool)
    requires RemotoOk(m) && FaseDocOk(m, FaseDe(m, w))
    ensures RemotoOk(Enviar(m, w, nuevo, perdida)) && Crece(m, Enviar(m, w, nuevo, perdida))
  {
  }

  lemma EnviarKeepsFiscal(m: Mundo, w: nat, nuevo: nat, perdida: bool)
    requires FiscalOk(m)
    ensures FiscalOk(Enviar(m, w, nuevo, perdida)) && Crece(m, Enviar(m, w, nuevo, perdida))
  {
    var r := Enviar(m, w, nuevo, perdida);
    assert FaseDocOk(m, FaseDe(m, w));
    EnviarKeepsRemoto(m, w, nuevo, perdida);
    hide RemotoOk;
    forall x: nat ensures FaseDocOk(r, FaseDe(r, x)) { assert FaseDocOk(m, FaseDe(m, x)); }
    forall v ensures VentaDocOk(r, v) { assert VentaDocOk(m, v); }
  }

  lemma ReflejarKeepsFiscal(m: Mundo, w: nat, status: BillingStatus, at: int, falla: bool)
    requires FiscalOk(m)
    ensures FiscalOk(Reflejar(m, w, status, at, falla)) && Crece(m, Reflejar(m, w, status, at, falla))
  {
    var r := Reflejar(m, w, status, at, falla);
    assert FaseDocOk(m, FaseDe(m, w));
    forall x: nat ensures FaseDocOk(r, FaseDe(r, x)) { assert FaseDocOk(m, FaseDe(m, x)); }
    forall v ensures VentaDocOk(r, v) { assert VentaDocOk(m, v); }
  }

  lemma EscribirFalloKeepsFiscal(m: Mundo, w: nat, now: int)
    requires FiscalOk(m)
    ensures FiscalOk(EscribirFallo(m, w, now)) && Crece(m, EscribirFallo(m, w, now))
  {
    var r := EscribirFallo(m, w, now);
    forall x: nat ensures FaseDocOk(r, FaseDe(r, x)) { assert FaseDocOk(m, FaseDe(m, x)); }
    forall v ensures VentaDocOk(r, v) { assert VentaDocOk(m, v); }
  }

  lemma EntregarKeepsFiscal(m: Mundo, k: Clave, status: BillingStatus, at: int)
    requires FiscalOk(m)
    ensures FiscalOk(Entregar(m, k, status, at))
  {
    var r := Entregar(m, k, status, at);
    forall x: nat ensures FaseDocOk(r, FaseDe(r, x)) { assert FaseDocOk(m, FaseDe(m, x)); }
    forall v ensures VentaDocOk(r, v) { assert VentaDocOk(m, v); }
  }

  lemma EmitirKeepsFiscal(m: Mundo, v: string, a: Ambiente, now: int)
    requires FiscalOk(m)
    ensures FiscalOk(Emitir(m, v, a, now))
  {
    var r := Emitir(m, v, a, now);
    forall x: nat ensures FaseDocOk(r, FaseDe(r, x)) { assert FaseDocOk(m, FaseDe(m, x)); }
    forall u ensures VentaDocOk(r, u) { assert VentaDocOk(m, u); }
  }

  /** Steps that write neither the register nor a sale. */
  lemma QuietStepKeepsFiscal(m: Mundo, r: Mundo, w: nat)
    requires FiscalOk(m)
    requires r.remoto == m.remoto && r.ventas == m.ventas
    requires forall k :: k in r.jobs ==> r.jobs[k].clave == k
    requires forall x: nat :: x != w ==> FaseDe(r, x) == FaseDe(m, x)
    requires FaseDocOk(m, FaseDe(r, w))
    ensures FiscalOk(r)
  {
    forall x: nat ensures FaseDocOk(r, FaseDe(r, x)) { assert FaseDocOk(m, FaseDe(m, x)); }
    forall v ensures VentaDocOk(r, v) { assert VentaDocOk(m, v); }
  }

  lemma TrabajarKeepsFiscal(m: Mundo, w: nat, a: Accion)
    requires FiscalOk(m)
    ensures FiscalOk(Trabajar(m, w, a)) && Crece(m, Trabajar(m, w, a))
  {
    hide Enviar, Reflejar, EscribirFallo, RemotoOk, VentaDocOk;
    match a
    case Envio(nuevo, perdida) => EnviarKeepsFiscal(m, w, nuevo, perdida);
    case Reflejo(status, at, falla) => ReflejarKeepsFiscal(m, w, status, at, falla);
    case Fallo(now) => EscribirFalloKeepsFiscal(m, w, now);
    case _ => assert FaseDocOk(m, FaseDe(m, w)); QuietStepKeepsFiscal(m, Trabajar(m, w, a), w);
  }

  /** No step ever changes or drops a registered document. */
  lemma PasoKeepsFiscal(m: Mundo, e: Evento)
    requires FiscalOk(m)
    ensures FiscalOk(Paso(m, e)) && Crece(m, Paso(m, e))
  {
    match e
    case Emision(v, a, now) => EmitirKeepsFiscal(m, v, a, now);
    case Entrega(k, status, at) => EntregarKeepsFiscal(m, k, status, at);
    case Trabajo(w, a) => TrabajarKeepsFiscal(m, w, a);
    case _ => assert FaseDocOk(m, FaseDe(m, 0)); QuietStepKeepsFiscal(m, Paso(m, e), 0);
  }

  lemma {:induction false} RunKeepsFiscal(m: Mundo, es: seq<Evento>)
    requires FiscalOk(m)
    ensures FiscalOk(Correr(m, es)) && Crece(m, Correr(m, es))
  {
    if |es| == 0 {
    } else {
      RunKeepsFiscal(m, es[..|es| - 1]);
      PasoKeepsFiscal(Correr(m, es[..|es| - 1]), es[|es| - 1]);
    }
  }

  /**
   At most one fiscal document per sale and environment, whatever crashes between the POST and its
   write, double claims after a re-arm, lost answers and repeated enqueues do.
   */
  lemma OneFiscalDocument(es: seq<Evento>, c: Clave, d: Clave)
    requires c in Correr(INICIO, es).remoto && d in Correr(INICIO, es).remoto
    requires Correr(INICIO, es).remoto[c].venta == Correr(INICIO, es).remoto[d].venta
    requires Correr(INICIO, es).remoto[c].ambiente == Correr(INICIO, es).remoto[d].ambiente
    ensures Correr(INICIO, es).remoto[c] == Correr(INICIO, es).remoto[d]
  {
    RunKeepsFiscal(INICIO, es);
  }

  /** The document a sale row names is the one registered for that sale, never another sale's. */
  lemma SaleNamesItsOwnDocument(es: seq<Evento>, v: string)
    requires VentaDe(Correr(INICIO, es), v).documento.Some?
    ensures var m := Correr(INICIO, es);
            exists c :: c in m.remoto && m.remoto[c].id == VentaDe(m, v).documento.value && m.remoto[c].venta == v
                        && Some(m.remoto[c].ambiente) == VentaDe(m, v).ambiente
  {
    var m := Correr(INICIO, es);
    RunKeepsFiscal(INICIO, es);
    assert VentaDocOk(m, v);
    assert Clave(v, VentaDe(m, v).ambiente.value) in m.remoto;
  }

  /** The sale and every document and worker of it stay in environment a. */
  ghost predicate SoloEn(m: Mundo, v: string, a: Ambiente) {
    && (VentaDe(m, v).ambiente.None? || VentaDe(m, v).ambiente == Some(a))
    && (forall c :: c in m.remoto && c.venta == v ==> c.ambiente == a)
    && (forall w: nat :: FaseDe(m, w).Leido? && FaseDe(m, w).k.venta == v ==> FaseDe(m, w).k.ambiente == a)
  }

  /** SoloEn of the rows and of worker w. */
  ghost predicate Lugares(m: Mundo, w: nat, v: string, a: Ambiente) {
    && (VentaDe(m, v).ambiente.None? || VentaDe(m, v).ambiente == Some(a))
    && (forall c :: c in m.remoto && c.venta == v ==> c.ambiente == a)
    && (FaseDe(m, w).Leido? && FaseDe(m, w).k.venta == v ==> FaseDe(m, w).k.ambiente == a)
  }

  lemma EnviarKeepsPlaces(m: Mundo, w: nat, nuevo: nat, perdida: bool, v: string, a: Ambiente)
    requires Lugares(m, w, v, a) && FaseDocOk(m, FaseDe(m, w))
    ensures Lugares(Enviar(m, w, nuevo, perdida), w, v, a)
  {
  }

  lemma ReflejarKeepsPlaces(m: Mundo, w: nat, status: BillingStatus, at: int, falla: bool, v: string, a: Ambiente)
    requires Lugares(m, w, v, a) && FaseDocOk(m, FaseDe(m, w)) && RemotoOk(m)
    ensures Lugares(Reflejar(m, w, status, at, falla), w, v, a)
  {
  }

  lemma EscribirFalloKeepsPlaces(m: Mundo, w: nat, now: int, v: string, a: Ambiente)
    requires Lugares(m, w, v, a)
    ensures Lugares(EscribirFallo(m, w, now), w, v, a)
  {
    hide Demora;
  }

  lemma TrabajarKeepsPlaces(m: Mundo, w: nat, x: Accion, v: string, a: Ambiente)
    requires FiscalOk(m) && Lugares(m, w, v, a)
    ensures Lugares(Trabajar(m, w, x), w, v, a)
  {
    hide Enviar, Reflejar, EscribirFallo;
    assert FaseDocOk(m, FaseDe(m, w));
    match x
    case Envio(nuevo, perdida) => EnviarKeepsPlaces(m, w, nuevo, perdida, v, a);
    case Reflejo(status, at, falla) => ReflejarKeepsPlaces(m, w, status, at, falla, v, a);
    case Fallo(now) => EscribirFalloKeepsPlaces(m, w, now, v, a);
    case _ =>
  }

  lemma TrabajarKeepsSoloEn(m: Mundo, w: nat, x: Accion, v: string, a: Ambiente)
    requires FiscalOk(m) && SoloEn(m, v, a)
    ensures SoloEn(Trabajar(m, w, x), v, a)
  {
    hide Trabajar;
    var r := Trabajar(m, w, x);
    TrabajarIsLocal(m, w, x);
    TrabajarKeepsPlaces(m, w, x, v, a);
    forall y: nat | FaseDe(r, y).Leido? && FaseDe(r, y).k.venta == v ensures FaseDe(r, y).k.ambiente == a {
      if y != w { assert FaseDe(r, y) == FaseDe(m, y); }
    }
  }

  lemma PasoKeepsSoloEn(m: Mundo, e: Evento, v: string, a: Ambiente)
    requires FiscalOk(m) && SoloEn(m, v, a)
    requires e.Emision? && e.venta == v ==> e.ambiente == a
    ensures SoloEn(Paso(m, e), v, a)
  {
    if e.Trabajo? {
      TrabajarKeepsSoloEn(m, e.w, e.accion, v, a);
    } else {
      assert forall w: nat :: FaseDe(Paso(m, e), w) == FaseDe(m, w);
    }
  }

  lemma {:induction false} RunStaysIn(es: seq<Evento>, v: string, a: Ambiente)
    requires forall i :: 0 <= i < |es| && es[i].Emision? && es[i].venta == v ==> es[i].ambiente == a
    ensures SoloEn(Correr(INICIO, es), v, a)
  {
    if |es| == 0 {
    } else {
      var u := es[..|es| - 1];
      RunStaysIn(u, v, a);
      RunKeepsFiscal(INICIO, u);
      PasoKeepsSoloEn(Correr(INICIO, u), es[|es| - 1], v, a);
    }
  }

  lemma PasoKeepsDocumento(m: Mundo, e: Evento, v: string)
    requires VentaDe(m, v).documento.Some?
    ensures VentaDe(Paso(m, e), v).documento.Some?
  {
  }

  /**
   Once a sale names its fiscal document it names it for ever, as long as the sale is always issued
   in the same environment.
   */
  lemma {:induction false} DocumentoNeverChanges(es: seq<Evento>, n: nat, v: string, a: Ambiente)
    requires n <= |es|
    requires forall i :: 0 <= i < |es| && es[i].Emision? && es[i].venta == v ==> es[i].ambiente == a
    requires VentaDe(Correr(INICIO, es[..n]), v).documento.Some?
    ensures VentaDe(Correr(INICIO, es), v).documento == VentaDe(Correr(INICIO, es[..n]), v).documento
    decreases |es|
  {
    if n == |es| {
      assert es[..n] == es;
    } else {
      var u := es[..|es| - 1];
      assert u[..n] == es[..n];
      DocumentoNeverChanges(u, n, v, a);
      var m, r := Correr(INICIO, u), Correr(INICIO, es);
      PasoKeepsDocumento(m, es[|es| - 1], v);
      RunStaysIn(u, v, a);
      RunStaysIn(es, v, a);
      RunKeepsFiscal(INICIO, u);
      PasoKeepsFiscal(m, es[|es| - 1]);
      assert VentaDocOk(m, v) && VentaDocOk(r, v);
    }
  }

  // ---------------------------------------------------------------- one worker per job

  /** Some worker is inside `process` for the job of k. */
  ghost predicate Tomado(m: Mundo, k: Clave) { exists w: nat :: Tiene(FaseDe(m, w), k) }

  ghost predicate UnoSolo(m: Mundo, k: Clave) {
    forall w: nat, x: nat :: Tiene(FaseDe(m, w), k) && Tiene(FaseDe(m, x), k) ==> w == x
  }

  /** One worker at most, and one still whoever claims next. */
  ghost predicate Exclusiva(m: Mundo, k: Clave) {
    UnoSolo(m, k) && forall x: nat :: UnoSolo(Paso(m, Trabajo(x, Reclamo(k))), k)
  }

  /** Finitely many numbers have a bound, so some worker is idle. */
  lemma {:induction false} BoundOf(ws: set<nat>) returns (n: nat)
    ensures forall w :: w in ws ==> w < n
  {
    if ws == {} {
      n := 0;
    } else {
      var w :| w in ws;
      var rest := BoundOf(ws - {w});
      n := if w < rest then rest else w + 1;
      forall v | v in ws ensures v < n { assert v == w || v in ws - {w}; }
    }
  }

  /** A claim of k by x: nothing, or one more worker inside `process` for it. */
  lemma ClaimShape(m: Mundo, x: nat, k: Clave)
    ensures var r := Paso(m, Trabajo(x, Reclamo(k)));
            if FaseDe(m, x) == Libre && Reclamable(m, k)
            then FaseDe(r, x) == Reclamado(k) && forall y: nat :: y != x ==> FaseDe(r, y) == FaseDe(m, y)
            else r == m
  {
  }

  /** A claim of a job nobody holds, or that cannot be claimed, leaves one worker at most. */
  lemma ClaimStaysAlone(m: Mundo, x: nat, k: Clave)
    requires UnoSolo(m, k) && (Tomado(m, k) ==> !Reclamable(m, k))
    ensures UnoSolo(Paso(m, Trabajo(x, Reclamo(k))), k)
  {
    hide Paso, Reclamable;
    ClaimShape(m, x, k);
    var r := Paso(m, Trabajo(x, Reclamo(k)));
    forall y: nat, z: nat | Tiene(FaseDe(r, y), k) && Tiene(FaseDe(r, z), k) ensures y == z {
      if y != x { assert Tiene(FaseDe(m, y), k); }
      if z != x { assert Tiene(FaseDe(m, z), k); }
    }
  }

  /** Exclusion is in force exactly when at most one worker holds the job, and none if it can be claimed. */
  lemma ExclusivaIff(m: Mundo, k: Clave)
    ensures Exclusiva(m, k) <==> UnoSolo(m, k) && (Tomado(m, k) ==> !Reclamable(m, k))
  {
    hide Paso, Reclamable;
    if UnoSolo(m, k) && Tomado(m, k) && Reclamable(m, k) {
      var w: nat :| Tiene(FaseDe(m, w), k);
      var x := BoundOf(m.obreros.Keys);
      ClaimShape(m, x, k);
      var r := Paso(m, Trabajo(x, Reclamo(k)));
      assert FaseDe(m, x) == Libre && x != w;
      assert Tiene(FaseDe(r, w), k) && Tiene(FaseDe(r, x), k);
      assert !UnoSolo(r, k);
    } else if UnoSolo(m, k) {
      forall x: nat ensures UnoSolo(Paso(m, Trabajo(x, Reclamo(k))), k) { ClaimStaysAlone(m, x, k); }
    }
  }

  /** An enqueue or a retry that arms the job of k again whatever its status. */
  predicate RearmaDe(m: Mundo, e: Evento, k: Clave) {
    k in m.jobs &&
    match e
    case Emision(v, a, _) => Clave(v, a) == k && VentaDe(m, v).documento.None?
    case Encolado(c, _) => c == k
    case Rearme(v, _) => k.venta == v && VentaDe(m, v).documento.None?
    case _ => false
  }

  ghost predicate RearmaTomado(m: Mundo, e: Evento, k: Clave) { RearmaDe(m, e, k) && Tomado(m, k) }

  /** A worker that still holds the job after its own step leaves it neither pending nor in retry. */
  lemma HolderKeepsUnclaimable(m: Mundo, w: nat, a: Accion, k: Clave)
    requires Tiene(FaseDe(Trabajar(m, w, a), w), k) && (Tiene(FaseDe(m, w), k) ==> !Reclamable(m, k))
    ensures !Reclamable(Trabajar(m, w, a), k)
  {
    hide Demora, AplicarDocumento;
  }

  /** A step of a worker that does not hold the job of k makes it claimable only if it was. */
  lemma OthersKeepUnclaimable(m: Mundo, w: nat, a: Accion, k: Clave)
    requires !Tiene(FaseDe(m, w), k) && !Reclamable(m, k)
    ensures !Reclamable(Trabajar(m, w, a), k)
  {
    TrabajarIsLocal(m, w, a);
  }

  lemma TrabajoKeepsExclusiva(m: Mundo, w: nat, a: Accion, k: Clave)
    requires Exclusiva(m, k)
    ensures Exclusiva(Trabajar(m, w, a), k)
  {
    hide Trabajar, Reclamable, Exclusiva, Paso;
    var r := Trabajar(m, w, a);
    ExclusivaIff(m, k);
    ExclusivaIff(r, k);
    TrabajarIsLocal(m, w, a);
    forall x: nat, y: nat | Tiene(FaseDe(r, x), k) && Tiene(FaseDe(r, y), k) ensures x == y {
      HeldBefore(m, w, a, k, x);
      HeldBefore(m, w, a, k, y);
    }
    if Tomado(r, k) {
      var x: nat :| Tiene(FaseDe(r, x), k);
      if x == w {
        HolderKeepsUnclaimable(m, w, a, k);
      } else {
        assert Tiene(FaseDe(m, x), k);
        OthersKeepUnclaimable(m, w, a, k);
      }
    }
  }

  /** A holder after a worker's step held the job before, or is that worker and has just claimed it. */
  lemma HeldBefore(m: Mundo, w: nat, a: Accion, k: Clave, x: nat)
    requires Tiene(FaseDe(Trabajar(m, w, a), x), k)
    ensures Tiene(FaseDe(m, x), k) || (x == w && a == Reclamo(k) && Reclamable(m, k))
  {
    TrabajarIsLocal(m, w, a);
  }

  /** The other events move no worker, and make the job of k claimable only by arming it again. */
  lemma QueueEvents(m: Mundo, e: Evento, k: Clave)
    requires !e.Trabajo?
    ensures forall x: nat :: FaseDe(Paso(m, e), x) == FaseDe(m, x)
    ensures k in m.jobs ==> (Reclamable(Paso(m, e), k) <==> Reclamable(m, k) || RearmaDe(m, e, k))
  {
    hide AplicarDocumento;
  }

  ghost predicate Conocido(m: Mundo, k: Clave) { Tomado(m, k) ==> k in m.jobs }

  lemma PasoKeepsConocido(m: Mundo, e: Evento, k: Clave)
    requires Conocido(m, k)
    ensures Conocido(Paso(m, e), k)
  {
    var r := Paso(m, e);
    if Tomado(r, k) {
      var x: nat :| Tiene(FaseDe(r, x), k);
      if e.Trabajo? {
        TrabajarIsLocal(m, e.w, e.accion);
        HeldBefore(m, e.w, e.accion, k, x);
      } else {
        QueueEvents(m, e, k);
        assert Tiene(FaseDe(m, x), k);
      }
    }
  }

  lemma PasoKeepsExclusivaIff(m: Mundo, e: Evento, k: Clave)
    requires Exclusiva(m, k) && Conocido(m, k)
    ensures Exclusiva(Paso(m, e), k) <==> !RearmaTomado(m, e, k)
  {
    hide Exclusiva, Reclamable;
    if e.Trabajo? {
      TrabajoKeepsExclusiva(m, e.w, e.accion, k);
    } else {
      hide Paso;
      var r := Paso(m, e);
      ExclusivaIff(m, k);
      ExclusivaIff(r, k);
      QueueEvents(m, e, k);
      assert UnoSolo(r, k);
      assert Tomado(r, k) <==> Tomado(m, k) by {
        if Tomado(r, k) { var x: nat :| Tiene(FaseDe(r, x), k); assert Tiene(FaseDe(m, x), k); }
        if Tomado(m, k) { var x: nat :| Tiene(FaseDe(m, x), k); assert Tiene(FaseDe(r, x), k); }
      }
    }
  }

  /** No re-arm of the run met a worker holding the job of k. */
  ghost predicate SinRearmeTomado(es: seq<Evento>, k: Clave) {
    forall i :: 0 <= i < |es| ==> !RearmaTomado(Correr(INICIO, es[..i]), es[i], k)
  }

  /** At every point of the run. */
  ghost predicate SiempreExclusiva(es: seq<Evento>, k: Clave) {
    forall i :: 0 <= i <= |es| ==> Exclusiva(Correr(INICIO, es[..i]), k)
  }

  lemma SnocExclusiva(es: seq<Evento>, k: Clave)
    requires |es| > 0
    ensures SiempreExclusiva(es, k) <==> SiempreExclusiva(es[..|es| - 1], k) && Exclusiva(Correr(INICIO, es), k)
    ensures SiempreExclusiva(es[..|es| - 1], k) ==> Exclusiva(Correr(INICIO, es[..|es| - 1]), k)
  {
    hide Correr, Exclusiva;
    var u := es[..|es| - 1];
    assert forall i :: 0 <= i <= |u| ==> u[..i] == es[..i];
    assert es[..|es|] == es && u[..|u|] == u;
  }

  lemma SnocRearme(es: seq<Evento>, k: Clave)
    requires |es| > 0
    ensures SinRearmeTomado(es, k) <==>
              SinRearmeTomado(es[..|es| - 1], k) && !RearmaTomado(Correr(INICIO, es[..|es| - 1]), es[|es| - 1], k)
  {
    hide Correr, RearmaTomado;
    var u := es[..|es| - 1];
    assert forall i :: 0 <= i <= |u| ==> u[..i] == es[..i];
  }

  /**
   Under any interleaving of workers, failures and re-arms, a job has one worker at most at every
   point of a run, whoever claims next, exactly when no re-arm of it met a worker holding it.
   */
  lemma {:induction false} OneWorkerPerJobIff(es: seq<Evento>, k: Clave)
    ensures SiempreExclusiva(es, k) <==> SinRearmeTomado(es, k)
    ensures Conocido(Correr(INICIO, es), k)
  {
    if |es| == 0 {
      assert es[..0] == es;
      ExclusivaIff(INICIO, k);
    } else {
      hide Paso, Exclusiva, RearmaTomado, Conocido, SiempreExclusiva, SinRearmeTomado;
      var n, u := |es| - 1, es[..|es| - 1];
      OneWorkerPerJobIff(u, k);
      SnocExclusiva(es, k);
      SnocRearme(es, k);
      PasoKeepsConocido(Correr(INICIO, u), es[n], k);
      if Exclusiva(Correr(INICIO, u), k) { PasoKeepsExclusivaIff(Correr(INICIO, u), es[n], k); }
    }
  }

  /** In particular two workers inside `process` for one job are the same. */
  lemma OneWorkerPerJob(es: seq<Evento>, w: nat, x: nat, k: Clave)
    requires SinRearmeTomado(es, k)
    requires Tiene(FaseDe(Correr(INICIO, es), w), k) && Tiene(FaseDe(Correr(INICIO, es), x), k)
    ensures w == x
  {
    hide Correr, SinRearmeTomado;
    OneWorkerPerJobIff(es, k);
    assert es[..|es|] == es;
    assert Exclusiva(Correr(INICIO, es[..|es|]), k);
  }

  /** A re-arm that meets a holder ends the exclusion: an idle worker can join whoever holds the job. */
  lemma RearmAllowsTwoWorkers(m: Mundo, w: nat, x: nat, k: Clave, now: int)
    requires Tiene(FaseDe(m, w), k) && k in m.jobs && FaseDe(m, x) == Libre
    ensures var r := Paso(Paso(m, Encolado(k, now)), Trabajo(x, Reclamo(k)));
            Tiene(FaseDe(r, w), k) && Tiene(FaseDe(r, x), k) && w != x
  {
    var n := Paso(m, Encolado(k, now));
    assert FaseDe(n, w) == FaseDe(m, w) && FaseDe(n, x) == Libre;
  }

  // ---------------------------------------------------------------- lost jobs

  /** In processing, and no worker is inside `process` for it. */
  ghost predicate Perdido(m: Mundo, k: Clave) {
    k in m.jobs && m.jobs[k].estado == PROCESSING && !Tomado(m, k)
  }

  /**
   The last worker on a job in processing goes without writing its status: it stops, or it had marked
   the job done before a re-arm and another claim, and now finishes.
   */
  ghost predicate Suelta(m: Mundo, e: Evento, k: Clave) {
    && e.Trabajo? && Tiene(FaseDe(m, e.w), k) && k in m.jobs && m.jobs[k].estado == PROCESSING
    && (forall x: nat :: x != e.w ==> !Tiene(FaseDe(m, x), k))
    && (e.accion.Caida? || (e.accion.Reflejo? && !e.accion.falla && FaseDe(m, e.w).Marcado?))
  }

  /** A worker that does not hold the job of k leaves it alone, unless it claims it. */
  lemma OthersWork(m: Mundo, w: nat, a: Accion, k: Clave)
    requires k in m.jobs && !Tiene(FaseDe(m, w), k)
    ensures var r := Trabajar(m, w, a);
            && k in r.jobs
            && (m.jobs[k].estado == PROCESSING ==> r.jobs[k].estado == PROCESSING && !Tiene(FaseDe(r, w), k))
            && (m.jobs[k].estado != PROCESSING && r.jobs[k].estado == PROCESSING ==> Tiene(FaseDe(r, w), k))
  {
    TrabajarIsLocal(m, w, a);
    if a == Reclamo(k) {
    } else {
      hide Trabajar;
    }
  }

  /** A worker that holds it leaves it in processing with itself gone exactly in the two ways of Suelta. */
  lemma OwnWork(m: Mundo, w: nat, a: Accion, k: Clave)
    requires k in m.jobs && Tiene(FaseDe(m, w), k)
    ensures var r := Trabajar(m, w, a);
            && k in r.jobs
            && (r.jobs[k].estado == PROCESSING && !Tiene(FaseDe(r, w), k) <==>
                  m.jobs[k].estado == PROCESSING && (a.Caida? || (a.Reflejo? && !a.falla && FaseDe(m, w).Marcado?)))
  {
    hide Demora, AplicarDocumento, VentaDe;
  }

  lemma TrabajoLosesIff(m: Mundo, w: nat, a: Accion, k: Clave)
    ensures Perdido(Trabajar(m, w, a), k) <==> Perdido(m, k) || Suelta(m, Trabajo(w, a), k)
  {
    hide Trabajar;
    var r := Trabajar(m, w, a);
    TrabajarIsLocal(m, w, a);
    if k in m.jobs {
      if Tiene(FaseDe(m, w), k) { OwnWork(m, w, a, k); } else { OthersWork(m, w, a, k); }
      if Tomado(r, k) {
        var x: nat :| Tiene(FaseDe(r, x), k);
        assert x != w ==> Tiene(FaseDe(m, x), k);
      } else {
        assert !Tiene(FaseDe(r, w), k);
        forall x: nat ensures x != w ==> !Tiene(FaseDe(m, x), k) { assert x != w ==> FaseDe(r, x) == FaseDe(m, x); }
      }
    }
  }

  lemma PasoLosesIff(m: Mundo, e: Evento, k: Clave)
    ensures Perdido(Paso(m, e), k) <==> (Perdido(m, k) && !RearmaDe(m, e, k)) || Suelta(m, e, k)
  {
    if e.Trabajo? {
      TrabajoLosesIff(m, e.w, e.accion, k);
    } else {
      var r := Paso(m, e);
      QueueEvents(m, e, k);
      assert Tomado(r, k) <==> Tomado(m, k) by {
        if Tomado(r, k) { var x: nat :| Tiene(FaseDe(r, x), k); assert Tiene(FaseDe(m, x), k); }
        if Tomado(m, k) { var x: nat :| Tiene(FaseDe(m, x), k); assert Tiene(FaseDe(r, x), k); }
      }
      OthersKeepProcessing(m, e, k);
    }
  }

  lemma OthersKeepProcessing(m: Mundo, e: Evento, k: Clave)
    requires !e.Trabajo?
    ensures k in Paso(m, e).jobs && Paso(m, e).jobs[k].estado == PROCESSING <==>
              k in m.jobs && m.jobs[k].estado == PROCESSING && !RearmaDe(m, e, k)
  {
    hide AplicarDocumento;
  }

  /** The job of k was let go, and has not been armed again since. */
  ghost predicate SueltoSinRearme(es: seq<Evento>, k: Clave) {
    |es| > 0 &&
    var u, e := es[..|es| - 1], es[|es| - 1];
    Suelta(Correr(INICIO, u), e, k) || (SueltoSinRearme(u, k) && !RearmaDe(Correr(INICIO, u), e, k))
  }

  /**
   Over any run, re-arms and double claims included, a job is stuck in processing with nobody on it
   exactly when its last worker let it go and it has not been armed again since.
   */
  lemma {:induction false} LostJobIff(es: seq<Evento>, k: Clave)
    ensures Perdido(Correr(INICIO, es), k) <==> SueltoSinRearme(es, k)
  {
    if |es| == 0 {
    } else {
      hide Paso, Perdido, Suelta, RearmaDe;
      LostJobIff(es[..|es| - 1], k);
      PasoLosesIff(Correr(INICIO, es[..|es| - 1]), es[|es| - 1], k);
    }
  }

  // ---------------------------------------------------------------- claims without operator re-arms

  /** An event that arms an existing job again regardless of its status. */
  predicate Rearma(m: Mundo, e: Evento) {
    match e
    case Emision(v, a, _) => Clave(v, a) in m.jobs
    case Encolado(k, _) => k in m.jobs
    case Rearme(_, _) => true
    case _ => false
  }

  predicate SinRearme(m: Mundo, es: seq<Evento>) {
    |es| == 0 || (SinRearme(m, es[..|es| - 1]) && !Rearma(Correr(m, es[..|es| - 1]), es[|es| - 1]))
  }

  /** What a worker inside `process` may rely on: its job is still the one it claimed. */
  ghost predicate FaseOk(m: Mundo, f: Fase) {
    !f.Libre? ==>
      && f.k in m.jobs && m.jobs[f.k].attempts >= 1
      && (f.Reclamado? || f.Leido? || f.Respondido? ==> m.jobs[f.k].estado == PROCESSING)
      && (f.Marcado? ==> m.jobs[f.k].estado == DONE)
      && (f.Fallado? ==> m.jobs[f.k].estado == PROCESSING || m.jobs[f.k].estado == DONE)
      && (!f.Reclamado? ==> f.attempts == m.jobs[f.k].attempts)
  }

  ghost predicate JobOk(j: Job) {
    && j.attempts <= MAX_ATTEMPTS
    && (j.estado == PENDING ==> j.attempts == 0)
    && (j.estado == RETRY ==> j.attempts < MAX_ATTEMPTS)
  }

  ghost predicate Exclusivo(m: Mundo) {
    forall w: nat, x: nat, k :: Tiene(FaseDe(m, w), k) && Tiene(FaseDe(m, x), k) ==> w == x
  }

  ghost predicate ColaOk(m: Mundo) {
    && (forall k :: k in m.jobs ==> JobOk(m.jobs[k]))
    && (forall w: nat :: FaseOk(m, FaseDe(m, w)))
    && Exclusivo(m)
  }

  lemma OwnJobStaysOk(m: Mundo, w: nat, a: Accion)
    requires ColaOk(m) && !a.Reclamo?
    ensures forall k :: k in Trabajar(m, w, a).jobs ==> JobOk(Trabajar(m, w, a).jobs[k])
    ensures FaseOk(Trabajar(m, w, a), FaseDe(Trabajar(m, w, a), w))
  {
    assert FaseOk(m, FaseDe(m, w));
  }

  lemma TrabajarKeepsCola(m: Mundo, w: nat, a: Accion)
    requires ColaOk(m) && !a.Reclamo?
    ensures ColaOk(Trabajar(m, w, a))
  {
    var r := Trabajar(m, w, a);
    TrabajarIsLocal(m, w, a);
    OwnJobStaysOk(m, w, a);
    OtherWorkersStayOk(m, r, w);
  }

  /** Worker w moves, rewriting at most the job it holds: the others keep theirs. */
  lemma OtherWorkersStayOk(m: Mundo, r: Mundo, w: nat)
    requires ColaOk(m)
    requires forall x: nat :: x != w ==> FaseDe(r, x) == FaseDe(m, x)
    requires forall k :: k in m.jobs <==> k in r.jobs
    requires forall k :: k in m.jobs && !Tiene(FaseDe(m, w), k) ==> r.jobs[k] == m.jobs[k]
    requires forall k :: Tiene(FaseDe(r, w), k) ==> Tiene(FaseDe(m, w), k)
    requires FaseOk(r, FaseDe(r, w))
    ensures forall x: nat :: FaseOk(r, FaseDe(r, x))
    ensures Exclusivo(r)
  {
    forall x: nat ensures FaseOk(r, FaseDe(r, x)) {
      if x != w && !FaseDe(m, x).Libre? {
        assert FaseOk(m, FaseDe(m, x));
        assert Tiene(FaseDe(m, x), FaseDe(m, x).k);
      }
    }
    forall x: nat, y: nat, k | Tiene(FaseDe(r, x), k) && Tiene(FaseDe(r, y), k) ensures x == y {
      assert Tiene(FaseDe(m, x), k) && Tiene(FaseDe(m, y), k);
    }
  }

  lemma ReclamarKeepsCola(m: Mundo, w: nat, k: Clave)
    requires ColaOk(m)
    ensures ColaOk(Reclamar(m, w, k))
  {
    var r := Reclamar(m, w, k);
    if FaseDe(m, w) == Libre && Reclamable(m, k) {
      forall x: nat ensures x != w ==> !Tiene(FaseDe(m, x), k) && FaseOk(r, FaseDe(r, x)) {
        assert FaseOk(m, FaseDe(m, x));
      }
      assert FaseDe(r, w) == Reclamado(k);
      forall x: nat, y: nat, l | Tiene(FaseDe(r, x), l) && Tiene(FaseDe(r, y), l) ensures x == y {
        if x != w && y != w { assert Tiene(FaseDe(m, x), l) && Tiene(FaseDe(m, y), l); }
      }
    }
  }

  lemma ArmKeepsCola(m: Mundo, r: Mundo, k: Clave, now: int)
    requires ColaOk(m) && k !in m.jobs
    requires r.jobs == m.jobs[k := Job(k, PENDING, 0, now)] && r.obreros == m.obreros
    ensures ColaOk(r)
  {
    forall x: nat ensures FaseOk(r, FaseDe(r, x)) { assert FaseOk(m, FaseDe(m, x)); assert FaseDe(r, x) == FaseDe(m, x); }
    forall x: nat, y: nat, l | Tiene(FaseDe(r, x), l) && Tiene(FaseDe(r, y), l) ensures x == y {
      assert Tiene(FaseDe(m, x), l) && Tiene(FaseDe(m, y), l);
    }
  }

  lemma SameQueueKeepsCola(m: Mundo, r: Mundo)
    requires ColaOk(m) && r.jobs == m.jobs && r.obreros == m.obreros
    ensures ColaOk(r)
  {
    forall x: nat ensures FaseOk(r, FaseDe(r, x)) { assert FaseOk(m, FaseDe(m, x)); assert FaseDe(r, x) == FaseDe(m, x); }
    forall x: nat, y: nat, l | Tiene(FaseDe(r, x), l) && Tiene(FaseDe(r, y), l) ensures x == y {
      assert Tiene(FaseDe(m, x), l) && Tiene(FaseDe(m, y), l);
    }
  }

  lemma InicioIsOk()
    ensures ColaOk(INICIO) && FiscalOk(INICIO)
  {
  }

  lemma PasoKeepsCola(m: Mundo, e: Evento)
    requires ColaOk(m) && !Rearma(m, e)
    ensures ColaOk(Paso(m, e))
  {
    var r := Paso(m, e);
    match e
    case Emision(v, a, now) => if r == m { } else { ArmKeepsCola(m, r, Clave(v, a), now); }
    case Encolado(k, now) => ArmKeepsCola(m, r, k, now);
    case Entrega(_, _, _) => SameQueueKeepsCola(m, r);
    case Trabajo(w, a) => if a.Reclamo? { ReclamarKeepsCola(m, w, a.k); } else { TrabajarKeepsCola(m, w, a); }
    case Rearme(_, _) =>
  }

  lemma {:induction false} RunKeepsCola(m: Mundo, es: seq<Evento>)
    requires ColaOk(m) && SinRearme(m, es)
    ensures ColaOk(Correr(m, es))
  {
    if |es| == 0 {
    } else {
      RunKeepsCola(m, es[..|es| - 1]);
      PasoKeepsCola(Correr(m, es[..|es| - 1]), es[|es| - 1]);
    }
  }

  predicate EsReclamo(m: Mundo, e: Evento, k: Clave) {
    e.Trabajo? && e.accion == Reclamo(k) && FaseDe(m, e.w) == Libre && Reclamable(m, k)
  }

  /** How many times the job of k is claimed along a run. */
  function Reclamos(m: Mundo, es: seq<Evento>, k: Clave): nat {
    if |es| == 0 then 0
    else Reclamos(m, es[..|es| - 1], k) + (if EsReclamo(Correr(m, es[..|es| - 1]), es[|es| - 1], k) then 1 else 0)
  }

  function AttemptsDe(m: Mundo, k: Clave): nat { if k in m.jobs then m.jobs[k].attempts else 0 }

  /** Attempts move by one at a claim and never otherwise, re-arms included. */
  lemma PasoCountsClaims(m: Mundo, e: Evento, k: Clave)
    ensures AttemptsDe(Paso(m, e), k) == AttemptsDe(m, k) + (if EsReclamo(m, e, k) then 1 else 0)
  {
  }

  lemma {:induction false} AttemptsCountClaims(m: Mundo, es: seq<Evento>, k: Clave)
    ensures AttemptsDe(Correr(m, es), k) == AttemptsDe(m, k) + Reclamos(m, es, k)
  {
    if |es| == 0 {
    } else {
      AttemptsCountClaims(m, es[..|es| - 1], k);
      PasoCountsClaims(Correr(m, es[..|es| - 1]), es[|es| - 1], k);
    }
  }

  /** Without re-arms a job is claimed, and so posted, at most maxAttempts times. */
  lemma ClaimsAreBounded(es: seq<Evento>, k: Clave)
    requires SinRearme(INICIO, es)
    ensures Reclamos(INICIO, es, k) <= MAX_ATTEMPTS
  {
    AttemptsCountClaims(INICIO, es, k);
    RunKeepsCola(INICIO, es);
  }

  /**
   A failed attempt is retried no sooner than 20 and no later than 640 seconds on, and only while
   attempts are left and the error allows it.
   */
  lemma FailureBacksOff(es: seq<Evento>, w: nat, now: int)
    requires SinRearme(INICIO, es) && FaseDe(Correr(INICIO, es), w).Fallado?
    ensures var m := Correr(INICIO, es);
            var f, r := FaseDe(m, w), Paso(m, Trabajo(w, Fallo(now)));
            && f.k in m.jobs && f.k in r.jobs
            && 20_000 <= r.jobs[f.k].nextAttemptAt - now <= 640_000
            && r.jobs[f.k].estado == (if f.retryable && m.jobs[f.k].attempts < MAX_ATTEMPTS then RETRY else DEAD)
  {
    hide Correr, SinRearme, Demora;
    InicioIsOk();
    RunKeepsCola(INICIO, es);
    var m := Correr(INICIO, es);
    assert FaseOk(m, FaseDe(m, w));
    DemoraBounds(m.jobs[FaseDe(m, w).k].attempts, m.jobs[FaseDe(m, w).k].attempts);
  }

  /** A job no worker holds and that cannot be claimed. */
  ghost predicate Quieto(m: Mundo, k: Clave) {
    k in m.jobs && !Reclamable(m, k) && forall w: nat :: !Tiene(FaseDe(m, w), k)
  }

  lemma PasoKeepsQuieto(m: Mundo, e: Evento, k: Clave)
    requires Quieto(m, k) && !Rearma(m, e)
    ensures Quieto(Paso(m, e), k) && Paso(m, e).jobs[k] == m.jobs[k]
  {
    var r := Paso(m, e);
    if e.Trabajo? {
      TrabajarIsLocal(m, e.w, e.accion);
      assert !Tiene(FaseDe(m, e.w), k);
      forall w: nat ensures !Tiene(FaseDe(r, w), k) { assert !Tiene(FaseDe(m, w), k); }
    } else {
      assert forall w: nat :: FaseDe(r, w) == FaseDe(m, w);
    }
  }

  /**
   Nothing but a re-arm moves such a job again. It covers a dead job, a done job once mirrored, and
   the job of a worker that stopped half-way: that one stays PROCESSING for ever, since the queue
   only looks at PENDING and RETRY and the expired lock is never taken over.
   */
  lemma {:induction false} QuietJobIsFinal(m: Mundo, es: seq<Evento>, k: Clave)
    requires Quieto(m, k) && SinRearme(m, es)
    ensures Quieto(Correr(m, es), k) && Correr(m, es).jobs[k] == m.jobs[k]
  {
    if |es| == 0 {
    } else {
      QuietJobIsFinal(m, es[..|es| - 1], k);
      PasoKeepsQuieto(Correr(m, es[..|es| - 1]), es[|es| - 1], k);
    }
  }

  lemma DeadJobIsQuiet(es: seq<Evento>, k: Clave)
    requires SinRearme(INICIO, es) && k in Correr(INICIO, es).jobs && Correr(INICIO, es).jobs[k].estado == DEAD
    ensures Quieto(Correr(INICIO, es), k)
  {
    var m := Correr(INICIO, es);
    RunKeepsCola(INICIO, es);
    forall w: nat ensures !Tiene(FaseDe(m, w), k) { assert FaseOk(m, FaseDe(m, w)); }
  }

  /** Stopping while holding a job in processing is what loses it. */
  lemma CrashLosesJob(es: seq<Evento>, w: nat, k: Clave)
    requires SinRearme(INICIO, es) && Responde(FaseDe(Correr(INICIO, es), w), k)
    ensures Quieto(Paso(Correr(INICIO, es), Trabajo(w, Caida)), k)
  {
    hide Correr, ColaOk, Responde, Quieto;
    InicioIsOk();
    RunKeepsCola(INICIO, es);
    CrashQuiets(Correr(INICIO, es), w, k);
  }

  lemma CrashQuiets(m: Mundo, w: nat, k: Clave)
    requires ColaOk(m) && Responde(FaseDe(m, w), k)
    ensures Quieto(Poner(m, w, Libre), k)
  {
    var r := Poner(m, w, Libre);
    assert FaseOk(m, FaseDe(m, w)) && Tiene(FaseDe(m, w), k);
    forall x: nat ensures !Tiene(FaseDe(r, x), k) {
      if x != w { assert FaseDe(r, x) == FaseDe(m, x); }
    }
  }

  /** A worker that will still write the status of the job it claimed. */
  predicate Responde(f: Fase, k: Clave) { (f.Reclamado? || f.Leido? || f.Respondido? || f.Fallado?) && f.k == k }

  ghost predicate Atendido(m: Mundo) {
    && (forall k :: k in m.jobs && m.jobs[k].estado == PROCESSING ==> exists w: nat :: Responde(FaseDe(m, w), k))
    && (forall w: nat :: !FaseDe(m, w).Libre? ==> FaseDe(m, w).k in m.jobs)
  }

  predicate EsCaida(e: Evento) { e.Trabajo? && e.accion.Caida? }

  /** A worker gives up answering for a job only by writing a status other than PROCESSING on it. */
  lemma WorkerStillAnswers(m: Mundo, w: nat, a: Accion, k: Clave)
    requires !a.Caida? && k in Trabajar(m, w, a).jobs && Trabajar(m, w, a).jobs[k].estado == PROCESSING
    requires !FaseDe(m, w).Libre? ==> FaseDe(m, w).k in m.jobs
    ensures k in m.jobs
    ensures Responde(FaseDe(m, w), k) ==> Responde(FaseDe(Trabajar(m, w, a), w), k)
    ensures !Responde(FaseDe(Trabajar(m, w, a), w), k) ==> m.jobs[k].estado == PROCESSING
  {
    hide Demora, AplicarDocumento;
  }

  lemma TrabajarKeepsAtendido(m: Mundo, w: nat, a: Accion)
    requires Atendido(m) && !a.Caida?
    ensures Atendido(Trabajar(m, w, a))
  {
    hide Trabajar;
    var r := Trabajar(m, w, a);
    TrabajarIsLocal(m, w, a);
    forall k | k in r.jobs && r.jobs[k].estado == PROCESSING ensures exists x: nat :: Responde(FaseDe(r, x), k) {
      WorkerStillAnswers(m, w, a, k);
      if !Responde(FaseDe(r, w), k) {
        var x: nat :| Responde(FaseDe(m, x), k);
        assert Responde(FaseDe(r, x), k);
      }
    }
    forall x: nat | !FaseDe(r, x).Libre? ensures FaseDe(r, x).k in r.jobs {
      if x == w { assert Tiene(FaseDe(r, w), FaseDe(r, w).k); } else { assert FaseDe(r, x) == FaseDe(m, x); }
    }
  }

  lemma PasoKeepsAtendido(m: Mundo, e: Evento)
    requires Atendido(m) && !EsCaida(e)
    ensures Atendido(Paso(m, e))
  {
    var r := Paso(m, e);
    if e.Trabajo? {
      TrabajarKeepsAtendido(m, e.w, e.accion);
    } else {
      assert forall w: nat :: FaseDe(r, w) == FaseDe(m, w);
      forall k | k in r.jobs && r.jobs[k].estado == PROCESSING ensures exists x: nat :: Responde(FaseDe(r, x), k) {
        var x: nat :| Responde(FaseDe(m, x), k);
        assert Responde(FaseDe(r, x), k);
      }
    }
  }

  /**
   Without crashes no job is lost, re-arms or not: whenever every worker is idle no job is left
   PROCESSING.
   */
  lemma {:induction false} NoCrashNoLostJob(es: seq<Evento>)
    requires forall i :: 0 <= i < |es| ==> !EsCaida(es[i])
    ensures Atendido(Correr(INICIO, es))
  {
    if |es| == 0 {
    } else {
      NoCrashNoLostJob(es[..|es| - 1]);
      PasoKeepsAtendido(Correr(INICIO, es[..|es| - 1]), es[|es| - 1]);
    }
  }

  /**
   A job is marked DONE before its document is mirrored, so a failed mirror write sends a DONE job
   back to RETRY or DEAD; however it goes on, no further post of it creates another document.
   */
  lemma FailedMirrorRevivesDoneJob(m: Mundo, w: nat, now: int, status: BillingStatus, at: int, es: seq<Evento>)
    requires FiscalOk(m) && ColaOk(m) && FaseDe(m, w).Marcado?
    ensures var k := FaseDe(m, w).k;
            var r := Paso(Paso(m, Trabajo(w, Reflejo(status, at, true))), Trabajo(w, Fallo(now)));
            && k in m.jobs && m.jobs[k].estado == DONE
            && k in r.jobs && r.jobs[k].estado == (if m.jobs[k].attempts >= MAX_ATTEMPTS then DEAD else RETRY)
            && k in Correr(r, es).remoto && Correr(r, es).remoto[k] == FaseDe(m, w).doc
  {
    hide RemotoOk, VentaDocOk, Exclusivo, Correr, Demora;
    assert FaseOk(m, FaseDe(m, w)) && FaseDocOk(m, FaseDe(m, w));
    var n := Paso(m, Trabajo(w, Reflejo(status, at, true)));
    var r := Paso(n, Trabajo(w, Fallo(now)));
    PasoKeepsFiscal(m, Trabajo(w, Reflejo(status, at, true)));
    PasoKeepsFiscal(n, Trabajo(w, Fallo(now)));
    RunKeepsFiscal(r, es);
  }

  // ---------------------------------------------------------------- the service

  /** What comes back for a claimed job: refused, answered into the void, or answered. */
  datatype Respuesta =
    | Rechazada(retryable: bool)
    | SinRespuesta
    | Contestada(status: BillingStatus, updatedAt: int, reflejoFalla: bool)

  /** The steps one undisturbed call of `process` takes; those that do not apply change nothing. */
  function Ciclo(w: nat, k: Clave, resp: Respuesta, nuevo: nat, now: int): seq<Evento> {
    [Trabajo(w, Reclamo(k)),
     Trabajo(w, Lectura),
     Trabajo(w, if resp.Rechazada? then Rechazo(resp.retryable) else Envio(nuevo, resp.SinRespuesta?)),
     Trabajo(w, Marca),
     Trabajo(w, if resp.Contestada? then Reflejo(resp.status, resp.updatedAt, resp.reflejoFalla) else Reflejo(QUEUED, 0, true)),
     Trabajo(w, Fallo(now))]
  }

  lemma CorrerSix(m: Mundo, a: Evento, b: Evento, c: Evento, d: Evento, e: Evento, f: Evento)
    ensures Correr(m, [a, b, c, d, e, f]) == Paso(Paso(Paso(Paso(Paso(Paso(m, a), b), c), d), e), f)
  {
    assert [a, b, c, d, e, f][..5] == [a, b, c, d, e];
    assert [a, b, c, d, e][..4] == [a, b, c, d];
    assert [a, b, c, d][..3] == [a, b, c];
    assert [a, b, c][..2] == [a, b];
    assert [a, b][..1] == [a];
    assert [a][..0] == [];
    assert Correr(m, [a]) == Paso(m, a);
    assert Correr(m, [a, b]) == Paso(Paso(m, a), b);
    assert Correr(m, [a, b, c]) == Paso(Paso(Paso(m, a), b), c);
    assert Correr(m, [a, b, c, d]) == Paso(Paso(Paso(Paso(m, a), b), c), d);
  }

  function Fracasar(m: Mundo, k: Clave, attempts: nat, retryable: bool, now: int): Mundo
    requires k in m.jobs
  {
    var dead := !retryable || attempts >= MAX_ATTEMPTS;
    var v := VentaDe(m, k.venta).(status := Some(if dead then FAILED else RETRY_SCHEDULED), updatedAt := Some(now));
    m.(jobs := m.jobs[k := m.jobs[k].(estado := if dead then DEAD else RETRY, nextAttemptAt := now + Demora(attempts))],
       ventas := m.ventas[k.venta := v])
  }

  function Tomar(m: Mundo, k: Clave): Mundo
    requires k in m.jobs
  {
    m.(jobs := m.jobs[k := m.jobs[k].(estado := PROCESSING, attempts := m.jobs[k].attempts + 1)])
  }

  function Registrado(m: Mundo, clave: Clave, k: Clave, nuevo: nat): Documento {
    if clave in m.remoto then m.remoto[clave] else Documento(nuevo, k.venta, k.ambiente)
  }

  /** From the answer on: the job is done, then the document is mirrored or the call fails. */
  function Contestar(m: Mundo, k: Clave, attempts: nat, doc: Documento, resp: Respuesta, now: int): Mundo
    requires k in m.jobs && resp.Contestada?
  {
    var c := m.(jobs := m.jobs[k := m.jobs[k].(estado := DONE)]);
    if resp.reflejoFalla then Fracasar(c, k, attempts, true, now)
    else c.(ventas := c.ventas[k.venta := AplicarDocumento(VentaDe(c, k.venta), doc, resp.status, resp.updatedAt)])
  }

  /** From the claim on. */
  function Tramitar(m: Mundo, k: Clave, resp: Respuesta, nuevo: nat, now: int): Mundo
    requires k in m.jobs
  {
    var n := m.jobs[k].attempts;
    if VentaDe(m, k.venta).ambiente != Some(k.ambiente) then Fracasar(m, k, n, true, now)
    else if resp.Rechazada? then Fracasar(m, k, n, resp.retryable, now)
    else
      var doc := Registrado(m, m.jobs[k].clave, k, nuevo);
      var b := m.(remoto := m.remoto[m.jobs[k].clave := doc]);
      if resp.SinRespuesta? then Fracasar(b, k, n, true, now) else Contestar(b, k, n, doc, resp, now)
  }

  /** What one undisturbed call of `process` does to the tables. */
  function Procesar(m: Mundo, k: Clave, resp: Respuesta, nuevo: nat, now: int): Mundo {
    if Reclamable(m, k) then Tramitar(Tomar(m, k), k, resp, nuevo, now) else m
  }

  /** Once idle again, worker w has left the tables as in r. */
  ghost predicate Deja(m: Mundo, w: nat, r: Mundo) {
    m.jobs == r.jobs && m.remoto == r.remoto && m.ventas == r.ventas && FaseDe(m, w) == Libre
  }

  lemma FalloIsFracasar(m: Mundo, w: nat, now: int)
    requires FaseDe(m, w).Fallado? && FaseDe(m, w).k in m.jobs
    ensures Deja(EscribirFallo(m, w, now), w, Fracasar(m, FaseDe(m, w).k, FaseDe(m, w).attempts, FaseDe(m, w).retryable, now))
  {
  }

  lemma IdleStepsDoNothing(m: Mundo, w: nat, a: Accion)
    requires !a.Reclamo? && !a.Caida?
    requires FaseDe(m, w) == Libre || (FaseDe(m, w).Fallado? && !a.Fallo?)
    ensures Trabajar(m, w, a) == m
  {
  }

  function Tras(m: Mundo, w: nat, resp: Respuesta, nuevo: nat): Mundo {
    Trabajar(m, w, if resp.Rechazada? then Rechazo(resp.retryable) else Envio(nuevo, resp.SinRespuesta?))
  }

  function Cerrar(m: Mundo, w: nat, resp: Respuesta, now: int): Mundo {
    var n := Marcar(m, w);
    var r := Trabajar(n, w, if resp.Contestada? then Reflejo(resp.status, resp.updatedAt, resp.reflejoFalla) else Reflejo(QUEUED, 0, true));
    EscribirFallo(r, w, now)
  }

  lemma FailedCallCloses(m: Mundo, w: nat, resp: Respuesta, now: int)
    requires FaseDe(m, w).Fallado? && FaseDe(m, w).k in m.jobs
    ensures Deja(Cerrar(m, w, resp, now), w, Fracasar(m, FaseDe(m, w).k, FaseDe(m, w).attempts, FaseDe(m, w).retryable, now))
  {
    FalloIsFracasar(m, w, now);
  }

  lemma AnsweredCallCloses(m: Mundo, w: nat, resp: Respuesta, now: int)
    requires FaseDe(m, w).Respondido? && FaseDe(m, w).k in m.jobs && resp.Contestada?
    ensures Deja(Cerrar(m, w, resp, now), w, Contestar(m, FaseDe(m, w).k, FaseDe(m, w).attempts, FaseDe(m, w).doc, resp, now))
  {
    var n := Marcar(m, w);
    assert FaseDe(n, w).Marcado?;
    var r := Reflejar(n, w, resp.status, resp.updatedAt, resp.reflejoFalla);
    if resp.reflejoFalla {
      FalloIsFracasar(r, w, now);
    } else {
      IdleStepsDoNothing(r, w, Fallo(now));
    }
  }

  lemma ClaimedCallIsTramitar(m: Mundo, w: nat, k: Clave, resp: Respuesta, nuevo: nat, now: int)
    requires FaseDe(m, w) == Reclamado(k) && k in m.jobs && IdNuevo(m, nuevo)
    ensures Deja(Cerrar(Tras(Leer(m, w), w, resp, nuevo), w, resp, now), w, Tramitar(m, k, resp, nuevo, now))
  {
    hide Cerrar, Demora;
    var n := Leer(m, w);
    var r := Tras(n, w, resp, nuevo);
    if FaseDe(n, w).Fallado? {
      assert r == n;
      FailedCallCloses(n, w, resp, now);
    } else if resp.Contestada? {
      assert FaseDe(r, w).Respondido?;
      AnsweredCallCloses(r, w, resp, now);
    } else {
      assert FaseDe(r, w).Fallado?;
      FailedCallCloses(r, w, resp, now);
    }
  }

  /** The straight-line call is exactly the protocol's run in which one worker is never interrupted. */
  lemma ProcesarIsARun(m: Mundo, w: nat, k: Clave, resp: Respuesta, nuevo: nat, now: int)
    requires FaseDe(m, w) == Libre && IdNuevo(m, nuevo)
    ensures Deja(Correr(m, Ciclo(w, k, resp, nuevo, now)), w, Procesar(m, k, resp, nuevo, now))
  {
    var es := Ciclo(w, k, resp, nuevo, now);
    CorrerSix(m, es[0], es[1], es[2], es[3], es[4], es[5]);
    var n := Reclamar(m, w, k);
    assert Correr(m, es) == Cerrar(Tras(Leer(n, w), w, resp, nuevo), w, resp, now);
    if Reclamable(m, k) {
      ClaimedCallIsTramitar(n, w, k, resp, nuevo, now);
      TramitarIgnoresWorkers(n, Tomar(m, k), k, resp, nuevo, now);
    } else {
      IdleStepsDoNothing(m, w, es[1].accion);
      IdleStepsDoNothing(m, w, es[2].accion);
      IdleStepsDoNothing(m, w, es[3].accion);
      IdleStepsDoNothing(m, w, es[4].accion);
      IdleStepsDoNothing(m, w, es[5].accion);
    }
  }

  lemma TramitarIgnoresWorkers(a: Mundo, b: Mundo, k: Clave, resp: Respuesta, nuevo: nat, now: int)
    requires a.jobs == b.jobs && a.remoto == b.remoto && a.ventas == b.ventas && k in a.jobs
    ensures Tramitar(a, k, resp, nuevo, now) == Tramitar(b, k, resp, nuevo, now).(obreros := a.obreros)
  {
  }

  /** The outbox and sale tables, with the register they talk to. */
  class OutboxTables {
    var jobs: map<Clave, Job>
    var remoto: map<Clave, Documento>
    var ventas: map<string, Venta>

    constructor ()
      ensures State() == INICIO
    {
      jobs, remoto, ventas := map[], map[], map[];
    }

    ghost function State(): Mundo
      reads this
    {
      Mundo(jobs, map[], remoto, ventas)
    }

    method Enqueue(k: Clave, now: int)
      modifies this
      ensures State() == Paso(old(State()), Encolado(k, now))
    {
      if k in jobs {
        jobs := jobs[k := jobs[k].(estado := PENDING, nextAttemptAt := now)];
      } else {
        jobs := jobs[k := Job(k, PENDING, 0, now)];
      }
    }

    method ApplyDocument(v: string, doc: Documento, status: BillingStatus, updatedAt: int)
      modifies `ventas
      ensures ventas == old(ventas)[v := AplicarDocumento(VentaDe(old(State()), v), doc, status, updatedAt)]
    {
      var sale := if v in ventas then ventas[v] else Venta(None, None, None, None);
      if sale.updatedAt.Some? && sale.updatedAt.value > updatedAt {
        return;
      }
      ventas := ventas[v := Venta(Some(doc.id), Some(doc.ambiente), Some(status), Some(updatedAt))];
    }

    /** The conditional update: whoever finds the job PENDING or in RETRY takes it. */
    method Claim(k: Clave) returns (claimed: bool)
      modifies `jobs
      ensures claimed == Reclamable(old(State()), k)
      ensures claimed ==> State() == Tomar(old(State()), k)
      ensures !claimed ==> State() == old(State())
    {
      claimed := k in jobs && (jobs[k].estado == PENDING || jobs[k].estado == RETRY);
      if claimed {
        jobs := jobs[k := jobs[k].(estado := PROCESSING, attempts := jobs[k].attempts + 1)];
      }
    }

    method Post(clave: Clave, k: Clave, nuevo: nat) returns (document: Documento)
      modifies `remoto
      ensures document == Registrado(old(State()), clave, k, nuevo)
      ensures remoto == old(remoto)[clave := document]
    {
      if clave !in remoto {
        remoto := remoto[clave := Documento(nuevo, k.venta, k.ambiente)];
      }
      document := remoto[clave];
    }

    /** The catch block. */
    method Fail(k: Clave, attempts: nat, retryable: bool, now: int)
      requires k in jobs
      modifies `jobs, `ventas
      ensures State() == Fracasar(old(State()), k, attempts, retryable, now)
    {
      var dead := !retryable || attempts >= MAX_ATTEMPTS;
      var delay := Min(15 * 60_000, 10_000 * Pow2(Min(attempts, 6)));
      jobs := jobs[k := jobs[k].(estado := if dead then DEAD else RETRY, nextAttemptAt := now + delay)];
      var sale := if k.venta in ventas then ventas[k.venta] else Venta(None, None, None, None);
      ventas := ventas[k.venta := sale.(status := Some(if dead then FAILED else RETRY_SCHEDULED), updatedAt := Some(now))];
    }

    /** One undisturbed call: claim, read, post, mark, mirror, with the catch block around all but the claim. */
    method Process(k: Clave, resp: Respuesta, nuevo: nat, now: int)
      modifies this
      ensures State() == Procesar(old(State()), k, resp, nuevo, now)
    {
      var claimed := Claim(k);
      if !claimed { return; }
      var job := jobs[k];
      if k.venta !in ventas || ventas[k.venta].ambiente != Some(k.ambiente) {
        Fail(k, job.attempts, true, now);
        return;
      }
      if resp.Rechazada? {
        Fail(k, job.attempts, resp.retryable, now);
        return;
      }
      var document := Post(job.clave, k, nuevo);
      if resp.SinRespuesta? {
        Fail(k, job.attempts, true, now);
        return;
      }
      jobs := jobs[k := jobs[k].(estado := DONE)];
      if resp.reflejoFalla {
        Fail(k, job.attempts, true, now);
      } else {
        ApplyDocument(k.venta, document, resp.status, resp.updatedAt);
      }
    }
  }
}
