/** What the sale shows of its void: the status each delivery, failure, request and retry leaves, and who may ask again. */
module VoidStatus {
  import opened Sums
  import opened Wrappers
  import opened Receivable
  import opened VoidSaga
  import R = ReceivableRuns

  // ---------------------------------------------------------------- one delivery

  /**
   The mirror of an undisturbed delivery. A stale one writes nothing. Any other leaves the remote's id
   and instant, accepted exactly for an acceptance, rejected for a rejection and a final error for a
   failure; a retry is then open exactly to those two, to a rejection only when its date can be
   recovered, and any other status counts as a void under way.
   */
  lemma DeliveryStatus(s: Saga, w: nat, d: Entrega)
    requires FaseDe(s, w) == Libre
    ensures var r, v := Entregar(s, w, d).t, Entregar(s, w, d).t.venta;
            if s.t.venta.bajaAt.Some? && s.t.venta.bajaAt.value > d.updatedAt then r == s.t
            else
              && v.solicitud == Some(d.id) && v.bajaAt == Some(d.updatedAt)
              && v.secuencia == s.t.venta.secuencia && r.job == s.t.job
              && (v.baja == Aceptado <==> d.estado == ACCEPTED)
              && (v.baja == Rechazado <==> d.estado == REJECTED)
              && (v.baja == ErrorDefinitivo <==> d.estado == FAILED)
              && (v.baja == PendienteEnvio <==> d.estado == PENDING)
              && (v.baja == PendienteCdr <==> d.estado == SUBMITTED || d.estado == PROCESSING)
              && (PuedeReintentar(v, true) <==> d.estado == REJECTED || d.estado == FAILED)
              && (PuedeReintentar(v, false) <==> d.estado == FAILED)
              && (BajaEnCurso(v.baja) <==> d.estado != REJECTED && d.estado != FAILED)
  {
    hide Paso, Revertir, Reponer, Restaurar;
    DeliveryIsAplicarBaja(s, w, d);
  }

  // ---------------------------------------------------------------- requests, retries and failures

  /** A request is taken for a completed sale with no remote answer whose last void, if any, failed or was rejected. */
  lemma RequestIff(t: Tablas, apta: bool, now: int)
    ensures var o, v := Solicitar(t, apta, now), t.venta;
            && (o.Done? <==> v.estado == Completada && apta && v.solicitud.None?
                             && v.baja in {NoAplica, Rechazado, ErrorTransitorio, ErrorDefinitivo})
            && (o.Refused? ==> o.error == BadRequest)
            && (o.Done? ==>
                  var r := o.state;
                  && r.venta == Venta(Completada, PendienteEnvio, None, Some(now), v.secuencia, v.conSucursal)
                  && r.job == Some(Job(JobPending, 0)) && r.stock == t.stock && r.detalles == t.detalles
                  && SinEstado(r.l) == SinEstado(t.l)
                  && (r.l.cuenta.Some? ==> r.l.cuenta.value.estado == AnulacionPendiente)
                  && Solicitar(r, apta, now).Refused?)
  {
  }

  /**
   An undisturbed retry is taken for a final error, or a rejection whose date can be recovered, and
   raises the sequence. Before the remote ever answered it also arms the job and puts the account on
   hold again; without a job its transaction fails.
   */
  lemma RetryWrites(s: Saga, w: nat, fecha: bool, now: int)
    requires FaseDe(s, w) == Libre
    ensures var r, v := Paso(Paso(s, Reintentar(w, fecha)), EscribeReintento(w, now)).t, s.t.venta;
            if !(v.baja == ErrorDefinitivo || (v.baja == Rechazado && fecha)) then r == s.t
            else if v.solicitud.Some? then r == s.t.(venta := v.(secuencia := v.secuencia + 1))
            else if s.t.job.None? then r == s.t
            else
              && r.venta == Venta(v.estado, PendienteEnvio, None, Some(now), v.secuencia + 1, v.conSucursal)
              && r.job == Some(Job(JobPending, 0)) && r.stock == s.t.stock && r.detalles == s.t.detalles
              && SinEstado(r.l) == SinEstado(s.t.l)
              && (r.l.cuenta.Some? ==> r.l.cuenta.value.estado == AnulacionPendiente)
  {
  }

  /**
   A failure of the worker's call: final when the remote forbids another try or the attempts are used
   up. Exactly then the job is dead, the sale may be retried, and the account is given its state back.
   */
  lemma FailureStatus(s: Saga, w: nat, retryable: bool, attempts: nat, now: int)
    requires s.t.job.Some?
    ensures var a := Paso(s, Falla(w, retryable, attempts, now));
            var dead, v, j, r := !retryable || attempts >= 12, a.t.venta, a.t.job, Paso(Paso(a, LeerCuenta(w)), EscribeEstado(w));
            && v == s.t.venta.(baja := if dead then ErrorDefinitivo else ErrorTransitorio, bajaAt := Some(now))
            && j == Some(Job(if dead then JobDead else JobRetry, s.t.job.value.attempts))
            && PuedeReintentar(v, false) == dead
            && r.t == a.t.(l := if dead then Restaurar(s.t.l) else s.t.l) && FaseDe(r, w) == Libre
  {
  }

  /** The worker claims a job that is pending or due again, one attempt more; any other it leaves alone. */
  lemma ClaimIff(s: Saga)
    ensures var r := Paso(s, Reclamo);
            && r.fases == s.fases && r.t == s.t.(job := r.t.job)
            && (r.t.job == s.t.job <==> s.t.job.None? || s.t.job.value.estado in {JobProcessing, JobDone, JobDead})
            && (r.t.job != s.t.job ==> r.t.job == Some(Job(JobProcessing, s.t.job.value.attempts + 1)))
  {
  }

  /** A call that went through leaves the job done, and nothing else changed. */
  lemma CallDone(s: Saga)
    ensures Paso(s, Termino) == if s.t.job.None? then s else s.(t := s.t.(job := Some(Job(JobDone, s.t.job.value.attempts))))
  {
  }

  /** A reversal opens a stock row for a variant that has none, holding exactly what comes back. */
  lemma MissingStockRow(ds: seq<Detalle>, v: nat)
    ensures Existencia(Reponer(map[], ds), v) == Sum(ds, Cantidad(v))
  {
    ReponerAdds(map[], ds, v);
  }

  /** A process not seen before starts by reading. */
  lemma NewProcessReads(s: Saga, w: nat, d: Entrega)
    requires w !in s.fases && !Atrasada(s.t.venta, d)
    ensures FaseDe(Paso(s, Leer(w, d)), w) == Leida(d)
  {
  }

  /** A sale with an accepted note is never voided afterwards: no request on it passes the checks. */
  lemma NoteBlocksRequest(s: Saga, lineas: seq<Detalle>, total: nat, motivo: Motivo, apta: bool, now: int)
    ensures var r := Paso(s, Nota(lineas, total, motivo)).t;
            && Solicitar(r, apta, now).Refused?
            && (motivo.SinDevolucion? ==> r.l == s.t.l && r.stock == s.t.stock)
            && r.venta == s.t.venta.(estado := r.venta.estado) && r.job == s.t.job && r.detalles == s.t.detalles
  {
    hide Reponer, AcreditarNota;
  }

  // ---------------------------------------------------------------- an accepted void over a run

  /** A sale that shows an accepted void is annulled, or some process is still to annul it. */
  ghost predicate AceptadoEnVia(s: Saga) { s.t.venta.baja == Aceptado ==> EnVia(s) }

  /** The only process that would annul it stops before it does, or a note reopens the sale. */
  ghost predicate Deja(s: Saga, e: Evento) {
    s.t.venta.baja == Aceptado && Abandona(s, e) && !(e.Falla? && s.t.job.Some?)
  }

  /** Which steps leave an accepted void on the sale. */
  lemma AcceptedAfter(s: Saga, e: Evento)
    ensures Paso(s, e).t.venta.baja == Aceptado <==>
              match e
              case EscribePedido(w, _) => s.t.venta.baja == Aceptado && FaseDe(s, w) != Pidiendo
              case EscribeReintento(w, _) =>
                s.t.venta.baja == Aceptado && !(FaseDe(s, w).Reintentando? && FaseDe(s, w).armar && s.t.job.Some?)
              case Reflejar(w) => if FaseDe(s, w).Leida? then FaseDe(s, w).d.estado == ACCEPTED else s.t.venta.baja == Aceptado
              case Falla(_, _, _, _) => s.t.venta.baja == Aceptado && s.t.job.None?
              case _ => s.t.venta.baja == Aceptado
  {
    hide Reponer, Revertir, AcreditarNota, R.Paso, PedirBaja, R.FijarEstado;
  }

  lemma StepKeepsAccepted(s: Saga, e: Evento)
    requires AceptadoEnVia(s)
    ensures AceptadoEnVia(Paso(s, e)) <==> !Deja(s, e)
  {
    hide Paso, EnVia, Abandona;
    AcceptedAfter(s, e);
    PasoEnViaIff(s, e);
    AbandonsWho(s, e);
  }

  lemma AbandonsWho(s: Saga, e: Evento)
    ensures Abandona(s, e) ==> (e.Falla? || e.Caida? || e.Nota?) && EnVia(s) && !Entra(s, e)
  {
    if Abandona(s, e) && !e.Nota? { assert FaseDe(s, e.w) == PorFinalizar; }
  }

  ghost predicate SiempreEnVia(s: Saga, es: seq<Evento>) {
    forall k :: 0 <= k <= |es| ==> AceptadoEnVia(Correr(s, es[..k]))
  }

  ghost predicate NuncaDeja(s: Saga, es: seq<Evento>) {
    forall i :: 0 <= i < |es| ==> !Deja(Correr(s, es[..i]), es[i])
  }

  lemma PrefixesSnoc(s: Saga, es: seq<Evento>)
    requires |es| > 0
    ensures var u, e := es[..|es| - 1], es[|es| - 1];
            && (SiempreEnVia(s, es) <==> SiempreEnVia(s, u) && AceptadoEnVia(Correr(s, es)))
            && (SiempreEnVia(s, u) ==> AceptadoEnVia(Correr(s, u)))
            && (NuncaDeja(s, es) <==> NuncaDeja(s, u) && !Deja(Correr(s, u), e))
  {
    hide Correr, AceptadoEnVia, Deja;
    var u := es[..|es| - 1];
    assert forall k :: 0 <= k <= |u| ==> u[..k] == es[..k];
    assert es[..|es|] == es && u[..|u|] == u;
  }

  /**
   At every point of a run an accepted void is on a sale that is annulled or about to be, exactly
   while the last process carrying the acceptance does not stop first and no note reopens the sale.
   */
  lemma {:induction false} AcceptedIsCarriedIff(s: Saga, es: seq<Evento>)
    requires AceptadoEnVia(s)
    ensures SiempreEnVia(s, es) <==> NuncaDeja(s, es)
  {
    if |es| == 0 {
      assert es[..0] == es;
    } else {
      hide Paso, AceptadoEnVia, Deja, SiempreEnVia, NuncaDeja;
      var u := es[..|es| - 1];
      AcceptedIsCarriedIff(s, u);
      PrefixesSnoc(s, es);
      if AceptadoEnVia(Correr(s, u)) { StepKeepsAccepted(Correr(s, u), es[|es| - 1]); }
    }
  }

  /** Without notes and without stops, a sale that shows an accepted void is always annulled or about to be. */
  lemma AcceptedIsAnnulled(s: Saga, es: seq<Evento>)
    requires AceptadoEnVia(s) && forall i :: 0 <= i < |es| ==> !es[i].Nota? && !es[i].Caida? && (es[i].Falla? ==> Correr(s, es[..i]).t.job.Some?)
    ensures Correr(s, es).t.venta.baja == Aceptado ==> EnVia(Correr(s, es))
  {
    hide Correr, EnVia, Abandona;
    AcceptedIsCarriedIff(s, es);
    forall i | 0 <= i < |es| ensures !Deja(Correr(s, es[..i]), es[i]) { AbandonsWho(Correr(s, es[..i]), es[i]); }
    assert es[..|es|] == es && AceptadoEnVia(Correr(s, es[..|es|]));
  }
}
