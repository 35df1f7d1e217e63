/**
 Refresh-token rotation. A user carries a version; each session endpoint raises it, and a refresh
 token is good only while its own version is the user's. A token is named by its position, which
 stands for the random secret; rows are only ever appended or revoked.
 Each endpoint is one step of a run; a login or refresh whose read, version write and token are apart,
 with any run of the others in between, is stated separately.
 */
module RefreshTokens {
  import opened Wrappers

  datatype Usuario = Usuario(version: nat, activo: bool, superAdmin: bool)

  datatype Token = Token(usuario: nat, version: nat, conEmpresa: bool, revocado: bool, vence: int)

  datatype Auth = Auth(usuarios: map<nat, Usuario>, tokens: seq<Token>)

  /** What the credential and membership checks of an endpoint came to. */
  datatype Ingreso = Denegado | SinEmpresa | ConEmpresa | ComoAdmin

  function Elevar(a: Auth, u: nat): Auth
    requires u in a.usuarios
  {
    a.(usuarios := a.usuarios[u := a.usuarios[u].(version := a.usuarios[u].version + 1)])
  }

  /** createRefreshToken. */
  function EmitirCon(a: Auth, u: nat, version: nat, conEmpresa: bool, vence: int): Auth {
    a.(tokens := a.tokens + [Token(u, version, conEmpresa, false, vence)])
  }

  /** The same with the user's current version. */
  function Emitir(a: Auth, u: nat, conEmpresa: bool, vence: int): Auth
    requires u in a.usuarios
  {
    EmitirCon(a, u, a.usuarios[u].version, conEmpresa, vence)
  }

  function Rotar(a: Auth, u: nat, conEmpresa: bool, vence: int): Auth
    requires u in a.usuarios
  {
    Emitir(Elevar(a, u), u, conEmpresa, vence)
  }

  function RevocarTodos(ts: seq<Token>, u: nat): (r: seq<Token>)
    ensures |r| == |ts|
  {
    seq(|ts|, i requires 0 <= i < |ts| => if ts[i].usuario == u then ts[i].(revocado := true) else ts[i])
  }

  function RevocarUno(a: Auth, k: nat): Auth
    requires k < |a.tokens|
  {
    a.(tokens := a.tokens[k := a.tokens[k].(revocado := true)])
  }

  /** A stored token that is neither revoked nor expired, of an active user who may hold a session. */
  predicate Hallado(a: Auth, k: nat, now: int) {
    k < |a.tokens| && !a.tokens[k].revocado && a.tokens[k].vence > now
    && a.tokens[k].usuario in a.usuarios && a.usuarios[a.tokens[k].usuario].activo
    && (a.tokens[k].conEmpresa || a.usuarios[a.tokens[k].usuario].superAdmin)
  }

  predicate Usable(a: Auth, k: nat, now: int) {
    Hallado(a, k, now) && a.tokens[k].version == a.usuarios[a.tokens[k].usuario].version
  }

  datatype Evento =
    | Alta(u: nat, superAdmin: bool)
    | Login(u: nat, ingreso: Ingreso, vence: int)
    | Refresh(k: nat, membresia: bool, now: int, vence: int)
    | Logout(k: nat)
    | UpdateMe(u: nat, ingreso: Ingreso, vence: int)
    | ChangePassword(u: nat, ingreso: Ingreso, vence: int)
    | ResetPassword(u: nat, tokenValido: bool)
    | CreateCompany(u: nat, apto: bool, vence: int)
    | CambiarEstado(u: nat, activo: bool)

  function Paso(a: Auth, e: Evento): Auth {
    match e
    case Alta(u, s) => if u in a.usuarios then a else a.(usuarios := a.usuarios[u := Usuario(0, true, s)])
    case Login(u, i, v) => Entrar(a, u, i, v)
    case Refresh(k, m, now, v) => Refrescar(a, k, m, now, v)
    case Logout(k) => Salir(a, k)
    case UpdateMe(u, i, v) => Entrar(a, u, i, v)
    case ChangePassword(u, i, v) =>
      if u !in a.usuarios || i == Denegado || i == SinEmpresa then a
      else Emitir(Elevar(a, u).(tokens := RevocarTodos(a.tokens, u)), u, i == ConEmpresa, v)
    case ResetPassword(u, ok) =>
      if u in a.usuarios && ok then Elevar(a, u).(tokens := RevocarTodos(a.tokens, u)) else a
    case CreateCompany(u, apto, v) => if u in a.usuarios && apto then Rotar(a, u, true, v) else a
    case CambiarEstado(u, x) => if u in a.usuarios then a.(usuarios := a.usuarios[u := a.usuarios[u].(activo := x)]) else a
  }

  /** login and updateMe: raise the version and issue a token, unless refused or still without a company. */
  function Entrar(a: Auth, u: nat, i: Ingreso, vence: int): Auth {
    if u !in a.usuarios || i == Denegado || i == SinEmpresa then a else Rotar(a, u, i == ConEmpresa, vence)
  }

  function Refrescar(a: Auth, k: nat, membresia: bool, now: int, vence: int): Auth {
    if !Hallado(a, k, now) then a
    else if !Usable(a, k, now) then RevocarUno(a, k)
    else if a.tokens[k].conEmpresa && !membresia then a
    else Rotar(RevocarUno(a, k), a.tokens[k].usuario, a.tokens[k].conEmpresa, vence)
  }

  function Salir(a: Auth, k: nat): Auth {
    if k >= |a.tokens| || a.tokens[k].revocado || a.tokens[k].usuario !in a.usuarios then a
    else Elevar(a, a.tokens[k].usuario).(tokens := RevocarTodos(a.tokens, a.tokens[k].usuario))
  }

  function Correr(a: Auth, es: seq<Evento>): Auth {
    if |es| == 0 then a else Paso(Correr(a, es[..|es| - 1]), es[|es| - 1])
  }

  const INICIO: Auth := Auth(map[], [])

  // ---------------------------------------------------------------- versions

  /** No token is ahead of its user, and the versions of a user's tokens strictly increase. */
  ghost predicate AuthOk(a: Auth) {
    && (forall k :: 0 <= k < |a.tokens| ==>
          a.tokens[k].usuario in a.usuarios && a.tokens[k].version <= a.usuarios[a.tokens[k].usuario].version)
    && (forall j, k :: 0 <= j < k < |a.tokens| && a.tokens[j].usuario == a.tokens[k].usuario ==>
          a.tokens[j].version < a.tokens[k].version)
  }

  lemma RotarKeepsAuth(a: Auth, u: nat, conEmpresa: bool, vence: int)
    requires AuthOk(a) && u in a.usuarios
    ensures AuthOk(Rotar(a, u, conEmpresa, vence))
  {
  }

  /** Raising a version or revoking rows, without issuing a token. */
  lemma WithoutNewToken(a: Auth, b: Auth)
    requires AuthOk(a) && |b.tokens| == |a.tokens|
    requires forall k :: 0 <= k < |a.tokens| ==> b.tokens[k].(revocado := a.tokens[k].revocado) == a.tokens[k]
    requires forall u :: u in a.usuarios ==> u in b.usuarios && a.usuarios[u].version <= b.usuarios[u].version
    ensures AuthOk(b)
  {
  }

  lemma PasoKeepsAuth(a: Auth, e: Evento)
    requires AuthOk(a)
    ensures AuthOk(Paso(a, e))
  {
    hide AuthOk;
    match e
    case Alta(_, _) => WithoutNewToken(a, Paso(a, e));
    case Login(u, i, v) => if Paso(a, e) != a { RotarKeepsAuth(a, u, i == ConEmpresa, v); }
    case Refresh(k, m, now, v) => RefreshKeepsAuth(a, k, m, now, v);
    case Logout(_) => WithoutNewToken(a, Paso(a, e));
    case UpdateMe(u, i, v) => if Paso(a, e) != a { RotarKeepsAuth(a, u, i == ConEmpresa, v); }
    case ChangePassword(u, i, v) =>
      if u in a.usuarios {
        var b := a.(tokens := RevocarTodos(a.tokens, u));
        WithoutNewToken(a, b);
        RotarKeepsAuth(b, u, i == ConEmpresa, v);
      }
    case ResetPassword(_, _) => WithoutNewToken(a, Paso(a, e));
    case CreateCompany(u, _, v) => if u in a.usuarios { RotarKeepsAuth(a, u, true, v); }
    case CambiarEstado(_, _) => WithoutNewToken(a, Paso(a, e));
  }

  lemma RefreshKeepsAuth(a: Auth, k: nat, membresia: bool, now: int, vence: int)
    requires AuthOk(a)
    ensures AuthOk(Refrescar(a, k, membresia, now, vence))
  {
    if Hallado(a, k, now) {
      WithoutNewToken(a, RevocarUno(a, k));
      RotarKeepsAuth(RevocarUno(a, k), a.tokens[k].usuario, a.tokens[k].conEmpresa, vence);
    }
  }

  lemma {:induction false} RunKeepsAuth(a: Auth, es: seq<Evento>)
    requires AuthOk(a)
    ensures AuthOk(Correr(a, es))
  {
    if |es| == 0 {
    } else {
      RunKeepsAuth(a, es[..|es| - 1]);
      PasoKeepsAuth(Correr(a, es[..|es| - 1]), es[|es| - 1]);
    }
  }

  /** Over any run, at any instant, a user has one usable refresh token at most. */
  lemma OneUsableToken(es: seq<Evento>, j: nat, k: nat, now: int)
    requires Usable(Correr(INICIO, es), j, now) && Usable(Correr(INICIO, es), k, now)
    requires Correr(INICIO, es).tokens[j].usuario == Correr(INICIO, es).tokens[k].usuario
    ensures j == k
  {
    RunKeepsAuth(INICIO, es);
  }

  /** Token k can never be used again: it is revoked, or its user has moved on. */
  ghost predicate Gastado(a: Auth, k: nat) {
    k < |a.tokens| && a.tokens[k].usuario in a.usuarios
    && (a.tokens[k].revocado || a.tokens[k].version < a.usuarios[a.tokens[k].usuario].version)
  }

  lemma PasoKeepsGastado(a: Auth, e: Evento, k: nat)
    requires Gastado(a, k)
    ensures Gastado(Paso(a, e), k) && Paso(a, e).tokens[k].usuario == a.tokens[k].usuario
  {
  }

  lemma {:induction false} SpentStaysSpent(a: Auth, es: seq<Evento>, k: nat, now: int)
    requires Gastado(a, k)
    ensures Gastado(Correr(a, es), k) && !Usable(Correr(a, es), k, now)
  {
    if |es| == 0 {
    } else {
      SpentStaysSpent(a, es[..|es| - 1], k, now);
      PasoKeepsGastado(Correr(a, es[..|es| - 1]), es[|es| - 1], k);
    }
  }

  /**
   A refresh changes hands: the presented token is never usable again, on any continuation, and the
   token it returns is usable, on its own, until it expires.
   */
  lemma RefreshRotates(a: Auth, k: nat, now: int, vence: int, es: seq<Evento>, later: int)
    requires AuthOk(a) && Usable(a, k, now)
    ensures var r := Refrescar(a, k, true, now, vence);
            && !Usable(Correr(r, es), k, later)
            && |r.tokens| == |a.tokens| + 1
            && (Usable(r, |a.tokens|, later) <==> later < vence)
            && (forall j :: 0 <= j < |a.tokens| && a.tokens[j].usuario == a.tokens[k].usuario ==> !Usable(r, j, later))
  {
    var r := Refrescar(a, k, true, now, vence);
    SpentStaysSpent(r, es, k, later);
    PasoKeepsAuth(a, Refresh(k, true, now, vence));
  }

  /** Endpoints that issue a token to u without being shown one. */
  predicate AbreSesion(e: Evento, u: nat) {
    (e.Login? || e.UpdateMe? || e.ChangePassword? || e.CreateCompany?) && e.u == u
  }

  ghost predicate Fuera(a: Auth, u: nat) {
    u in a.usuarios && forall j :: 0 <= j < |a.tokens| && a.tokens[j].usuario == u ==> Gastado(a, j)
  }

  lemma PasoKeepsFuera(a: Auth, e: Evento, u: nat)
    requires Fuera(a, u) && !AbreSesion(e, u)
    ensures Fuera(Paso(a, e), u)
  {
    var r := Paso(a, e);
    forall j | 0 <= j < |r.tokens| && r.tokens[j].usuario == u ensures Gastado(r, j) {
      if j < |a.tokens| {
        assert a.tokens[j].usuario == u && Gastado(a, j);
        PasoKeepsGastado(a, e, j);
      }
    }
  }

  /** After a logout or a password reset no token of the user works until the user signs in again. */
  lemma {:induction false} OutMeansOut(a: Auth, es: seq<Evento>, u: nat, k: nat, now: int)
    requires Fuera(a, u) && forall i :: 0 <= i < |es| ==> !AbreSesion(es[i], u)
    ensures Fuera(Correr(a, es), u)
    ensures k < |Correr(a, es).tokens| && Correr(a, es).tokens[k].usuario == u ==> !Usable(Correr(a, es), k, now)
  {
    if |es| == 0 {
    } else {
      OutMeansOut(a, es[..|es| - 1], u, k, now);
      PasoKeepsFuera(Correr(a, es[..|es| - 1]), es[|es| - 1], u);
    }
  }

  lemma LogoutAndResetSignOut(a: Auth, k: nat, u: nat)
    requires AuthOk(a)
    ensures k < |a.tokens| && !a.tokens[k].revocado ==> Fuera(Salir(a, k), a.tokens[k].usuario)
    ensures u in a.usuarios ==> Fuera(Paso(a, ResetPassword(u, true)), u)
  {
  }

  // ---------------------------------------------------------------- what each endpoint does

  /** Users are the same but for u, one version further. */
  predicate Sube(a: Auth, r: Auth, u: nat) {
    && r.usuarios.Keys == a.usuarios.Keys && u in a.usuarios
    && forall x :: x in a.usuarios ==>
         r.usuarios[x] == Usuario(if x == u then a.usuarios[x].version + 1 else a.usuarios[x].version,
                                  a.usuarios[x].activo, a.usuarios[x].superAdmin)
  }

  /** Of the tokens of a, exactly those of `cuales` are now revoked, the rest as they were. */
  ghost predicate Revoca(a: Auth, r: Auth, cuales: nat -> bool) {
    && |a.tokens| <= |r.tokens|
    && forall k: nat :: k < |a.tokens| ==>
         r.tokens[k].(revocado := a.tokens[k].revocado) == a.tokens[k]
         && (r.tokens[k].revocado <==> a.tokens[k].revocado || cuales(k))
  }

  /** One new token, of u, at the version u now has. */
  predicate Da(a: Auth, r: Auth, u: nat, conEmpresa: bool, vence: int) {
    && u in a.usuarios
    && |r.tokens| == |a.tokens| + 1
    && r.tokens[|a.tokens|] == Token(u, a.usuarios[u].version + 1, conEmpresa, false, vence)
  }

  function DeUsuario(a: Auth, u: nat): nat -> bool {
    (k: nat) => k < |a.tokens| && a.tokens[k].usuario == u
  }

  /**
   A refresh issues a token exactly for a stored one that is neither revoked nor expired, whose version
   is its user's, of an active user who still belongs to the company or administers the platform: it
   revokes that one, raises the version and issues one of the same kind. A token of an older version is
   revoked; anything else is refused and changes nothing.
   */
  lemma RefreshIff(a: Auth, k: nat, membresia: bool, now: int, vence: int)
    requires AuthOk(a)
    ensures var r := Refrescar(a, k, membresia, now, vence);
            if !(k < |a.tokens| && !a.tokens[k].revocado && now < a.tokens[k].vence) then r == a
            else
              var t, u := a.tokens[k], a.usuarios[a.tokens[k].usuario];
              if !u.activo || (!t.conEmpresa && !u.superAdmin) then r == a
              else if t.version != u.version then
                r.usuarios == a.usuarios && |r.tokens| == |a.tokens| && Revoca(a, r, j => j == k)
              else if t.conEmpresa && !membresia then r == a
              else Sube(a, r, t.usuario) && Revoca(a, r, j => j == k) && Da(a, r, t.usuario, t.conEmpresa, vence)
  {
  }

  /**
   A login, or a change of profile, issues a token exactly to a known user admitted to a company or as
   administrator, one version up, and revokes nothing; creating a company does for a user fit to.
   */
  lemma SignInIff(a: Auth, e: Evento)
    requires e.Login? || e.UpdateMe? || e.CreateCompany?
    ensures var r := Paso(a, e);
            if e.u in a.usuarios && (if e.CreateCompany? then e.apto else e.ingreso in {ConEmpresa, ComoAdmin})
            then Sube(a, r, e.u) && Revoca(a, r, j => false)
                 && Da(a, r, e.u, e.CreateCompany? || e.ingreso == ConEmpresa, e.vence)
            else r == a
  {
  }

  /**
   A new password revokes every token of the user and raises the version; set from within a session it
   also issues one token. A logout does the same for the user of a stored token that is not revoked.
   None of them touches anyone else.
   */
  lemma SignOutIff(a: Auth, e: Evento)
    requires AuthOk(a) && (e.ChangePassword? || e.ResetPassword? || e.Logout?)
    ensures var r := Paso(a, e);
            var vale := match e
              case ChangePassword(u, i, _) => u in a.usuarios && i in {ConEmpresa, ComoAdmin}
              case ResetPassword(u, ok) => u in a.usuarios && ok
              case Logout(k) => k < |a.tokens| && !a.tokens[k].revocado
              case _ => false;
            if !vale then r == a
            else
              var u := if e.Logout? then a.tokens[e.k].usuario else e.u;
              && Sube(a, r, u) && Revoca(a, r, DeUsuario(a, u))
              && (if e.ChangePassword? then Da(a, r, u, e.ingreso == ConEmpresa, e.vence) else |r.tokens| == |a.tokens|)
  {
  }

  /** A new user starts at version zero and active; suspending or restoring one changes nothing else. */
  lemma UserEvents(a: Auth, u: nat, x: bool)
    ensures var r := Paso(a, Alta(u, x));
            r.tokens == a.tokens && r.usuarios == if u in a.usuarios then a.usuarios else a.usuarios[u := Usuario(0, true, x)]
    ensures var r := Paso(a, CambiarEstado(u, x));
            && r.tokens == a.tokens && r.usuarios.Keys == a.usuarios.Keys
            && (forall y :: y in a.usuarios && y != u ==> r.usuarios[y] == a.usuarios[y])
            && (u in a.usuarios ==>
                  r.usuarios[u].activo == x && r.usuarios[u].version == a.usuarios[u].version
                  && r.usuarios[u].superAdmin == a.usuarios[u].superAdmin)
  {
  }

  // ---------------------------------------------------------------- two refreshes at once

  /** The first write of a login or a refresh: the version is set, not incremented; a presented token is revoked. */
  function Anotar(a: Auth, u: nat, version: nat, presentado: Option<nat>): Auth
    requires u in a.usuarios && (presentado.Some? ==> presentado.value < |a.tokens|)
  {
    var b := if presentado.Some? then RevocarUno(a, presentado.value) else a;
    b.(usuarios := b.usuarios[u := b.usuarios[u].(version := version)])
  }

  /** The writes of a refresh of token k that read version v. */
  function RotarLeido(a: Auth, k: nat, v: nat, vence: int): Auth
    requires k < |a.tokens| && a.tokens[k].usuario in a.usuarios
  {
    var u := a.tokens[k].usuario;
    EmitirCon(Anotar(a, u, v + 1, Some(k)), u, v + 1, a.tokens[k].conEmpresa, vence)
  }

  /**
   Two requests that present the same token and both read it before either writes both succeed, and
   leave two usable tokens of one version; had the second read after the first wrote, it would have
   been refused.
   */
  lemma ConcurrentRefreshForks(a: Auth, k: nat, now: int, vence: int)
    requires AuthOk(a) && Usable(a, k, now) && now < vence
    ensures var v, n := a.tokens[k].version, |a.tokens|;
            var x := RotarLeido(a, k, v, vence);
            var y := RotarLeido(x, k, v, vence);
            && x == Refrescar(a, k, true, now, vence)
            && Usable(y, n, now) && Usable(y, n + 1, now)
            && y.tokens[n].usuario == y.tokens[n + 1].usuario
            && Refrescar(x, k, true, now, vence) == x
  {
  }

  // ---------------------------------------------------------------- a sign-in with runs in between

  /** Tokens keep owner and version, users stay, and a token issued later is ahead of the version its user had. */
  ghost predicate Crece(a: Auth, b: Auth) {
    && |a.tokens| <= |b.tokens|
    && (forall j :: 0 <= j < |a.tokens| ==> b.tokens[j].(revocado := a.tokens[j].revocado) == a.tokens[j])
    && (forall u :: u in a.usuarios ==> u in b.usuarios && a.usuarios[u].version <= b.usuarios[u].version)
    && (forall j :: |a.tokens| <= j < |b.tokens| && b.tokens[j].usuario in a.usuarios ==>
          b.tokens[j].version > a.usuarios[b.tokens[j].usuario].version)
  }

  lemma RotarGrows(a: Auth, u: nat, conEmpresa: bool, vence: int)
    requires u in a.usuarios
    ensures Crece(a, Rotar(a, u, conEmpresa, vence))
  {
  }

  lemma GrowsWithoutToken(a: Auth, b: Auth)
    requires |b.tokens| == |a.tokens|
    requires forall k :: 0 <= k < |a.tokens| ==> b.tokens[k].(revocado := a.tokens[k].revocado) == a.tokens[k]
    requires forall u :: u in a.usuarios ==> u in b.usuarios && a.usuarios[u].version <= b.usuarios[u].version
    ensures Crece(a, b)
  {
  }

  lemma CreceChains(a: Auth, b: Auth, c: Auth)
    requires Crece(a, b) && Crece(b, c)
    ensures Crece(a, c)
  {
    forall j | |a.tokens| <= j < |c.tokens| && c.tokens[j].usuario in a.usuarios
      ensures c.tokens[j].version > a.usuarios[c.tokens[j].usuario].version
    {
      if j < |b.tokens| { assert b.tokens[j].usuario == c.tokens[j].usuario; }
    }
  }

  lemma RefreshGrows(a: Auth, k: nat, membresia: bool, now: int, vence: int)
    ensures Crece(a, Refrescar(a, k, membresia, now, vence))
  {
    hide Crece;
    GrowsWithoutToken(a, a);
    if Hallado(a, k, now) {
      var b, u := RevocarUno(a, k), a.tokens[k].usuario;
      GrowsWithoutToken(a, b);
      RotarGrows(b, u, a.tokens[k].conEmpresa, vence);
      CreceChains(a, b, Rotar(b, u, a.tokens[k].conEmpresa, vence));
    }
  }

  lemma PasoGrows(a: Auth, e: Evento)
    ensures Crece(a, Paso(a, e))
  {
    hide Crece;
    GrowsWithoutToken(a, a);
    match e
    case Login(u, i, v) => if u in a.usuarios { RotarGrows(a, u, i == ConEmpresa, v); }
    case UpdateMe(u, i, v) => if u in a.usuarios { RotarGrows(a, u, i == ConEmpresa, v); }
    case CreateCompany(u, _, v) => if u in a.usuarios { RotarGrows(a, u, true, v); }
    case Refresh(k, m, now, v) => RefreshGrows(a, k, m, now, v);
    case ChangePassword(u, i, v) =>
      if u in a.usuarios {
        var b := a.(tokens := RevocarTodos(a.tokens, u));
        GrowsWithoutToken(a, b);
        RotarGrows(b, u, i == ConEmpresa, v);
        CreceChains(a, b, Rotar(b, u, i == ConEmpresa, v));
      }
    case _ => GrowsWithoutToken(a, Paso(a, e));
  }

  lemma {:induction false} RunGrows(a: Auth, es: seq<Evento>)
    ensures Crece(a, Correr(a, es))
  {
    hide Paso, Crece;
    if |es| == 0 {
      NothingGrows(a);
    } else {
      RunGrows(a, es[..|es| - 1]);
      PasoGrows(Correr(a, es[..|es| - 1]), es[|es| - 1]);
      CreceChains(a, Correr(a, es[..|es| - 1]), Correr(a, es));
    }
  }

  lemma NothingGrows(a: Auth)
    ensures Crece(a, a)
  {
  }

  lemma AnotarKeepsAuth(a: Auth, u: nat, v: nat, presentado: Option<nat>)
    requires AuthOk(a) && u in a.usuarios && (presentado.Some? ==> presentado.value < |a.tokens|)
    requires forall j :: 0 <= j < |a.tokens| && a.tokens[j].usuario == u ==> a.tokens[j].version <= v
    ensures AuthOk(Anotar(a, u, v + 1, presentado))
  {
  }

  lemma EmitirConKeepsAuth(a: Auth, u: nat, v: nat, conEmpresa: bool, vence: int)
    requires AuthOk(a) && u in a.usuarios && a.usuarios[u].version >= v + 1
    requires forall j :: 0 <= j < |a.tokens| && a.tokens[j].usuario == u ==> a.tokens[j].version <= v
    ensures AuthOk(EmitirCon(a, u, v + 1, conEmpresa, vence))
  {
  }

  /** No session was opened for u since the first n tokens. */
  ghost predicate SinSesion(a: Auth, n: nat, u: nat) {
    forall j :: n <= j < |a.tokens| ==> a.tokens[j].usuario != u
  }

  lemma NoTokenIsAhead(a: Auth, u: nat, j: nat)
    requires AuthOk(a) && j < |a.tokens| && a.tokens[j].usuario == u
    ensures u in a.usuarios && a.tokens[j].version <= a.usuarios[u].version
  {
  }

  /** Nothing opened: each of the three steps keeps the version laws. */
  lemma QuietSignInKeepsAuth(a: Auth, b: Auth, n: Auth, c: Auth, u: nat, presentado: Option<nat>, conEmpresa: bool, vence: int)
    requires AuthOk(a) && AuthOk(b) && Crece(a, b) && u in a.usuarios
    requires presentado.Some? ==> presentado.value < |b.tokens|
    requires n == Anotar(b, u, a.usuarios[u].version + 1, presentado) && Crece(n, c) && (AuthOk(n) ==> AuthOk(c))
    requires SinSesion(c, |a.tokens|, u)
    ensures AuthOk(EmitirCon(c, u, a.usuarios[u].version + 1, conEmpresa, vence))
  {
    hide AuthOk;
    var v := a.usuarios[u].version;
    forall j | 0 <= j < |c.tokens| && c.tokens[j].usuario == u ensures c.tokens[j].version <= v {
      assert j < |a.tokens| && a.tokens[j].usuario == u;
      NoTokenIsAhead(a, u, j);
    }
    forall j | 0 <= j < |b.tokens| && b.tokens[j].usuario == u ensures b.tokens[j].version <= v {
      assert c.tokens[j].usuario == u;
    }
    AnotarKeepsAuth(b, u, v, presentado);
    EmitirConKeepsAuth(c, u, v, conEmpresa, vence);
  }

  /** A session opened since the read has a version the late token does not exceed. */
  lemma OpenedMeanwhileBreaksAuth(a: Auth, b: Auth, n: Auth, c: Auth, u: nat, presentado: Option<nat>, conEmpresa: bool, vence: int)
    requires Crece(a, b) && u in a.usuarios && (presentado.Some? ==> presentado.value < |b.tokens|)
    requires n == Anotar(b, u, a.usuarios[u].version + 1, presentado) && Crece(n, c)
    requires !SinSesion(c, |a.tokens|, u)
    ensures !AuthOk(EmitirCon(c, u, a.usuarios[u].version + 1, conEmpresa, vence))
  {
    var v := a.usuarios[u].version;
    var r := EmitirCon(c, u, v + 1, conEmpresa, vence);
    var j :| |a.tokens| <= j < |c.tokens| && c.tokens[j].usuario == u;
    if j < |b.tokens| { assert b.tokens[j].usuario == u && c.tokens[j].version == b.tokens[j].version; }
    assert r.tokens[j].version >= v + 1;
    assert r.tokens[|c.tokens|].usuario == u && r.tokens[|c.tokens|].version == v + 1;
  }

  /**
   A login, a company creation or a refresh reads the user, any run commits, it writes the version,
   any run commits, and it writes its token: the version laws survive exactly when no session was
   opened for that user in between.
   */
  lemma StaleSignInKeepsAuthIff(a: Auth, u: nat, presentado: Option<nat>, es: seq<Evento>, es': seq<Evento>,
                                conEmpresa: bool, vence: int)
    requires AuthOk(a) && u in a.usuarios && (presentado.Some? ==> presentado.value < |a.tokens|)
    ensures var v, b := a.usuarios[u].version, Correr(a, es);
            && u in b.usuarios && |a.tokens| <= |b.tokens|
            && var c := Correr(Anotar(b, u, v + 1, presentado), es');
               && u in c.usuarios && |a.tokens| <= |c.tokens|
               && (AuthOk(EmitirCon(c, u, v + 1, conEmpresa, vence)) <==> SinSesion(c, |a.tokens|, u))
  {
    hide AuthOk, Paso, Correr, SinSesion;
    var b := Correr(a, es);
    RunGrows(a, es);
    RunKeepsAuth(a, es);
    var n := Anotar(b, u, a.usuarios[u].version + 1, presentado);
    var c := Correr(n, es');
    RunGrows(n, es');
    if AuthOk(n) { RunKeepsAuth(n, es'); }
    if SinSesion(c, |a.tokens|, u) {
      QuietSignInKeepsAuth(a, b, n, c, u, presentado, conEmpresa, vence);
    } else {
      OpenedMeanwhileBreaksAuth(a, b, n, c, u, presentado, conEmpresa, vence);
    }
  }

  /**
   Its token can be used exactly while nothing has raised the version since the version write, it has
   not expired and the account is active: what committed before that write, a logout or a password
   reset included, makes no difference.
   */
  lemma StaleSignInUsableIff(a: Auth, u: nat, presentado: Option<nat>, es: seq<Evento>, es': seq<Evento>,
                             conEmpresa: bool, vence: int, later: int)
    requires AuthOk(a) && u in a.usuarios && (presentado.Some? ==> presentado.value < |a.tokens|)
    ensures var v, b := a.usuarios[u].version, Correr(a, es);
            && u in b.usuarios && |a.tokens| <= |b.tokens|
            && var c := Correr(Anotar(b, u, v + 1, presentado), es');
               && u in c.usuarios
               && (Usable(EmitirCon(c, u, v + 1, conEmpresa, vence), |c.tokens|, later) <==>
                     && later < vence && c.usuarios[u].version == v + 1
                     && c.usuarios[u].activo && (conEmpresa || c.usuarios[u].superAdmin))
  {
    hide Correr, AuthOk;
    RunGrows(a, es);
    RunGrows(Anotar(Correr(a, es), u, a.usuarios[u].version + 1, presentado), es');
  }

  /** A refresh in flight keeps the version laws exactly when no session was opened for its user meanwhile. */
  lemma StaleRefreshKeepsAuthIff(a: Auth, k: nat, now: int, es: seq<Evento>, vence: int)
    requires AuthOk(a) && Usable(a, k, now)
    ensures var b, u := Correr(a, es), a.tokens[k].usuario;
            && |a.tokens| <= |b.tokens| && u in b.usuarios && b.tokens[k].usuario == u
            && (AuthOk(RotarLeido(b, k, a.tokens[k].version, vence)) <==> SinSesion(b, |a.tokens|, u))
  {
    hide AuthOk;
    var u, b := a.tokens[k].usuario, Correr(a, es);
    RunGrows(a, es);
    StaleSignInKeepsAuthIff(a, u, Some(k), es, [], b.tokens[k].conEmpresa, vence);
    var c := Anotar(b, u, a.tokens[k].version + 1, Some(k));
    assert Correr(c, []) == c;
    assert |c.tokens| == |b.tokens| && forall j :: 0 <= j < |b.tokens| ==> c.tokens[j].usuario == b.tokens[j].usuario;
    assert SinSesion(c, |a.tokens|, u) <==> SinSesion(b, |a.tokens|, u);
  }

  /** And signs its user in again whatever committed meanwhile, logout and password reset included. */
  lemma StaleRefreshSignsIn(a: Auth, k: nat, now: int, es: seq<Evento>, vence: int, later: int)
    requires AuthOk(a) && Usable(a, k, now)
    ensures var b, u := Correr(a, es), a.tokens[k].usuario;
            && k < |b.tokens| && b.tokens[k].usuario == u && u in b.usuarios
            && var r := RotarLeido(b, k, a.tokens[k].version, vence);
               Usable(r, |b.tokens|, later) <==>
                 later < vence && b.usuarios[u].activo && (a.tokens[k].conEmpresa || b.usuarios[u].superAdmin)
  {
    RunGrows(a, es);
  }

  // ---------------------------------------------------------------- the endpoints as written

  class AuthTables {
    var usuarios: map<nat, Usuario>
    var tokens: seq<Token>

    ghost function Rows(): Auth
      reads this
    {
      Auth(usuarios, tokens)
    }

    constructor ()
      ensures Rows() == INICIO
    {
      usuarios, tokens := map[], [];
    }

    method CreateRefreshToken(u: nat, version: nat, conEmpresa: bool, vence: int) returns (k: nat)
      modifies `tokens
      ensures k == old(|tokens|) && tokens == old(tokens) + [Token(u, version, conEmpresa, false, vence)]
    {
      k := |tokens|;
      tokens := tokens + [Token(u, version, conEmpresa, false, vence)];
    }

    method RevokeAll(u: nat)
      modifies `tokens
      ensures tokens == RevocarTodos(old(tokens), u)
    {
      var i := 0;
      while i < |tokens|
        invariant 0 <= i <= |tokens| == |old(tokens)|
        invariant forall j :: 0 <= j < i ==> tokens[j] == RevocarTodos(old(tokens), u)[j]
        invariant forall j :: i <= j < |tokens| ==> tokens[j] == old(tokens)[j]
      {
        if tokens[i].usuario == u {
          tokens := tokens[i := tokens[i].(revocado := true)];
        }
        i := i + 1;
      }
    }

    method RefreshSession(k: nat, membresia: bool, now: int, vence: int) returns (nuevo: Option<nat>)
      requires AuthOk(Rows())
      modifies this
      ensures Rows() == Refrescar(old(Rows()), k, membresia, now, vence)
      ensures nuevo.Some? ==> old(Usable(Rows(), k, now)) && nuevo.value == old(|tokens|) && Gastado(Rows(), k)
      ensures nuevo.Some? && now < vence ==> Usable(Rows(), nuevo.value, now)
      ensures AuthOk(Rows())
    {
      PasoKeepsAuth(Rows(), Refresh(k, membresia, now, vence));
      if k >= |tokens| { return None; }
      var stored := tokens[k];
      if stored.revocado || stored.vence <= now { return None; }
      var user := usuarios[stored.usuario];
      if !user.activo || (!stored.conEmpresa && !user.superAdmin) { return None; }
      if stored.version != user.version {
        tokens := tokens[k := stored.(revocado := true)];
        return None;
      }
      if stored.conEmpresa && !membresia { return None; }
      tokens := tokens[k := stored.(revocado := true)];
      usuarios := usuarios[stored.usuario := user.(version := user.version + 1)];
      var id := CreateRefreshToken(stored.usuario, user.version + 1, stored.conEmpresa, vence);
      nuevo := Some(id);
    }

    method LogoutSession(k: nat)
      requires AuthOk(Rows())
      modifies this
      ensures Rows() == Salir(old(Rows()), k)
      ensures AuthOk(Rows())
    {
      PasoKeepsAuth(Rows(), Logout(k));
      if k >= |tokens| || tokens[k].revocado { return; }
      var u := tokens[k].usuario;
      RevokeAll(u);
      usuarios := usuarios[u := usuarios[u].(version := usuarios[u].version + 1)];
    }

    method ChangeMyPassword(u: nat, i: Ingreso, vence: int)
      requires AuthOk(Rows()) && (i == ConEmpresa || i == ComoAdmin ==> u in usuarios)
      modifies this
      ensures Rows() == Paso(old(Rows()), ChangePassword(u, i, vence))
      ensures AuthOk(Rows())
    {
      PasoKeepsAuth(Rows(), ChangePassword(u, i, vence));
      if i == Denegado || i == SinEmpresa { return; }
      usuarios := usuarios[u := usuarios[u].(version := usuarios[u].version + 1)];
      RevokeAll(u);
      var _ := CreateRefreshToken(u, usuarios[u].version, i == ConEmpresa, vence);
    }
  }
}
