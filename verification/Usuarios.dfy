/** The account handlers of the user controller: registration, confirmation,
    login and the password-reset flow. One token column serves both the
    confirmation link and the reset link. */
module Usuarios {
  import opened Types
  import opened Http

  /** The user table; a user's id is its position. Users are never deleted. */
  datatype Store = Store(users: seq<User>)

  const MinPasswordLength: nat := 6

  /** The two variation selectors: U+FE0E (text style) and U+FE0F (emoji style). */
  predicate IsVariationSelector(c: char) {
    c == '\U{FE0E}' || c == '\U{FE0F}'
  }

  /** The length the form library's length check measures: code points,
      leaving out variation selectors. */
  function CheckedLength(s: string): (n: nat)
    ensures n <= |s|
    ensures n == |s| <==> forall i :: 0 <= i < |s| ==> !IsVariationSelector(s[i])
    decreases |s|
  {
    if |s| == 0 then 0
    else
      var rest := CheckedLength(s[1..]);
      assert forall i :: 1 <= i < |s| ==> s[i] == s[1..][i - 1];
      (if IsVariationSelector(s[0]) then 0 else 1) + rest
  }

  /** The measure adds up over concatenation. */
  lemma {:induction false} CheckedLengthAppend(s: string, t: string)
    ensures CheckedLength(s + t) == CheckedLength(s) + CheckedLength(t)
    decreases |s|
  {
    if |s| > 0 {
      CheckedLengthAppend(s[1..], t);
      assert (s + t)[0] == s[0] && (s + t)[1..] == s[1..] + t;
    } else {
      assert s + t == t;
    }
  }

  // Messages the handlers render.
  const NombreVacio := "El nombre no puede estar vacio"
  const NoEsEmail := "Eso no parece un email"
  const PasswordCorto := "El password debe ser al menos 6 caracteres"
  const PasswordsDistintos := "Los passwords no son iguales"
  const YaRegistrado := "El usuario ya esta registrado"
  const EmailRequerido := "El email es requerido"
  const PasswordRequerido := "El password es requerido"
  const ErrorLogin := "Hubo un error al iniciar sesion. Intenta de nuevo"
  const NoConfirmado := "Tu cuenta no esta confirmado"
  const PasswordIncorrecto := "Password incorrecto"
  const ErrorReset := "Ha habido un error"

  /** The registration form. */
  datatype SignUp = SignUp(nombre: string, email: string, password: string, repetirPassword: string)

  /** The login form. */
  datatype Credentials = Credentials(email: string, password: string)

  // ----------------------------------------------------------------------
  // lookups: `findOne` returns the first matching row

  function FindFrom(users: seq<User>, p: User -> bool, i: nat): (r: Option<UserId>)
    requires i <= |users|
    ensures r.Some? ==> i <= r.value < |users| && p(users[r.value])
    ensures r.Some? ==> forall j :: i <= j < r.value ==> !p(users[j])
    ensures r.None? ==> forall j :: i <= j < |users| ==> !p(users[j])
    decreases |users| - i
  {
    if i == |users| then None
    else if p(users[i]) then Some(i)
    else FindFrom(users, p, i + 1)
  }

  function FindByEmail(s: Store, email: string): (r: Option<UserId>)
    ensures r.Some? ==> r.value < |s.users| && s.users[r.value].email == email
    ensures r.None? <==> forall j :: 0 <= j < |s.users| ==> s.users[j].email != email
  {
    FindFrom(s.users, (u: User) => u.email == email, 0)
  }

  function FindByToken(s: Store, token: string): (r: Option<UserId>)
    ensures r.Some? ==> r.value < |s.users| && s.users[r.value].token == Token(token)
    ensures r.None? <==> forall j :: 0 <= j < |s.users| ==> s.users[j].token != Token(token)
  {
    FindFrom(s.users, (u: User) => u.token == Token(token), 0)
  }

  // ----------------------------------------------------------------------
  // invariants

  predicate EmailsUnique(s: Store) {
    forall i, j :: 0 <= i < j < |s.users| ==> s.users[i].email != s.users[j].email
  }

  /** A token that a link can carry: route parameters are never empty. */
  predicate Live(t: TokenSlot) {
    t.Token? && t.value != ""
  }

  predicate TokensUnique(s: Store) {
    forall i, j :: 0 <= i < j < |s.users| && Live(s.users[i].token) ==> s.users[i].token != s.users[j].token
  }

  predicate Valid(s: Store) {
    EmailsUnique(s) && TokensUnique(s)
  }

  /** What the token generator is trusted to deliver: a non-empty string no user holds. */
  predicate FreshToken(s: Store, token: string) {
    token != "" && forall j :: 0 <= j < |s.users| ==> s.users[j].token != Token(token)
  }

  /** All users other than `i` are unchanged and none is added. */
  predicate OthersUnchanged(s: Store, s': Store, i: UserId) {
    |s'.users| == |s.users| && forall j :: 0 <= j < |s.users| && j != i ==> s'.users[j] == s.users[j]
  }

  // ----------------------------------------------------------------------
  // registrar

  /** The four registration checks, each contributing its message, in order;
      the list holds exactly one message per failing check and nothing else. */
  function RegistroErrors(f: SignUp, isEmail: string -> bool): (errors: seq<string>)
    ensures |errors| == 0 <==>
      f.nombre != "" && isEmail(f.email) && CheckedLength(f.password) >= MinPasswordLength && f.repetirPassword == f.password
    ensures NombreVacio in errors <==> f.nombre == ""
    ensures NoEsEmail in errors <==> !isEmail(f.email)
    ensures PasswordCorto in errors <==> CheckedLength(f.password) < MinPasswordLength
    ensures PasswordsDistintos in errors <==> f.repetirPassword != f.password
    ensures forall m :: m in errors ==> m in {NombreVacio, NoEsEmail, PasswordCorto, PasswordsDistintos}
    ensures |errors| ==
      (if f.nombre == "" then 1 else 0) + (if !isEmail(f.email) then 1 else 0)
      + (if CheckedLength(f.password) < MinPasswordLength then 1 else 0) + (if f.repetirPassword != f.password then 1 else 0)
  {
    (if f.nombre == "" then [NombreVacio] else [])
    + (if !isEmail(f.email) then [NoEsEmail] else [])
    + (if CheckedLength(f.password) < MinPasswordLength then [PasswordCorto] else [])
    + (if f.repetirPassword != f.password then [PasswordsDistintos] else [])
  }

  /** `isEmail` is the form library's address check; `token` is the freshly generated id. */
  function Registrar(s: Store, f: SignUp, isEmail: string -> bool, token: string): (r: (Response, Store))
    requires FreshToken(s, token)
    ensures |RegistroErrors(f, isEmail)| > 0 ==> r == (Render(AuthRegistro(RegistroErrors(f, isEmail))), s)
    ensures |RegistroErrors(f, isEmail)| == 0 && FindByEmail(s, f.email).Some? ==>
      r == (Render(AuthRegistro([YaRegistrado])), s)
    ensures r.1 != s <==> |RegistroErrors(f, isEmail)| == 0 && FindByEmail(s, f.email).None?
    ensures r.1 != s ==>
      && r.0 == Render(TemplatesMensaje("Cuenta creada correctamente"))
      && |r.1.users| == |s.users| + 1
      && r.1.users[..|s.users|] == s.users
      && r.1.users[|s.users|].nombre == f.nombre
      && r.1.users[|s.users|].email == f.email
      && r.1.users[|s.users|].password == Bcrypt(f.password)
      && !r.1.users[|s.users|].confirmado
      && r.1.users[|s.users|].token == Token(token)
  {
    var errors := RegistroErrors(f, isEmail);
    if |errors| > 0 then (Render(AuthRegistro(errors)), s)
    else if FindByEmail(s, f.email).Some? then (Render(AuthRegistro([YaRegistrado])), s)
    else
      var u := User(f.nombre, f.email, Bcrypt(f.password), false, Token(token));
      var s' := Store(s.users + [u]);
      assert |s'.users| != |s.users|;
      (Render(TemplatesMensaje("Cuenta creada correctamente")), s')
  }

  // ----------------------------------------------------------------------
  // confirmar

  /** `token` comes from the route `/confirmar/:token`, so it is never empty. */
  function Confirmar(s: Store, token: string): (r: (Response, Store))
    requires token != ""
    ensures FindByToken(s, token).None? ==>
      r == (Render(AuthConfirmarCuenta("Error al confirmar tu cuenta", true)), s)
    ensures FindByToken(s, token).Some? ==>
      var i := FindByToken(s, token).value;
      && r.0 == Render(TemplatesMensaje("Cuenta confirmada"))
      && OthersUnchanged(s, r.1, i)
      && r.1.users[i].confirmado
      && r.1.users[i].token == Token("")
      && r.1.users[i] == s.users[i].(confirmado := r.1.users[i].confirmado, token := r.1.users[i].token)
  {
    match FindByToken(s, token)
    case None => (Render(AuthConfirmarCuenta("Error al confirmar tu cuenta", true)), s)
    case Some(i) =>
      var u := s.users[i].(confirmado := true, token := Token(""));
      (Render(TemplatesMensaje("Cuenta confirmada")), Store(s.users[i := u]))
  }

  /** A confirmation link works once: confirming again with the same token fails
      and changes nothing. */
  lemma ConfirmarSingleUse(s: Store, token: string)
    requires Valid(s) && token != ""
    requires FindByToken(s, token).Some?
    ensures var s1 := Confirmar(s, token).1;
      Confirmar(s1, token) == (Render(AuthConfirmarCuenta("Error al confirmar tu cuenta", true)), s1)
  {
  }

  // ----------------------------------------------------------------------
  // autenticar

  function LoginErrors(f: Credentials, isEmail: string -> bool): (errors: seq<string>)
    ensures |errors| == 0 <==> isEmail(f.email) && f.password != ""
    ensures EmailRequerido in errors <==> !isEmail(f.email)
    ensures PasswordRequerido in errors <==> f.password == ""
  {
    (if !isEmail(f.email) then [EmailRequerido] else [])
    + (if f.password == "" then [PasswordRequerido] else [])
  }

  /** The model's password check. */
  predicate VerificarPassword(u: User, password: string) {
    u.password == Bcrypt(password)
  }

  /** Login never writes to the store; its only effect is the response. */
  function Autenticar(s: Store, f: Credentials, isEmail: string -> bool): (r: Response)
    ensures |LoginErrors(f, isEmail)| > 0 ==> r == Render(AuthLogin(LoginErrors(f, isEmail)))
    ensures |LoginErrors(f, isEmail)| == 0 && FindByEmail(s, f.email).None? ==> r == Render(AuthLogin([ErrorLogin]))
    ensures r.LoginRedirect? <==>
      && |LoginErrors(f, isEmail)| == 0
      && FindByEmail(s, f.email).Some?
      && s.users[FindByEmail(s, f.email).value].confirmado
      && VerificarPassword(s.users[FindByEmail(s, f.email).value], f.password)
    ensures r.LoginRedirect? ==>
      && r.to == MisPropiedades
      && r.session.usuario == FindByEmail(s, f.email).value
      && r.session.nombre == s.users[r.session.usuario].nombre
  {
    var errors := LoginErrors(f, isEmail);
    if |errors| > 0 then Render(AuthLogin(errors))
    else match FindByEmail(s, f.email)
      case None => Render(AuthLogin([ErrorLogin]))
      case Some(i) =>
        var u := s.users[i];
        if !u.confirmado then Render(AuthLogin([NoConfirmado]))
        else if !VerificarPassword(u, f.password) then Render(AuthLogin([PasswordIncorrecto]))
        else LoginRedirect(Claims(i, u.nombre), MisPropiedades)
  }

  /** In a valid store, a login as user `i` succeeds exactly when the form is
      well formed, `i` is confirmed and the password verifies; it then carries
      `i`'s id and name. An unconfirmed user is refused whatever the password. */
  lemma AutenticarAsUser(s: Store, f: Credentials, isEmail: string -> bool, i: UserId)
    requires Valid(s)
    requires i < |s.users| && s.users[i].email == f.email
    ensures Autenticar(s, f, isEmail).LoginRedirect? <==>
      |LoginErrors(f, isEmail)| == 0 && s.users[i].confirmado && VerificarPassword(s.users[i], f.password)
    ensures Autenticar(s, f, isEmail).LoginRedirect? ==>
      Autenticar(s, f, isEmail).session == Claims(i, s.users[i].nombre)
    ensures !s.users[i].confirmado && |LoginErrors(f, isEmail)| == 0 ==>
      Autenticar(s, f, isEmail) == Render(AuthLogin([NoConfirmado]))
  {
  }

  // ----------------------------------------------------------------------
  // resetPassword, comprobarToken, nuevoPassword

  /** `token` is the freshly generated id for the reset link. */
  function ResetPassword(s: Store, email: string, isEmail: string -> bool, token: string): (r: (Response, Store))
    requires FreshToken(s, token)
    ensures !isEmail(email) ==> r == (Render(AuthOlvidePassword([NoEsEmail])), s)
    ensures isEmail(email) && FindByEmail(s, email).None? ==> r == (Render(AuthOlvidePassword([ErrorReset])), s)
    ensures isEmail(email) && FindByEmail(s, email).Some? ==>
      var i := FindByEmail(s, email).value;
      && r.0 == Render(TemplatesMensaje("Reestablece tu password"))
      && OthersUnchanged(s, r.1, i)
      && r.1.users[i].token == Token(token)
      && r.1.users[i] == s.users[i].(token := r.1.users[i].token)
  {
    if !isEmail(email) then (Render(AuthOlvidePassword([NoEsEmail])), s)
    else match FindByEmail(s, email)
      case None => (Render(AuthOlvidePassword([ErrorReset])), s)
      case Some(i) =>
        (Render(TemplatesMensaje("Reestablece tu password")), Store(s.users[i := s.users[i].(token := Token(token))]))
  }

  /** Requesting a reset retires the user's previous token: neither a pending
      confirmation link nor an earlier reset link matches any user afterwards. */
  lemma ResetRetiresOldToken(s: Store, email: string, isEmail: string -> bool, token: string, previous: string)
    requires Valid(s) && FreshToken(s, token) && isEmail(email)
    requires FindByEmail(s, email).Some? && s.users[FindByEmail(s, email).value].token == Token(previous)
    requires previous != ""
    ensures FindByToken(ResetPassword(s, email, isEmail, token).1, previous).None?
  {
  }

  /** The slot is shared: the token a reset request stores, presented on the
      confirmation route, confirms the account and clears the slot. */
  lemma ResetTokenConfirms(s: Store, email: string, isEmail: string -> bool, token: string)
    requires FreshToken(s, token) && isEmail(email) && FindByEmail(s, email).Some?
    ensures var i := FindByEmail(s, email).value;
      var s1 := ResetPassword(s, email, isEmail, token).1;
      var s2 := Confirmar(s1, token).1;
      s2.users[i].confirmado && s2.users[i].token == Token("")
  {
  }

  /** Read-only: shows the new-password form exactly when some user holds the token. */
  function ComprobarToken(s: Store, token: string): (r: Response)
    requires token != ""
    ensures r == Render(AuthResetPassword([])) <==> exists j :: 0 <= j < |s.users| && s.users[j].token == Token(token)
    ensures r != Render(AuthResetPassword([])) ==> r == Render(AuthConfirmarCuenta("Reestablece tu password", true))
  {
    match FindByToken(s, token)
    case None => Render(AuthConfirmarCuenta("Reestablece tu password", true))
    case Some(_) => Render(AuthResetPassword([]))
  }

  /** The handler does not check that the token matched a user: with an unknown
      token it dereferences null, and the error escapes before anything is saved. */
  function NuevoPassword(s: Store, token: string, password: string): (r: (Response, Store))
    requires token != ""
    ensures CheckedLength(password) < MinPasswordLength ==> r == (Render(AuthResetPassword([PasswordCorto])), s)
    ensures CheckedLength(password) >= MinPasswordLength && FindByToken(s, token).None? ==> r == (Crash, s)
    ensures CheckedLength(password) >= MinPasswordLength && FindByToken(s, token).Some? ==>
      var i := FindByToken(s, token).value;
      && r.0 == Render(AuthConfirmarCuenta("Password Reestablecido", false))
      && OthersUnchanged(s, r.1, i)
      && VerificarPassword(r.1.users[i], password)
      && r.1.users[i].token == Null
      && r.1.users[i] == s.users[i].(password := r.1.users[i].password, token := Null)
  {
    if CheckedLength(password) < MinPasswordLength then (Render(AuthResetPassword([PasswordCorto])), s)
    else match FindByToken(s, token)
      case None => (Crash, s)
      case Some(i) =>
        var u := s.users[i].(password := Bcrypt(password), token := Null);
        (Render(AuthConfirmarCuenta("Password Reestablecido", false)), Store(s.users[i := u]))
  }

  /** Six code points of which one is a variation selector are only five
      characters to the length check: both forms reject the password. */
  lemma VariationSelectorNotCounted(isEmail: string -> bool, s: Store, token: string)
    requires token != ""
    ensures var p := "abcde\U{FE0F}";
      && |p| == MinPasswordLength && CheckedLength(p) == MinPasswordLength - 1
      && PasswordCorto in RegistroErrors(SignUp("ana", "a@b.co", p, p), isEmail)
      && NuevoPassword(s, token, p) == (Render(AuthResetPassword([PasswordCorto])), s)
  {
    var p := "abcde\U{FE0F}";
    CheckedLengthAppend("abcde", "\U{FE0F}");
    assert "abcde" + "\U{FE0F}" == p;
  }

  /** A reset link works once: after the new password is stored the link no
      longer opens the form, and posting to it again crashes without effect. */
  lemma ResetLinkSingleUse(s: Store, token: string, password: string, password2: string)
    requires Valid(s) && token != "" && CheckedLength(password) >= MinPasswordLength && CheckedLength(password2) >= MinPasswordLength
    requires FindByToken(s, token).Some?
    ensures var s1 := NuevoPassword(s, token, password).1;
      && ComprobarToken(s1, token) == Render(AuthConfirmarCuenta("Reestablece tu password", true))
      && NuevoPassword(s1, token, password2) == (Crash, s1)
  {
  }

  // ----------------------------------------------------------------------
  // all handlers together

  datatype Request =
    | RegistrarReq(form: SignUp, newToken: string)
    | ConfirmarReq(token: string)
    | AutenticarReq(credentials: Credentials)
    | ResetPasswordReq(email: string, newToken: string)
    | ComprobarTokenReq(token: string)
    | NuevoPasswordReq(token: string, password: string)

  /** Route tokens are non-empty and generated tokens are fresh. */
  predicate Admissible(s: Store, req: Request) {
    match req
    case RegistrarReq(_, t) => FreshToken(s, t)
    case ResetPasswordReq(_, t) => FreshToken(s, t)
    case ConfirmarReq(t) => t != ""
    case ComprobarTokenReq(t) => t != ""
    case NuevoPasswordReq(t, _) => t != ""
    case AutenticarReq(_) => true
  }

  function Step(s: Store, req: Request, isEmail: string -> bool): (Response, Store)
    requires Admissible(s, req)
  {
    match req
    case RegistrarReq(f, t) => Registrar(s, f, isEmail, t)
    case ConfirmarReq(t) => Confirmar(s, t)
    case AutenticarReq(c) => (Autenticar(s, c, isEmail), s)
    case ResetPasswordReq(e, t) => ResetPassword(s, e, isEmail, t)
    case ComprobarTokenReq(t) => (ComprobarToken(s, t), s)
    case NuevoPasswordReq(t, p) => NuevoPassword(s, t, p)
  }

  /** No two users share an email, and no two hold the same live token, after any request. */
  lemma StepPreservesValid(s: Store, req: Request, isEmail: string -> bool)
    requires Valid(s) && Admissible(s, req)
    ensures Valid(Step(s, req, isEmail).1)
  {
  }

  /** Accounts are permanent: no request removes a user, changes an email or
      name, or takes back a confirmation. */
  lemma StepKeepsAccounts(s: Store, req: Request, isEmail: string -> bool)
    requires Admissible(s, req)
    ensures var s' := Step(s, req, isEmail).1;
      && |s.users| <= |s'.users|
      && forall j :: 0 <= j < |s.users| ==>
           && s'.users[j].email == s.users[j].email
           && s'.users[j].nombre == s.users[j].nombre
           && (s.users[j].confirmado ==> s'.users[j].confirmado)
  {
  }

  /** The walk-through of registration and login: a new account cannot log in
      until its link is followed; then the right password logs in and a wrong
      one is refused. */
  lemma SignUpAndLogIn(isEmail: string -> bool, token: string)
    requires isEmail("alice@example.com") && token != ""
    ensures var e := "alice@example.com";
      var s1 := Registrar(Store([]), SignUp("alice", e, "secret1", "secret1"), isEmail, token).1;
      var s2 := Confirmar(s1, token).1;
      && |s1.users| == 1 && !s1.users[0].confirmado
      && Autenticar(s1, Credentials(e, "secret1"), isEmail) == Render(AuthLogin([NoConfirmado]))
      && Autenticar(s2, Credentials(e, "secret1"), isEmail) == LoginRedirect(Claims(0, "alice"), MisPropiedades)
      && Autenticar(s2, Credentials(e, "secret2"), isEmail) == Render(AuthLogin([PasswordIncorrecto]))
  {
  }
}
