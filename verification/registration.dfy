/**
 * Public sign-up: `POST /users/register/`. The registration serializer
 * strips surrounding whitespace from every text field, checks each field,
 * then that the two passwords agree, and creates an ordinary (non-staff)
 * account without the confirmation field.
 */
module Registration {
  import opened Wrappers
  import opened Text

  /** The account fields a registration request may carry; `None` means not sent. */
  datatype Solicitud = Solicitud(username: Option<string>, email: Option<string>,
                                 password: Option<string>, password2: Option<string>,
                                 firstName: Option<string>, lastName: Option<string>)

  datatype Campo = CampoUsername | CampoEmail | CampoPassword | CampoPassword2 | CampoFirstName | CampoLastName

  const UsernameMaxLength: nat := 150
  const NameMaxLength: nat := 150
  const EmailMaxLength: nat := 254

  /**
   * Field-level errors, each on the text stripped of surrounding whitespace:
   * username required, non-blank, short enough and not taken; both
   * passwords required and non-blank; optional texts short enough; and no
   * text may hold a null character.
   */
  function ErroresRegistro(d: Solicitud, tomados: set<string>): (e: set<Campo>)
    ensures CampoUsername in e <==>
              d.username.None? || Strip(d.username.value) == "" || |Strip(d.username.value)| > UsernameMaxLength ||
              '\0' in Strip(d.username.value) || Strip(d.username.value) in tomados
    ensures CampoPassword in e <==> d.password.None? || Strip(d.password.value) == "" || '\0' in Strip(d.password.value)
    ensures CampoPassword2 in e <==>
              d.password2.None? || Strip(d.password2.value) == "" || '\0' in Strip(d.password2.value)
    ensures CampoEmail in e <==>
              d.email.Some? && (|Strip(d.email.value)| > EmailMaxLength || '\0' in Strip(d.email.value))
    ensures CampoFirstName in e <==>
              d.firstName.Some? && (|Strip(d.firstName.value)| > NameMaxLength || '\0' in Strip(d.firstName.value))
    ensures CampoLastName in e <==>
              d.lastName.Some? && (|Strip(d.lastName.value)| > NameMaxLength || '\0' in Strip(d.lastName.value))
  {
    set c | c in {CampoUsername, CampoEmail, CampoPassword, CampoPassword2, CampoFirstName, CampoLastName} &&
            CampoInvalido(d, tomados, c)
  }

  /** Whether one field of a sign-up request fails, judged on its stripped text. */
  predicate CampoInvalido(d: Solicitud, tomados: set<string>, c: Campo) {
    match c
    case CampoUsername =>
      d.username.None? || Strip(d.username.value) == "" || |Strip(d.username.value)| > UsernameMaxLength ||
      '\0' in Strip(d.username.value) || Strip(d.username.value) in tomados
    case CampoPassword => d.password.None? || Strip(d.password.value) == "" || '\0' in Strip(d.password.value)
    case CampoPassword2 => d.password2.None? || Strip(d.password2.value) == "" || '\0' in Strip(d.password2.value)
    case CampoEmail => d.email.Some? && (|Strip(d.email.value)| > EmailMaxLength || '\0' in Strip(d.email.value))
    case CampoFirstName =>
      d.firstName.Some? && (|Strip(d.firstName.value)| > NameMaxLength || '\0' in Strip(d.firstName.value))
    case CampoLastName =>
      d.lastName.Some? && (|Strip(d.lastName.value)| > NameMaxLength || '\0' in Strip(d.lastName.value))
  }

  /** The position of the last `@` in `s`, if it has one. */
  function UltimaArroba(s: string): (i: Option<nat>)
    ensures i.None? <==> '@' !in s
    ensures i.Some? ==> i.value < |s| && s[i.value] == '@' && '@' !in s[i.value + 1..]
    decreases |s|
  {
    if s == [] then None
    else if s[|s| - 1] == '@' then Some(|s| - 1)
    else
      var i := UltimaArroba(s[..|s| - 1]);
      assert s == s[..|s| - 1] + [s[|s| - 1]];
      if i.Some? then
        assert s[i.value + 1..] == s[..|s| - 1][i.value + 1..] + [s[|s| - 1]];
        i
      else i
  }

  /**
   * `normalize_email`, which `create_user` applies to the email: split at
   * the last `@` and lower-case the domain; an address without `@` is kept.
   * The text arrives stripped by the serializer, so the strip Django does
   * first changes nothing.
   */
  function NormalizarEmail(e: string): (r: string)
    ensures |r| == |e|
    ensures '@' !in e ==> r == e
    ensures UltimaArroba(e).Some? ==>
              r[..UltimaArroba(e).value + 1] == e[..UltimaArroba(e).value + 1] &&
              r[UltimaArroba(e).value + 1..] == Lower(e[UltimaArroba(e).value + 1..])
  {
    match UltimaArroba(e)
    case None => e
    case Some(i) => e[..i + 1] + Lower(e[i + 1..])
  }

  /** Normalising an address twice gives the same address as normalising it once. */
  lemma NormalizarEmailIdempotent(e: string)
    ensures NormalizarEmail(NormalizarEmail(e)) == NormalizarEmail(e)
  {
    var r := NormalizarEmail(e);
    if UltimaArroba(e).Some? {
      var i := UltimaArroba(e).value;
      assert r == e[..i + 1] + Lower(e[i + 1..]);
      assert '@' !in Lower(e[i + 1..]);
      assert UltimaArroba(r) == Some(i);
      LowerIdempotent(e[i + 1..]);
    }
  }

  /**
   * Only the domain is lower-cased: `A@B` is stored as `A@b`, its local
   * part keeping its capital.
   */
  lemma NormalizarEmailEjemplo()
    ensures NormalizarEmail("A@B") == "A@b"
  {
    var e := "A@B";
    assert e[1] == '@' && e[2..] == "B";
    assert UltimaArroba(e) == Some(1);
    assert Lower("B") == "b";
  }

  /** What the stored credential accepts: the password it was set from, and only that one. */
  datatype Credencial = Credencial(secreto: string) {
    predicate Acepta(password: string) { secreto == password }
  }

  datatype Cuenta = Cuenta(id: nat, username: string, email: string, firstName: string, lastName: string,
                           credencial: Credencial, isStaff: bool, isSuperuser: bool, isActive: bool)

  /**
   * `create_user` with the validated data once `password2` is dropped: an
   * active account that is neither staff nor superuser, holding the
   * stripped texts with the email normalised, whose credential accepts the
   * stripped password.
   */
  function CrearUsuario(id: nat, d: Solicitud): (c: Cuenta)
    requires d.username.Some? && d.password.Some?
    ensures c.id == id && c.username == Strip(d.username.value)
    ensures c.email == NormalizarEmail(Strip(d.email.GetOr("")))
    ensures c.firstName == Strip(d.firstName.GetOr("")) && c.lastName == Strip(d.lastName.GetOr(""))
    ensures !c.isStaff && !c.isSuperuser && c.isActive
    ensures forall p :: c.credencial.Acepta(p) <==> p == Strip(d.password.value)
  {
    Cuenta(id, Strip(d.username.value), NormalizarEmail(Strip(d.email.GetOr(""))), Strip(d.firstName.GetOr("")),
           Strip(d.lastName.GetOr("")), Credencial(Strip(d.password.value)), false, false, true)
  }

  function Usernames(cs: seq<Cuenta>): (r: set<string>)
    ensures forall c :: c in cs ==> c.username in r
    ensures forall u :: u in r ==> exists c :: c in cs && c.username == u
  {
    set c | c in cs :: c.username
  }

  predicate UsernamesUnicos(cs: seq<Cuenta>) {
    forall i, j :: 0 <= i < j < |cs| ==> cs[i].username != cs[j].username
  }

  /**
   * A password sent with a trailing space still matches its confirmation
   * without one: both are stripped, and the account's credential accepts
   * the stripped text and not the text as sent.
   */
  lemma RegistroRecortaContrasenas()
    ensures var d := Solicitud(Some("ana"), None, Some("secret "), Some("secret"), None, None);
            ErroresRegistro(d, {}) == {} && Strip(d.password.value) == Strip(d.password2.value) &&
            CrearUsuario(1, d).credencial.Acepta("secret") && !CrearUsuario(1, d).credencial.Acepta("secret ")
  {
    StripUnchanged("ana");
    StripUnchanged("secret");
    assert "secret " == [] + "secret" + " ";
    StripBetween([], "secret", " ");
  }

  /** 400 with the failing fields, 400 "Las contraseñas no coinciden." on `password`, or 201. */
  datatype Registro = Invalido(campos: set<Campo>) | ContrasenasDistintas | Creado(cuenta: Cuenta)

  class Directorio {
    var cuentas: seq<Cuenta>
    var proximo: nat

    ghost predicate Valid()
      reads this
    {
      UsernamesUnicos(cuentas) && forall c :: c in cuentas ==> c.id < proximo
    }

    constructor ()
      ensures Valid() && cuentas == []
    {
      cuentas := [];
      proximo := 1;
    }

    /**
     * Open to anyone. Field errors are reported first; the password check
     * compares the stripped passwords and runs only once every field is
     * valid; a new account is appended and usernames stay unique.
     */
    method Registrar(d: Solicitud) returns (o: Registro)
      requires Valid()
      modifies this
      ensures Valid()
      ensures o.Invalido? <==> ErroresRegistro(d, Usernames(old(cuentas))) != {}
      ensures o.Invalido? ==> o.campos == ErroresRegistro(d, Usernames(old(cuentas)))
      ensures o.ContrasenasDistintas? <==>
                ErroresRegistro(d, Usernames(old(cuentas))) == {} &&
                Strip(d.password.value) != Strip(d.password2.value)
      ensures o.Creado? ==>
                d.username.Some? && d.password.Some? && d.password2.Some? &&
                Strip(d.password.value) == Strip(d.password2.value) &&
                o.cuenta == CrearUsuario(old(proximo), d) &&
                cuentas == old(cuentas) + [o.cuenta] && proximo == old(proximo) + 1
      ensures !o.Creado? ==> cuentas == old(cuentas) && proximo == old(proximo)
    {
      var errores := ErroresRegistro(d, Usernames(cuentas));
      if errores != {} {
        return Invalido(errores);
      }
      if Strip(d.password.value) != Strip(d.password2.value) {
        return ContrasenasDistintas;
      }
      var c := CrearUsuario(proximo, d);
      assert UsernamesUnicos(cuentas + [c]) by {
        var s := cuentas + [c];
        forall i, j | 0 <= i < j < |s| ensures s[i].username != s[j].username {
          assert s[i] == cuentas[i];
          if j == |cuentas| {
            assert cuentas[i] in cuentas;
          } else {
            assert s[j] == cuentas[j];
          }
        }
      }
      cuentas := cuentas + [c];
      proximo := proximo + 1;
      o := Creado(c);
    }
  }
}
