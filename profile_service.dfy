/**
 * `ProfileService`: registration, activation, the activity check, profile projection and login.
 * The pure operations are functions over a store value; the two operations that change the
 * repository are methods of the `ProfileService` class, specified by `Register` and `Activate`.
 * Collaborators with no visible source are parameters: the password encoder, the mail sender,
 * the authentication manager and the JWT utility; so are the clock, the random UUID and the
 * name bound to the security context.
 */
module Profiles {
  import opened Common
  import opened ProfileModel
  import opened ProfileStore

  /** `PasswordEncoder.encode`; an `Err` is the exception it throws (for a null password, say). */
  type Encoder = Option<string> -> Result<string>

  /** An outgoing mail, as handed to `EmailService.sendEmail`. */
  datatype Mail = Mail(to: string, subject: string, body: string)

  /** `EmailService.sendEmail`: true when the mail was handed over, false when it threw. */
  type Notifier = Mail -> bool

  /** `authenticationManager.authenticate`: true when it accepts the credentials, false when it throws. */
  type Authenticator = (string, string) -> bool

  /** `jwtUtil.generateToken`. */
  type TokenIssuer = string -> string

  /** The map returned by a successful login: `"token"` and `"user"`. */
  datatype LoginResult = LoginResult(token: string, user: ProfileDTO)

  const DuplicateEmail := "Email already registered"
  const MailFailed := "Email sending failed"
  const NoAuthenticatedUser := "No authenticated user found"
  const InvalidCredentials := "Invalid email or password"
  const ActivationSubject := "Activate your FinGuardian Account"

  function ProfileNotFound(email: string): (msg: string)
  {
    "Profile not found with email: " + email
  }

  /* -------------------- Mappers -------------------- */

  /** `toEntity`: a fresh, unsaved, inactive entity carrying the encoded password. Request
      timestamps are kept when present, otherwise the clock is read. */
  function ToEntity(dto: ProfileDTO, encode: Encoder, now: Time): (r: Result<ProfileEntity>)
    ensures r.Err? <==> encode(dto.password).Err?
    ensures r.Err? ==> r.message == encode(dto.password).message
    ensures r.Ok? ==> r.value.password == encode(dto.password).value
    ensures r.Ok? ==> r.value.id.None? && !r.value.isActive && r.value.activationToken.None?
    ensures r.Ok? ==> r.value.fullName == dto.fullName && r.value.email == dto.email
    ensures r.Ok? ==> r.value.profileImageUrl == dto.profileImageUrl
    ensures r.Ok? ==> r.value.createdAt == dto.createdAt.GetOr(now)
    ensures r.Ok? ==> r.value.updatedAt == dto.updatedAt.GetOr(now)
  {
    match encode(dto.password)
    case Err(m) => Err(m)
    case Ok(hash) =>
      Ok(ProfileEntity(None, dto.fullName, dto.email, hash, dto.profileImageUrl, false, None,
                       dto.createdAt.GetOr(now), dto.updatedAt.GetOr(now)))
  }

  /** `toDTO`: every public field copied, the password nulled. */
  function ToDTO(p: ProfileEntity): (d: ProfileDTO)
    ensures d.password.None?
    ensures d.id == p.id && d.fullName == p.fullName && d.email == p.email
    ensures d.profileImageUrl == p.profileImageUrl && d.isActive == Some(p.isActive)
    ensures d.createdAt == Some(p.createdAt) && d.updatedAt == Some(p.updatedAt)
  {
    ProfileDTO(p.id, p.fullName, p.email, None, p.profileImageUrl,
               Some(p.createdAt), Some(p.updatedAt), Some(p.isActive))
  }

  /** The builder inside `getPublicProfile`: the same fields, the password left unset. */
  function PublicProfile(p: ProfileEntity): (d: ProfileDTO)
    ensures d.password.None?
  {
    ProfileDTO(id := p.id, fullName := p.fullName, email := p.email, password := None,
               profileImageUrl := p.profileImageUrl, createdAt := Some(p.createdAt),
               updatedAt := Some(p.updatedAt), isActive := Some(p.isActive))
  }

  /** The two projections agree, and neither carries a password; an entity is recovered from its
      projection up to the password and the activation token. */
  lemma ProjectionsAgree(p: ProfileEntity)
    ensures PublicProfile(p) == ToDTO(p)
    ensures ToDTO(p).password.None?
    ensures ToDTO(p).isActive == Some(p.isActive)
    ensures forall q: ProfileEntity :: ToDTO(q) == ToDTO(p) ==>
              q.(password := p.password, activationToken := p.activationToken) == p
  {
  }

  /* -------------------- Registration -------------------- */

  function TokenText(t: Option<string>): (text: string)
  {
    if t.Some? then t.value else "null"
  }

  /** `part` occurs in `text` starting at position `i`. */
  predicate OccursAt(text: string, i: int, part: string)
  {
    0 <= i <= |text| - |part| && text[i..i + |part|] == part
  }

  /** The activation mail sent to a freshly saved account; its body carries the activation link. */
  function ActivationMail(activationUrl: string, p: ProfileEntity): (m: Mail)
    ensures m.to == p.email && m.subject == ActivationSubject
    ensures var link := activationUrl + "?token=" + TokenText(p.activationToken);
            exists i :: OccursAt(m.body, i, link)
  {
    var link := activationUrl + "?token=" + TokenText(p.activationToken);
    var head := "Hello " + p.fullName + ",\n\n" +
                "Click the following link to activate your account:\n";
    var body := head + link + "\n\nThank you for joining FinGuardian!";
    assert body[|head|..|head| + |link|] == link;
    assert OccursAt(body, |head|, link);
    Mail(p.email, ActivationSubject, body)
  }

  /** `registerProfile` on a store value: the store afterwards and the call's result.
      A duplicate email is refused before anything else; otherwise the account is saved
      inactive with the activation token `uuid`, and only then is the mail sent. A failed
      send is reported, but the saved account stays. */
  function Register(s: Store, dto: ProfileDTO, uuid: string, now: Time,
                    activationUrl: string, encode: Encoder, send: Notifier): (r: (Store, Result<ProfileDTO>))
    ensures dto.email in s.accounts ==> r == (s, Err(DuplicateEmail))
    ensures dto.email !in s.accounts && encode(dto.password).Err? ==>
              r == (s, Err(encode(dto.password).message))
    ensures dto.email !in s.accounts && encode(dto.password).Ok? ==>
              && r.0.accounts.Keys == s.accounts.Keys + {dto.email}
              && (forall e :: e in s.accounts ==> r.0.accounts[e] == s.accounts[e])
              && var p := r.0.accounts[dto.email];
              && p.id == Some(s.nextId)
              && p.email == dto.email && p.fullName == dto.fullName
              && p.profileImageUrl == dto.profileImageUrl
              && p.password == encode(dto.password).value
              && !p.isActive && p.activationToken == Some(uuid)
              && p.createdAt == now && p.updatedAt == now
              && (r.1.Ok? <==> send(ActivationMail(activationUrl, p)))
              && (r.1.Ok? ==> r.1.value == ToDTO(p))
              && (r.1.Err? ==> r.1.message == MailFailed)
    ensures r.1.Ok? ==> r.1.value.isActive == Some(false) && r.1.value.password.None?
    ensures r.1.Ok? ==> r.1.value.email == dto.email && r.1.value.fullName == dto.fullName
  {
    if FindByEmail(s, dto.email).Some? then (s, Err(DuplicateEmail))
    else
      match ToEntity(dto, encode, now)
      case Err(m) => (s, Err(m))
      case Ok(entity) =>
        var pending := entity.(isActive := false, activationToken := Some(uuid),
                               createdAt := now, updatedAt := now);
        var (s', saved) := Save(s, pending);
        if send(ActivationMail(activationUrl, saved)) then (s', Ok(ToDTO(saved)))
        else (s', Err(MailFailed))
  }

  /** Registration keeps the store coherent, provided the new activation token is not already held. */
  lemma RegisterPreservesValid(s: Store, dto: ProfileDTO, uuid: string, now: Time,
                               activationUrl: string, encode: Encoder, send: Notifier)
    requires Valid(s) && TokenUnused(s, uuid)
    ensures Valid(Register(s, dto, uuid, now, activationUrl, encode, send).0)
  {
    if dto.email !in s.accounts && encode(dto.password).Ok? {
      var entity := ToEntity(dto, encode, now).value;
      var pending := entity.(isActive := false, activationToken := Some(uuid),
                             createdAt := now, updatedAt := now);
      assert SaveFits(s, pending);
      SavePreservesValid(s, pending);
    }
  }

  /* -------------------- Activation -------------------- */

  /** `activateProfile` on a store value: the account holding `token` becomes active, its token
      is cleared and its `updatedAt` refreshed; with no such account, nothing changes. */
  function Activate(s: Store, token: string, now: Time): (r: (Store, bool))
    ensures r.1 <==> FindByActivationToken(s, token).Some?
    ensures Valid(s) ==> (r.1 <==> !TokenUnused(s, token))
    ensures !r.1 ==> r.0 == s
    ensures r.1 ==>
              var p := FindByActivationToken(s, token).value;
              && r.0.accounts.Keys == s.accounts.Keys + {p.email}
              && (forall e :: e in s.accounts && e != p.email ==> r.0.accounts[e] == s.accounts[e])
              && var q := r.0.accounts[p.email];
              && q.isActive && q.activationToken.None? && q.updatedAt == now
              && q == p.(id := q.id, isActive := true, activationToken := None, updatedAt := now)
              && (p.id.Some? ==> q.id == p.id)
  {
    match FindByActivationToken(s, token)
    case None => (s, false)
    case Some(p) =>
      var activated := p.(isActive := true, activationToken := None, updatedAt := now);
      (Save(s, activated).0, true)
  }

  lemma ActivatePreservesValid(s: Store, token: string, now: Time)
    requires Valid(s)
    ensures Valid(Activate(s, token, now).0)
  {
  }

  /** Activation is single-use: once a token has activated an account, it activates nothing. */
  lemma ActivationSingleUse(s: Store, token: string, now: Time, later: Time)
    requires Valid(s)
    ensures var (s', ok) := Activate(s, token, now);
            ok ==> Activate(s', token, later) == (s', false)
  {
  }

  /* -------------------- Queries -------------------- */

  /** `isAccountActive`: the stored flag; an unknown email reads as inactive, never as an error. */
  function IsAccountActive(s: Store, email: string): (b: bool)
    ensures b <==> email in s.accounts && s.accounts[email].isActive
  {
    match FindByEmail(s, email)
    case Some(p) => p.isActive
    case None => false
  }

  /** `getCurrentProfile`: the account of the authenticated name, if there is one. */
  function GetCurrentProfile(s: Store, principal: Option<string>): (r: Result<ProfileEntity>)
    ensures principal.None? ==> r == Err(NoAuthenticatedUser)
    ensures principal.Some? ==> (r.Ok? <==> principal.value in s.accounts)
    ensures r.Ok? ==> r.value == s.accounts[principal.value]
    ensures principal.Some? && r.Err? ==> r.message == ProfileNotFound(principal.value)
  {
    match principal
    case None => Err(NoAuthenticatedUser)
    case Some(name) =>
      match FindByEmail(s, name)
      case Some(p) => Ok(p)
      case None => Err(ProfileNotFound(name))
  }

  /** `getPublicProfile`: by explicit email, or by the authenticated name when the email is null. */
  function GetPublicProfile(s: Store, email: Option<string>, principal: Option<string>): (r: Result<ProfileDTO>)
    ensures var target := if email.Some? then email else principal;
            && (r.Ok? <==> target.Some? && target.value in s.accounts)
            && (r.Ok? ==> r.value == ToDTO(s.accounts[target.value]))
    ensures r.Ok? ==> r.value.password.None?
    ensures email.Some? && r.Err? ==> r.message == ProfileNotFound(email.value)
    ensures email.None? && principal.None? ==> r == Err(NoAuthenticatedUser)
    ensures email.None? && principal.Some? && r.Err? ==> r.message == ProfileNotFound(principal.value)
  {
    var current :=
      if email.None? then GetCurrentProfile(s, principal)
      else match FindByEmail(s, email.value)
           case Some(p) => Ok(p)
           case None => Err(ProfileNotFound(email.value));
    match current
    case Err(m) => Err(m)
    case Ok(p) => Ok(PublicProfile(p))
  }

  /** `authenticateAndGenerateToken`: every failure is reported as `InvalidCredentials`; success
      yields the token issued for the email and that account's public profile. */
  function AuthenticateAndGenerateToken(s: Store, auth: AuthDTO, authenticate: Authenticator,
                                        generateToken: TokenIssuer): (r: Result<LoginResult>)
    ensures r.Ok? <==> authenticate(auth.email, auth.password) && auth.email in s.accounts
    ensures r.Err? ==> r.message == InvalidCredentials
    ensures r.Ok? ==>
              && r.value.token == generateToken(auth.email)
              && r.value.user == ToDTO(s.accounts[auth.email])
              && r.value.user.password.None?
  {
    if !authenticate(auth.email, auth.password) then Err(InvalidCredentials)
    else
      var token := generateToken(auth.email);
      match GetPublicProfile(s, Some(auth.email), None)
      case Err(_) => Err(InvalidCredentials)
      case Ok(user) => Ok(LoginResult(token, user))
  }

  /* -------------------- The service object -------------------- */

  class ProfileService {
    var store: Store
    const activationUrl: string
    const encode: Encoder

    constructor (activationUrl: string, encode: Encoder)
      ensures store == Empty && Valid(store)
      ensures this.activationUrl == activationUrl && this.encode == encode
    {
      store := Empty;
      this.activationUrl := activationUrl;
      this.encode := encode;
    }

    /** `registerProfile`: `uuid` is the random activation token, `now` the clock, `send` the mailer. */
    method RegisterProfile(dto: ProfileDTO, uuid: string, now: Time, send: Notifier)
      returns (r: Result<ProfileDTO>)
      modifies this
      ensures (store, r) == Register(old(store), dto, uuid, now, activationUrl, encode, send)
      ensures Valid(old(store)) && TokenUnused(old(store), uuid) ==> Valid(store)
    {
      ghost var before := store;
      if FindByEmail(store, dto.email).Some? {
        return Err(DuplicateEmail);
      }
      var entity := ToEntity(dto, encode, now);
      if entity.Err? {
        return Err(entity.message);
      }
      var newProfile := entity.value;
      newProfile := newProfile.(isActive := false);
      newProfile := newProfile.(activationToken := Some(uuid));
      newProfile := newProfile.(createdAt := now);
      newProfile := newProfile.(updatedAt := now);
      var saved := Save(store, newProfile);
      store, newProfile := saved.0, saved.1;
      var mail := ActivationMail(activationUrl, newProfile);
      if !send(mail) {
        r := Err(MailFailed);
      } else {
        r := Ok(ToDTO(newProfile));
      }
      if Valid(before) && TokenUnused(before, uuid) {
        RegisterPreservesValid(before, dto, uuid, now, activationUrl, encode, send);
      }
    }

    /** `activateProfile`: true when some account held `token`. */
    method ActivateProfile(token: string, now: Time) returns (activated: bool)
      modifies this
      ensures (store, activated) == Activate(old(store), token, now)
      ensures Valid(old(store)) ==> Valid(store)
    {
      ghost var before := store;
      var found := FindByActivationToken(store, token);
      if found.None? {
        return false;
      }
      var profile := found.value;
      profile := profile.(isActive := true);
      profile := profile.(activationToken := None);
      profile := profile.(updatedAt := now);
      store := Save(store, profile).0;
      activated := true;
      if Valid(before) {
        ActivatePreservesValid(before, token, now);
      }
    }
  }
}
