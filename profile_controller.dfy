/**
 * `ProfileController`: how the handlers for register, activate and login turn service results
 * (and the exceptions the service throws) into an HTTP status and a body.
 */
module ProfileController {
  import opened Common
  import opened ProfileModel
  import opened ProfileStore
  import opened Profiles

  datatype HttpStatus = Ok200 | Created201 | BadRequest400 | Forbidden403 | NotFound404

  datatype Body =
    | ProfileBody(profile: ProfileDTO)       // a ProfileDTO serialised as JSON
    | TextBody(text: string)                 // a bare string body
    | MessageBody(message: string)           // the map {"message": ...}
    | LoginBody(login: LoginResult)          // the map {"token": ..., "user": ...}

  datatype Response = Response(status: HttpStatus, body: Body)

  const ActivatedText := "Profile activated successfully!"
  const InvalidTokenText := "Invalid or expired activation token"
  const NotActiveMessage := "Account is not active. Please activate your account first."

  /** `registerProfile`: CREATED with the profile, or BAD_REQUEST with the exception's message. */
  function RegisterResponse(result: Result<ProfileDTO>): (resp: Response)
    ensures resp.status == Created201 <==> result.Ok?
    ensures result.Ok? ==> resp.body == ProfileBody(result.value)
    ensures result.Err? ==> resp == Response(BadRequest400, TextBody(result.message))
  {
    match result
    case Ok(profile) => Response(Created201, ProfileBody(profile))
    case Err(m) => Response(BadRequest400, TextBody(m))
  }

  /** `activateProfile`: OK when the token activated an account, NOT_FOUND otherwise. */
  function ActivateResponse(activated: bool): (resp: Response)
    ensures resp.status == Ok200 <==> activated
    ensures resp.status == Ok200 || resp.status == NotFound404
    ensures resp.body == TextBody(if activated then ActivatedText else InvalidTokenText)
  {
    if activated then Response(Ok200, TextBody(ActivatedText))
    else Response(NotFound404, TextBody(InvalidTokenText))
  }

  /** `login`: the activity check comes first (an unknown email counts as inactive); only an
      active account reaches authentication, whose failure is BAD_REQUEST. */
  function Login(s: Store, auth: AuthDTO, authenticate: Authenticator, generateToken: TokenIssuer): (resp: Response)
    ensures resp.status == Forbidden403 <==> !IsAccountActive(s, auth.email)
    ensures auth.email !in s.accounts ==> resp == Response(Forbidden403, MessageBody(NotActiveMessage))
    ensures resp.status == Forbidden403 ==> resp.body == MessageBody(NotActiveMessage)
    ensures resp.status == Ok200 <==> IsAccountActive(s, auth.email) && authenticate(auth.email, auth.password)
    ensures resp.status == Ok200 ==>
              resp.body == LoginBody(LoginResult(generateToken(auth.email), ToDTO(s.accounts[auth.email])))
    ensures resp.status == Ok200 || resp.status == Forbidden403 || resp.status == BadRequest400
    ensures resp.status == BadRequest400 ==> resp.body == MessageBody(InvalidCredentials)
  {
    if !IsAccountActive(s, auth.email) then Response(Forbidden403, MessageBody(NotActiveMessage))
    else
      match AuthenticateAndGenerateToken(s, auth, authenticate, generateToken)
      case Ok(result) => Response(Ok200, LoginBody(result))
      case Err(m) => Response(BadRequest400, MessageBody(m))
  }

  /** When the account is inactive, the login response does not depend on the authentication
      manager or the token utility at all: neither is consulted. */
  lemma LoginInactiveIgnoresCredentials(s: Store, auth: AuthDTO,
                                        a1: Authenticator, g1: TokenIssuer,
                                        a2: Authenticator, g2: TokenIssuer)
    requires !IsAccountActive(s, auth.email)
    ensures Login(s, auth, a1, g1) == Login(s, auth, a2, g2)
  {
  }

  /** The register endpoint end to end: a duplicate email is BAD_REQUEST with its message and the
      store unchanged; a fresh account whose mail went out is CREATED with an inactive,
      password-free profile; a failed mail is BAD_REQUEST although the account stays stored. */
  lemma RegisterEndpoint(s: Store, dto: ProfileDTO, uuid: string, now: Time,
                         activationUrl: string, encode: Encoder, send: Notifier)
    ensures var (s', r) := Register(s, dto, uuid, now, activationUrl, encode, send);
            && (dto.email in s.accounts ==>
                  s' == s && RegisterResponse(r) == Response(BadRequest400, TextBody(DuplicateEmail)))
            && (RegisterResponse(r).status == Created201 ==>
                  && RegisterResponse(r).body.profile.isActive == Some(false)
                  && RegisterResponse(r).body.profile.password.None?
                  && dto.email in s'.accounts && !IsAccountActive(s', dto.email))
            && (dto.email !in s.accounts && encode(dto.password).Ok? && r.Err? ==>
                  RegisterResponse(r) == Response(BadRequest400, TextBody(MailFailed))
                  && dto.email in s'.accounts && s'.accounts[dto.email].activationToken == Some(uuid))
  {
  }
}
