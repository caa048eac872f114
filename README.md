# FinGuardian account lifecycle, in Dafny

A model of the account core of FinGuardian, a personal-finance web application written in Java
with Spring. It covers `ProfileService` and the outcome rules of `ProfileController`:

- **Registration** refuses an email that is already stored. Otherwise it saves a new account,
  inactive, holding a random activation token and the encoder's output in place of the password.
  Only then does it send the activation mail.
- **Activation** finds the account that holds a token, marks it active, clears the token and
  reports true. A token no account holds reports false. Since the token is cleared, it works once.
- **The activity check** reads the stored flag; an unknown email reads as inactive.
- **The public profile** is found by email, or by the authenticated name when no email is given.
  Its password is always null.
- **Login** (in the service) turns every failure into "Invalid email or password". On success it
  returns a session token and the public profile.
- **The controller** maps these outcomes to HTTP statuses. Login checks activity first, so an unknown
  or inactive email gets FORBIDDEN and is never authenticated.

Files, one module each:

- `common.dfy` (`Common`): `Option` for Java nulls, `Result` for calls that may throw. An error
  carries the exception's message.
- `profile_model.dfy` (`ProfileModel`): `ProfileEntity`, `ProfileDTO`, `AuthDTO`.
- `profile_store.dfy` (`ProfileStore`): the repository as a value. Accounts are keyed by email,
  which makes "one account per email" structural. A token index backs `findByActivationToken`.
  `Valid` is the store's coherence invariant: keys match emails, ids are distinct, and the index
  matches the accounts.
- `profile_service.dfy` (`Profiles`): the mappers `ToEntity`, `ToDTO` and `PublicProfile`; the
  specification functions `Register` and `Activate`; the queries; and the class `ProfileService`.
  The class holds the repository state in a field, and its methods `RegisterProfile` and
  `ActivateProfile` update that field step by step, as the Java does with setters and `save`.
- `profile_controller.dfy` (`ProfileController`): the response mapping of the three handlers.
- `lifecycle.dfy` (`Lifecycle`): any sequence of registrations and activations replayed from the
  empty repository, with the invariants every reachable store keeps.

Collaborators whose source is not part of this model are parameters:

- `PasswordEncoder.encode` is `Encoder`. An `Err` stands for the exception it throws, for example
  on a null password.
- `EmailService.sendEmail` is `Notifier`. `false` stands for the `RuntimeException("Email sending
  failed")` it throws.
- `AuthenticationManager.authenticate` is `Authenticator`. `false` stands for a rejection.
- `JwtUtil.generateToken` is `TokenIssuer`.
- `UUID.randomUUID()` is the `uuid` argument, `LocalDateTime.now()` the `now` argument, and the
  security context's name an `Option<string>` argument.

The model follows the code as written, which fixes several policy questions:

- There is no activate-by-default policy: every registration needs activation.
- Emails are compared exactly; there is no case folding.
- There is no field validation.
- A failed activation mail is not swallowed. `registerProfile` throws, so the controller answers
  BAD_REQUEST "Email sending failed", but the account stays saved and pending. `Register` states
  both halves.
- The public profile is a `ProfileDTO` whose password is left null (`ProfileService.java:112-120`),
  not a separate type. `ProjectionsAgree` proves that it equals `toDTO`'s result.
- The inactive-account refusal is made by the controller (`ProfileController.java:42-46`), not by
  `authenticateAndGenerateToken`.

## Model

| member | source | states |
|---|---|---|
| `ProfileStore.FindByEmail` | finguardian/src/main/java/in/moneymanager/finguardian/repository/ProfileRepository.java:11 | finds an account exactly when its email is stored, and then it is the stored account; in a coherent store that account has the email looked up |
| `ProfileStore.FindByActivationToken` | finguardian/src/main/java/in/moneymanager/finguardian/service/ProfileService.java:67 | what it finds holds the token; in a coherent store it finds nothing exactly when no account holds the token, and what it finds is the stored account for its email |
| `ProfileStore.Save` | finguardian/src/main/java/in/moneymanager/finguardian/service/ProfileService.java:50 | stores the entity under its email, changes nothing else in the accounts, and assigns the next id only to an entity that has none |
| `ProfileStore.SavePreservesValid` | finguardian/src/main/java/in/moneymanager/finguardian/service/ProfileService.java:72 | saving the stored account for an email, or a new one, with a token no other account holds keeps the store coherent |
| `Profiles.ToEntity` | finguardian/src/main/java/in/moneymanager/finguardian/service/ProfileService.java:143-155 | fails exactly when the encoder throws, with its message; otherwise yields an unsaved, inactive entity with no token, whose password is the encoder's output, which carries the request's fullName, email and image URL, and whose timestamps are the request's, or the clock's where the request has none |
| `Profiles.ToDTO` | finguardian/src/main/java/in/moneymanager/finguardian/service/ProfileService.java:157-169 | the projection copies id, fullName, email, image URL, both timestamps and isActive from the entity, and never carries a password |
| `Profiles.PublicProfile` | finguardian/src/main/java/in/moneymanager/finguardian/service/ProfileService.java:112-120 | the builder leaves the password unset; that it copies the same fields as `toDTO` is stated by `ProjectionsAgree` |
| `Profiles.ProjectionsAgree` | finguardian/src/main/java/in/moneymanager/finguardian/service/ProfileService.java:112-120 | the public-profile builder equals `toDTO`, carries no password and reports the stored flag; two entities with the same projection differ at most in password and activation token |
| `Profiles.ActivationMail` | finguardian/src/main/java/in/moneymanager/finguardian/service/ProfileService.java:52-58 | the activation mail goes to the saved account's email with the fixed subject, and its body contains the link made of the activation URL, `?token=` and the account's token |
| `Profiles.Register` | finguardian/src/main/java/in/moneymanager/finguardian/service/ProfileService.java:39-61 | a stored email gives "Email already registered" and the store unchanged; an encoder failure changes nothing; otherwise exactly one account is added under the new email with the next id, inactive, holding the uuid, the encoded password, the request's name and image and the clock's timestamps, and every other account is untouched; the call succeeds exactly when the mail to that account went out, with the password-free profile and isActive false; otherwise it reports "Email sending failed" and the account stays |
| `Profiles.RegisterPreservesValid` | finguardian/src/main/java/in/moneymanager/finguardian/service/ProfileService.java:40-50 | registration with an activation token no account holds keeps the store coherent |
| `Profiles.Activate` | finguardian/src/main/java/in/moneymanager/finguardian/service/ProfileService.java:66-76 | reports true exactly when the token lookup finds an account, which in a coherent store is exactly when some account holds the token; then that account, and no other, becomes active with its token cleared, its `updatedAt` set to the clock and its other fields kept, and its id kept whenever it has one (always, in a coherent store); otherwise it reports false and changes nothing |
| `Profiles.ActivatePreservesValid` | finguardian/src/main/java/in/moneymanager/finguardian/service/ProfileService.java:69-72 | activation keeps the store coherent |
| `Profiles.ActivationSingleUse` | finguardian/src/main/java/in/moneymanager/finguardian/service/ProfileService.java:70 | in a coherent store, after a token has activated an account, activating with it again reports false and changes nothing |
| `Profiles.IsAccountActive` | finguardian/src/main/java/in/moneymanager/finguardian/service/ProfileService.java:81-85 | true exactly when the email is stored and that account is active; an absent email gives false, never an error |
| `Profiles.GetCurrentProfile` | finguardian/src/main/java/in/moneymanager/finguardian/service/ProfileService.java:91-98 | no authenticated name gives "No authenticated user found"; otherwise it succeeds exactly when the name is a stored email, with that account, or fails with "Profile not found with email: " and the name |
| `Profiles.GetPublicProfile` | finguardian/src/main/java/in/moneymanager/finguardian/service/ProfileService.java:103-121 | the target is the explicit email, or the authenticated name when the email is null; it succeeds exactly when the target is stored, with that account's `toDTO` projection and never a password; an absent target fails with "Profile not found with email: " and the target, and no email and no authenticated name fails with "No authenticated user found" |
| `Profiles.AuthenticateAndGenerateToken` | finguardian/src/main/java/in/moneymanager/finguardian/service/ProfileService.java:126-139 | succeeds exactly when the credentials are accepted and the email is stored; every failure reads "Invalid email or password"; success carries the token issued for the email and that account's password-free profile |
| `Profiles.ProfileService.RegisterProfile` | finguardian/src/main/java/in/moneymanager/finguardian/service/ProfileService.java:39-61 | the new repository state and the result are those of `Register`, and a coherent store stays coherent when the uuid is unused |
| `Profiles.ProfileService.ActivateProfile` | finguardian/src/main/java/in/moneymanager/finguardian/service/ProfileService.java:66-76 | the new repository state and the result are those of `Activate`, and a coherent store stays coherent |
| `ProfileController.RegisterResponse` | finguardian/src/main/java/in/moneymanager/finguardian/controller/ProfileController.java:20-28 | CREATED with the profile exactly when registration succeeded, otherwise BAD_REQUEST with the exception's message |
| `ProfileController.ActivateResponse` | finguardian/src/main/java/in/moneymanager/finguardian/controller/ProfileController.java:30-38 | OK with "Profile activated successfully!" exactly when activation succeeded, otherwise NOT_FOUND with "Invalid or expired activation token" |
| `ProfileController.Login` | finguardian/src/main/java/in/moneymanager/finguardian/controller/ProfileController.java:39-54 | FORBIDDEN with the activate-first message exactly when the account is not active, including an unknown email; OK exactly when it is active and the credentials are accepted, with the token and profile; otherwise BAD_REQUEST with "Invalid email or password"; no other status |
| `ProfileController.LoginInactiveIgnoresCredentials` | finguardian/src/main/java/in/moneymanager/finguardian/controller/ProfileController.java:42-46 | for an inactive or unknown account the login response is the same whatever the authentication manager and token utility do |
| `ProfileController.RegisterEndpoint` | finguardian/src/main/java/in/moneymanager/finguardian/controller/ProfileController.java:21-27 | end to end: a duplicate is BAD_REQUEST "Email already registered" with the store unchanged; CREATED carries an inactive, password-free profile of a stored account; a failed mail is BAD_REQUEST "Email sending failed" with the account stored and pending |
| `Lifecycle.StepKeepsActivationConsistent` | finguardian/src/main/java/in/moneymanager/finguardian/service/ProfileService.java:45-46 | one registration or activation keeps "active exactly when no token is pending" |
| `Lifecycle.ReplayKeepsActivationConsistent` | finguardian/src/main/java/in/moneymanager/finguardian/service/ProfileService.java:69-70 | any sequence of registrations and activations keeps "active exactly when no token is pending" |
| `Lifecycle.ReachableActivationConsistent` | finguardian/src/main/java/in/moneymanager/finguardian/service/ProfileService.java:44-74 | every store reachable from the empty repository satisfies isActive exactly when activationToken is null |
| `Lifecycle.StepKeepsValid` | finguardian/src/main/java/in/moneymanager/finguardian/service/ProfileService.java:50 | one registration with an unused token, or one activation, keeps the store coherent |
| `Lifecycle.ReplayKeepsValid` | finguardian/src/main/java/in/moneymanager/finguardian/service/ProfileService.java:72 | a sequence whose registrations draw unused tokens keeps the store coherent |
| `Lifecycle.ReachableValid` | finguardian/src/main/java/in/moneymanager/finguardian/service/ProfileService.java:40-50 | with unused tokens, every reachable store has one account per email, distinct ids and a token index that matches the accounts |
| `Lifecycle.RegisterThenActivate` | finguardian/src/main/java/in/moneymanager/finguardian/service/ProfileService.java:44-75 | after registering, the account is inactive and login is FORBIDDEN, whether or not the mail went out; its token then activates it, other accounts are untouched, and the same token fails afterwards |

## Left out

- Mail transport, console logging and the sender address of `EmailService` are left out; a send is a yes/no outcome of `Notifier`.
- Password hashing, the authentication manager's user lookup and password matching, and JWT signing and expiry are left out; they are foreign calls without visible source.
- Concurrency is left out. Two racing registrations for one email are not modelled; the code has only a check before the save, and no store constraint is visible.
- `findByActivationToken` is not declared in `ProfileRepository.java:11`. It is modelled as a lookup through a token index.
- JPA `save` matches by id; the model keys accounts by email. The service only ever saves a new email or the account it just read, and there these agree.
- Entities are values: a setter is a field update on a copy. The aliasing of JPA-managed entities is not modelled.
- `Register`: one `now` stands for the clock. The Java reads the clock separately for `createdAt` and `updatedAt` (lines 47-48, and in `toEntity`), so the two may differ by nanoseconds.
- Random-UUID uniqueness is not assumed. Register keeps the store coherent only if no account already holds the new token, and the lemmas state this as a hypothesis.
- Null `email` and `fullName` in the register body, and null fields in the login body, are not modelled. A null password is covered, as a failure of the encoder.
- `AuthenticateAndGenerateToken`: does not model an exception thrown by `JwtUtil.generateToken`. The token utility is total here; a throw there would also read "Invalid email or password".
- The `app.activation.url` configuration property is a constructor argument of `ProfileService`.
- JSON serialisation of the response bodies and the Spring routing annotations are not modelled.
