/**
 * The account lifecycle: any sequence of registrations and activations, replayed from the empty
 * repository, and what holds of every store reached that way.
 */
module Lifecycle {
  import opened ProfileModel
  import opened ProfileStore
  import opened Profiles
  import opened ProfileController

  /** One call into the service that can change the repository, with its environment inputs. */
  datatype Event =
    | RegisterEvent(dto: ProfileDTO, uuid: string, now: Time, send: Notifier)
    | ActivateEvent(token: string, now: Time)

  function Step(s: Store, activationUrl: string, encode: Encoder, ev: Event): (s': Store)
  {
    match ev
    case RegisterEvent(dto, uuid, now, send) => Register(s, dto, uuid, now, activationUrl, encode, send).0
    case ActivateEvent(token, now) => Activate(s, token, now).0
  }

  function Replay(s: Store, activationUrl: string, encode: Encoder, evs: seq<Event>): (s': Store)
    decreases |evs|
  {
    if evs == [] then s else Replay(Step(s, activationUrl, encode, evs[0]), activationUrl, encode, evs[1..])
  }

  /** An account is active exactly when it holds no pending activation token. */
  ghost predicate ActivationConsistent(s: Store)
  {
    forall e :: e in s.accounts ==> (s.accounts[e].isActive <==> s.accounts[e].activationToken.None?)
  }

  /** Every registration in `evs` draws an activation token no account holds at that point. */
  ghost predicate FreshTokens(s: Store, activationUrl: string, encode: Encoder, evs: seq<Event>)
    decreases |evs|
  {
    evs == [] ||
    ((evs[0].RegisterEvent? ==> TokenUnused(s, evs[0].uuid)) &&
     FreshTokens(Step(s, activationUrl, encode, evs[0]), activationUrl, encode, evs[1..]))
  }

  lemma StepKeepsActivationConsistent(s: Store, activationUrl: string, encode: Encoder, ev: Event)
    requires ActivationConsistent(s)
    ensures ActivationConsistent(Step(s, activationUrl, encode, ev))
  {
  }

  lemma {:induction false} ReplayKeepsActivationConsistent(s: Store, activationUrl: string, encode: Encoder, evs: seq<Event>)
    requires ActivationConsistent(s)
    ensures ActivationConsistent(Replay(s, activationUrl, encode, evs))
    decreases |evs|
  {
    if evs != [] {
      StepKeepsActivationConsistent(s, activationUrl, encode, evs[0]);
      ReplayKeepsActivationConsistent(Step(s, activationUrl, encode, evs[0]), activationUrl, encode, evs[1..]);
    }
  }

  /** Every store reachable by registrations and activations satisfies isActive <==> token is null. */
  lemma ReachableActivationConsistent(activationUrl: string, encode: Encoder, evs: seq<Event>)
    ensures ActivationConsistent(Replay(Empty, activationUrl, encode, evs))
  {
    ReplayKeepsActivationConsistent(Empty, activationUrl, encode, evs);
  }

  lemma StepKeepsValid(s: Store, activationUrl: string, encode: Encoder, ev: Event)
    requires Valid(s) && (ev.RegisterEvent? ==> TokenUnused(s, ev.uuid))
    ensures Valid(Step(s, activationUrl, encode, ev))
  {
    match ev
    case RegisterEvent(dto, uuid, now, send) =>
      RegisterPreservesValid(s, dto, uuid, now, activationUrl, encode, send);
    case ActivateEvent(token, now) =>
      ActivatePreservesValid(s, token, now);
  }

  lemma {:induction false} ReplayKeepsValid(s: Store, activationUrl: string, encode: Encoder, evs: seq<Event>)
    requires Valid(s) && FreshTokens(s, activationUrl, encode, evs)
    ensures Valid(Replay(s, activationUrl, encode, evs))
    decreases |evs|
  {
    if evs != [] {
      StepKeepsValid(s, activationUrl, encode, evs[0]);
      ReplayKeepsValid(Step(s, activationUrl, encode, evs[0]), activationUrl, encode, evs[1..]);
    }
  }

  /** With fresh activation tokens, every reachable store is coherent: one account per email,
      distinct ids, and a token index that matches the accounts. */
  lemma ReachableValid(activationUrl: string, encode: Encoder, evs: seq<Event>)
    requires FreshTokens(Empty, activationUrl, encode, evs)
    ensures Valid(Replay(Empty, activationUrl, encode, evs))
  {
    EmptyValid();
    ReplayKeepsValid(Empty, activationUrl, encode, evs);
  }

  /** Register, then activate: the new account is inactive and refused at login until its token is
      used; the token then activates it, and a second use of the same token fails. This holds
      whether or not the activation mail went out. */
  lemma RegisterThenActivate(s: Store, dto: ProfileDTO, uuid: string, t0: Time, t1: Time, t2: Time,
                             activationUrl: string, encode: Encoder, send: Notifier,
                             password: string, authenticate: Authenticator, generateToken: TokenIssuer)
    requires Valid(s) && TokenUnused(s, uuid)
    requires dto.email !in s.accounts && encode(dto.password).Ok?
    ensures var s1 := Register(s, dto, uuid, t0, activationUrl, encode, send).0;
            var (s2, ok) := Activate(s1, uuid, t1);
            && !IsAccountActive(s1, dto.email)
            && Login(s1, AuthDTO(dto.email, password), authenticate, generateToken).status == Forbidden403
            && ok && IsAccountActive(s2, dto.email)
            && (forall e :: e in s.accounts ==> s2.accounts[e] == s.accounts[e])
            && Activate(s2, uuid, t2) == (s2, false)
  {
  }
}
