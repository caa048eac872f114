/**
 * The profile repository (`ProfileRepository`) as a value: accounts keyed by email, so that
 * one account per email is structural, plus the index behind `findByActivationToken`.
 */
module ProfileStore {
  import opened Common
  import opened ProfileModel

  datatype Store = Store(
    accounts: map<string, ProfileEntity>,   // email -> account
    tokenIndex: map<string, string>,        // activation token -> email of the account holding it
    nextId: nat)                            // the id the next first save assigns

  /** The repository before any account is saved. */
  const Empty := Store(map[], map[], 1)

  /** The store is coherent: keys are the accounts' emails, ids are assigned and distinct, and the
      token index is exactly the accounts' pending activation tokens. */
  ghost predicate Valid(s: Store)
  {
    && (forall e :: e in s.accounts ==> s.accounts[e].email == e)
    && (forall e :: e in s.accounts ==> s.accounts[e].id.Some? && s.accounts[e].id.value < s.nextId)
    && (forall a, b :: a in s.accounts && b in s.accounts && a != b ==> s.accounts[a].id != s.accounts[b].id)
    && (forall t :: t in s.tokenIndex ==>
          s.tokenIndex[t] in s.accounts && s.accounts[s.tokenIndex[t]].activationToken == Some(t))
    && (forall e :: e in s.accounts && s.accounts[e].activationToken.Some? ==>
          s.accounts[e].activationToken.value in s.tokenIndex &&
          s.tokenIndex[s.accounts[e].activationToken.value] == e)
  }

  /** No stored account holds activation token `t`. */
  ghost predicate TokenUnused(s: Store, t: string)
  {
    forall e :: e in s.accounts ==> s.accounts[e].activationToken != Some(t)
  }

  lemma EmptyValid()
    ensures Valid(Empty)
  {
  }

  /** `findByEmail`: exact, case-sensitive match on the stored email. */
  function FindByEmail(s: Store, email: string): (r: Option<ProfileEntity>)
    ensures r.Some? <==> email in s.accounts
    ensures r.Some? ==> r.value == s.accounts[email]
    ensures Valid(s) && r.Some? ==> r.value.email == email
  {
    if email in s.accounts then Some(s.accounts[email]) else None
  }

  /** `findByActivationToken`: the account whose pending activation token is `token`, if any. */
  function FindByActivationToken(s: Store, token: string): (r: Option<ProfileEntity>)
    ensures r.Some? ==> r.value.activationToken == Some(token)
    ensures Valid(s) ==> (r.None? <==> TokenUnused(s, token))
    ensures Valid(s) && r.Some? ==> r.value.email in s.accounts && s.accounts[r.value.email] == r.value
  {
    if token in s.tokenIndex && s.tokenIndex[token] in s.accounts
       && s.accounts[s.tokenIndex[token]].activationToken == Some(token)
    then Some(s.accounts[s.tokenIndex[token]])
    else None
  }

  /** `save`: insert or update by email. A first save (no id yet) assigns the next id; the token
      index follows the saved account's activation token. Returns the new store and what was saved. */
  function Save(s: Store, p: ProfileEntity): (r: (Store, ProfileEntity))
    ensures r.1 == p.(id := r.1.id)
    ensures r.1.id == if p.id.None? then Some(s.nextId) else p.id
    ensures r.0.accounts == s.accounts[p.email := r.1]
    ensures r.0.nextId >= s.nextId
  {
    var saved := if p.id.None? then p.(id := Some(s.nextId)) else p;
    var next := if p.id.None? then s.nextId + 1 else s.nextId;
    var others := map t | t in s.tokenIndex && s.tokenIndex[t] != p.email :: s.tokenIndex[t];
    var index := if p.activationToken.Some? then others[p.activationToken.value := p.email] else others;
    (Store(s.accounts[p.email := saved], index, next), saved)
  }

  /** What a save must respect to keep the store coherent: an entity that already has an id is the
      stored account for its email, and its activation token is not held by another account. */
  ghost predicate SaveFits(s: Store, p: ProfileEntity)
  {
    && (p.id.Some? ==> p.email in s.accounts && s.accounts[p.email].id == p.id)
    && (p.activationToken.Some? ==>
          forall e :: e in s.accounts && e != p.email ==> s.accounts[e].activationToken != p.activationToken)
  }

  lemma SavePreservesValid(s: Store, p: ProfileEntity)
    requires Valid(s) && SaveFits(s, p)
    ensures Valid(Save(s, p).0)
  {
  }
}
