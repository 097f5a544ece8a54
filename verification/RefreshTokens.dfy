/** Refresh-token rotation with reuse detection. Requests are serial; a token
    string is a fresh identifier, and later tokens have larger ones. A request may
    be for some tenant, to which the query hook then confines every lookup of an
    admin; tokens are looked up without it. */
module RefreshTokens {
  import opened Wrappers

  type Id = nat

  const LIFETIME := 7 * 24 * 60 * 60 * 1000

  datatype Token = Token(admin: Id, expiresAt: int, revokedAt: Option<int>, replacedBy: Option<Id>)

  datatype Admin = Admin(active: bool, tenant: Option<Id>)

  /** The stored tokens, and the admins that still exist. */
  datatype Store = Store(now: int, next: Id, docs: map<Id, Token>, admins: map<Id, Admin>)

  datatype Outcome =
    | NoSuchToken
    | ReuseDetected
    | TokenExpired
    | AdminGone
    | ServerError
    | BadRequest
    | WrongPassword
    | Issued(token: Id)
    | Done

  // ------------------------------------------------------------- the requests

  function Created(s: Store, admin: Id): Store {
    s.(next := s.next + 1, docs := s.docs[s.next := Token(admin, s.now + LIFETIME, None, None)])
  }

  function Revoked(s: Store, token: Id, replacedBy: Option<Id>): Store
    requires token in s.docs
  {
    var t := s.docs[token];
    s.(docs := s.docs[token := t.(revokedAt := Some(s.now),
                                  replacedBy := if replacedBy.Some? then replacedBy else t.replacedBy)])
  }

  function AllRevoked(s: Store, admin: Id): Store {
    s.(docs := map t | t in s.docs ::
         if s.docs[t].admin == admin && s.docs[t].revokedAt.None? then s.docs[t].(revokedAt := Some(s.now))
         else s.docs[t])
  }

  /** A hooked lookup of the admin, in this context, finds it. */
  predicate Found(s: Store, admin: Id, context: Option<Id>) {
    admin in s.admins && (context.None? || s.admins[admin].tenant == context)
  }

  function Login(s: Store, admin: Id): (Store, Outcome) {
    if admin !in s.admins || !s.admins[admin].active then (s, AdminGone) else (Created(s, admin), Issued(s.next))
  }

  function Refresh(s: Store, token: Id, context: Option<Id>): (Store, Outcome) {
    if token !in s.docs then (s, NoSuchToken)
    else
      var t := s.docs[token];
      if t.revokedAt.Some? then
        // the owner is looked up with the token, and may not be found
        if Found(s, t.admin, context) then (AllRevoked(s, t.admin), ReuseDetected) else (s, ServerError)
      else if s.now >= t.expiresAt then (s, TokenExpired)
      else if !Found(s, t.admin, context) || !s.admins[t.admin].active then (Revoked(s, token, None), AdminGone)
      else (Revoked(Created(s, t.admin), token, Some(s.next)), Issued(s.next))
  }

  function Logout(s: Store, token: Id): (Store, Outcome) {
    if token in s.docs && s.docs[token].revokedAt.None? then (Revoked(s, token, None), Done) else (s, Done)
  }

  /** What a request to change the password carries: whether both passwords are
      there, the new one's length, and whether the current one is right. */
  datatype Passwords = Passwords(bothGiven: bool, newLength: nat, currentIsRight: bool)

  function ChangePassword(s: Store, admin: Id, passwords: Passwords, context: Option<Id>): (Store, Outcome) {
    if !Found(s, admin, context) then (s, AdminGone)
    else if !passwords.bothGiven || passwords.newLength < 8 then (s, BadRequest)
    else if !passwords.currentIsRight then (s, WrongPassword)
    else (Created(AllRevoked(s, admin), admin), Issued(s.next))
  }

  datatype Action =
    | Tick(elapsed: nat)
    | LoginAs(admin: Id)
    | RefreshWith(token: Id, context: Option<Id>)
    | LogoutWith(token: Id)
    | PasswordChange(admin: Id, passwords: Passwords, context: Option<Id>)
    | SetAdmin(admin: Id, doc: Admin)
    | RemoveAdmin(admin: Id)
    | Expire(token: Id)

  function Next(s: Store, a: Action): Store {
    match a
    case Tick(elapsed) => s.(now := s.now + elapsed)
    case LoginAs(admin) => Login(s, admin).0
    case RefreshWith(token, context) => Refresh(s, token, context).0
    case LogoutWith(token) => Logout(s, token).0
    case PasswordChange(admin, passwords, context) => ChangePassword(s, admin, passwords, context).0
    case SetAdmin(admin, doc) => s.(admins := s.admins[admin := doc])
    case RemoveAdmin(admin) => s.(admins := s.admins - {admin})
    case Expire(token) =>
      if token in s.docs && s.docs[token].expiresAt <= s.now then s.(docs := s.docs - {token}) else s
  }

  /** The login each token ever issued descends from: a rotation stays in its
      token's family, every other issue founds one. */
  function NextFamilies(s: Store, families: map<Id, Id>, a: Action): map<Id, Id> {
    match a
    case LoginAs(admin) => if Login(s, admin).1.Issued? then families[s.next := s.next] else families
    case RefreshWith(token, context) =>
      if Refresh(s, token, context).1.Issued? && token in families then families[s.next := families[token]]
      else families
    case PasswordChange(admin, passwords, context) =>
      if ChangePassword(s, admin, passwords, context).1.Issued? then families[s.next := s.next] else families
    case _ => families
  }

  function Exec(s: Store, actions: seq<Action>): Store
    decreases |actions|
  {
    if actions == [] then s else Exec(Next(s, actions[0]), actions[1..])
  }

  function Families(s: Store, families: map<Id, Id>, actions: seq<Action>): map<Id, Id>
    decreases |actions|
  {
    if actions == [] then families
    else Families(Next(s, actions[0]), NextFamilies(s, families, actions[0]), actions[1..])
  }

  function Init(admins: map<Id, Admin>, now: int): Store {
    Store(now, 0, map[], admins)
  }

  // ---------------------------------------------------------- the invariant

  ghost predicate LinkStays(s: Store, families: map<Id, Id>, t: Id)
    requires t in s.docs
  {
    var next := s.docs[t].replacedBy;
    next.Some? ==> t < next.value && next.value in families && t in families && families[next.value] == families[t]
  }

  ghost predicate AtMostOneOpen(s: Store, families: map<Id, Id>, t: Id, u: Id)
    requires t in s.docs && u in s.docs
  {
    t != u && t in families && u in families && families[t] == families[u] ==>
      s.docs[t].revokedAt.Some? || s.docs[u].revokedAt.Some?
  }

  ghost predicate Inv(s: Store, families: map<Id, Id>) {
    && s.docs.Keys <= families.Keys
    && (forall t :: t in families ==> t < s.next && families[t] < s.next)
    && (forall t :: t in s.docs ==> LinkStays(s, families, t))
    && (forall t, u :: t in s.docs && u in s.docs ==> AtMostOneOpen(s, families, t, u))
  }

  lemma AllRevokedKeepsInv(s: Store, families: map<Id, Id>, admin: Id)
    requires Inv(s, families)
    ensures Inv(AllRevoked(s, admin), families)
  {
  }

  lemma RevokedKeepsInv(s: Store, families: map<Id, Id>, token: Id)
    requires Inv(s, families) && token in s.docs
    ensures Inv(Revoked(s, token, None), families)
  {
  }

  lemma CreatedKeepsInv(s: Store, families: map<Id, Id>, admin: Id)
    requires Inv(s, families)
    ensures Inv(Created(s, admin), families[s.next := s.next])
  {
  }

  lemma RotationKeepsInv(s: Store, families: map<Id, Id>, token: Id)
    requires Inv(s, families) && token in s.docs && s.docs[token].revokedAt.None?
    ensures Inv(Revoked(Created(s, s.docs[token].admin), token, Some(s.next)), families[s.next := families[token]])
  {
    var after := Revoked(Created(s, s.docs[token].admin), token, Some(s.next));
    var f := families[s.next := families[token]];
    forall t | t in after.docs ensures LinkStays(after, f, t) {
      if t != s.next {
        assert LinkStays(s, families, t);
      }
    }
    forall t, u | t in after.docs && u in after.docs ensures AtMostOneOpen(after, f, t, u) {
      if t != s.next && u != s.next {
        assert AtMostOneOpen(s, families, t, u);
      } else if t != u {
        var other := if t == s.next then u else t;
        assert AtMostOneOpen(s, families, other, token);
      }
    }
  }

  lemma StepKeepsInv(s: Store, families: map<Id, Id>, a: Action)
    requires Inv(s, families)
    ensures Inv(Next(s, a), NextFamilies(s, families, a))
  {
    match a
    case LoginAs(admin) => CreatedKeepsInv(s, families, admin);
    case RefreshWith(token, _) =>
      if token in s.docs {
        if s.docs[token].revokedAt.None? {
          RotationKeepsInv(s, families, token);
          RevokedKeepsInv(s, families, token);
        } else {
          AllRevokedKeepsInv(s, families, s.docs[token].admin);
        }
      }
    case LogoutWith(token) =>
      if token in s.docs {
        RevokedKeepsInv(s, families, token);
      }
    case PasswordChange(admin, _, _) =>
      AllRevokedKeepsInv(s, families, admin);
      CreatedKeepsInv(AllRevoked(s, admin), families, admin);
    case _ => QuietStepKeepsInv(s, families, a);
  }

  lemma QuietStepKeepsInv(s: Store, families: map<Id, Id>, a: Action)
    requires Inv(s, families) && (a.Tick? || a.SetAdmin? || a.RemoveAdmin? || a.Expire?)
    ensures Inv(Next(s, a), families)
  {
    var after := Next(s, a);
    forall t | t in after.docs ensures LinkStays(after, families, t) {
      assert LinkStays(s, families, t);
    }
    forall t, u | t in after.docs && u in after.docs ensures AtMostOneOpen(after, families, t, u) {
      assert AtMostOneOpen(s, families, t, u);
    }
  }

  lemma {:induction false} ExecKeepsInv(s: Store, families: map<Id, Id>, actions: seq<Action>)
    requires Inv(s, families)
    ensures Inv(Exec(s, actions), Families(s, families, actions))
    decreases |actions|
  {
    if actions != [] {
      StepKeepsInv(s, families, actions[0]);
      ExecKeepsInv(Next(s, actions[0]), NextFamilies(s, families, actions[0]), actions[1..]);
    }
  }

  /** The tokens reached by following n replacement links. */
  ghost predicate Leads(s: Store, t: Id, u: Id, n: nat)
    decreases n
  {
    if n == 0 then t == u
    else t in s.docs && s.docs[t].replacedBy.Some? && Leads(s, s.docs[t].replacedBy.value, u, n - 1)
  }

  lemma {:induction false} LinksClimbWithinTheFamily(s: Store, families: map<Id, Id>, t: Id, u: Id, n: nat)
    requires Inv(s, families) && Leads(s, t, u, n) && n > 0
    ensures t < u && t in families && u in families && families[t] == families[u]
    decreases n
  {
    assert LinkStays(s, families, t);
    if n > 1 {
      LinksClimbWithinTheFamily(s, families, s.docs[t].replacedBy.value, u, n - 1);
    }
  }

  /** Over every run: each family has at most one unrevoked token, and following
      replacement links never leaves the family nor returns to its start. */
  lemma FamiliesAreSafe(admins: map<Id, Admin>, now: int, actions: seq<Action>)
    ensures var s := Exec(Init(admins, now), actions);
            var families := Families(Init(admins, now), map[], actions);
            && s.docs.Keys <= families.Keys
            && (forall t, u :: t in s.docs && u in s.docs && t != u && families[t] == families[u] ==>
                  s.docs[t].revokedAt.Some? || s.docs[u].revokedAt.Some?)
            && (forall t, u, n: nat :: n > 0 && Leads(s, t, u, n) ==>
                  t != u && t in families && u in families && families[t] == families[u])
  {
    ExecKeepsInv(Init(admins, now), map[], actions);
    var s := Exec(Init(admins, now), actions);
    var families := Families(Init(admins, now), map[], actions);
    forall t, u | t in s.docs && u in s.docs && t != u && families[t] == families[u]
      ensures s.docs[t].revokedAt.Some? || s.docs[u].revokedAt.Some?
    {
      assert AtMostOneOpen(s, families, t, u);
    }
    forall t, u, n: nat | n > 0 && Leads(s, t, u, n)
      ensures t != u && t in families && u in families && families[t] == families[u]
    {
      LinksClimbWithinTheFamily(s, families, t, u, n);
    }
  }

  // ---------------------------------------------------------- reuse detection

  /** Every stored token of the admin older than `bound` is revoked. */
  ghost predicate OldOnesRevoked(s: Store, admin: Id, bound: Id) {
    forall t :: t in s.docs && t < bound && s.docs[t].admin == admin ==> s.docs[t].revokedAt.Some?
  }

  /** Presenting a stored revoked token revokes every token of its admin exactly
      when the admin exists and is found in the request's context, or they were all
      revoked already. */
  lemma ReuseRevokesEverything(s: Store, families: map<Id, Id>, token: Id, context: Option<Id>)
    requires Inv(s, families) && token in s.docs && s.docs[token].revokedAt.Some?
    ensures var (after, outcome) := Refresh(s, token, context);
            var admin := s.docs[token].admin;
            && (outcome == ReuseDetected <==> Found(s, admin, context))
            && (OldOnesRevoked(after, admin, after.next) <==>
                  Found(s, admin, context) || OldOnesRevoked(s, admin, s.next))
  {
  }

  /** An active admin's revoked token, presented in a context the admin is not
      found in, revokes nothing: another of its tokens stays open. */
  lemma ReuseElsewhereGoesUndetected(tenant: Option<Id>, elsewhere: Id, now: int)
    requires tenant != Some(elsewhere)
    ensures var s := Exec(Init(map[0 := Admin(true, tenant)], now), [LoginAs(0), LoginAs(0), LogoutWith(0)]);
            && s.docs[0].revokedAt.Some? && s.docs[1].revokedAt.None?
            && Refresh(s, 0, Some(elsewhere)) == (s, ServerError)
  {
  }

  lemma {:induction false} RevokedStaysRevoked(s: Store, admin: Id, bound: Id, actions: seq<Action>)
    requires bound <= s.next && OldOnesRevoked(s, admin, bound)
    ensures var e := Exec(s, actions); bound <= e.next && OldOnesRevoked(e, admin, bound)
    decreases |actions|
  {
    if actions != [] {
      RevokedStaysRevoked(Next(s, actions[0]), admin, bound, actions[1..]);
    }
  }

  /** After a reuse is detected, no token the admin had by then ever refreshes
      again, whatever happens next and in whatever context. */
  lemma NoEarlierTokenRefreshesAgain(admins: map<Id, Admin>, now: int, before: seq<Action>, reuse: Action,
                                     after: seq<Action>, earlier: Id, context: Option<Id>)
    requires var s := Exec(Init(admins, now), before);
             reuse.RefreshWith? && Refresh(s, reuse.token, reuse.context).1 == ReuseDetected
    requires var s := Exec(Init(admins, now), before);
             earlier in s.docs && s.docs[earlier].admin == s.docs[reuse.token].admin
    ensures var s := Exec(Init(admins, now), before);
            !Refresh(Exec(Next(s, reuse), after), earlier, context).1.Issued?
  {
    ExecKeepsInv(Init(admins, now), map[], before);
    var s := Exec(Init(admins, now), before);
    var families := Families(Init(admins, now), map[], before);
    ReuseRevokesEverything(s, families, reuse.token, reuse.context);
    var start := Next(s, reuse);
    RevokedStaysRevoked(start, s.docs[reuse.token].admin, start.next, after);
    OwnerStays(start, earlier, after);
  }

  lemma {:induction false} OwnerStays(s: Store, token: Id, actions: seq<Action>)
    requires token < s.next
    ensures var e := Exec(s, actions);
            token in e.docs ==> token in s.docs && e.docs[token].admin == s.docs[token].admin
    decreases |actions|
  {
    if actions != [] {
      OwnerStays(Next(s, actions[0]), token, actions[1..]);
    }
  }

  // --------------------------------------------- what a request does, in fields

  /** The token is stored, unrevoked and unexpired. */
  predicate Open(s: Store, token: Id) {
    token in s.docs && s.docs[token].revokedAt.None? && s.now < s.docs[token].expiresAt
  }

  /** A refresh issues a token exactly for an open one whose admin exists, is active,
      and is of the request's tenant if it is for one. */
  lemma RefreshIssuesExactlyWhen(s: Store, token: Id, context: Option<Id>)
    ensures Refresh(s, token, context).1.Issued? <==>
              && Open(s, token)
              && var admin := s.docs[token].admin;
                 admin in s.admins && s.admins[admin].active && (context.None? || s.admins[admin].tenant == context)
  {
  }

  /** An open token that is not refreshed is used up: it ends revoked, and nothing
      else changes. Any other refused token changes nothing unless it is reuse. */
  lemma RefusedRefreshInFields(s: Store, token: Id, context: Option<Id>)
    requires !Refresh(s, token, context).1.Issued?
    ensures var (after, outcome) := Refresh(s, token, context);
            if Open(s, token)
            then outcome == AdminGone && after == s.(docs := s.docs[token := s.docs[token].(revokedAt := Some(s.now))])
            else after == s || outcome == ReuseDetected
    ensures Refresh(s, token, context).1 == ReuseDetected ==>
              var after, admin := Refresh(s, token, context).0, s.docs[token].admin;
              && after == s.(docs := after.docs) && after.docs.Keys == s.docs.Keys
              && (forall t :: t in s.docs ==>
                    after.docs[t] == if s.docs[t].admin == admin && s.docs[t].revokedAt.None?
                                     then s.docs[t].(revokedAt := Some(s.now)) else s.docs[t])
  {
  }

  /** Why a token is refused: unknown, reused, expired, or without a usable admin. */
  lemma RefusalInFields(s: Store, token: Id, context: Option<Id>)
    ensures var outcome := Refresh(s, token, context).1;
            && (outcome == NoSuchToken <==> token !in s.docs)
            && (token in s.docs && s.docs[token].revokedAt.Some? <==> outcome in {ReuseDetected, ServerError})
            && (outcome == TokenExpired <==>
                  token in s.docs && s.docs[token].revokedAt.None? && s.docs[token].expiresAt <= s.now)
  {
  }

  /** Logging in issues a week's token exactly to an active admin; logging out stamps
      the presented token if it is stored and unrevoked. */
  lemma LoginAndLogoutInFields(s: Store, admin: Id, token: Id)
    ensures Login(s, admin) ==
              if admin in s.admins && s.admins[admin].active
              then (s.(next := s.next + 1, docs := s.docs[s.next := Token(admin, s.now + 604800000, None, None)]),
                    Issued(s.next))
              else (s, AdminGone)
    ensures Logout(s, token).0 ==
              if token in s.docs && s.docs[token].revokedAt.None?
              then s.(docs := s.docs[token := s.docs[token].(revokedAt := Some(s.now))]) else s
  {
  }

  /** A password is changed exactly for an admin found in the context, with both
      passwords given, the new one of eight characters or more and the current one
      right; otherwise nothing changes. */
  lemma PasswordChangesExactlyWhen(s: Store, admin: Id, passwords: Passwords, context: Option<Id>)
    ensures var (after, outcome) := ChangePassword(s, admin, passwords, context);
            var found := admin in s.admins && (context.None? || s.admins[admin].tenant == context);
            && (outcome.Issued? <==>
                  found && passwords.bothGiven && 8 <= passwords.newLength && passwords.currentIsRight)
            && (outcome == AdminGone <==> !found)
            && (outcome == WrongPassword <==>
                  found && passwords.bothGiven && 8 <= passwords.newLength && !passwords.currentIsRight)
            && (!outcome.Issued? ==> after == s)
  {
  }

  /** Time only moves the clock, administration only the admins, and the index
      deletes exactly tokens that have expired. */
  lemma OtherActionsInFields(s: Store, elapsed: nat, admin: Id, doc: Admin, token: Id)
    ensures Next(s, Tick(elapsed)) == s.(now := s.now + elapsed)
    ensures Next(s, SetAdmin(admin, doc)) == s.(admins := s.admins[admin := doc])
    ensures Next(s, RemoveAdmin(admin)) == s.(admins := s.admins - {admin})
    ensures Next(s, Expire(token)) ==
              if token in s.docs && s.now >= s.docs[token].expiresAt then s.(docs := s.docs - {token}) else s
  {
  }

  // ------------------------------------------------------ what a request leaves

  /** A rotation hands out one new token and uses the old one up. In any context
      that finds the admin the new one refreshes until it expires and presenting
      the old one again is reuse; in any other neither is. No other token changes. */
  lemma RotationReplacesTheToken(admins: map<Id, Admin>, now: int, actions: seq<Action>, token: Id,
                                 context: Option<Id>, elapsed: nat, next: Option<Id>)
    requires Refresh(Exec(Init(admins, now), actions), token, context).1.Issued?
    ensures var s := Exec(Init(admins, now), actions);
            var (after, outcome) := Refresh(s, token, context);
            var issued, later, admin := outcome.token, after.(now := s.now + elapsed), s.docs[token].admin;
            && issued !in s.docs && after.docs.Keys == s.docs.Keys + {issued}
            && after.docs[token].replacedBy == Some(issued)
            && after.docs[issued].admin == admin
            && (forall t :: t in s.docs && t != token ==> after.docs[t] == s.docs[t])
            && (Refresh(later, token, next).1 == ReuseDetected <==> Found(s, admin, next))
            && (Refresh(later, issued, next).1.Issued? <==> elapsed < 604800000 && Found(s, admin, next))
  {
    ExecKeepsInv(Init(admins, now), map[], actions);
    var s := Exec(Init(admins, now), actions);
    assert s.next !in s.docs;
  }

  /** After a password change the admin has exactly one usable token, the new
      one, and other admins' tokens are as they were. */
  lemma PasswordChangeLeavesOne(admins: map<Id, Admin>, now: int, actions: seq<Action>, admin: Id,
                                passwords: Passwords, context: Option<Id>)
    requires ChangePassword(Exec(Init(admins, now), actions), admin, passwords, context).1.Issued?
    ensures var s := Exec(Init(admins, now), actions);
            var (after, outcome) := ChangePassword(s, admin, passwords, context);
            && outcome.token in after.docs && after.docs[outcome.token].admin == admin
            && (forall t :: t in after.docs && after.docs[t].admin == admin ==>
                  (after.docs[t].revokedAt.None? <==> t == outcome.token))
            && (forall t :: t in s.docs && s.docs[t].admin != admin ==> t in after.docs && after.docs[t] == s.docs[t])
  {
    ExecKeepsInv(Init(admins, now), map[], actions);
    var s := Exec(Init(admins, now), actions);
    assert s.next !in s.docs;
  }

  // --------------------------------------------------- the stored collection

  /** The collection, as the routes and the model's statics update it. */
  class TokenCollection {
    var now: int
    var next: Id
    var docs: map<Id, Token>
    var admins: map<Id, Admin>

    function View(): Store
      reads this
    {
      Store(now, next, docs, admins)
    }

    constructor (s: Store)
      ensures View() == s
    {
      now, next, docs, admins := s.now, s.next, s.docs, s.admins;
    }

    method CreateForAdmin(admin: Id) returns (token: Id)
      modifies this`next, this`docs
      ensures token == old(next) && View() == Created(old(View()), admin)
    {
      token := next;
      docs := docs[token := Token(admin, now + LIFETIME, None, None)];
      next := next + 1;
    }

    method Revoke(token: Id, replacedByToken: Option<Id>)
      requires token in docs
      modifies this`docs
      ensures View() == Revoked(old(View()), token, replacedByToken)
    {
      var doc := docs[token].(revokedAt := Some(now));
      if replacedByToken.Some? {
        doc := doc.(replacedBy := replacedByToken);
      }
      docs := docs[token := doc];
    }

    method RevokeAllForAdmin(admin: Id)
      modifies this`docs
      ensures View() == AllRevoked(old(View()), admin)
    {
      docs := map t | t in docs ::
                if docs[t].admin == admin && docs[t].revokedAt.None? then docs[t].(revokedAt := Some(now)) else docs[t];
    }

    method PostRefresh(token: Id, context: Option<Id>) returns (outcome: Outcome)
      modifies this`next, this`docs
      ensures (View(), outcome) == Refresh(old(View()), token, context)
    {
      if token !in docs {
        return NoSuchToken;
      }
      var doc := docs[token];
      if doc.revokedAt.Some? {
        if !Found(View(), doc.admin, context) {
          return ServerError;
        }
        RevokeAllForAdmin(doc.admin);
        return ReuseDetected;
      }
      if now >= doc.expiresAt {
        return TokenExpired;
      }
      if !Found(View(), doc.admin, context) || !admins[doc.admin].active {
        Revoke(token, None);
        return AdminGone;
      }
      var issued := CreateForAdmin(doc.admin);
      Revoke(token, Some(issued));
      outcome := Issued(issued);
    }

    method PostLogout(token: Id) returns (outcome: Outcome)
      modifies this`docs
      ensures (View(), outcome) == Logout(old(View()), token)
    {
      if token in docs && docs[token].revokedAt.None? {
        Revoke(token, None);
      }
      outcome := Done;
    }

    method PatchPassword(admin: Id, passwords: Passwords, context: Option<Id>) returns (outcome: Outcome)
      modifies this`next, this`docs
      ensures (View(), outcome) == ChangePassword(old(View()), admin, passwords, context)
    {
      if !Found(View(), admin, context) {
        return AdminGone;
      }
      if !passwords.bothGiven {
        return BadRequest;
      }
      if passwords.newLength < 8 {
        return BadRequest;
      }
      if !passwords.currentIsRight {
        return WrongPassword;
      }
      RevokeAllForAdmin(admin);
      var issued := CreateForAdmin(admin);
      outcome := Issued(issued);
    }
  }
}
