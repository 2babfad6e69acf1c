/** The authentication routes: signup behind an e-mail domain allow-list and
    a duplicate check, login whose two failures look the same, and bearer
    token verification. The account collection is a map from e-mail to
    account with an index from id to e-mail; token signing and decoding and
    the password comparison are parameters. */
module AuthRoutes {
  import opened Wrappers
  import opened JsStrings

  // ---------------------------------------------------------------------
  // the domain allow-list

  const AllowedDomains: seq<string> := ["gmail.com", "yahoo.com", "outlook.com", "live.com", "hotmail.com", "icloud.com"]

  /** The 400 message naming the allowed domains. */
  const DomainMessage: string := "Only emails from " + Join(AllowedDomains, ", ") + " are allowed"

  /** `email.split('@')[1]?.toLowerCase()`: the second '@'-separated piece,
      lower-cased; absent without an '@'. */
  function EmailDomain(email: string): (d: Option<string>)
    ensures '@' !in email ==> d.None?
    ensures d.Some? ==> '@' !in d.value
  {
    match SplitAt(email, '@', 1)
    case None => None
    case Some(piece) => Some(Lower(piece))
  }

  /** The guard of the signup route: a non-empty domain on the list. */
  predicate DomainAllowed(email: string)
  {
    var d := EmailDomain(email);
    d.Some? && d.value != "" && d.value in AllowedDomains
  }

  /** For an address with one '@', the domain is the text after it, in
      lower case. */
  lemma DomainOfAddress(local: string, domain: string)
    requires '@' !in local && '@' !in domain
    ensures EmailDomain(local + "@" + domain) == Some(Lower(domain))
  {
    assert local + "@" + domain == local + ['@'] + domain;
    SplitAround(local, '@', domain);
  }

  /** The comparison ignores case. */
  lemma UpperCaseDomainAllowed()
    ensures DomainAllowed("Ann@GMAIL.com")
  {
    LowerGmail();
    assert "Ann@GMAIL.com" == "Ann" + "@" + "GMAIL.com";
    DomainOfAddress("Ann", "GMAIL.com");
    assert AllowedDomains[0] == "gmail.com";
  }

  lemma LowerGmail()
    ensures Lower("GMAIL.com") == "gmail.com"
  {
    var lower := Lower("GMAIL.com");
    assert lower[0] == 'g' && lower[1] == 'm' && lower[2] == 'a' && lower[3] == 'i' && lower[4] == 'l';
    assert lower[5] == '.' && lower[6] == 'c' && lower[7] == 'o' && lower[8] == 'm';
  }

  /** With a second '@' the middle piece is taken as the domain, so
      `a@b@gmail.com` is judged by `b`. */
  lemma SecondAtPieceIsDomain(local: string, middle: string, rest: string)
    requires '@' !in local && '@' !in middle
    ensures EmailDomain(local + "@" + middle + "@" + rest) == Some(Lower(middle))
  {
    assert local + "@" + middle + "@" + rest == local + ['@'] + (middle + ['@'] + rest);
    SplitAround(local, '@', middle + ['@'] + rest);
    SplitAround(middle, '@', rest);
  }

  /** No '@', or nothing after it, is rejected. */
  lemma MissingDomainRejected(local: string)
    requires '@' !in local
    ensures !DomainAllowed(local)
    ensures !DomainAllowed(local + "@")
  {
    DomainOfAddress(local, "");
    assert local + "@" + "" == local + "@";
  }

  // ---------------------------------------------------------------------
  // accounts and responses

  /** A stored account; the password is whatever the model layer keeps. */
  datatype Account = Account(id: nat, name: string, email: string, password: string)

  /** What responses carry about a user: never the password. */
  datatype PublicUser = PublicUser(id: nat, name: string, email: string)

  function Public(a: Account): PublicUser
  {
    PublicUser(a.id, a.name, a.email)
  }

  datatype Body =
    | Message(text: string)
    | Authenticated(text: string, token: string, user: PublicUser)
    | Profile(user: PublicUser)

  datatype Response = Response(status: nat, body: Body)

  /** `jwt.sign({userId, email}, secret, {expiresIn: '7d'})`. */
  type Signer = (nat, string) -> string

  /** The claims `jwt.verify` yields for a token it accepts. */
  datatype Claims = Claims(userId: Option<nat>)

  /** The account collection: accounts by e-mail, e-mail by id, and the
      next id to hand out. */
  datatype Store = Store(accounts: map<string, Account>, byId: map<nat, string>, nextId: nat)

  /** Each account is filed under its own e-mail and its own id, and ids
      are below the next one to hand out. */
  predicate Valid(st: Store)
  {
    && (forall e :: e in st.accounts ==>
          st.accounts[e].email == e && st.accounts[e].id < st.nextId &&
          st.accounts[e].id in st.byId && st.byId[st.accounts[e].id] == e)
    && (forall i :: i in st.byId ==> st.byId[i] in st.accounts && st.accounts[st.byId[i]].id == i)
  }

  // ---------------------------------------------------------------------
  // signup

  datatype SignupOutcome = SignupOutcome(response: Response, store: Store)

  const ServerErrorSignup := "Server error during signup"

  /** The signup route as a function of the store before it. `email` is
      absent when the body has none (the `split` then throws and the catch
      answers 500); `lookupSucceeds` says whether the duplicate lookup
      `User.findOne` resolves and `saveSucceeds` whether `user.save()`
      does; a rejection of either is answered 500 by the catch. */
  function SignupStep(st: Store, name: string, email: Option<string>, password: string,
                      lookupSucceeds: bool, saveSucceeds: bool, sign: Signer): (o: SignupOutcome)
    ensures email.None? ==> o == SignupOutcome(Response(500, Message(ServerErrorSignup)), st)
    ensures email.Some? && !DomainAllowed(email.value) ==>
              o == SignupOutcome(Response(400, Message(DomainMessage)), st)
    ensures email.Some? && DomainAllowed(email.value) && !lookupSucceeds ==>
              o == SignupOutcome(Response(500, Message(ServerErrorSignup)), st)
    ensures email.Some? && DomainAllowed(email.value) && lookupSucceeds && email.value in st.accounts ==>
              o == SignupOutcome(Response(400, Message("User already exists")), st)
    ensures o.response.status == 201 <==>
              email.Some? && DomainAllowed(email.value) && lookupSucceeds && email.value !in st.accounts && saveSucceeds
    ensures o.response.status != 201 ==> o.store == st
    ensures o.response.status == 201 ==>
              var e := email.value;
              && o.store.accounts == st.accounts[e := Account(st.nextId, name, e, password)]
              && o.store.byId == st.byId[st.nextId := e]
              && o.store.nextId == st.nextId + 1
              && o.response.body == Authenticated("User created successfully", sign(st.nextId, e),
                                                  PublicUser(st.nextId, name, e))
  {
    if email.None? then SignupOutcome(Response(500, Message(ServerErrorSignup)), st)
    else
      var e := email.value;
      var domain := EmailDomain(e);
      if domain.None? || domain.value == "" || domain.value !in AllowedDomains then
        SignupOutcome(Response(400, Message(DomainMessage)), st)
      else if !lookupSucceeds then
        SignupOutcome(Response(500, Message(ServerErrorSignup)), st)
      else if e in st.accounts then
        SignupOutcome(Response(400, Message("User already exists")), st)
      else if !saveSucceeds then
        SignupOutcome(Response(500, Message(ServerErrorSignup)), st)
      else
        var id := st.nextId;
        SignupOutcome(Response(201, Authenticated("User created successfully", sign(id, e), PublicUser(id, name, e))),
                      Store(st.accounts[e := Account(id, name, e, password)], st.byId[id := e], id + 1))
  }

  /** The user collection as the routes see it. */
  class UserStore {
    var accounts: map<string, Account>
    var byId: map<nat, string>
    var nextId: nat

    function State(): Store
      reads this
    {
      Store(accounts, byId, nextId)
    }

    constructor ()
      ensures State() == Store(map[], map[], 0)
      ensures Valid(State())
    {
      accounts, byId, nextId := map[], map[], 0;
    }

    /** `POST /signup`: the domain check, then the duplicate lookup, then the
        save, each with its own early answer. */
    method Signup(name: string, email: Option<string>, password: string, lookupSucceeds: bool, saveSucceeds: bool,
                  sign: Signer)
      returns (response: Response)
      modifies this
      ensures SignupOutcome(response, State()) == SignupStep(old(State()), name, email, password, lookupSucceeds, saveSucceeds, sign)
    {
      if email.None? {
        return Response(500, Message(ServerErrorSignup));
      }
      var e := email.value;
      var domain := EmailDomain(e);
      if domain.None? || domain.value == "" || domain.value !in AllowedDomains {
        return Response(400, Message(DomainMessage));
      }
      if !lookupSucceeds {
        return Response(500, Message(ServerErrorSignup));
      }
      if e in accounts {
        return Response(400, Message("User already exists"));
      }
      if !saveSucceeds {
        return Response(500, Message(ServerErrorSignup));
      }
      var id := nextId;
      accounts := accounts[e := Account(id, name, e, password)];
      byId := byId[id := e];
      nextId := nextId + 1;
      response := Response(201, Authenticated("User created successfully", sign(id, e), PublicUser(id, name, e)));
    }
  }

  /** Signup keeps the collection well formed, and a successful one adds
      exactly one account. */
  lemma SignupPreservesValid(st: Store, name: string, email: Option<string>, password: string,
                             lookupSucceeds: bool, saveSucceeds: bool, sign: Signer)
    requires Valid(st)
    ensures var o := SignupStep(st, name, email, password, lookupSucceeds, saveSucceeds, sign);
            Valid(o.store) &&
            (o.response.status == 201 ==> email.value !in st.accounts &&
                                          |o.store.accounts| == |st.accounts| + 1)
  {
    var o := SignupStep(st, name, email, password, lookupSucceeds, saveSucceeds, sign);
    if o.response.status == 201 {
      var e, id := email.value, st.nextId;
      assert id !in st.byId;
      forall i | i in o.store.byId
        ensures o.store.byId[i] in o.store.accounts && o.store.accounts[o.store.byId[i]].id == i
      {
        if i != id {
          assert st.byId[i] in st.accounts && st.byId[i] != e;
        }
      }
    }
  }

  /** The domain is checked before the store is consulted: for a rejected
      domain the answer is the same whatever the store holds, and nothing
      is written. */
  lemma DomainCheckedFirst(st1: Store, st2: Store, name: string, email: string, password: string,
                           lookupSucceeds: bool, saveSucceeds: bool, sign: Signer)
    requires !DomainAllowed(email)
    ensures SignupStep(st1, name, Some(email), password, lookupSucceeds, saveSucceeds, sign).response ==
            SignupStep(st2, name, Some(email), password, lookupSucceeds, saveSucceeds, sign).response
    ensures SignupStep(st1, name, Some(email), password, lookupSucceeds, saveSucceeds, sign).store == st1
  {
  }

  // ---------------------------------------------------------------------
  // login

  const InvalidCredentials := "Invalid email or password"

  const ServerErrorLogin := "Server error during login"

  /** `POST /login`: an unknown e-mail and a wrong password both give 401
      with one message; otherwise a token and the public user. `matches`
      is the stored account's password check; `lookupSucceeds` is false
      when the user lookup or the password comparison throws, which the
      route's `catch` answers with 500. */
  function Login(st: Store, email: string, password: string, lookupSucceeds: bool,
                 matches: (Account, string) -> bool, sign: Signer)
    : (r: Response)
    ensures r.status == 200 <==> lookupSucceeds && email in st.accounts && matches(st.accounts[email], password)
    ensures !lookupSucceeds ==> r == Response(500, Message(ServerErrorLogin))
    ensures lookupSucceeds && r.status != 200 ==> r == Response(401, Message(InvalidCredentials))
    ensures r.status == 200 ==>
              var a := st.accounts[email];
              r.body == Authenticated("Login successful", sign(a.id, a.email), Public(a))
  {
    if !lookupSucceeds then Response(500, Message(ServerErrorLogin))
    else if email !in st.accounts then Response(401, Message(InvalidCredentials))
    else
      var a := st.accounts[email];
      if !matches(a, password) then Response(401, Message(InvalidCredentials))
      else Response(200, Authenticated("Login successful", sign(a.id, a.email), Public(a)))
  }

  /** A caller cannot tell an unknown e-mail from a wrong password. */
  lemma LoginFailuresIndistinguishable(st: Store, unknown: string, known: string, p1: string, p2: string,
                                       matches: (Account, string) -> bool, sign: Signer)
    requires unknown !in st.accounts
    requires known in st.accounts && !matches(st.accounts[known], p2)
    ensures Login(st, unknown, p1, true, matches, sign) == Login(st, known, p2, true, matches, sign)
  {
  }

  /** After a successful signup the same credentials log in, as the same
      user and with the same token. */
  lemma SignupThenLogin(st: Store, name: string, email: string, password: string, lookupSucceeds: bool, saveSucceeds: bool,
                        matches: (Account, string) -> bool, sign: Signer)
    requires SignupStep(st, name, Some(email), password, lookupSucceeds, saveSucceeds, sign).response.status == 201
    requires matches(Account(st.nextId, name, email, password), password)
    ensures var o := SignupStep(st, name, Some(email), password, lookupSucceeds, saveSucceeds, sign);
            var r := Login(o.store, email, password, true, matches, sign);
            r.status == 200 && r.body.user == o.response.body.user && r.body.token == o.response.body.token
  {
  }

  // ---------------------------------------------------------------------
  // verify

  /** `req.headers.authorization?.split(' ')[1]`: the second space-separated
      word; the scheme word is not checked. */
  function BearerToken(authorization: Option<string>): (t: Option<string>)
    ensures authorization.None? ==> t.None?
    ensures t.Some? ==> ' ' !in t.value
  {
    if authorization.None? then None else SplitAt(authorization.value, ' ', 1)
  }

  /** Any single word before the token is accepted as the scheme. */
  lemma BearerTokenIsSecondWord(scheme: string, token: string)
    requires ' ' !in scheme && ' ' !in token
    ensures BearerToken(Some(scheme + " " + token)) == Some(token)
  {
    assert scheme + " " + token == scheme + [' '] + token;
    SplitAround(scheme, ' ', token);
  }

  const NoToken := "No token provided"
  const InvalidToken := "Invalid token"

  /** `GET /verify`: 401 without a token, 401 for a token `decode` rejects,
      404 when the claimed user is not stored, otherwise the public user. */
  function Verify(st: Store, authorization: Option<string>, decode: string -> Option<Claims>, lookupSucceeds: bool)
    : (r: Response)
    ensures r.status in {200, 401, 404}
    ensures var t := BearerToken(authorization);
            && (t.None? || t.value == "" ==> r == Response(401, Message(NoToken)))
            && (t.Some? && t.value != "" && decode(t.value).None? ==> r == Response(401, Message(InvalidToken)))
    ensures var t := BearerToken(authorization);
            t.Some? && t.value != "" && decode(t.value).Some? && !lookupSucceeds ==> r == Response(401, Message(InvalidToken))
    ensures var t := BearerToken(authorization);
            t.Some? && t.value != "" && decode(t.value).Some? && lookupSucceeds ==>
              var id := decode(t.value).value.userId;
              && (id.None? || id.value !in st.byId || st.byId[id.value] !in st.accounts ==>
                    r == Response(404, Message("User not found")))
              && (id.Some? && id.value in st.byId && st.byId[id.value] in st.accounts ==>
                    r == Response(200, Profile(Public(st.accounts[st.byId[id.value]]))))
    ensures r.status == 404 ==> r.body == Message("User not found")
    ensures r.status == 200 ==>
              && lookupSucceeds
              && BearerToken(authorization).Some?
              && decode(BearerToken(authorization).value).Some?
              && decode(BearerToken(authorization).value).value.userId.Some?
              && var id := decode(BearerToken(authorization).value).value.userId.value;
              id in st.byId && st.byId[id] in st.accounts && r.body == Profile(Public(st.accounts[st.byId[id]]))
  {
    var t := BearerToken(authorization);
    if t.None? || t.value == "" then Response(401, Message(NoToken))
    else match decode(t.value)
      case None => Response(401, Message(InvalidToken))
      case Some(claims) =>
        if !lookupSucceeds then Response(401, Message(InvalidToken))
        else if claims.userId.Some? && claims.userId.value in st.byId && st.byId[claims.userId.value] in st.accounts then
          Response(200, Profile(Public(st.accounts[st.byId[claims.userId.value]])))
        else Response(404, Message("User not found"))
  }

  /** A header that is only the scheme word, or has two spaces after it,
      carries no token, and is answered 401 "No token provided". */
  lemma SchemeAloneHasNoToken(scheme: string, token: string)
    requires ' ' !in scheme
    ensures BearerToken(Some(scheme)) == None
    ensures BearerToken(Some(scheme + "  " + token)) == Some("")
  {
    assert scheme + "  " + token == scheme + [' '] + ([] + [' '] + token);
    SplitAround(scheme, ' ', [] + [' '] + token);
    SplitAround([], ' ', token);
  }

  /** The token handed out at signup verifies back to the new user, when
      the decoder recovers the id it was signed with. */
  lemma SignupThenVerify(st: Store, name: string, email: string, password: string, lookupSucceeds: bool, saveSucceeds: bool,
                         sign: Signer, decode: string -> Option<Claims>)
    requires Valid(st)
    requires SignupStep(st, name, Some(email), password, lookupSucceeds, saveSucceeds, sign).response.status == 201
    requires var token := sign(st.nextId, email); token != "" && ' ' !in token && decode(token) == Some(Claims(Some(st.nextId)))
    ensures var o := SignupStep(st, name, Some(email), password, lookupSucceeds, saveSucceeds, sign);
            Verify(o.store, Some("Bearer " + sign(st.nextId, email)), decode, true) == Response(200, Profile(o.response.body.user))
  {
    BearerTokenIsSecondWord("Bearer", sign(st.nextId, email));
  }
}
