/**
  GET and PUT /api/user: the bearer-token check, the profile lookup that
  creates a starter profile on first access, and the profile update.
  Every awaited call into the hosted database client is a parameter of the
  handler: a function from what the route passes in to what the call
  resolves with, or to `Threw` when it throws.
 */
module UserRoute {
  import opened Js
  import opened Http

  /** An awaited call that resolves with a value or throws. */
  datatype Call<T> = Returned(value: T) | Threw

  /** The signed-in user as the auth service reports it; `metadataName` is
      `user_metadata?.name`, `""` when absent. */
  datatype AuthUser = AuthUser(id: string, email: Option<string>, metadataName: string)

  /** `{data: {user}, error}` from `auth.getUser(token)`. */
  datatype AuthReply = AuthReply(error: bool, user: Option<AuthUser>)

  /** A row of the `users` table. */
  datatype UserRecord = UserRecord(
    id: string,
    email: Option<string>,
    name: string,
    accountBalance: int,
    totalInvested: int,
    tradingLevel: string,
    memberSince: string)

  /** `select(...).single()`: the row, or an error. */
  datatype SelectReply = Found(row: UserRecord) | SelectFailed(message: string)

  /** `insert(...)` / `update(...)` followed by `.select().single()`: the written row, or an error. */
  datatype WriteReply = Written(row: UserRecord) | WriteFailed(message: string)

  const STARTING_BALANCE: int := 100000
  const STARTING_LEVEL: string := "Beginner"
  const BEARER_PREFIX: string := "Bearer "

  const UNAUTHORIZED_JSON: Response<UserRecord> := ErrorJson(UNAUTHORIZED, "Unauthorized", None)
  const INTERNAL_ERROR_JSON: Response<UserRecord> := ErrorJson(INTERNAL_SERVER_ERROR, "Internal server error", None)

  /** `pat` occurs in `s` starting at index `j`. */
  predicate OccursAt(s: string, pat: string, j: nat)
  {
    j + |pat| <= |s| && s[j..j + |pat|] == pat
  }

  /** The first index at or after `from` where `pat` occurs, as `indexOf` finds it. */
  function IndexOfFrom(s: string, pat: string, from: nat): (r: Option<nat>)
    ensures r.Some? ==> from <= r.value && OccursAt(s, pat, r.value)
    ensures r.Some? ==> forall j :: from <= j < r.value ==> !OccursAt(s, pat, j)
    ensures r.None? ==> forall j :: from <= j ==> !OccursAt(s, pat, j)
    decreases |s| - from
  {
    if from + |pat| > |s| then None
    else if OccursAt(s, pat, from) then Some(from)
    else IndexOfFrom(s, pat, from + 1)
  }

  /** `s.indexOf(pat)`: the first occurrence anywhere, or none. */
  function IndexOf(s: string, pat: string): (r: Option<nat>)
    ensures r.Some? ==> OccursAt(s, pat, r.value) && forall j :: 0 <= j < r.value ==> !OccursAt(s, pat, j)
    ensures r.None? ==> forall j :: 0 <= j ==> !OccursAt(s, pat, j)
  {
    IndexOfFrom(s, pat, 0)
  }

  /** `authHeader.replace("Bearer ", "")`: the first occurrence of the scheme
      prefix is cut out, wherever it stands; without one the header is kept. */
  function Token(header: string): (token: string)
    ensures IndexOf(header, BEARER_PREFIX).None? ==> token == header
    ensures IndexOf(header, BEARER_PREFIX).Some? ==>
      var k := IndexOf(header, BEARER_PREFIX).value;
      token == header[..k] + header[k + |BEARER_PREFIX|..] && |token| == |header| - |BEARER_PREFIX|
  {
    match IndexOf(header, BEARER_PREFIX)
    case Some(k) => header[..k] + header[k + |BEARER_PREFIX|..]
    case None => header
  }

  /** `email.split("@")[0]`: the text before the first `@`, or all of it. */
  function BeforeAt(email: string): (local: string)
    ensures |local| <= |email| && local == email[..|local|]
    ensures forall i :: 0 <= i < |local| ==> local[i] != '@'
    ensures |local| < |email| ==> email[|local|] == '@'
  {
    match IndexOf(email, "@")
    case Some(k) => SingleCharFreeUpTo(email, '@', k); email[..k]
    case None => SingleCharFreeUpTo(email, '@', |email|); email
  }

  /** No one-character occurrence of `c` before `k` means no character `c` before `k`. */
  lemma SingleCharFreeUpTo(s: string, c: char, k: nat)
    requires k <= |s|
    requires forall j :: 0 <= j < k ==> !OccursAt(s, [c], j)
    ensures forall i :: 0 <= i < k ==> s[i] != c
  {
    forall i | 0 <= i < k
      ensures s[i] != c
    {
      assert !OccursAt(s, [c], i);
      assert s[i..i + 1] == [s[i]];
    }
  }

  /** `user.user_metadata?.name || user.email?.split("@")[0] || "User"`. */
  function DefaultName(u: AuthUser): (name: string)
    ensures name != ""
    ensures u.metadataName != "" ==> name == u.metadataName
    ensures u.metadataName == "" && u.email.Some? && BeforeAt(u.email.value) != "" ==> name == BeforeAt(u.email.value)
    ensures u.metadataName == "" && (u.email.None? || BeforeAt(u.email.value) == "") ==> name == "User"
  {
    var local := if u.email.Some? then BeforeAt(u.email.value) else "";
    StringOr(u.metadataName, StringOr(local, "User"))
  }

  /** The profile the GET handler inserts when the lookup fails; `now` is `new Date().toISOString()`. */
  function NewProfile(u: AuthUser, now: string): (p: UserRecord)
    ensures p.id == u.id && p.email == u.email && p.name == DefaultName(u)
    ensures p.accountBalance == 100000 && p.totalInvested == 0 && p.tradingLevel == "Beginner"
    ensures p.memberSince == now
  {
    UserRecord(u.id, u.email, DefaultName(u), STARTING_BALANCE, 0, STARTING_LEVEL, now)
  }

  /** How far the shared prologue of both handlers gets. */
  datatype AuthStep = NoHeader | Rejected | AuthThrew | SignedIn(user: AuthUser)

  /** `!authHeader` is true for an absent and for an empty header. */
  function HasHeader(header: Option<string>): (present: bool)
    ensures header.None? ==> !present
    ensures header == Some("") ==> !present
    ensures present <==> header.Some? && |header.value| > 0
  {
    header.Some? && header.value != ""
  }

  /** The prologue both handlers share: the header check, the token, and the auth service's verdict. */
  function Authenticate(header: Option<string>, auth: string -> Call<AuthReply>): (step: AuthStep)
    ensures step == NoHeader <==> !HasHeader(header)
    ensures step.SignedIn? ==> auth(Token(header.value)) == Returned(AuthReply(false, Some(step.user)))
    ensures HasHeader(header) ==> (step == AuthThrew <==> auth(Token(header.value)).Threw?)
    ensures HasHeader(header) ==> (step == Rejected <==>
      auth(Token(header.value)).Returned? && (auth(Token(header.value)).value.error || auth(Token(header.value)).value.user.None?))
    ensures HasHeader(header) ==> (step.SignedIn? <==>
      auth(Token(header.value)).Returned? && !auth(Token(header.value)).value.error && auth(Token(header.value)).value.user.Some?)
  {
    if !HasHeader(header) then NoHeader
    else
      match auth(Token(header.value))
      case Threw => AuthThrew
      case Returned(reply) =>
        if reply.error || reply.user.None? then Rejected else SignedIn(reply.user.value)
  }

  /** GET: the caller's profile, created with starter values on first access. */
  function GetUser(clientCreated: bool, header: Option<string>, auth: string -> Call<AuthReply>,
                   select: string -> Call<SelectReply>, insert: UserRecord -> Call<WriteReply>,
                   now: string): (r: Response<UserRecord>)
    ensures r.ErrorJson? ==> r.status == UNAUTHORIZED || r.status == INTERNAL_SERVER_ERROR
    ensures r.ErrorJson? && r.status == UNAUTHORIZED <==>
      clientCreated && (Authenticate(header, auth).NoHeader? || Authenticate(header, auth).Rejected?)
    ensures r.ErrorJson? && r.status == UNAUTHORIZED ==> r == UNAUTHORIZED_JSON
    ensures r.Json? ==> clientCreated && Authenticate(header, auth).SignedIn?
    ensures r.Json? ==>
      var u := Authenticate(header, auth).user;
      || select(u.id) == Returned(Found(r.body))
      || insert(NewProfile(u, now)) == Returned(Written(r.body))
    ensures !clientCreated || Authenticate(header, auth).AuthThrew? ==> r == INTERNAL_ERROR_JSON
    ensures clientCreated && Authenticate(header, auth).SignedIn? ==>
      var u := Authenticate(header, auth).user;
      && (select(u.id).Threw? ==> r == INTERNAL_ERROR_JSON)
      && (select(u.id).Returned? && select(u.id).value.Found? ==> r == Json(select(u.id).value.row))
      && (select(u.id).Returned? && select(u.id).value.SelectFailed? ==>
            match insert(NewProfile(u, now))
            case Threw => r == INTERNAL_ERROR_JSON
            case Returned(Written(row)) => r == Json(row)
            case Returned(WriteFailed(message)) =>
              r == ErrorJson(INTERNAL_SERVER_ERROR, "Failed to create user profile", Some(message)))
  {
    if !clientCreated then INTERNAL_ERROR_JSON
    else
      match Authenticate(header, auth)
      case NoHeader => UNAUTHORIZED_JSON
      case Rejected => UNAUTHORIZED_JSON
      case AuthThrew => INTERNAL_ERROR_JSON
      case SignedIn(u) =>
        match select(u.id)
        case Threw => INTERNAL_ERROR_JSON
        case Returned(Found(row)) => Json(row)
        case Returned(SelectFailed(_)) =>
          match insert(NewProfile(u, now))
          case Threw => INTERNAL_ERROR_JSON
          case Returned(Written(row)) => Json(row)
          case Returned(WriteFailed(message)) =>
            ErrorJson(INTERNAL_SERVER_ERROR, "Failed to create user profile", Some(message))
  }

  /** PUT: apply the request body to the caller's row and return the updated row. */
  function PutUser<B>(clientCreated: bool, header: Option<string>, auth: string -> Call<AuthReply>,
                      body: Call<B>, update: (string, B) -> Call<WriteReply>): (r: Response<UserRecord>)
    ensures r.ErrorJson? ==> r.status == UNAUTHORIZED || r.status == INTERNAL_SERVER_ERROR
    ensures r.ErrorJson? && r.status == UNAUTHORIZED <==>
      clientCreated && (Authenticate(header, auth).NoHeader? || Authenticate(header, auth).Rejected?)
    ensures r.ErrorJson? && r.status == UNAUTHORIZED ==> r == UNAUTHORIZED_JSON
    ensures r.Json? ==>
      && clientCreated && Authenticate(header, auth).SignedIn? && body.Returned?
      && update(Authenticate(header, auth).user.id, body.value) == Returned(Written(r.body))
    ensures !clientCreated || Authenticate(header, auth).AuthThrew? ==> r == INTERNAL_ERROR_JSON
    ensures clientCreated && Authenticate(header, auth).SignedIn? ==>
      && (body.Threw? ==> r == INTERNAL_ERROR_JSON)
      && (body.Returned? ==>
            match update(Authenticate(header, auth).user.id, body.value)
            case Threw => r == INTERNAL_ERROR_JSON
            case Returned(Written(row)) => r == Json(row)
            case Returned(WriteFailed(_)) => r == ErrorJson(INTERNAL_SERVER_ERROR, "Failed to update user", None))
  {
    if !clientCreated then INTERNAL_ERROR_JSON
    else
      match Authenticate(header, auth)
      case NoHeader => UNAUTHORIZED_JSON
      case Rejected => UNAUTHORIZED_JSON
      case AuthThrew => INTERNAL_ERROR_JSON
      case SignedIn(u) =>
        match body
        case Threw => INTERNAL_ERROR_JSON
        case Returned(patch) =>
          match update(u.id, patch)
          case Threw => INTERNAL_ERROR_JSON
          case Returned(Written(row)) => Json(row)
          case Returned(WriteFailed(_)) => ErrorJson(INTERNAL_SERVER_ERROR, "Failed to update user", None)
  }

  /** `"Bearer " + t` yields the token `t`, even when `t` itself starts with the prefix. */
  lemma BearerTokenRoundTrip(t: string)
    ensures Token(BEARER_PREFIX + t) == t
  {
    var h := BEARER_PREFIX + t;
    assert OccursAt(h, BEARER_PREFIX, 0) by { assert h[0..7] == BEARER_PREFIX; }
    assert h[7..] == t;
  }

  /** The prefix is cut out where it first stands, even when it does not lead the header. */
  lemma PrefixNeedNotLead()
    ensures Token("xBearer abc") == "xabc"
  {
    var h := "xBearer abc";
    assert !OccursAt(h, BEARER_PREFIX, 0) by { assert h[0] != 'B'; }
    assert OccursAt(h, BEARER_PREFIX, 1) by { assert h[1..8] == BEARER_PREFIX; }
    assert IndexOf(h, BEARER_PREFIX) == Some(1);
    assert h[..1] + h[8..] == "xabc";
  }

  /** Once the client is created, without a header neither handler calls anything: the answer
      is 401 whatever auth, select, insert and update would return. */
  lemma NoHeaderIsUnauthorized<B>(header: Option<string>, auth: string -> Call<AuthReply>,
                                  select: string -> Call<SelectReply>, insert: UserRecord -> Call<WriteReply>,
                                  now: string, body: Call<B>, update: (string, B) -> Call<WriteReply>)
    requires !HasHeader(header)
    ensures GetUser(true, header, auth, select, insert, now) == UNAUTHORIZED_JSON
    ensures PutUser(true, header, auth, body, update) == UNAUTHORIZED_JSON
  {
  }

  /** A failed lookup creates the starter profile; a failed insert reports its message. */
  lemma MissingProfileIsCreated(header: Option<string>, auth: string -> Call<AuthReply>,
                                select: string -> Call<SelectReply>, insert: UserRecord -> Call<WriteReply>,
                                now: string, u: AuthUser)
    requires Authenticate(header, auth) == SignedIn(u)
    requires select(u.id).Returned? && select(u.id).value.SelectFailed?
    ensures forall m :: insert(NewProfile(u, now)) == Returned(WriteFailed(m)) ==>
      GetUser(true, header, auth, select, insert, now)
        == ErrorJson(500, "Failed to create user profile", Some(m))
    ensures forall row :: insert(NewProfile(u, now)) == Returned(Written(row)) ==>
      GetUser(true, header, auth, select, insert, now) == Json(row)
  {
  }

  /** A throw anywhere after the client exists is a 500 "Internal server error". */
  lemma ThrowsAreInternalErrors<B>(header: Option<string>, auth: string -> Call<AuthReply>,
                                   select: string -> Call<SelectReply>, insert: UserRecord -> Call<WriteReply>,
                                   now: string, body: Call<B>, update: (string, B) -> Call<WriteReply>)
    requires HasHeader(header) && auth(Token(header.value)) == Threw
    ensures GetUser(true, header, auth, select, insert, now) == INTERNAL_ERROR_JSON
    ensures PutUser(true, header, auth, body, update) == INTERNAL_ERROR_JSON
  {
  }

  /** A profile for "alice@example.com" without a metadata name is called "alice";
      one whose address starts with `@` falls back to "User". */
  lemma NameFromEmail(id: string)
    ensures DefaultName(AuthUser(id, Some("alice@example.com"), "")) == "alice"
    ensures DefaultName(AuthUser(id, Some("@example.com"), "")) == "User"
    ensures DefaultName(AuthUser(id, None, "")) == "User"
  {
    var e := "alice@example.com";
    assert OccursAt(e, "@", 5) by { assert e[5..6] == "@"; }
    forall j | 0 <= j < 5 ensures !OccursAt(e, "@", j) {
      assert e[j] != '@';
    }
    assert IndexOf(e, "@") == Some(5);
    var f := "@example.com";
    assert BeforeAt(f) == "" by { assert f[0] == '@'; }
  }
}
