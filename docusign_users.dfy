/**
 * The DocuSign account fields the `docusign` module adds to `res.users`:
 * the display name, the OAuth redirect URL, the login action guard, the
 * access-token refresh and its five-minute expiry buffer, and the recursive
 * serializer used for the OAuth POST parameters.
 */
module DocusignUsers {
  import opened Common

  // ---------------------------------------------------------------------
  // `sanitize_for_serialization`
  // ---------------------------------------------------------------------

  /**
   * A Python value as the serializer sees it. `Prim` stands for every
   * primitive (`float`, `bool`, `bytes`, `str`, `int`); `PDict` holds the
   * dictionary's items in order; `PObj` is a swagger model, given by its
   * attributes as (json key from `attribute_map`, current value) pairs.
   */
  datatype Py =
    | PNone
    | Prim(text: string)
    | PList(items: seq<Py>)
    | PTuple(items: seq<Py>)
    | PDict(entries: seq<Entry>)
    | PObj(attrs: seq<Entry>)

  datatype Entry = Entry(key: string, value: Py)

  /** A value the serializer leaves as it is: no swagger model anywhere inside. */
  predicate Plain(o: Py)
    decreases o
  {
    match o
    case PNone => true
    case Prim(_) => true
    case PList(items) => forall i :: 0 <= i < |items| ==> Plain(items[i])
    case PTuple(items) => forall i :: 0 <= i < |items| ==> Plain(items[i])
    case PDict(entries) => forall i :: 0 <= i < |entries| ==> Plain(entries[i].value)
    case PObj(_) => false
  }

  /** The keys of a sequence of entries, in order. */
  function Keys(entries: seq<Entry>): (ks: seq<string>)
    ensures |ks| == |entries| && forall i :: 0 <= i < |entries| ==> ks[i] == entries[i].key
  {
    seq(|entries|, i requires 0 <= i < |entries| => entries[i].key)
  }

  /** The attributes of a model whose value is not None, in order. */
  function SetAttributes(attrs: seq<Entry>): (r: seq<Entry>)
    ensures forall i :: 0 <= i < |r| ==> r[i] in attrs && r[i].value != PNone
    ensures forall a :: a in attrs && a.value != PNone ==> a in r
    decreases |attrs|
  {
    if attrs == [] then []
    else
      var rest := SetAttributes(attrs[1..]);
      if attrs[0].value == PNone then rest else [attrs[0]] + rest
  }

  /** Every swagger model becomes a dictionary over its non-None attributes; the rest is mapped through. */
  function Sanitize(o: Py): (r: Py)
    ensures Plain(r)
    ensures r == PNone <==> o == PNone
    ensures o.Prim? ==> r == o
    ensures o.PList? ==> r.PList? && |r.items| == |o.items|
    ensures o.PTuple? ==> r.PTuple? && |r.items| == |o.items|
    ensures o.PDict? ==> r.PDict? && Keys(r.entries) == Keys(o.entries)
    ensures o.PObj? ==> r.PDict? && Keys(r.entries) == Keys(SetAttributes(o.attrs))
    decreases o, 1
  {
    match o
    case PNone => PNone
    case Prim(_) => o
    case PList(items) => PList(SanitizeItems(o, items))
    case PTuple(items) => PTuple(SanitizeItems(o, items))
    case PDict(entries) => PDict(SanitizeEntries(o, entries))
    case PObj(attrs) =>
      var set_ := SetAttributes(attrs);
      PDict(SanitizeEntries(o, set_))
  }

  /** The elements of a list or tuple, each sanitized, in order. */
  function SanitizeItems(ghost parent: Py, items: seq<Py>): (r: seq<Py>)
    requires forall i :: 0 <= i < |items| ==> items[i] < parent
    ensures |r| == |items|
    ensures forall i :: 0 <= i < |items| ==> r[i] == Sanitize(items[i])
    decreases parent, 0
  {
    seq(|items|, i requires 0 <= i < |items| => Sanitize(items[i]))
  }

  /** The entries of a dictionary, keys kept and each value sanitized. */
  function SanitizeEntries(ghost parent: Py, entries: seq<Entry>): (r: seq<Entry>)
    requires forall i :: 0 <= i < |entries| ==> entries[i].value < parent
    ensures Keys(r) == Keys(entries)
    ensures forall i :: 0 <= i < |entries| ==> r[i] == Entry(entries[i].key, Sanitize(entries[i].value))
    decreases parent, 0
  {
    seq(|entries|, i requires 0 <= i < |entries| => Entry(entries[i].key, Sanitize(entries[i].value)))
  }

  /** A value without swagger models is its own serialization. */
  lemma {:induction false} SanitizePlain(o: Py)
    requires Plain(o)
    ensures Sanitize(o) == o
    decreases o
  {
    match o
    case PNone =>
    case Prim(_) =>
    case PList(items) =>
      forall i | 0 <= i < |items| { SanitizePlain(items[i]); }
      assert Sanitize(o).items == items;
    case PTuple(items) =>
      forall i | 0 <= i < |items| { SanitizePlain(items[i]); }
      assert Sanitize(o).items == items;
    case PDict(entries) =>
      forall i | 0 <= i < |entries| { SanitizePlain(entries[i].value); }
      assert Sanitize(o).entries == entries;
  }

  /** Serializing twice is serializing once. */
  lemma SanitizeIdempotent(o: Py)
    ensures Sanitize(Sanitize(o)) == Sanitize(o)
  {
    SanitizePlain(Sanitize(o));
  }

  // ---------------------------------------------------------------------
  // Computed fields and the login action
  // ---------------------------------------------------------------------

  const AccountPrefix: string := "DS-Account"

  /** `record_name`: the account label, followed by the user's name when it has one. */
  function RecordName(name: string): (r: string)
    ensures StartsWith(r, AccountPrefix)
    ensures name == "" ==> r == AccountPrefix
    ensures name != "" ==>
      |r| == |AccountPrefix| + 2 + |name| && r[..|AccountPrefix| + 2] == AccountPrefix + ": " &&
      r[|AccountPrefix| + 2..] == name
  {
    if name != "" then AccountPrefix + ": " + name else AccountPrefix
  }

  /** Different user names give different record names. */
  lemma RecordNameInjective(m: string, n: string)
    requires RecordName(m) == RecordName(n)
    ensures m == n
  {
    if m != "" && n != "" {
      assert m == RecordName(m)[|AccountPrefix| + 2..];
    }
  }

  /** Python's `str.rstrip(c)` for one character. */
  function RStrip(s: string, c: char): (r: string)
    ensures |r| <= |s| && r == s[..|r|]
    ensures r == [] || r[|r| - 1] != c
    ensures forall i :: |r| <= i < |s| ==> s[i] == c
    decreases |s|
  {
    if s != [] && s[|s| - 1] == c then RStrip(s[..|s| - 1], c) else s
  }

  const RedirectPath: string := "/docusign"

  datatype UrlError = TypeError

  datatype UrlResult = Url(url: string) | UrlFailed(error: UrlError)

  /**
   * `_get_current_url` as written: the decorator of the next method is glued
   * onto the else branch, so an empty `web.base.url` evaluates
   * `'/docusign' @ api.depends(...)`, which a string does not support.
   */
  function RedirectUrlAsWritten(base: string): (r: UrlResult)
    ensures base != "" ==> r == Url(RStrip(base, '/') + RedirectPath)
    ensures base == "" ==> r.UrlFailed?
  {
    if base != "" then Url(RStrip(base, '/') + RedirectPath) else UrlFailed(TypeError)
  }

  /** With no base URL configured, the redirect URL as written cannot be computed. */
  lemma RedirectUrlAsWrittenFailsWithoutBase()
    ensures RedirectUrlAsWritten("").UrlFailed?
  {
  }

  /**
   * `redirect_url` as intended: the base URL without trailing slashes
   * followed by `/docusign`, or `/docusign` alone. The path is joined by
   * exactly one slash.
   */
  function RedirectUrl(base: string): (r: string)
    ensures EndsWith(r, RedirectPath)
    ensures base != "" ==> r == RStrip(base, '/') + RedirectPath
    ensures base == "" ==> r == RedirectPath
    ensures |r| == |RedirectPath| || r[|r| - |RedirectPath| - 1] != '/'
  {
    if base != "" then RStrip(base, '/') + RedirectPath else RedirectPath
  }

  /** Wherever the written expression yields a URL, it is the intended one. */
  lemma RedirectUrlAgrees(base: string)
    ensures RedirectUrlAsWritten(base).Url? ==> RedirectUrlAsWritten(base).url == RedirectUrl(base)
    ensures RedirectUrlAsWritten(base).Url? <==> base != ""
  {
  }

  datatype Action = OpenLogin(url: string)

  datatype CodeResult = LoginAction(action: Action) | CredentialsMissing

  /** `get_code`: the login page opens only with a redirect URL, an integration key and a secret key. */
  function GetCode(redirectUrl: string, clientId: string, clientSecret: string, loginUrl: string): (r: CodeResult)
    ensures r.LoginAction? <==> redirectUrl != "" && clientId != "" && clientSecret != ""
    ensures r.LoginAction? ==> r.action == OpenLogin(loginUrl)
  {
    if redirectUrl != "" && clientId != "" && clientSecret != "" then LoginAction(OpenLogin(loginUrl))
    else CredentialsMissing
  }

  // ---------------------------------------------------------------------
  // Access-token refresh
  // ---------------------------------------------------------------------

  datatype AccountType = Dev | Prod

  /** The OAuth host of each account type. */
  function OAuthHost(t: AccountType): string {
    match t
    case Dev => "account-d.docusign.com"
    case Prod => "account.docusign.com"
  }

  /**
   * The answer to the refresh-token POST: `RequestFailed` for anything that
   * raises before a status is known; otherwise the status and the JSON
   * fields (`None` for an absent key; `expiresIn` `None` also when it is
   * not an integer).
   */
  datatype TokenReply =
    | RequestFailed
    | TokenAnswer(status: int, accessToken: Option<string>, refreshToken: Option<string>, expiresIn: Option<int>)

  datatype TokenData = TokenData(accessToken: string, refreshToken: string, expiresAt: Option<Instant>,
                                 accountType: Option<AccountType>)

  /** Every failure is re-raised as one validation error. */
  datatype TokenOutcome = Refreshed(token: string) | NoTokenReturned | RefreshFailed

  /** The outcome of `refresh_access_token` and the account afterwards. */
  function RefreshOf(d: TokenData, reply: TokenReply, now: Instant): (r: (TokenOutcome, TokenData))
    ensures !r.0.Refreshed? ==> r.1 == d
    ensures d.refreshToken == "" || d.accountType.None? ==> r.0 == RefreshFailed
    ensures reply.TokenAnswer? && reply.status != 200 ==> r.0 == RefreshFailed
    ensures r.0.Refreshed? <==>
      d.refreshToken != "" && d.accountType.Some? && reply.TokenAnswer? && reply.status == 200 &&
      reply.accessToken.Some? && reply.expiresIn.Some?
    ensures r.0 == NoTokenReturned <==>
      d.refreshToken != "" && d.accountType.Some? && reply.TokenAnswer? && reply.status == 200 &&
      reply.accessToken.None?
    ensures r.0.Refreshed? ==>
      r.0.token == reply.accessToken.value && r.1.accessToken == r.0.token &&
      r.1.expiresAt == Some(now + reply.expiresIn.value) && r.1.accountType == d.accountType &&
      r.1.refreshToken == (if reply.refreshToken.Some? then reply.refreshToken.value else d.refreshToken)
  {
    if d.refreshToken == "" || d.accountType.None? then (RefreshFailed, d)
    else if reply.RequestFailed? then (RefreshFailed, d)
    else if reply.status != 200 then (RefreshFailed, d)
    else if reply.accessToken.None? then (NoTokenReturned, d)
    else if reply.expiresIn.None? then (RefreshFailed, d)
    else
      var kept := if reply.refreshToken.Some? then reply.refreshToken.value else d.refreshToken;
      (Refreshed(reply.accessToken.value),
       d.(accessToken := reply.accessToken.value, refreshToken := kept, expiresAt := Some(now + reply.expiresIn.value)))
  }

  /** Seconds before expiry at which a token is refreshed. */
  const ExpiryBuffer: int := 5 * 60

  predicate ExpiresSoon(d: TokenData, now: Instant) {
    d.expiresAt.Some? && d.expiresAt.value <= now + ExpiryBuffer
  }

  datatype ValidToken = Token(token: string) | NoAccessToken | FromRefresh(outcome: TokenOutcome)

  /** The outcome of `get_valid_access_token` and the account afterwards. */
  function ValidTokenOf(d: TokenData, reply: TokenReply, now: Instant): (r: (ValidToken, TokenData))
    ensures d.accessToken == "" ==> r == (NoAccessToken, d)
    ensures d.accessToken != "" && !ExpiresSoon(d, now) ==> r == (Token(d.accessToken), d)
    ensures d.accessToken != "" && ExpiresSoon(d, now) ==>
      r.0 == FromRefresh(RefreshOf(d, reply, now).0) && r.1 == RefreshOf(d, reply, now).1
  {
    if d.accessToken == "" then (NoAccessToken, d)
    else if ExpiresSoon(d, now) then
      var (o, d1) := RefreshOf(d, reply, now);
      (FromRefresh(o), d1)
    else (Token(d.accessToken), d)
  }

  /**
   * A token refreshed with a lifetime beyond the buffer is handed out as
   * it is, without another refresh, at the same moment.
   */
  lemma RefreshedTokenIsValid(d: TokenData, reply: TokenReply, now: Instant, other: TokenReply)
    requires RefreshOf(d, reply, now).0.Refreshed?
    requires reply.expiresIn.value > ExpiryBuffer && reply.accessToken.value != ""
    ensures ValidTokenOf(RefreshOf(d, reply, now).1, other, now).0 == Token(reply.accessToken.value)
  {
  }

  /** The DocuSign fields of one user. */
  class DocusignAccount {
    var accessToken: string
    var refreshToken: string
    var tokenExpiresAt: Option<Instant>
    var accountType: Option<AccountType>

    function Data(): TokenData
      reads this
    {
      TokenData(accessToken, refreshToken, tokenExpiresAt, accountType)
    }

    constructor ()
      ensures Data() == TokenData("", "", None, Some(Dev))
    {
      accessToken, refreshToken, tokenExpiresAt, accountType := "", "", None, Some(Dev);
    }

    /** `refresh_access_token`: `reply` is DocuSign's answer to the refresh POST, `now` the clock. */
    method RefreshAccessToken(reply: TokenReply, now: Instant) returns (outcome: TokenOutcome)
      modifies this
      ensures (outcome, Data()) == RefreshOf(old(Data()), reply, now)
    {
      if refreshToken == "" || accountType.None? {
        return RefreshFailed;
      }
      if reply.RequestFailed? || reply.status != 200 {
        return RefreshFailed;
      }
      if reply.accessToken.None? {
        return NoTokenReturned;
      }
      if reply.expiresIn.None? {
        return RefreshFailed;
      }
      accessToken := reply.accessToken.value;
      if reply.refreshToken.Some? {
        refreshToken := reply.refreshToken.value;
      }
      tokenExpiresAt := Some(now + reply.expiresIn.value);
      return Refreshed(reply.accessToken.value);
    }

    /** `get_valid_access_token`: refreshes when the token expires within five minutes. */
    method GetValidAccessToken(reply: TokenReply, now: Instant) returns (r: ValidToken)
      modifies this
      ensures (r, Data()) == ValidTokenOf(old(Data()), reply, now)
    {
      if accessToken == "" {
        return NoAccessToken;
      }
      if tokenExpiresAt.Some? && tokenExpiresAt.value <= now + ExpiryBuffer {
        var o := RefreshAccessToken(reply, now);
        return FromRefresh(o);
      }
      return Token(accessToken);
    }
  }
}
