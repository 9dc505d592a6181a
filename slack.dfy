/**
 * The Slack side of the bot: checking that a request was signed by Slack, the ephemeral error
 * reply, the Web API lookups (users.info, users.list) with their token guard, and the rule that
 * decides whether an identifier is a user id or a user name.
 *
 * The network is not modelled: each call's outcome is a parameter (`Reply`), and so are the
 * clock and the HMAC-SHA256 function.
 */
module Slack {
  import opened Wrappers
  import opened Text
  import opened Hex
  import opened Models

  // ---------------------------------------------------------------------------------------
  // VerifySignature

  /** The maximum age of a request, in seconds. */
  const Tolerance: int := 300

  /** HMAC-SHA256 of a message (second argument) under a key (first argument). */
  type Mac = (string, string) -> seq<byte>

  /** The string Slack signs: the version, the timestamp header as sent, and the raw body. */
  function SigningBase(timestamp: string, body: string): string {
    "v0:" + timestamp + ":" + body
  }

  /** The signature a genuine request carries: "v0=" and the MAC in lower-case hex. */
  function ExpectedSignature(secret: string, timestamp: string, body: string, mac: Mac): string {
    "v0=" + EncodeToString(mac(secret, SigningBase(timestamp, body)))
  }

  /**
   * slack.VerifySignature, given the two header values ("" when a header is missing), the body,
   * the signing secret, the current Unix time and the MAC. The age of the request is the exact
   * difference now - ts; see VerifySignatureAsWritten for the int64 subtraction of the source.
   */
  predicate VerifySignature(timestamp: string, signature: string, body: string, secret: string,
                            now: int, mac: Mac)
  {
    if timestamp == "" || signature == "" then false
    else
      match ParseInt64(timestamp)
      case None => false
      case Some(ts) => if now - ts > Tolerance then false else signature == ExpectedSignature(secret, timestamp, body, mac)
  }

  /** A request without either header is refused. */
  lemma VerifyNeedsHeaders(timestamp: string, signature: string, body: string, secret: string, now: int, mac: Mac)
    requires timestamp == "" || signature == ""
    ensures !VerifySignature(timestamp, signature, body, secret, now, mac)
  {
  }

  /** A timestamp that is not a base-10 int64 is refused. */
  lemma VerifyNeedsNumericTimestamp(timestamp: string, signature: string, body: string, secret: string, now: int, mac: Mac)
    requires ParseInt64(timestamp).None?
    ensures !VerifySignature(timestamp, signature, body, secret, now, mac)
  {
  }

  /**
   * A request more than 300 seconds old is refused, whatever its signature and however its
   * timestamp is spelt ("+1700000000" and "01700000000" parse like "1700000000").
   */
  lemma VerifyRejectsStale(timestamp: string, signature: string, body: string, secret: string, now: int, mac: Mac)
    requires ParseInt64(timestamp).Some? && now - ParseInt64(timestamp).value > Tolerance
    ensures !VerifySignature(timestamp, signature, body, secret, now, mac)
  {
  }

  /**
   * A request that Slack signed, under any spelling of its timestamp, is accepted when it is at
   * most 300 seconds old: the boundary itself is accepted, and so is a timestamp in the future
   * (the window is one-sided).
   */
  lemma VerifyAcceptsGenuine(timestamp: string, body: string, secret: string, now: int, mac: Mac)
    requires ParseInt64(timestamp).Some? && now - ParseInt64(timestamp).value <= Tolerance
    ensures VerifySignature(timestamp, ExpectedSignature(secret, timestamp, body, mac), body, secret, now, mac)
  {
  }

  /** `%d` of a Unix time is one such spelling: Slack's own header is accepted while it is fresh. */
  lemma VerifyAcceptsCanonical(ts: int, body: string, secret: string, now: int, mac: Mac)
    requires MinInt64 <= ts <= MaxInt64 && now - ts <= Tolerance
    ensures var timestamp := IntToDecimal(ts);
      VerifySignature(timestamp, ExpectedSignature(secret, timestamp, body, mac), body, secret, now, mac)
  {
    ParseIntToDecimal(ts);
    VerifyAcceptsGenuine(IntToDecimal(ts), body, secret, now, mac);
  }

  /**
   * An accepted signature is "v0=" followed by lower-case hex that decodes to exactly the MAC of
   * the signed string: the check admits no other spelling of the MAC.
   */
  lemma VerifySound(timestamp: string, signature: string, body: string, secret: string, now: int, mac: Mac)
    requires VerifySignature(timestamp, signature, body, secret, now, mac)
    ensures |signature| >= 3 && signature[..3] == "v0="
    ensures DecodeString(signature[3..]) == Some(mac(secret, SigningBase(timestamp, body)))
    ensures forall i :: 3 <= i < |signature| ==> IsLowerHexDigit(signature[i])
  {
    var hex := EncodeToString(mac(secret, SigningBase(timestamp, body)));
    assert signature[3..] == hex;
    DecodeEncode(mac(secret, SigningBase(timestamp, body)));
  }

  /** The two's complement wrap-around of Go's int64 arithmetic. */
  function Wrap64(x: int): (r: int)
    ensures MinInt64 <= r <= MaxInt64
    ensures MinInt64 <= x <= MaxInt64 ==> r == x
  {
    (x - MinInt64) % 0x1_0000_0000_0000_0000 + MinInt64
  }

  /** slack.VerifySignature exactly as written: the age `time.Now().Unix()-ts` is an int64 subtraction. */
  predicate VerifySignatureAsWritten(timestamp: string, signature: string, body: string, secret: string,
                                     now: int, mac: Mac)
  {
    if timestamp == "" || signature == "" then false
    else
      match ParseInt64(timestamp)
      case None => false
      case Some(ts) =>
        if Wrap64(now - ts) > Tolerance then false else signature == ExpectedSignature(secret, timestamp, body, mac)
  }

  /** Whenever the subtraction does not overflow, the source's check and the exact one agree. */
  lemma AsWrittenAgrees(timestamp: string, signature: string, body: string, secret: string, now: int, mac: Mac)
    requires ParseInt64(timestamp).Some? ==> MinInt64 <= now - ParseInt64(timestamp).value <= MaxInt64
    ensures VerifySignatureAsWritten(timestamp, signature, body, secret, now, mac)
        == VerifySignature(timestamp, signature, body, secret, now, mac)
  {
  }

  /**
   * The overflow: a request signed with a timestamp more than MaxInt64 seconds before the
   * current time (the smallest int64, -9223372036854775808, at any time from 0 on) passes the
   * staleness check as written, because now - ts wraps around to a negative age. The exact check
   * refuses it.
   */
  lemma StaleCheckOverflows(ts: int, body: string, secret: string, now: int, mac: Mac)
    requires MinInt64 <= ts <= MaxInt64 && MinInt64 <= now <= MaxInt64
    requires now - ts > MaxInt64
    ensures var timestamp := IntToDecimal(ts);
      var signature := ExpectedSignature(secret, timestamp, body, mac);
      && VerifySignatureAsWritten(timestamp, signature, body, secret, now, mac)
      && !VerifySignature(timestamp, signature, body, secret, now, mac)
  {
    ParseIntToDecimal(ts);
    assert Wrap64(now - ts) == now - ts - 0x1_0000_0000_0000_0000;
  }

  // ---------------------------------------------------------------------------------------
  // SendErrorResponse

  /** The reply SendErrorResponse posts: the error after a cross mark, addressed to the user if there is one. */
  function ErrorResponse(errorMessage: string, username: string): SlackResponse {
    var text := if username != "" then "❌ <@" + username + "> " + errorMessage else "❌ " + errorMessage;
    SlackResponse(text, "ephemeral")
  }

  /**
   * The error reply is only visible to its addressee, and carries the error text verbatim after
   * a prefix that mentions the user when one is given.
   */
  lemma ErrorResponseShape(errorMessage: string, username: string)
    ensures var r := ErrorResponse(errorMessage, username);
      var prefix := if username == "" then "❌ " else "❌ <@" + username + "> ";
      && r.responseType == "ephemeral"
      && |r.text| == |prefix| + |errorMessage|
      && r.text[..|prefix|] == prefix
      && r.text[|prefix|..] == errorMessage
  {
  }

  // ---------------------------------------------------------------------------------------
  // The Web API calls

  const TokenMissing: string := "SLACK_BOT_TOKEN is not set"

  /**
   * What a Web API request came back with: a failure to build, send or decode it (with Go's
   * error text), or the decoded body's `ok`, `error` and payload.
   */
  datatype Reply<T> = TransportError(message: string) | Decoded(ok: bool, error: string, payload: T)

  /** The error a decoded `ok: false` body turns into. */
  function ApiError(error: string): string {
    "slack API error: " + error
  }

  /** slack.GetUserInfo (users.info) given the bot token and the request's outcome. */
  function GetUserInfo(token: string, reply: Reply<SlackUser>): Result<SlackUser, string> {
    if token == "" then Failure(TokenMissing)
    else
      match reply
      case TransportError(message) => Failure(message)
      case Decoded(ok, error, user) => if !ok then Failure(ApiError(error)) else Success(user)
  }

  /** slack.SendMessage: only the token and the transport can make it fail; the body is not read. */
  function SendMessage(token: string, transport: Option<string>): Option<string> {
    if token == "" then Some(TokenMissing) else transport
  }

  /** A member matches a name when their handle or their display name is exactly that name. */
  predicate NamedBy(user: SlackUser, username: string) {
    user.name == username || user.profile.displayName == username
  }

  /** The index of the first member named by `username`, or -1. */
  function FirstNamed(members: seq<SlackUser>, username: string): (i: int)
    ensures -1 <= i < |members|
    ensures i >= 0 ==> NamedBy(members[i], username)
    ensures forall j :: 0 <= j < |members| && (i == -1 || j < i) ==> !NamedBy(members[j], username)
  {
    if members == [] then -1
    else if NamedBy(members[0], username) then 0
    else
      var i := FirstNamed(members[1..], username);
      if i == -1 then -1 else i + 1
  }

  /** What FindUserByUsername returns for a decoded member list. */
  function Search(members: seq<SlackUser>, username: string): Result<SlackUser, string> {
    var i := FirstNamed(members, username);
    if i == -1 then Failure("user not found: " + username) else Success(members[i])
  }

  /** slack.FindUserByUsername as a function of the token and the users.list outcome. */
  function FindUser(token: string, reply: Reply<seq<SlackUser>>, username: string): Result<SlackUser, string> {
    if token == "" then Failure(TokenMissing)
    else
      match reply
      case TransportError(message) => Failure(message)
      case Decoded(ok, error, members) => if !ok then Failure(ApiError(error)) else Search(members, username)
  }

  /** slack.FindUserByUsername: the token guard, the request's outcome, then the search loop. */
  method FindUserByUsername(token: string, reply: Reply<seq<SlackUser>>, username: string)
    returns (r: Result<SlackUser, string>)
    ensures r == FindUser(token, reply, username)
  {
    if token == "" {
      return Failure(TokenMissing);
    }
    if reply.TransportError? {
      return Failure(reply.message);
    }
    if !reply.ok {
      return Failure(ApiError(reply.error));
    }
    var members := reply.payload;
    for k := 0 to |members|
      invariant forall j :: 0 <= j < k ==> !NamedBy(members[j], username)
    {
      if members[k].name == username || members[k].profile.displayName == username {
        return Success(members[k]);
      }
    }
    r := Failure("user not found: " + username);
  }

  /**
   * The search returns the first member whose handle or display name equals the name, exactly
   * (case matters); when there is none it reports the name as not found.
   */
  lemma SearchFirstMatch(members: seq<SlackUser>, username: string)
    ensures var r := Search(members, username);
      && (r.Success? <==> exists i :: 0 <= i < |members| && NamedBy(members[i], username))
      && (r.Success? ==> exists i :: 0 <= i < |members| && members[i] == r.value && NamedBy(r.value, username)
                                      && forall j :: 0 <= j < i ==> !NamedBy(members[j], username))
      && (r.Failure? ==> r.error == "user not found: " + username)
  {
    var i := FirstNamed(members, username);
    if i >= 0 {
      assert members[i] == Search(members, username).value;
    }
  }

  /** The search is case-sensitive: "Alice" does not find a member whose names are "alice". */
  lemma SearchIsCaseSensitive()
    ensures var alice := SlackUser("U0ALICE01", "alice", "Alice A.", SlackProfile("alice", "Alice A."));
      Search([alice], "Alice") == Failure("user not found: Alice")
  {
    var alice := SlackUser("U0ALICE01", "alice", "Alice A.", SlackProfile("alice", "Alice A."));
    assert !NamedBy(alice, "Alice");
    assert [alice][1..] == [];
    assert FirstNamed([alice], "Alice") == -1;
    assert "user not found: " + "Alice" == "user not found: Alice";
  }

  /**
   * An empty token fails every Web API call before any request: the outcome of the request is
   * not looked at.
   */
  lemma EmptyTokenGuards(infoReply: Reply<SlackUser>, listReply: Reply<seq<SlackUser>>, username: string,
                         transport: Option<string>)
    ensures GetUserInfo("", infoReply) == Failure(TokenMissing)
    ensures FindUser("", listReply, username) == Failure(TokenMissing)
    ensures SendMessage("", transport) == Some(TokenMissing)
  {
  }

  /** A decoded `ok: false` body becomes an error carrying Slack's error string. */
  lemma ApiErrorsCarried(token: string, error: string, user: SlackUser, members: seq<SlackUser>, username: string)
    requires token != ""
    ensures GetUserInfo(token, Decoded(false, error, user)) == Failure("slack API error: " + error)
    ensures FindUser(token, Decoded(false, error, members), username) == Failure("slack API error: " + error)
  {
  }

  // ---------------------------------------------------------------------------------------
  // GetOrFindUser (helpers.go)

  /**
   * The identifier looks like a user id: its first byte is 'U' and it is at least 9 bytes
   * long. ASCII 'U' is a whole rune in UTF-8, so the first byte is 'U' exactly when the first
   * rune is; the length is the byte length.
   */
  predicate LooksLikeUserId(identifier: string) {
    |identifier| > 0 && identifier[0] == 'U' && Utf8Len(identifier) >= 9
  }

  function NotInWorkspace(identifier: string): string {
    "user '" + identifier + "' not found in Slack workspace"
  }

  /** slack.GetOrFindUser, given the token and the outcomes of the two possible requests. */
  function GetOrFindUser(token: string, identifier: string, infoReply: Reply<SlackUser>,
                         listReply: Reply<seq<SlackUser>>): Result<SlackUser, string>
  {
    if LooksLikeUserId(identifier) then GetUserInfo(token, infoReply)
    else
      match FindUser(token, listReply, identifier)
      case Failure(_) => Failure(NotInWorkspace(identifier))
      case Success(user) => Success(user)
  }

  /** An id-like identifier is looked up with users.info, whose result or error is passed on unchanged. */
  lemma GetOrFindUserById(token: string, identifier: string, infoReply: Reply<SlackUser>,
                          listReply: Reply<seq<SlackUser>>)
    requires LooksLikeUserId(identifier)
    ensures GetOrFindUser(token, identifier, infoReply, listReply) == GetUserInfo(token, infoReply)
  {
  }

  /**
   * Any other identifier is searched for by name. A success is passed on unchanged; every
   * failure (token, transport, API error, no match) is replaced by the same not-found error.
   */
  lemma GetOrFindUserByName(token: string, identifier: string, infoReply: Reply<SlackUser>,
                            listReply: Reply<seq<SlackUser>>)
    requires !LooksLikeUserId(identifier)
    ensures var r := GetOrFindUser(token, identifier, infoReply, listReply);
      var found := FindUser(token, listReply, identifier);
      && (found.Success? ==> r == found)
      && (found.Failure? ==> r == Failure("user '" + identifier + "' not found in Slack workspace"))
  {
  }

  /** For ASCII text, an id is a 'U' and at least eight more characters. */
  lemma UserIdAscii(identifier: string)
    requires All(identifier, 0, |identifier|, IsAscii)
    ensures LooksLikeUserId(identifier) <==> |identifier| >= 9 && identifier[0] == 'U'
  {
    Utf8LenAscii(identifier);
  }

  /** "U12345678" is taken for an id; "U1234567", one character short, is not. */
  lemma UserIdAsciiExamples(long: string, short: string)
    requires long == "U12345678" && short == "U1234567"
    ensures LooksLikeUserId(long) && !LooksLikeUserId(short)
  {
    UserIdAscii(long);
    UserIdAscii(short);
  }

  /** Only an upper-case 'U' starts an id. */
  lemma UserIdNeedsUpperU(identifier: string)
    requires |identifier| > 0 && identifier[0] != 'U'
    ensures !LooksLikeUserId(identifier)
  {
  }

  /** The length counts bytes: "Uéééé" has five runes but nine bytes, so it is taken for an id. */
  lemma UserIdCountsBytes()
    ensures LooksLikeUserId("Uéééé")
  {
    var s := "Uéééé";
    assert s[1..] == "éééé" && s[2..] == "ééé" && s[3..] == "éé" && s[4..] == "é";
    assert Utf8Len("é") == 2 by {
      assert "é"[1..] == "";
    }
    assert Utf8Len("éé") == 4 by {
      assert "éé"[1..] == "é";
    }
    assert Utf8Len("ééé") == 6 by {
      assert "ééé"[1..] == "éé";
    }
    assert Utf8Len("éééé") == 8 by {
      assert "éééé"[1..] == "ééé";
    }
  }
}
