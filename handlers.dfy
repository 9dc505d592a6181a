/**
 * The two HTTP handlers of the bot, without the HTTP: what a slash command or an event callback
 * is answered with at once, and what the job that runs after the answer does: which command it
 * runs, with what arguments, and what it posts back.
 *
 * The request body, the form, the decoded JSON payload, the clock, the HMAC function and the
 * outcome of every store call and Web API request are parameters. The job runs after the answer
 * has been sent; here it runs to completion before the next request.
 */
module Handlers {
  import opened Wrappers
  import opened Text
  import opened Models
  import opened Database
  import opened Commands
  import opened Slack

  // ---------------------------------------------------------------------------------------
  // The immediate answer

  /** The acknowledgement texts of the known slash commands. */
  const Acknowledgments: map<string, string> := map[
    "/balance" := "⏳ Checking your balance...",
    "/send" := "⏳ Processing transfer...",
    "/leaderboard" := "⏳ Loading leaderboard..."
  ]

  const DefaultAck: string := "⏳ Processing..."

  /**
   * The text a slash command is acknowledged with: the map's entry (Go's lookup gives "" for a
   * missing key), replaced by the fallback when it is empty.
   */
  function Ack(command: string): (r: string)
    ensures r != ""
    ensures r == DefaultAck <==> command != "/balance" && command != "/send" && command != "/leaderboard"
    ensures command == "/balance" ==> r == "⏳ Checking your balance..."
    ensures command == "/send" ==> r == "⏳ Processing transfer..."
    ensures command == "/leaderboard" ==> r == "⏳ Loading leaderboard..."
  {
    var ack := if command in Acknowledgments then Acknowledgments[command] else "";
    if ack == "" then DefaultAck else ack
  }

  /** What a request carries for the signature check: the raw body (None when it cannot be read) and the two headers. */
  datatype Request = Request(body: Option<string>, timestamp: string, signature: string)

  /** The answer a handler sends before any background work. */
  datatype HttpReply =
    | BadRequest
    | Unauthorized
    | Acknowledged(response: SlackResponse)
    | ChallengeEcho(challenge: string)
    | Accepted

  /** The request is readable and signed by Slack. */
  predicate Authentic(req: Request, secret: string, now: int, mac: Mac) {
    req.body.Some? && VerifySignature(req.timestamp, req.signature, req.body.value, secret, now, mac)
  }

  /**
   * The answer to a slash command: the body must be readable, then signed, and only then is the
   * form parsed (None when it cannot be); a parsed form is acknowledged ephemerally.
   */
  function SlashReply(req: Request, secret: string, now: int, mac: Mac, form: Option<SlashForm>): (r: HttpReply)
    ensures r == Unauthorized <==> req.body.Some? && !Authentic(req, secret, now, mac)
    ensures r.Acknowledged? <==> Authentic(req, secret, now, mac) && form.Some?
    ensures r.Acknowledged? ==> r.response == SlackResponse(Ack(form.value.command), "ephemeral")
    ensures r.BadRequest? || r.Unauthorized? || r.Acknowledged?
  {
    if req.body.None? then BadRequest
    else if !VerifySignature(req.timestamp, req.signature, req.body.value, secret, now, mac) then Unauthorized
    else if form.None? then BadRequest
    else Acknowledged(SlackResponse(Ack(form.value.command), "ephemeral"))
  }

  /**
   * The answer to an event callback: readable, then signed, then decoded (None when the JSON
   * does not decode); a url_verification payload is answered with its challenge, any other with
   * an empty 200.
   */
  function EventsReply(req: Request, secret: string, now: int, mac: Mac, payload: Option<EventPayload>): (r: HttpReply)
    ensures r == Unauthorized <==> req.body.Some? && !Authentic(req, secret, now, mac)
    ensures r.ChallengeEcho? <==>
      Authentic(req, secret, now, mac) && payload.Some? && payload.value.payloadType == "url_verification"
    ensures r.ChallengeEcho? ==> r.challenge == payload.value.challenge
    ensures r == Accepted <==>
      Authentic(req, secret, now, mac) && payload.Some? && payload.value.payloadType != "url_verification"
    ensures !r.Acknowledged?
  {
    if req.body.None? then BadRequest
    else if !VerifySignature(req.timestamp, req.signature, req.body.value, secret, now, mac) then Unauthorized
    else if payload.None? then BadRequest
    else if payload.value.payloadType == "url_verification" then ChallengeEcho(payload.value.challenge)
    else Accepted
  }

  /**
   * The handlers check signatures with the exact age of the request. They answer as the source's
   * int64 check would on every request whose age does not overflow an int64; the only requests
   * they treat differently are those of StaleCheckOverflows.
   */
  lemma AuthenticAsWritten(req: Request, secret: string, now: int, mac: Mac)
    requires ParseInt64(req.timestamp).Some? ==> MinInt64 <= now - ParseInt64(req.timestamp).value <= MaxInt64
    ensures Authentic(req, secret, now, mac)
        <==> req.body.Some? && VerifySignatureAsWritten(req.timestamp, req.signature, req.body.value, secret, now, mac)
  {
    if req.body.Some? {
      AsWrittenAgrees(req.timestamp, req.signature, req.body.value, secret, now, mac);
    }
  }

  /** A request that fails the signature check is refused the same way whatever its form or payload holds. */
  lemma UnauthorizedBeforeParsing(req: Request, secret: string, now: int, mac: Mac,
                                  form1: Option<SlashForm>, form2: Option<SlashForm>,
                                  payload1: Option<EventPayload>, payload2: Option<EventPayload>)
    requires req.body.Some? && !VerifySignature(req.timestamp, req.signature, req.body.value, secret, now, mac)
    ensures SlashReply(req, secret, now, mac, form1) == SlashReply(req, secret, now, mac, form2) == Unauthorized
    ensures EventsReply(req, secret, now, mac, payload1) == EventsReply(req, secret, now, mac, payload2) == Unauthorized
  {
  }

  // ---------------------------------------------------------------------------------------
  // Removing the first mention: `<@[A-Z0-9]+>\s*`, leftmost-first, over the raw event text.

  /**
   * `<@[A-Z0-9]+>\s*` matches t at h.start: the id is t[h.g1..h.e1], the `>` is at h.e1, and the
   * greedy `\s*` takes all the white space from h.g2 on, so the match ends at h.e2.
   */
  predicate TagHit(t: string, h: Hit) {
    && h.g1 == h.start + 2 && h.g1 < h.e1 && h.g2 == h.e1 + 1 && h.g2 <= h.e2 <= |t|
    && t[h.start] == '<' && t[h.start + 1] == '@' && t[h.e1] == '>'
    && All(t, h.g1, h.e1, IsUpperAlnum)
    && All(t, h.g2, h.e2, IsReSpace)
    && (h.e2 == |t| || !IsReSpace(t[h.e2]))
  }

  /** Tries the mention expression at position i only. */
  function TagHitAt(t: string, i: nat): (m: Option<Hit>)
    ensures m.Some? ==> TagHit(t, m.value) && m.value.start == i
  {
    if i + 2 <= |t| && t[i] == '<' && t[i + 1] == '@' then
      var e1 := RunEnd(t, i + 2, IsUpperAlnum);
      if i + 2 < e1 && e1 < |t| && t[e1] == '>' then
        Some(Hit(i, i + 2, e1, e1 + 1, RunEnd(t, e1 + 1, IsReSpace)))
      else None
    else None
  }

  /** Whatever the expression can match at a position, TagHitAt finds there. */
  lemma TagHitAtComplete(t: string, h: Hit)
    requires TagHit(t, h)
    ensures TagHitAt(t, h.start) == Some(h)
  {
    RunEndUnique(t, h.g1, h.e1, IsUpperAlnum);
    RunEndUnique(t, h.g2, h.e2, IsReSpace);
  }

  function TagMatcher(t: string): nat -> Option<Hit> {
    (j: nat) => TagHitAt(t, j)
  }

  /** regexp.FindStringIndex: where the leftmost match starts. */
  function TagSearch(t: string): Option<nat> {
    Leftmost(|t|, 0, TagMatcher(t))
  }

  /** The search finds a match, none starts before it, and it finds none only when there is none. */
  lemma TagSearchLeftmost(t: string)
    ensures TagSearch(t).Some? ==>
      TagHitAt(t, TagSearch(t).value).Some? && TagHit(t, TagHitAt(t, TagSearch(t).value).value)
    ensures forall h :: TagHit(t, h) ==> TagSearch(t).Some? && TagSearch(t).value <= h.start
  {
    assert forall k: nat :: TagMatcher(t)(k) == TagHitAt(t, k);
    forall h | TagHit(t, h)
      ensures TagSearch(t).Some? && TagSearch(t).value <= h.start
    {
      TagHitAtComplete(t, h);
    }
  }

  /**
   * The text of an event once its first mention is cut out, with the white space after the
   * mention, and the rest trimmed; text without a mention is kept as it is, untrimmed.
   */
  function StripFirstMention(text: string): string {
    match TagSearch(text)
    case None => text
    case Some(p) =>
      var h := TagHitAt(text, p).value;
      TrimSpace(text[..h.start] + text[h.e2..])
  }

  /** Text without any mention is left alone. */
  lemma StripNoMention(text: string)
    requires forall h :: !TagHit(text, h)
    ensures StripFirstMention(text) == text
  {
    TagSearchLeftmost(text);
  }

  /**
   * Only the leftmost mention goes, whoever it names, with the white space after it; what comes
   * before and after it (later mentions included) is kept, then trimmed.
   */
  lemma StripLeftmostMention(text: string, h: Hit)
    requires TagHit(text, h)
    requires forall h' :: TagHit(text, h') ==> h.start <= h'.start
    ensures StripFirstMention(text) == TrimSpace(text[..h.start] + text[h.e2..])
  {
    TagSearchLeftmost(text);
    var p := TagSearch(text).value;
    var m := TagHitAt(text, p).value;
    assert TagHit(text, m) && m.start == p <= h.start;
    assert h.start <= m.start;
    TagHitAtComplete(text, h);
    assert m == h;
  }

  // ---------------------------------------------------------------------------------------
  // The command word and the argument of `send`

  /**
   * The command of a mention: the first white-space separated field of the text, lower-cased;
   * None when the text is blank.
   */
  function CommandWord(text: string): (r: Option<string>)
    ensures r.None? <==> All(text, 0, |text|, IsSpace)
    ensures r.Some? ==>
      var lo := LeadingSpaces(text);
      && r.value != []
      && lo + |r.value| <= |text|
      && r.value == AsciiLower(text[lo..lo + |r.value|])
      && (lo + |r.value| == |text| || IsSpace(text[lo + |r.value|]))
  {
    var parts := Fields(text);
    if |parts| == 0 then None else Some(AsciiLower(parts[0]))
  }

  /**
   * The text handed to ParseSendCommand: with more than one field, what follows the first
   * "send" in the lower-cased text, trimmed; otherwise nothing.
   */
  function SendArgument(text: string): string {
    if |Fields(text)| > 1 then
      var idx := IndexOf(AsciiLower(text), "send");
      if idx >= 0 then TrimSpace(text[idx + 4..]) else ""
    else ""
  }

  /**
   * When the command is `send`, the first "send" is the command word itself, so the argument is
   * the trimmed rest of the text after it; a lone `send` has no argument.
   */
  lemma SendArgumentAfterCommand(text: string)
    requires CommandWord(text) == Some("send")
    ensures LeadingSpaces(text) + 4 <= |text|
    ensures SendArgument(text) == if |Fields(text)| > 1 then TrimSpace(text[LeadingSpaces(text) + 4..]) else ""
  {
    CommandWordSend(text);
    FirstSendAt(text, LeadingSpaces(text));
  }

  /** The command word "send" is the lower-cased four runes after the leading white space. */
  lemma CommandWordSend(text: string)
    requires CommandWord(text) == Some("send")
    ensures LeadingSpaces(text) + 4 <= |text|
    ensures AsciiLower(text[LeadingSpaces(text)..LeadingSpaces(text) + 4]) == "send"
  {
  }

  /** A "send" preceded by white space only is the first "send" of the lower-cased text. */
  lemma FirstSendAt(text: string, lo: nat)
    requires lo + 4 <= |text| && All(text, 0, lo, IsSpace)
    requires AsciiLower(text[lo..lo + 4]) == "send"
    ensures IndexOf(AsciiLower(text), "send") == lo
  {
    var low := AsciiLower(text);
    AsciiLowerSlice(text, lo, lo + 4);
    assert OccursAt(low, "send", lo);
    forall j | 0 <= j < lo ensures !OccursAt(low, "send", j) {
      AsciiLowerAt(text, j);
      assert IsSpace(text[j]) && low[j] != 's';
      if j + 4 <= |low| {
        assert low[j..j + 4][0] == low[j];
      }
    }
  }

  /** The argument of `send`, when there is one, is parsed from the text after the command word. */
  lemma LoneSendIsUsage(text: string)
    requires CommandWord(text) == Some("send") && |Fields(text)| == 1
    ensures !ParseSendCommand(SendArgument(text)).ok
  {
    SendArgumentAfterCommand(text);
    ParseBlank("");
  }

  // ---------------------------------------------------------------------------------------
  // The background job of an event callback

  /** Events of these two types are handled; every other type is ignored. */
  predicate IsHandledEvent(eventType: string) {
    eventType == "app_mention" || eventType == "message"
  }

  /** The thread a reply goes to: the event's thread, or the event itself when it starts one. */
  function ThreadTs(event: SlackEvent): string {
    if event.threadTs == "" then event.ts else event.threadTs
  }

  /** Which command the text of an event asks for; `send` carries its parsed argument. */
  datatype Dispatch = Ignore | RunBalance | RunSend(args: SendArgs) | RunLeaderboard | RunHelp | Unknown

  /**
   * The command an event of the given type asks for, given its text with the first mention
   * already removed.
   */
  function EventDispatch(eventType: string, text: string): Dispatch {
    if !IsHandledEvent(eventType) then Ignore
    else
      match CommandWord(text)
      case None => Ignore
      case Some(command) =>
        if command == "balance" then RunBalance
        else if command == "send" then RunSend(ParseSendCommand(SendArgument(text)))
        else if command == "leaderboard" then RunLeaderboard
        else if command == "help" then RunHelp
        else Unknown
  }

  /** Other event types, and text that is blank once the mention is gone, ask for nothing. */
  lemma DispatchIgnored(eventType: string, text: string)
    ensures EventDispatch(eventType, text) == Ignore <==> !IsHandledEvent(eventType) || All(text, 0, |text|, IsSpace)
  {
  }

  /** A command word other than the four the bot knows gets the Unknown reply. */
  lemma DispatchUnknown(eventType: string, text: string, command: string)
    requires IsHandledEvent(eventType) && CommandWord(text) == Some(command)
    ensures EventDispatch(eventType, text) == Unknown <==> command !in {"balance", "send", "leaderboard", "help"}
  {
  }

  /**
   * `send` (in any case) parses the trimmed text after the command word; a lone `send` is a
   * failed parse.
   */
  lemma DispatchSend(eventType: string, text: string)
    requires IsHandledEvent(eventType) && CommandWord(text) == Some("send")
    ensures LeadingSpaces(text) + 4 <= |text|
    ensures EventDispatch(eventType, text) == RunSend(
      if |Fields(text)| > 1 then ParseSendCommand(TrimSpace(text[LeadingSpaces(text) + 4..])) else NoMatch)
  {
    SendArgumentAfterCommand(text);
    if |Fields(text)| <= 1 {
      ParseBlank("");
    }
  }

  /** A message posted with chat.postMessage. */
  datatype Post = Post(channel: string, text: string, threadTs: string)

  /** The outcomes of the store calls and Web API requests a job may make. */
  datatype JobIo = JobIo(balance: GetUserIo, infoReply: Reply<SlackUser>,
                         listReply: Reply<seq<SlackUser>>, send: SendIo, rows: seq<Fetch>)

  /** What a job leaves behind: the reply it posts, if any, the store, and the store calls made. */
  datatype Outcome<T> = Outcome(reply: Option<T>, users: Users, calls: seq<StoreCall>)

  const EventUsage: string := "Usage: `@CorbacoinBot send @user amount`"
  const UnknownCommand: string := "Unknown command. Try `@CorbacoinBot help` for available commands."

  /** The reply when the recipient cannot be looked up: the identifier and the lookup's error. */
  function CouldNotFind(identifier: string, error: string): string {
    "Could not find user '" + identifier + "'. " + error
  }

  function InThread(event: SlackEvent, text: string): Post {
    Post(event.channel, text, ThreadTs(event))
  }

  /**
   * What the command d of an event callback written by `user` says, if anything, and what it
   * does to the store. The user is both the sender's id and name; a leaderboard that cannot be
   * read, like a failed post, is only logged.
   */
  function EventCommand(users: Users, user: string, d: Dispatch, token: string, io: JobIo): Outcome<string> {
    match d
    case Ignore => Outcome(None, users, [])
    case RunBalance =>
      var s := GetUserStep(users, user, user, io.balance);
      Outcome(Some(BalanceMessage(user, s.value.coins)), s.users, [GetUserCall(user)])
    case RunSend(args) =>
      if !args.ok then Outcome(Some(EventUsage), users, [])
      else
        (match GetOrFindUser(token, args.recipient, io.infoReply, io.listReply)
         case Failure(e) => Outcome(Some(CouldNotFind(args.recipient, e)), users, [])
         case Success(r) =>
           var t := TransferStep(users, user, user, r.id, r.name, args.amount, io.send);
           Outcome(Some(t.result.message), t.users, t.calls))
    case RunLeaderboard =>
      if HasBroken(io.rows) then Outcome(None, users, [])
      else Outcome(Some(BoardText(Gathered(io.rows))), users, [])
    case RunHelp => Outcome(Some(GetHelpMessage(true)), users, [])
    case Unknown => Outcome(Some(UnknownCommand), users, [])
  }

  /** The job of an event callback that asks for d: the command's reply goes to the event's thread. */
  function EventJob(users: Users, event: SlackEvent, d: Dispatch, token: string, io: JobIo): Outcome<Post> {
    var o := EventCommand(users, event.user, d, token, io);
    Outcome(if o.reply.Some? then Some(InThread(event, o.reply.value)) else None, o.users, o.calls)
  }

  /** Every command gets a reply except an ignored event and a leaderboard that cannot be read. */
  lemma EventCommandReplies(users: Users, user: string, d: Dispatch, token: string, io: JobIo)
    ensures EventCommand(users, user, d, token, io).reply.Some?
        <==> d != Ignore && !(d == RunLeaderboard && HasBroken(io.rows))
  {
    match d
    case RunSend(args) =>
      if args.ok {
        match GetOrFindUser(token, args.recipient, io.infoReply, io.listReply)
        case Failure(_) =>
        case Success(_) =>
      }
    case _ =>
  }

  /**
   * Every event that is not ignored gets a reply, unless the leaderboard cannot be read, and
   * every reply goes to the event's channel, in the event's thread or in a thread under the event.
   */
  lemma EventRepliesInThread(users: Users, event: SlackEvent, d: Dispatch, token: string, io: JobIo)
    ensures var o := EventJob(users, event, d, token, io);
      && (o.reply.Some? <==> d != Ignore && !(d == RunLeaderboard && HasBroken(io.rows)))
      && (o.reply.Some? ==>
            && o.reply.value.channel == event.channel
            && o.reply.value.threadTs == (if event.threadTs != "" then event.threadTs else event.ts))
  {
    EventCommandReplies(users, event.user, d, token, io);
  }

  /**
   * Only a balance request or a transfer to a user Slack found can touch the store; an ignored
   * event posts nothing, an unknown command gets the fixed hint, and a `send` that does not
   * parse gets the usage hint without any lookup or transfer.
   */
  lemma EventJobStore(users: Users, event: SlackEvent, d: Dispatch, token: string, io: JobIo)
    ensures var o := EventJob(users, event, d, token, io);
      && (o.calls != [] || o.users != users ==>
            d == RunBalance
            || (d.RunSend? && d.args.ok && GetOrFindUser(token, d.args.recipient, io.infoReply, io.listReply).Success?))
      && (d == Ignore ==> o == Outcome(None, users, []))
      && (d == Unknown ==> o == Outcome(Some(InThread(event, UnknownCommand)), users, []))
      && (d == RunHelp ==> o == Outcome(Some(InThread(event, GetHelpMessage(true))), users, []))
      && (d.RunSend? && !d.args.ok ==> o == Outcome(Some(InThread(event, EventUsage)), users, []))
  {
    match d
    case RunSend(args) =>
      if args.ok {
        match GetOrFindUser(token, args.recipient, io.infoReply, io.listReply)
        case Failure(_) =>
        case Success(_) =>
      }
    case _ =>
  }

  /** The `balance` branch of the event job: the writer's own balance, looked up by their id. */
  method EventBalance(store: Store, event: SlackEvent, threadTs: string, token: string, io: JobIo)
    returns (post: Option<Post>)
    requires threadTs == ThreadTs(event)
    modifies store
    ensures var o := EventJob(old(store.users), event, RunBalance, token, io);
      && post == o.reply
      && store.users == o.users
      && store.calls == old(store.calls) + o.calls
  {
    var message := HandleBalance(store, event.user, event.user, io.balance);
    post := Some(Post(event.channel, message, threadTs));
  }

  /** The `send` branch of the event job: look the parsed recipient up, then transfer. */
  method EventTransfer(store: Store, event: SlackEvent, threadTs: string, args: SendArgs, token: string, io: JobIo)
    returns (post: Option<Post>)
    requires threadTs == ThreadTs(event)
    modifies store
    ensures var o := EventJob(old(store.users), event, RunSend(args), token, io);
      && post == o.reply
      && store.users == o.users
      && store.calls == old(store.calls) + o.calls
  {
    if !args.ok {
      return Some(Post(event.channel, EventUsage, threadTs));
    }
    var recipient := GetOrFindUser(token, args.recipient, io.infoReply, io.listReply);
    if recipient.Failure? {
      return Some(Post(event.channel, CouldNotFind(args.recipient, recipient.error), threadTs));
    }
    var result := HandleSend(store, event.user, event.user, recipient.value.id, recipient.value.name, args.amount, io.send);
    post := Some(Post(event.channel, result.message, threadTs));
  }

  /** The `leaderboard` branch of the event job; a board that cannot be read posts nothing. */
  method EventLeaderboard(store: Store, event: SlackEvent, threadTs: string, token: string, io: JobIo)
    returns (post: Option<Post>)
    requires threadTs == ThreadTs(event)
    ensures EventJob(store.users, event, RunLeaderboard, token, io) == Outcome(post, store.users, [])
  {
    var board := HandleLeaderboard(store, io.rows);
    if board.Failure? {
      return None;
    }
    post := Some(Post(event.channel, board.value, threadTs));
  }

  /** The job of an event callback that asks for d, over the store. */
  method RunEventCommand(store: Store, event: SlackEvent, threadTs: string, d: Dispatch, token: string, io: JobIo)
    returns (post: Option<Post>)
    requires threadTs == ThreadTs(event)
    modifies store
    ensures var o := EventJob(old(store.users), event, d, token, io);
      && post == o.reply
      && store.users == o.users
      && store.calls == old(store.calls) + o.calls
  {
    match d
    case Ignore =>
      post := None;
    case RunBalance =>
      post := EventBalance(store, event, threadTs, token, io);
    case RunSend(args) =>
      post := EventTransfer(store, event, threadTs, args, token, io);
    case RunLeaderboard =>
      post := EventLeaderboard(store, event, threadTs, token, io);
    case RunHelp =>
      post := Some(Post(event.channel, GetHelpMessage(true), threadTs));
    case Unknown =>
      post := Some(Post(event.channel, UnknownCommand, threadTs));
  }

  /**
   * The event handler's job, over the store: the command is read off the text once its first
   * mention is gone (later ones may name the recipient), and the reply goes to the thread.
   */
  method HandleEvent(store: Store, event: SlackEvent, token: string, io: JobIo) returns (post: Option<Post>)
    modifies store
    ensures var o := EventJob(old(store.users), event, EventDispatch(event.eventType, StripFirstMention(event.text)), token, io);
      && post == o.reply
      && store.users == o.users
      && store.calls == old(store.calls) + o.calls
  {
    if !IsHandledEvent(event.eventType) {
      DispatchIgnored(event.eventType, StripFirstMention(event.text));
      return None;
    }
    var threadTs := event.threadTs;
    if threadTs == "" {
      threadTs := event.ts;
    }
    var text := StripFirstMention(event.text);
    var d := EventDispatch(event.eventType, text);
    post := RunEventCommand(store, event, threadTs, d, token, io);
  }

  /**
   * handlers.SlackEvents: the answer, then the job. Only an accepted event callback does
   * anything more; a url_verification handshake gets its challenge back and nothing else.
   */
  method SlackEvents(store: Store, req: Request, secret: string, now: int, mac: Mac,
                     payload: Option<EventPayload>, token: string, io: JobIo)
    returns (reply: HttpReply, post: Option<Post>)
    modifies store
    ensures reply == EventsReply(req, secret, now, mac, payload)
    ensures reply != Accepted ==>
      post.None? && store.users == old(store.users) && store.calls == old(store.calls)
    ensures reply == Accepted ==>
      var e := payload.value.event;
      var o := EventJob(old(store.users), e, EventDispatch(e.eventType, StripFirstMention(e.text)), token, io);
      post == o.reply && store.users == o.users && store.calls == old(store.calls) + o.calls
  {
    reply := EventsReply(req, secret, now, mac, payload);
    if reply != Accepted {
      return reply, None;
    }
    post := HandleEvent(store, payload.value.event, token, io);
  }

  // ---------------------------------------------------------------------------------------
  // The background job of a slash command

  const SlashUsage: string := "Usage: `/send @user amount`"
  const GenericError: string := "An error occurred. Please try again later."

  /** A result posted to the response URL for everyone in the channel to see. */
  function InChannel(text: string): SlackResponse {
    SlackResponse(text, "in_channel")
  }

  /**
   * The job of a slash command: the form's user id and name are the sender's; failures go back
   * as the ephemeral error reply addressed to the user id; other commands post nothing.
   */
  function SlashJob(users: Users, form: SlashForm, token: string, io: JobIo): Outcome<SlackResponse> {
    var user := form.userId;
    if form.command == "/balance" then
      var s := GetUserStep(users, user, form.userName, io.balance);
      Outcome(Some(InChannel(BalanceMessage(user, s.value.coins))), s.users, [GetUserCall(user)])
    else if form.command == "/send" then
      var args := ParseSendCommand(form.text);
      if !args.ok then Outcome(Some(ErrorResponse(SlashUsage, user)), users, [])
      else
        (match GetOrFindUser(token, args.recipient, io.infoReply, io.listReply)
         case Failure(e) => Outcome(Some(ErrorResponse(CouldNotFind(args.recipient, e), user)), users, [])
         case Success(r) =>
           var t := TransferStep(users, user, form.userName, r.id, r.name, args.amount, io.send);
           var response := if t.result.success then InChannel(t.result.message) else ErrorResponse(t.result.message, user);
           Outcome(Some(response), t.users, t.calls))
    else if form.command == "/leaderboard" then
      if HasBroken(io.rows) then Outcome(Some(ErrorResponse(GenericError, user)), users, [])
      else Outcome(Some(InChannel(BoardText(Gathered(io.rows)))), users, [])
    else Outcome(None, users, [])
  }

  /**
   * Only `/balance` or a `/send` whose recipient Slack found can touch the store; a leaderboard
   * that cannot be read is reported with the generic error, addressed to the user.
   */
  lemma SlashJobStore(users: Users, form: SlashForm, token: string, io: JobIo)
    ensures var o := SlashJob(users, form, token, io);
      && (o.calls != [] || o.users != users ==>
            || form.command == "/balance"
            || (&& form.command == "/send" && ParseSendCommand(form.text).ok
                && GetOrFindUser(token, ParseSendCommand(form.text).recipient, io.infoReply, io.listReply).Success?))
      && (form.command == "/leaderboard" && HasBroken(io.rows) ==>
            o == Outcome(Some(ErrorResponse(GenericError, form.userId)), users, []))
  {
  }

  /** A command other than the three known ones posts nothing and touches no account. */
  lemma SlashUnknownCommand(users: Users, form: SlashForm, token: string, io: JobIo)
    requires form.command !in Acknowledgments
    ensures SlashJob(users, form, token, io) == Outcome(None, users, [])
  {
  }

  /** A `/send` whose text does not parse gets the usage reply: no lookup, no transfer, no store call. */
  lemma SlashSendUsage(users: Users, form: SlashForm, token: string, io: JobIo)
    requires form.command == "/send" && !ParseSendCommand(form.text).ok
    ensures SlashJob(users, form, token, io) == Outcome(Some(ErrorResponse(SlashUsage, form.userId)), users, [])
  {
  }

  /** The slash handler's job, over the store. */
  method HandleSlashCommand(store: Store, form: SlashForm, token: string, io: JobIo)
    returns (response: Option<SlackResponse>)
    modifies store
    ensures var o := SlashJob(old(store.users), form, token, io);
      && response == o.reply
      && store.users == o.users
      && store.calls == old(store.calls) + o.calls
  {
    var user := form.userId;
    if form.command == "/balance" {
      // HandleBalance cannot fail, so the generic error reply is never sent here.
      var message := HandleBalance(store, user, form.userName, io.balance);
      response := Some(InChannel(message));
    } else if form.command == "/send" {
      var args := ParseSendCommand(form.text);
      if !args.ok {
        return Some(ErrorResponse(SlashUsage, user));
      }
      var recipient := GetOrFindUser(token, args.recipient, io.infoReply, io.listReply);
      if recipient.Failure? {
        return Some(ErrorResponse(CouldNotFind(args.recipient, recipient.error), user));
      }
      var result := HandleSend(store, user, form.userName, recipient.value.id, recipient.value.name, args.amount, io.send);
      if result.success {
        response := Some(InChannel(result.message));
      } else {
        response := Some(ErrorResponse(result.message, user));
      }
    } else if form.command == "/leaderboard" {
      var board := HandleLeaderboard(store, io.rows);
      if board.Failure? {
        return Some(ErrorResponse(GenericError, user));
      }
      response := Some(InChannel(board.value));
    } else {
      response := None;
    }
  }

  /** handlers.SlackCommand: the acknowledgement, then the job; a refused request does nothing more. */
  method SlackCommand(store: Store, req: Request, secret: string, now: int, mac: Mac,
                      form: Option<SlashForm>, token: string, io: JobIo)
    returns (reply: HttpReply, response: Option<SlackResponse>)
    modifies store
    ensures reply == SlashReply(req, secret, now, mac, form)
    ensures !reply.Acknowledged? ==>
      response.None? && store.users == old(store.users) && store.calls == old(store.calls)
    ensures reply.Acknowledged? ==>
      var o := SlashJob(old(store.users), form.value, token, io);
      response == o.reply && store.users == o.users && store.calls == old(store.calls) + o.calls
  {
    reply := SlashReply(req, secret, now, mac, form);
    if !reply.Acknowledged? {
      return reply, None;
    }
    response := HandleSlashCommand(store, form.value, token, io);
  }
}
