# corbacoin-bot in Dafny

A model of the core of corbacoin-bot, a Slack bot that keeps a small currency ("corbacoins")
in a document store and lets workspace members check their balance, send coins to each
other and look at a leaderboard. It does so through slash commands (`/balance`, `/send`,
`/leaderboard`) and through mentions of the bot in channels.

The model covers four pieces.

- **The ledger.** `Database` models the "users" collection of the store. It is a map from
  user id to document, and a document either decodes into a `User` or does not. The
  `Store` class keeps that map and a ghost log of the ledger calls made. Its methods are the
  three database operations:
  - `GetUser`: get-or-create with a 5-coin grant;
  - `UpdateCoins`: read, add a signed delta, write back;
  - `GetLeaderboard`: drain the ordered, limited query, skipping undecodable documents.

  Whether each read or write succeeds is an input, and so are the rows the query yields.
  Each method is proved against a function of the old collection (`GetUserStep`,
  `UpdateCoinsStep`, `Gathered`), and the lemmas about those functions state what the Go
  code promises.
- **The commands.** `Commands` holds `ParseSendCommand`, written out as a matcher for the
  two regular expressions of the source under RE2's classes and leftmost-first
  semantics. It also holds the transfer `HandleSend`, a method over the store proved
  against `TransferStep`, and the balance and leaderboard replies.
- **Request checks and Slack lookups.** `Slack` holds `VerifySignature`, with the clock and
  HMAC-SHA256 as parameters. Lower-case hex (section 8 of RFC 4648) is modelled concretely in
  `Hex`. `Slack` also holds the ephemeral error reply, the token guards, the first-match
  search over `users.list`, and the `GetOrFindUser` rule that sends an identifier to
  `users.info` or to the name search.
- **The handlers.** `Handlers` holds the HTTP answers (acknowledgement text, 401 before
  any parsing, the url_verification challenge) and the event filter. It also holds the
  thread fallback, the removal of the first `<@…>` mention, the lower-cased command word,
  the `send` argument and the dispatch of a command. The background jobs of both handlers
  are methods over the store, proved against `EventJob` and `SlashJob`.

`Text` models the Go string functions the core relies on:
- `strings.TrimSpace`, `strings.Fields`, `strings.Index` and `strings.ToLower`;
- `len` in bytes;
- `%d`;
- `strconv.ParseInt` (which `strconv.Atoi` equals on 64-bit platforms).

A Go string is a `string` whose characters stand for its runes. `Wrappers` holds `Option`
and `Result`. `Models` holds the plain record types.

Where the code and its comments disagree, the model follows the code:
- the member search is case-sensitive, although its comment says otherwise;
- a read failure of any kind takes GetUser's create path;
- the first mention removed from an event's text is the leftmost one, whoever it names. So
  in a `message` event without a bot mention, `send <@U123ABC456> 100` loses the recipient's
  mention and sends to no one.

## Model

| member | source | states |
|---|---|---|
| Text.TrimSpace | commands/commands.go:32 | The result starts at the first non-space rune, is a slice of the input, and is followed by white space only; it neither starts nor ends with white space |
| Text.TrimSpaceEmpty | handlers/handlers.go:175 | Trimming leaves nothing exactly when the text is all white space |
| Text.TrimSpaceUntouched | commands/commands.go:32 | Text that neither starts nor ends with white space is unchanged by trimming |
| Text.TrimSpaceIdempotent | commands/commands.go:32 | Trimming twice equals trimming once (the event text is trimmed once when the mention is removed and again by the parser) |
| Text.Fields | handlers/handlers.go:179 | Every field is non-empty and free of white space; there are none exactly when the text is blank; the first field starts after the leading white space and ends at white space or the end |
| Text.FieldsRest | handlers/handlers.go:179 | After the first field, the remaining fields are exactly the fields of the text that follows the first field |
| Text.FieldsMoreThanOne | handlers/handlers.go:199 | There is more than one field exactly when something other than white space follows the end of the first field |
| Text.AsciiLowerAt | handlers/handlers.go:184 | Lower-casing works rune by rune: the k-th rune of the result is the k-th rune lower-cased |
| Text.AsciiLowerSlice | handlers/handlers.go:201 | Lower-casing a slice equals slicing the lower-cased text, so an index found in the lower-cased text is valid in the original |
| Text.IndexOf | handlers/handlers.go:201 | The result is -1 or a position where the pattern occurs, and the pattern occurs at no earlier position |
| Text.Utf8Len | slack/helpers.go:14 | The byte length of a string lies between its rune count and four times it |
| Text.Utf8LenAscii | slack/helpers.go:14 | For ASCII text the byte length equals the rune count |
| Text.NatToDecimal | commands/commands.go:22 | `%d` of a natural number: non-empty decimal digits whose value is the number, with no leading zero |
| Text.IntToDecimal | commands/commands.go:22 | `%d` of an int is non-empty and starts with a minus sign exactly when the number is negative |
| Text.ParseInt64 | slack/slack.go:173 | A successful parse yields a value within the int64 range |
| Text.ParseIntToDecimal | slack/slack.go:173 | Parsing what `%d` prints gives back the number, for every int64 |
| Text.ParseDigits | commands/commands.go:36 | A run of digits parses to its value exactly when that value fits an int64, and fails otherwise |
| Hex.EncodeToString | slack/slack.go:188 | The encoding has two lower-case hex digits per byte |
| Hex.DecodeEncode | slack/slack.go:188 | Decoding an encoding gives back the bytes |
| Hex.EncodeDecode | slack/slack.go:188 | Every even-length string of lower-case hex digits decodes, and encoding the result gives back the string |
| Database.EffectiveLimit | database/database.go:93-95 | A non-positive limit becomes 10; a positive one is kept |
| Database.GatheredFromRows | database/database.go:104-123 | Every user on the board is the user of some decodable row, and there are no more users than rows |
| Database.GatheredDescending | database/database.go:104-121 | Skipping undecodable rows keeps the order: rows in non-increasing order of coins give a board in non-increasing order |
| Database.GatheredAll | database/database.go:104-123 | Without an iteration error, the user of every decodable row is on the board |
| Database.GatheredHighest | database/database.go:92-124 | When the query served its top rows without an error, the board holds the highest balances (`HoldsHighest`): every decodable account whose document id is among the rows is on the board, and an account whose id is not among them has no more coins than anyone on it. An account is left off the board only when the limit was reached |
| Database.TopTwoExample | database/database.go:97-124 | With balances 50, 30, 80 and 10 and a limit of 2, every error-free result of the query gives the board [80, 50], in that order |
| Database.TopTwoRows | database/database.go:97-99 | In the same example, the rows of 80 and 50, with their ids, are a result the query may serve |
| Database.TopTwoServed | database/database.go:97-99 | Over four accounts whose two richest are strictly ahead, an error-free top-two result is exactly those two documents, richest first |
| Database.ServedTwo | database/database.go:97-99 | An error-free top-two result over two or more decodable accounts has two rows: distinct stored documents, richer first, and every other account has at most the second row's coins |
| Database.GetUserFrame | database/database.go:20-61 | GetUser touches no document but the user's own, and writes at most the user it returns |
| Database.GetUserResult | database/database.go:20-61 | GetUser returns the stored record unchanged, or a fresh account for the user's id with the 5-coin grant |
| Database.GetUserStored | database/database.go:54-60 | A readable, decodable document is returned exactly as stored, and nothing is written |
| Database.GetUserUndecodable | database/database.go:55-57 | A readable document that does not decode yields a default 5-coin user under the given name, and nothing is written |
| Database.GetUserCreates | database/database.go:22-51 | Any failed read takes the create path: a 5-coin account under the chosen name, stored exactly when the write succeeds; a failed write still returns it and leaves the collection unchanged |
| Database.ReadFailureResetsBalance | database/database.go:22-45 | A transient read failure on an existing account overwrites it with the 5-coin grant |
| Database.GetUserCreateThenGet | database/database.go:22-60 | An account GetUser created is found unchanged by the next GetUser that can read it |
| Database.NewUsernamePreference | database/database.go:26-37 | A new account is named with the given name, else the name from Slack, else the user id |
| Database.GetUserStep | database/database.go:20-61 | Definition of GetUser's outcome, with no contract of its own: a failed read or a missing document creates a 5-coin account under the chosen name, kept when the write succeeds; an undecodable document gives a default 5-coin user; a stored record is returned as stored. The GetUser lemmas above state its properties |
| Database.UpdateCoinsStep | database/database.go:64-89 | Definition of UpdateCoins' outcome, with no contract of its own: a read, decode or write failure leaves the collection as it was; otherwise the balance goes up by delta. Database.UpdateCoinsOutcome, UpdateCoinsSupply and UpdateCoinsInverse state its properties |
| Database.UpdateCoinsOutcome | database/database.go:64-89 | UpdateCoins succeeds exactly when the document can be read and decoded and the write succeeds; then it returns old + delta and changes only that document's coins; any failure changes nothing |
| Database.UpdateCoinsSupply | database/database.go:78-88 | A successful UpdateCoins changes the sum of all balances by exactly delta |
| Database.UpdateCoinsInverse | database/database.go:78-88 | Adding delta and then -delta, both successfully, restores the collection and returns the original balance |
| Database.Store.constructor | database/database.go:14-17 | The store starts with the given collection and an empty call log |
| Database.Store.GetUser | database/database.go:20-61 | The returned user and the new collection are GetUserStep's, and exactly one GetUser call is logged |
| Database.Store.UpdateCoins | database/database.go:64-89 | The result and the new collection are UpdateCoinsStep's, and exactly one UpdateCoins call is logged |
| Database.Store.GetLeaderboard | database/database.go:92-124 | The iterator loop gathers the decodable rows up to the first error and reports an error exactly when there is one. When the query behaves as specified, the board has at most `limit` users, is in non-increasing order and holds only stored users; without an error it holds the highest balances (every listed decodable account is on it; every unlisted one has no more coins than anyone on it), and an account is left off only when the limit was reached |
| Commands.MentionHitAt | commands/commands.go:31 | A match found at a position is a match of `<@([A-Z0-9]+)>\s+(\d+)` starting there |
| Commands.MentionHitAtComplete | commands/commands.go:31 | Any match of the mention expression, with its groups as greedy matching fixes them, is the one found at its start position |
| Commands.WordHitAt | commands/commands.go:45 | A match found at a position is a match of `@?(\w+)\s+(\d+)` starting there |
| Commands.WordHitAtComplete | commands/commands.go:45 | Any match of the bare-word expression is the one found at its start position |
| Commands.Leftmost | commands/commands.go:32 | The unanchored search returns the first position at which the anchored matcher succeeds, and None only if it succeeds nowhere |
| Commands.MentionSearchLeftmost | commands/commands.go:31-32 | The mention search finds a match, and no match starts before the one it finds |
| Commands.WordSearchLeftmost | commands/commands.go:45-46 | The bare-word search finds a match, and no match starts before the one it finds |
| Commands.MentionSearchFinds | commands/commands.go:31-32 | The leftmost match of the mention expression is the one the search returns |
| Commands.WordSearchFinds | commands/commands.go:45-46 | The leftmost match of the bare-word expression is the one the search returns |
| Commands.Captured | commands/commands.go:35-39 | Converting a match succeeds with a non-empty recipient and an amount in 0..MaxInt64, or fails with ("", 0, false) |
| Commands.CapturedExpected | commands/commands.go:54-57 | A match yields the first group and the value of the digits when that value fits an int64, and fails when Atoi overflows |
| Commands.ParseSendCommand | commands/commands.go:27-61 | Every success has a non-empty recipient and an amount between 0 and MaxInt64; every failure is ("", 0, false) |
| Commands.ParseMentionForm | commands/commands.go:30-42 | When the mention expression matches the trimmed text, its leftmost match decides the result |
| Commands.ParseWordForm | commands/commands.go:44-60 | With no mention match, the leftmost bare-word match decides the result |
| Commands.ParseNoMatch | commands/commands.go:48-51 | Text where neither expression matches fails |
| Commands.ParseBlank | commands/commands.go:48-51 | Blank text fails |
| Commands.ParseSuccessHasMatch | commands/commands.go:27-61 | Any success comes from a match of one of the two expressions in the trimmed text |
| Commands.MentionLine | commands/commands.go:30-42 | Text that starts with `<@ID>`, white space and digits gives that id and the digits' value, whatever follows the digits |
| Commands.WordLine | commands/commands.go:44-60 | Text that is an optional `@`, a word, a space and digits (then no digit and no `<`) gives the word and the digits' value |
| Commands.ParseWithoutSpacedNumber | commands/commands.go:44-51 | Text in which no digit follows white space fails, because both expressions need `\s+` right before the digits |
| Commands.ParseMentionExample | commands/commands.go:30-42 | `<@U123ABC456> 100` gives ("U123ABC456", 100, true) |
| Commands.ParseAtWordExample | commands/commands.go:44-60 | `@alice 50` gives ("alice", 50, true): the leading @ of a plain name is dropped |
| Commands.ParseWordExamples | commands/commands.go:44-60 | `alice 50` and `alice 50 coins` give ("alice", 50, true) |
| Commands.ParseZeroExample | commands/commands.go:53-60 | `alice 0` is accepted with amount 0 |
| Commands.ParseNoAmountExamples | commands/commands.go:48-51 | `alice` and `alice -5` give ("", 0, false) |
| Commands.TransferStep | commands/commands.go:64-117 | Definition of the transfer's outcome, with no contract of its own: refuse a non-positive amount, look the sender up and refuse a short balance, look the recipient up, then settle. The Transfer lemmas below state its properties |
| Commands.Settle | commands/commands.go:96-116 | Definition of the settling phase, with no contract of its own: debit, then credit, then one compensating credit if the credit fails. TransferSuccess, TransferDebitFails, TransferCreditFails and TransferRollback state its properties |
| Commands.TransferNonPositive | commands/commands.go:65-70 | An amount ≤ 0 fails with "Amount must be positive!", with no store call and no change |
| Commands.TransferInsufficientFunds | commands/commands.go:72-85 | Too small a balance fails with a message carrying that balance, after a single GetUser; the only possible change is a write of the sender's document by GetUser's create path, which may reset an existing account |
| Commands.TransferFrame | commands/commands.go:64-117 | Accounts other than the two parties are never touched, whatever the outcome |
| Commands.TransferSuccess | commands/commands.go:96-116 | A success made the four calls in order, debited the sender and credited the recipient by the amount, and reports both parties and the amount. The supply is conserved between distinct parties, and a self-transfer leaves the balances as the lookups left them |
| Commands.TransferSucceeds | commands/commands.go:64-116 | Conversely, a positive amount the sender can cover, decodable or absent accounts, and lookups, debit and credit that reach the store make the transfer succeed with the "sent" message, a transfer to oneself included |
| Commands.DebitThenCredit | commands/commands.go:97-104 | A successful debit and then a successful credit move the amount between two accounts and keep the supply; on one account they cancel out |
| Commands.TransferSteps | commands/commands.go:96-116 | A success went through a successful debit and a successful credit and nothing after them |
| Commands.TransferKeepsSenderSolvent | commands/commands.go:80-102 | When the sender's lookup could read the store, a successful transfer leaves the sender with a non-negative balance, whatever happened to the recipient's lookup |
| Commands.TransferOverdraftUnderFaults | commands/commands.go:72-102 | When the sender's read and create both fail, the funds check sees the 5-coin default while the debit reads the stored balance, so the stored balance can go negative |
| Commands.TransferDebitFails | commands/commands.go:97-102 | A failed debit ends the transfer with "Error processing transfer. Please try again." and leaves the collection as the lookups left it |
| Commands.TransferCreditFails | commands/commands.go:104-111 | A failed credit is followed by exactly one credit of the amount back to the sender, and the transfer fails |
| Commands.TransferRollback | commands/commands.go:104-111 | When that compensating credit succeeds, the collection is back to what the lookups left |
| Commands.TransferRefundFails | commands/commands.go:104-111 | When the compensating credit fails too, the sender stays debited and the amount is lost from the supply |
| Commands.TransferExample | commands/commands.go:96-116 | Balances 10 and 5, with 3 sent, become 7 and 8 |
| Commands.HandleSend | commands/commands.go:64-117 | The reply, the new collection and the calls made are those of TransferStep on the old collection |
| Commands.SettleTransfer | commands/commands.go:96-116 | The debit, the credit and the compensating credit act as Settle describes on the collection the lookups left |
| Commands.HandleBalance | commands/commands.go:16-23 | The reply is `<@id> has N :corbacoin:` for the balance GetUser returns, after exactly one GetUser |
| Commands.BalanceOfNewUser | commands/commands.go:16-23 | A user the collection has never seen is reported with 5 coins |
| Commands.NumberedStartsWithFirst | commands/commands.go:132-134 | In lines numbered from 1, the first user's line comes first |
| Commands.BodyStartsWithLeader | commands/commands.go:132-134 | The board's body starts with the first user's line, ranked 1 |
| Commands.NumberedSnoc | commands/commands.go:132-134 | In lines numbered from 1, one more user adds one line, with the next rank, at the end |
| Commands.BoardStartsWithLeader | commands/commands.go:130-134 | The board starts with the header and then the first user's line, ranked 1 |
| Commands.BoardGrows | commands/commands.go:132-134 | One more user adds one line, numbered with the next rank, at the end of the board |
| Commands.WriteBoard | commands/commands.go:130-136 | The builder loop writes the header and then one numbered line per user, in list order |
| Commands.HandleLeaderboard | commands/commands.go:120-137 | The leaderboard fails exactly when the query does; otherwise it is the header plus one line per user, or the "No users found." text. When the query behaves as specified, it lists at most 10 users in non-increasing order, and they hold the highest balances of the collection: every decodable account among the rows is listed, and every other one has no more coins than anyone listed |
| Slack.VerifySignature | slack/slack.go:163-191 | Definition of the signature check with the exact age `now - ts`, with no contract of its own: both headers present, a base-10 int64 timestamp, an age of at most 300 seconds, and the "v0=" hex HMAC of `v0:timestamp:body`. The Verify lemmas below state its properties |
| Slack.VerifySignatureAsWritten | slack/slack.go:163-191 | Definition of the check as the source computes it, with the age wrapped to int64, and no contract of its own. Slack.AsWrittenAgrees and Slack.StaleCheckOverflows relate it to the exact check |
| Slack.VerifyNeedsHeaders | slack/slack.go:164-170 | A missing timestamp or signature header is refused |
| Slack.VerifyNeedsNumericTimestamp | slack/slack.go:173-177 | A timestamp that is not a base-10 int64 is refused |
| Slack.VerifyRejectsStale | slack/slack.go:173-182 | A request more than 300 seconds old is refused, whatever its signature and however its timestamp is spelt (a leading `+` or zeros included) |
| Slack.VerifyAcceptsGenuine | slack/slack.go:173-190 | A request carrying the genuine signature for its timestamp header, under any spelling that parses, is accepted when it is at most 300 seconds old, the boundary and future timestamps included |
| Slack.VerifyAcceptsCanonical | slack/slack.go:173-190 | A genuine request whose timestamp header is `%d` of its Unix time is accepted while it is at most 300 seconds old |
| Slack.VerifySound | slack/slack.go:185-190 | An accepted signature is "v0=" followed by lower-case hex that decodes to exactly the MAC of `v0:timestamp:body` |
| Slack.Wrap64 | slack/slack.go:179 | The int64 wrap-around lies in the int64 range and is the identity on it |
| Slack.AsWrittenAgrees | slack/slack.go:163-191 | When the subtraction does not overflow, the check as written and the exact check agree |
| Slack.StaleCheckOverflows | slack/slack.go:179-182 | A genuine signature dated more than MaxInt64 seconds before now passes the staleness check as written, but the exact check refuses it |
| Slack.ErrorResponseShape | slack/slack.go:41-47 | The error reply is ephemeral and is the error text verbatim after "❌ ", or after "❌ <@user> " when a user is given |
| Slack.FirstNamed | slack/slack.go:153-157 | Returns the index of the first member whose handle or display name equals the name, or -1 when none does |
| Slack.FindUserByUsername | slack/slack.go:121-160 | The token guard, the request's outcome and then the search loop give FindUser's result |
| Slack.SearchFirstMatch | slack/slack.go:152-159 | The search succeeds exactly when some member's handle or display name equals the name, and returns the first such member; otherwise it fails with "user not found: name" |
| Slack.SearchIsCaseSensitive | slack/slack.go:152-156 | "Alice" does not find a member whose names are "alice" |
| Slack.EmptyTokenGuards | slack/slack.go:51-124 | With an empty token, SendMessage, GetUserInfo and FindUserByUsername fail before any request, whatever the request would have returned |
| Slack.ApiErrorsCarried | slack/slack.go:112-150 | A decoded `ok: false` answer becomes the error "slack API error: " plus Slack's error string |
| Slack.GetOrFindUser | slack/helpers.go:12-26 | Definition of the routing, with no contract of its own: an id-like identifier goes to users.info, any other to the name search, whose failures become the not-found error. GetOrFindUserById and GetOrFindUserByName state it |
| Slack.GetOrFindUserById | slack/helpers.go:14-17 | An identifier that looks like a user id goes to users.info, whose result or error is passed on unchanged |
| Slack.GetOrFindUserByName | slack/helpers.go:19-25 | Any other identifier is searched by name: a success is passed on unchanged, and every failure becomes "user 'identifier' not found in Slack workspace" |
| Slack.UserIdAscii | slack/helpers.go:14 | An ASCII identifier looks like a user id exactly when it starts with 'U' and has at least 9 characters |
| Slack.UserIdAsciiExamples | slack/helpers.go:14 | "U12345678" looks like a user id; "U1234567" does not |
| Slack.UserIdNeedsUpperU | slack/helpers.go:14 | An identifier that does not start with an upper-case 'U' is never taken for a user id |
| Slack.UserIdCountsBytes | slack/helpers.go:14 | The length test counts bytes: "Uéééé" has five runes and is still taken for a user id |
| Handlers.Ack | handlers/handlers.go:52-61 | The acknowledgement is never empty: "⏳ Checking your balance...", "⏳ Processing transfer..." and "⏳ Loading leaderboard..." for /balance, /send and /leaderboard, and "⏳ Processing..." exactly for every other command |
| Handlers.SlashReply | handlers/handlers.go:21-66 | A readable body that fails the signature check gets 401, before the form is parsed; a parsed form is acknowledged ephemerally with Ack's text; everything else is a 400. The check used is the exact-age one (see Left out) |
| Handlers.EventsReply | handlers/handlers.go:115-151 | A failed signature check gets 401; a url_verification payload is answered with its challenge; any other decoded payload is accepted with an empty 200. The check used is the exact-age one (see Left out) |
| Handlers.AuthenticAsWritten | handlers/handlers.go:33-38 | The handlers' signature check answers as the source's int64 check does on every request whose age does not overflow an int64 |
| Handlers.UnauthorizedBeforeParsing | handlers/handlers.go:33-43 | A request that fails the signature check gets the same 401 whatever its form or JSON holds |
| Handlers.TagHitAt | handlers/handlers.go:170 | A match found at a position is a match of `<@[A-Z0-9]+>\s*` starting there |
| Handlers.TagHitAtComplete | handlers/handlers.go:170 | Any match of the mention expression is the one found at its start position |
| Handlers.TagSearchLeftmost | handlers/handlers.go:171 | The search finds a match, and no match starts before the one it finds |
| Handlers.StripFirstMention | handlers/handlers.go:169-176 | Definition of the mention removal, with no contract of its own: cut the leftmost `<@[A-Z0-9]+>\s*` match and trim, or keep text without a match as it is. StripNoMention and StripLeftmostMention state it |
| Handlers.StripNoMention | handlers/handlers.go:171-176 | Text without a mention is kept as it is, untrimmed |
| Handlers.StripLeftmostMention | handlers/handlers.go:170-176 | Only the leftmost mention is cut out, with the white space after it, whoever it names; the rest, later mentions included, is kept and then trimmed |
| Handlers.CommandWord | handlers/handlers.go:179-184 | No command exactly when the text is blank; otherwise the command is the first field, lower-cased |
| Handlers.SendArgument | handlers/handlers.go:196-205 | Definition of the argument of `send`, with no contract of its own: with more than one field, the trimmed text after the first "send" of the lower-cased text, else "". SendArgumentAfterCommand, FirstSendAt and Text.FieldsMoreThanOne state what it is |
| Handlers.SendArgumentAfterCommand | handlers/handlers.go:198-205 | When the command is `send`, its argument is the trimmed text after the command word when there is more than one field, and empty otherwise |
| Handlers.FirstSendAt | handlers/handlers.go:201 | A "send" preceded only by white space is the first "send" of the lower-cased text |
| Handlers.LoneSendIsUsage | handlers/handlers.go:198-211 | A `send` with nothing after it fails to parse, so it gets the usage reply |
| Handlers.EventDispatch | handlers/handlers.go:161-236 | Definition of the command an event asks for, with no contract of its own: nothing for other event types or blank text, else the lower-cased first field, `send` with its parsed argument. The Dispatch lemmas state it |
| Handlers.DispatchIgnored | handlers/handlers.go:161-182 | An event asks for nothing exactly when it is not an app_mention or message, or its text is blank once the mention is gone |
| Handlers.DispatchUnknown | handlers/handlers.go:187-236 | A handled event gets the Unknown reply exactly when its command is none of balance, send, leaderboard and help |
| Handlers.DispatchSend | handlers/handlers.go:196-207 | A `send` in any case parses the trimmed text after the command word, or nothing when it stands alone |
| Handlers.EventJob | handlers/handlers.go:154-239 | Definition of the event job, with no contract of its own: the command's reply, posted in the event's thread, and its effect on the store. EventCommandReplies, EventRepliesInThread and EventJobStore state its properties |
| Handlers.EventCommandReplies | handlers/handlers.go:187-237 | Every command posts a reply except an ignored event and a leaderboard that cannot be read |
| Handlers.EventRepliesInThread | handlers/handlers.go:162-166 | Every reply goes to the event's channel, in thread_ts when it is set and else under ts |
| Handlers.EventJobStore | handlers/handlers.go:187-237 | Only a balance request or a transfer to a user Slack found touches the store. An ignored event posts nothing; unknown, help and unparsable-send commands get their fixed replies with no store call |
| Handlers.EventBalance | handlers/handlers.go:188-194 | The balance branch posts the writer's balance in the thread and acts on the store as EventJob says |
| Handlers.EventTransfer | handlers/handlers.go:196-221 | The send branch posts the usage, the lookup error or the transfer's message in the thread, and acts on the store as EventJob says |
| Handlers.EventLeaderboard | handlers/handlers.go:223-229 | The leaderboard branch posts the board, or nothing when it cannot be read, and changes nothing |
| Handlers.RunEventCommand | handlers/handlers.go:187-237 | The dispatched command's reply and its effect on the store are EventJob's |
| Handlers.HandleEvent | handlers/handlers.go:154-239 | The event job reads the command off the text without its first mention and acts as EventJob says |
| Handlers.SlackEvents | handlers/handlers.go:115-240 | The HTTP answer is EventsReply's; only an accepted event callback runs the job, and otherwise nothing is posted or changed. The check used is the exact-age one (see Left out) |
| Handlers.SlashJob | handlers/handlers.go:69-111 | Definition of the slash job, with no contract of its own: /balance reports in the channel, /send parses, looks up and transfers, /leaderboard posts the board, failures go back as the ephemeral error, other commands post nothing. SlashJobStore, SlashUnknownCommand and SlashSendUsage state its properties |
| Handlers.SlashJobStore | handlers/handlers.go:72-110 | Only /balance, or a /send whose recipient Slack found, touches the store; an unreadable leaderboard gets the generic error addressed to the user |
| Handlers.SlashUnknownCommand | handlers/handlers.go:72-110 | A command other than the three known ones posts nothing and touches nothing |
| Handlers.SlashSendUsage | handlers/handlers.go:83-87 | A /send that does not parse gets the usage error with no lookup and no store call |
| Handlers.HandleSlashCommand | handlers/handlers.go:69-111 | The slash job's response and its effect on the store are SlashJob's |
| Handlers.SlackCommand | handlers/handlers.go:21-112 | The HTTP answer is SlashReply's; only an acknowledged command runs the job, and otherwise nothing is posted or changed. The check used is the exact-age one (see Left out) |

## Left out

- HTTP, gin and JSON: reading the body, form and JSON decoding, and the outbound requests are
  not modelled. Their outcomes are parameters: whether the body could be read, the decoded
  form or payload, the users.info and users.list answers (`Reply`), and whether a post
  failed. Errors from building a request are folded into the transport error.
- The goroutines. Each background job runs to completion right after the answer. The
  lost-update race of UpdateCoins' read-modify-write under concurrent jobs is not modelled.
- HMAC-SHA256 is a function parameter (`Mac`), and `hmac.Equal` is plain equality. Its
  constant-time behaviour is not modelled.
- The clock is the parameter `now`.
- The store's internals are not modelled. Server-side ordering and limiting are stated as
  what the rows of the query promise (`QueryServed`): each row is the document stored under
  its id, no id appears twice, and there is no tie-break order. Decoding is
  reduced to the `Undecodable` document. Every document is taken to have a coins field, as
  every document the bot writes does; Firestore leaves documents without one out of the
  ordered query. Which reads and writes fail is an input.
- Log output, startup (function.go, cmd/server/main.go) and configuration loading are not
  modelled. config/config.go is not part of this model: its constants (5, 10, 300) are
  written inline.
- Failed posts to response URLs and to chat.postMessage are ignored by the handlers, as in
  the source. The job's reply is what it posts.
- Database.Store.UpdateCoins: balances are unbounded integers. Go's `int` addition of a delta
  is not wrapped at 2^63. Reaching that would need a balance of the order of 2^63 coins, far
  beyond what 5-coin grants add up to.
- Text.AsciiLower: only ASCII letters are lower-cased. strings.ToLower also lower-cases other
  scripts, which the command words do not use. The only non-ASCII runes that lower-case to
  ASCII letters are U+212A and U+0130, and neither lower-cases into "balance", "send",
  "leaderboard" or "help". `text[idx+4:]` equals the model's slice only when lower-casing
  keeps byte positions, which holds for ASCII.
- Text.Utf8Len: a Go string with invalid UTF-8 is not modelled; every string is a sequence of
  valid runes.
- GetUser never returns an error. So the two error replies in HandleSend ("Error checking
  balance", "Error finding recipient") cannot be reached, and the model omits them. So are
  the error returns of HandleBalance and its callers.
- GetHelpMessage is modelled as its two constant texts, with no property beyond them.
- Handlers.SlashReply: checks the signature with the exact age of the request (Slack.VerifySignature), not with the int64 subtraction of slack/slack.go:179. The two differ only when `now - ts` overflows an int64 (Handlers.AuthenticAsWritten). On such a request with a genuine HMAC the source acknowledges and the model answers 401.
- Handlers.EventsReply: checks the signature with the exact age, as Handlers.SlashReply does. On a genuine request whose age overflows an int64, the source accepts it and the model answers 401.
- Handlers.SlackCommand: its answer is Handlers.SlashReply's, so it refuses the overflowing requests the source acknowledges, and runs no job for them.
- Handlers.SlackEvents: its answer is Handlers.EventsReply's, so it refuses the overflowing requests the source accepts, and runs no job for them.

## Findings

| source | as written | input that shows it | evidently intended | confidence | as-written member | corrected member |
|---|---|---|---|---|---|---|
| slack/slack.go:179 | `time.Now().Unix()-ts > 300` subtracts in int64, so the age of a request wraps around when `now - ts` exceeds MaxInt64 | timestamp header `-9223372036854775808` at any time `now >= 0`: the age wraps to a negative number and the staleness check passes | refuse every request more than 300 seconds old, as proved of the corrected check by Slack.VerifyRejectsStale; the overflow is shown by Slack.StaleCheckOverflows; the handlers use the corrected check | high that the wrap occurs, low impact, since only a genuine HMAC for that timestamp passes the final comparison; not executed | Slack.VerifySignatureAsWritten | Slack.VerifySignature |
