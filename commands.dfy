/**
 * The bot's commands: parsing the arguments of `send`, the transfer itself with its
 * compensating credit, and the balance and leaderboard replies.
 */
module Commands {
  import opened Wrappers
  import opened Text
  import opened Models
  import opened Database

  // ---------------------------------------------------------------------------------------
  // ParseSendCommand: two unanchored regular expressions, leftmost-first, as Go's regexp runs
  // them, over the trimmed text.

  /** `\w` in Go's regexp syntax: ASCII letters, digits and the underscore. */
  predicate IsWordChar(c: char) {
    'a' <= c <= 'z' || 'A' <= c <= 'Z' || '0' <= c <= '9' || c == '_'
  }

  /** The class `[A-Z0-9]` of a Slack mention's id. */
  predicate IsUpperAlnum(c: char) {
    'A' <= c <= 'Z' || '0' <= c <= '9'
  }

  /** `\s` in Go's regexp syntax: tab, newline, form feed, carriage return and space only. */
  predicate IsReSpace(c: char) {
    c == '\t' || c == '\n' || c == '\U{C}' || c == '\r' || c == ' '
  }

  /**
   * Where a match lies in the text: it starts at `start`, the first group is t[g1..e1] and the
   * second group, which ends the match, is t[g2..e2].
   */
  datatype Hit = Hit(start: nat, g1: nat, e1: nat, g2: nat, e2: nat)

  /**
   * `<@([A-Z0-9]+)>\s+(\d+)` matches t at h.start with the groups h describes. The greedy `\d+`
   * takes every digit there is; the other quantifiers have only one way to match.
   */
  predicate MentionHit(t: string, h: Hit) {
    && h.g1 == h.start + 2 && h.g1 < h.e1 && h.e1 + 1 < h.g2 && h.g2 < h.e2 <= |t|
    && t[h.start] == '<' && t[h.start + 1] == '@' && t[h.e1] == '>'
    && All(t, h.g1, h.e1, IsUpperAlnum)
    && All(t, h.e1 + 1, h.g2, IsReSpace)
    && All(t, h.g2, h.e2, IsDigit)
    && (h.e2 == |t| || !IsDigit(t[h.e2]))
  }

  /** `@?(\w+)\s+(\d+)` matches t at h.start with the groups h describes. */
  predicate WordHit(t: string, h: Hit) {
    && h.start <= h.g1 < h.e1 < h.g2 < h.e2 <= |t|
    && (h.g1 == h.start || (h.g1 == h.start + 1 && t[h.start] == '@'))
    && All(t, h.g1, h.e1, IsWordChar)
    && All(t, h.e1, h.g2, IsReSpace)
    && All(t, h.g2, h.e2, IsDigit)
    && (h.e2 == |t| || !IsDigit(t[h.e2]))
  }

  /** Tries the mention expression at position i only. */
  function MentionHitAt(t: string, i: nat): (m: Option<Hit>)
    ensures m.Some? ==> MentionHit(t, m.value) && m.value.start == i
  {
    if i + 2 <= |t| && t[i] == '<' && t[i + 1] == '@' then
      var e1 := RunEnd(t, i + 2, IsUpperAlnum);
      if i + 2 < e1 && e1 < |t| && t[e1] == '>' then
        var g2 := RunEnd(t, e1 + 1, IsReSpace);
        var e2 := RunEnd(t, g2, IsDigit);
        if e1 + 1 < g2 && g2 < e2 then Some(Hit(i, i + 2, e1, g2, e2)) else None
      else None
    else None
  }

  /** Tries the bare-word expression at position i only: with the `@` if there is one. */
  function WordHitAt(t: string, i: nat): (m: Option<Hit>)
    ensures m.Some? ==> WordHit(t, m.value) && m.value.start == i
  {
    if i > |t| then None
    else
      var g1 := if i < |t| && t[i] == '@' then i + 1 else i;
      var e1 := RunEnd(t, g1, IsWordChar);
      var g2 := RunEnd(t, e1, IsReSpace);
      var e2 := RunEnd(t, g2, IsDigit);
      if g1 < e1 < g2 < e2 then Some(Hit(i, g1, e1, g2, e2)) else None
  }

  /** Whatever the mention expression can match at i, MentionHitAt finds. */
  lemma MentionHitAtComplete(t: string, h: Hit)
    requires MentionHit(t, h)
    ensures MentionHitAt(t, h.start) == Some(h)
  {
    RunEndUnique(t, h.g1, h.e1, IsUpperAlnum);
    RunEndUnique(t, h.e1 + 1, h.g2, IsReSpace);
    RunEndUnique(t, h.g2, h.e2, IsDigit);
  }

  /** Whatever the bare-word expression can match at i, WordHitAt finds. */
  lemma WordHitAtComplete(t: string, h: Hit)
    requires WordHit(t, h)
    ensures WordHitAt(t, h.start) == Some(h)
  {
    assert h.g1 == if h.start < |t| && t[h.start] == '@' then h.start + 1 else h.start by {
      if h.g1 == h.start {
        assert IsWordChar(t[h.start]);
      }
    }
    RunEndUnique(t, h.g1, h.e1, IsWordChar);
    RunEndUnique(t, h.e1, h.g2, IsReSpace);
    RunEndUnique(t, h.g2, h.e2, IsDigit);
  }

  /**
   * An unanchored search: the first position from i to n at which the anchored matcher `at`
   * succeeds, trying the positions in order.
   */
  function Leftmost(n: nat, i: nat, at: nat -> Option<Hit>): (p: Option<nat>)
    requires i <= n
    ensures p.Some? ==> i <= p.value <= n && at(p.value).Some?
    ensures forall k :: i <= k <= n && (p.None? || k < p.value) ==> at(k).None?
    decreases n - i
  {
    if at(i).Some? then Some(i) else if i < n then Leftmost(n, i + 1, at) else None
  }

  /** The mention expression's anchored matcher over t, as a function of the position. */
  function MentionMatcher(t: string): nat -> Option<Hit> {
    (j: nat) => MentionHitAt(t, j)
  }

  /** The bare-word expression's anchored matcher over t. */
  function WordMatcher(t: string): nat -> Option<Hit> {
    (j: nat) => WordHitAt(t, j)
  }

  /** Where the leftmost match of the mention expression in t starts. */
  function MentionSearch(t: string): Option<nat> {
    Leftmost(|t|, 0, MentionMatcher(t))
  }

  /** Where the leftmost match of the bare-word expression in t starts. */
  function WordSearch(t: string): Option<nat> {
    Leftmost(|t|, 0, WordMatcher(t))
  }

  /**
   * Leftmost-first semantics for the mention expression: the search finds a match, and no match
   * starts before the one it finds; it finds none only when there is none.
   */
  lemma MentionSearchLeftmost(t: string)
    ensures MentionSearch(t).Some? ==> MentionHitAt(t, MentionSearch(t).value).Some?
    ensures forall h :: MentionHit(t, h) ==> MentionSearch(t).Some? && MentionSearch(t).value <= h.start
  {
    assert forall k: nat :: MentionMatcher(t)(k) == MentionHitAt(t, k);
    forall h | MentionHit(t, h)
      ensures MentionSearch(t).Some? && MentionSearch(t).value <= h.start
    {
      MentionHitAtComplete(t, h);
    }
  }

  /** Leftmost-first semantics for the bare-word expression. */
  lemma WordSearchLeftmost(t: string)
    ensures WordSearch(t).Some? ==> WordHitAt(t, WordSearch(t).value).Some?
    ensures forall h :: WordHit(t, h) ==> WordSearch(t).Some? && WordSearch(t).value <= h.start
  {
    assert forall k: nat :: WordMatcher(t)(k) == WordHitAt(t, k);
    forall h | WordHit(t, h)
      ensures WordSearch(t).Some? && WordSearch(t).value <= h.start
    {
      WordHitAtComplete(t, h);
    }
  }

  /** The outcome of ParseSendCommand: (recipientID, amount, ok). */
  datatype SendArgs = SendArgs(recipient: string, amount: int, ok: bool)

  const NoMatch: SendArgs := SendArgs("", 0, false)

  /** The digits of the second group, converted by strconv.Atoi; a value that overflows fails. */
  function Captured(t: string, h: Hit): (r: SendArgs)
    requires h.g1 < h.e1 <= h.g2 < h.e2 <= |t| && All(t, h.g2, h.e2, IsDigit)
    ensures r.ok ==> r.recipient != [] && 0 <= r.amount <= MaxInt64
    ensures !r.ok ==> r == NoMatch
  {
    AllSlice(t, h.g2, h.e2, IsDigit);
    ParseDigits(t[h.g2..h.e2]);
    match ParseInt64(t[h.g2..h.e2])
    case Some(n) => SendArgs(t[h.g1..h.e1], n, true)
    case None => NoMatch
  }

  /**
   * commands.ParseSendCommand: the mention form first; only when it does not match at all, the
   * bare-word form. A match whose digits overflow an int fails without trying anything else.
   */
  function ParseSendCommand(text: string): (r: SendArgs)
    ensures r.ok ==> r.recipient != [] && 0 <= r.amount <= MaxInt64
    ensures !r.ok ==> r == NoMatch
  {
    var t := TrimSpace(text);
    match MentionSearch(t)
    case Some(p) => Captured(t, MentionHitAt(t, p).value)
    case None =>
      match WordSearch(t)
      case Some(p) => Captured(t, WordHitAt(t, p).value)
      case None => NoMatch
  }

  /** The value of the second group of a match. */
  function Amount(t: string, h: Hit): int
    requires h.g2 < h.e2 <= |t| && All(t, h.g2, h.e2, IsDigit)
  {
    AllSlice(t, h.g2, h.e2, IsDigit);
    DecimalValue(t[h.g2..h.e2])
  }

  /** What a match yields: its first group and the value of its digits when they fit an int64. */
  function Expected(t: string, h: Hit): SendArgs
    requires h.g1 < h.e1 <= h.g2 < h.e2 <= |t| && All(t, h.g2, h.e2, IsDigit)
  {
    if Amount(t, h) <= MaxInt64 then SendArgs(t[h.g1..h.e1], Amount(t, h), true) else NoMatch
  }

  /** Captured yields what the digits of a match denote when they fit an int64, and fails otherwise. */
  lemma CapturedExpected(t: string, h: Hit)
    requires h.g1 < h.e1 <= h.g2 < h.e2 <= |t| && All(t, h.g2, h.e2, IsDigit)
    ensures Captured(t, h) == Expected(t, h)
  {
    AllSlice(t, h.g2, h.e2, IsDigit);
    ParseDigits(t[h.g2..h.e2]);
  }

  /** The leftmost mention match is the one the search finds. */
  lemma MentionSearchFinds(t: string, h: Hit)
    requires MentionHit(t, h)
    requires forall h' :: MentionHit(t, h') ==> h.start <= h'.start
    ensures MentionSearch(t) == Some(h.start) && MentionHitAt(t, h.start) == Some(h)
  {
    MentionSearchLeftmost(t);
    var p := MentionSearch(t).value;
    var m := MentionHitAt(t, p).value;
    assert MentionHit(t, m) && m.start == p <= h.start;
    assert h.start <= m.start;
    MentionHitAtComplete(t, h);
    assert m == h;
  }

  /** The leftmost bare-word match is the one the search finds. */
  lemma WordSearchFinds(t: string, h: Hit)
    requires WordHit(t, h)
    requires forall h' :: WordHit(t, h') ==> h.start <= h'.start
    ensures WordSearch(t) == Some(h.start) && WordHitAt(t, h.start) == Some(h)
  {
    WordSearchLeftmost(t);
    var p := WordSearch(t).value;
    var m := WordHitAt(t, p).value;
    assert WordHit(t, m) && m.start == p <= h.start;
    assert h.start <= m.start;
    WordHitAtComplete(t, h);
    assert m == h;
  }

  /** The leftmost mention match of the trimmed text decides the result. */
  lemma ParseMentionForm(text: string, h: Hit)
    requires MentionHit(TrimSpace(text), h)
    requires forall h' :: MentionHit(TrimSpace(text), h') ==> h.start <= h'.start
    ensures ParseSendCommand(text) == Expected(TrimSpace(text), h)
  {
    MentionSearchFinds(TrimSpace(text), h);
    CapturedExpected(TrimSpace(text), h);
  }

  /** With no mention match anywhere, the leftmost bare-word match decides the result. */
  lemma ParseWordForm(text: string, h: Hit)
    requires forall h' :: !MentionHit(TrimSpace(text), h')
    requires WordHit(TrimSpace(text), h)
    requires forall h' :: WordHit(TrimSpace(text), h') ==> h.start <= h'.start
    ensures ParseSendCommand(text) == Expected(TrimSpace(text), h)
  {
    MentionSearchLeftmost(TrimSpace(text));
    WordSearchFinds(TrimSpace(text), h);
    CapturedExpected(TrimSpace(text), h);
  }

  /** Text where neither expression matches fails. */
  lemma ParseNoMatch(text: string)
    requires forall h :: !MentionHit(TrimSpace(text), h)
    requires forall h :: !WordHit(TrimSpace(text), h)
    ensures ParseSendCommand(text) == NoMatch
  {
    MentionSearchLeftmost(TrimSpace(text));
    WordSearchLeftmost(TrimSpace(text));
  }

  /** Blank text (nothing after `send`, say) is no send command. */
  lemma ParseBlank(text: string)
    requires All(text, 0, |text|, IsSpace)
    ensures ParseSendCommand(text) == NoMatch
  {
    TrimSpaceEmpty(text);
    assert MentionHitAt([], 0).None? && WordHitAt([], 0).None?;
  }

  /** Any success comes from one of the two expressions matching somewhere in the trimmed text. */
  lemma ParseSuccessHasMatch(text: string)
    requires ParseSendCommand(text).ok
    ensures exists h :: MentionHit(TrimSpace(text), h) || WordHit(TrimSpace(text), h)
  {
    var t := TrimSpace(text);
    MentionSearchLeftmost(t);
    WordSearchLeftmost(t);
    match MentionSearch(t)
    case Some(p) =>
      assert MentionHit(t, MentionHitAt(t, p).value);
    case None =>
      assert WordHit(t, WordHitAt(t, WordSearch(t).value).value);
  }

  /**
   * A bare word from g1 to e1 (after an `@` when g1 is 1), one space and digits up to e2, then
   * no digit and no `<`: the bare-word expression matches from the start, the mention
   * expression nowhere.
   */
  lemma WordLineHit(t: string, g1: nat, e1: nat, e2: nat)
    requires g1 <= 1 && g1 < e1 && e1 + 1 < e2 <= |t|
    requires g1 == 1 ==> t[0] == '@'
    requires All(t, g1, e1, IsWordChar) && t[e1] == ' ' && All(t, e1 + 1, e2, IsDigit)
    requires e2 < |t| ==> !IsDigit(t[e2]) && !IsSpace(t[|t| - 1])
    requires forall k :: e2 <= k < |t| ==> t[k] != '<'
    ensures TrimSpace(t) == t && WordHit(t, Hit(0, g1, e1, e1 + 1, e2)) && (forall h :: !MentionHit(t, h))
  {
    assert !IsSpace(t[0]) by {
      if g1 == 0 {
        assert IsWordChar(t[0]);
      }
    }
    assert !IsSpace(t[|t| - 1]) by {
      if e2 == |t| {
        assert IsDigit(t[e2 - 1]);
      }
    }
    TrimSpaceUntouched(t);
    forall k | 0 <= k < |t| ensures t[k] != '<' {
      if g1 <= k < e1 {
        assert IsWordChar(t[k]);
      } else if e1 < k < e2 {
        assert IsDigit(t[k]);
      }
    }
  }

  /**
   * A text that starts with a match of the mention expression and does not end in white space:
   * the mention's id and the number, whatever follows the digits.
   */
  lemma MentionLine(t: string, e1: nat, g2: nat, e2: nat)
    requires 2 < e1 && e1 + 1 < g2 < e2 <= |t|
    requires t[0] == '<' && t[1] == '@' && t[e1] == '>'
    requires All(t, 2, e1, IsUpperAlnum) && All(t, e1 + 1, g2, IsReSpace) && All(t, g2, e2, IsDigit)
    requires (e2 == |t| || !IsDigit(t[e2])) && !IsSpace(t[|t| - 1])
    ensures Amount(t, Hit(0, 2, e1, g2, e2)) <= MaxInt64 ==>
      ParseSendCommand(t) == SendArgs(t[2..e1], Amount(t, Hit(0, 2, e1, g2, e2)), true)
  {
    TrimSpaceUntouched(t);
    ParseMentionForm(t, Hit(0, 2, e1, g2, e2));
  }

  /**
   * A text that is a bare word (after an `@` when g1 is 1), one space and a number that fits an
   * int64, then no digit, no `<` and no trailing white space: the word and the number.
   */
  lemma WordLine(t: string, g1: nat, e1: nat, e2: nat)
    requires g1 <= 1 && g1 < e1 && e1 + 1 < e2 <= |t|
    requires g1 == 1 ==> t[0] == '@'
    requires All(t, g1, e1, IsWordChar) && t[e1] == ' ' && All(t, e1 + 1, e2, IsDigit)
    requires e2 < |t| ==> !IsDigit(t[e2]) && !IsSpace(t[|t| - 1])
    requires forall k :: e2 <= k < |t| ==> t[k] != '<'
    ensures Amount(t, Hit(0, g1, e1, e1 + 1, e2)) <= MaxInt64 ==>
      ParseSendCommand(t) == SendArgs(t[g1..e1], Amount(t, Hit(0, g1, e1, e1 + 1, e2)), true)
  {
    WordLineHit(t, g1, e1, e2);
    ParseWordForm(t, Hit(0, g1, e1, e1 + 1, e2));
  }

  /** A match of either expression has digits right after white space. */
  lemma DigitsAfterSpace(t: string, h: Hit)
    requires MentionHit(t, h) || WordHit(t, h)
    ensures 0 < h.g2 < |t| && IsReSpace(t[h.g2 - 1]) && IsDigit(t[h.g2])
  {
  }

  /**
   * Text in which no digit follows white space matches neither expression, as both need `\s+`
   * right before their digits: a missing or signed amount is no send command.
   */
  lemma ParseWithoutSpacedNumber(text: string)
    requires var t := TrimSpace(text);
      forall k :: 0 < k < |t| && IsReSpace(t[k - 1]) ==> !IsDigit(t[k])
    ensures ParseSendCommand(text) == NoMatch
  {
    var t := TrimSpace(text);
    forall h | MentionHit(t, h) || WordHit(t, h) ensures false {
      DigitsAfterSpace(t, h);
    }
    ParseNoMatch(text);
  }

  /** "<@U123ABC456> 100" sends 100 coins to U123ABC456. */
  lemma ParseMentionExample(text: string)
    requires text == "<@U123ABC456> 100"
    ensures ParseSendCommand(text) == SendArgs("U123ABC456", 100, true)
  {
    assert text[2..12] == "U123ABC456" && text[14..17] == "100";
    assert DecimalValue("100") == 100 by {
      assert "100"[..2] == "10" && "10"[..1] == "1" && "1"[..0] == "";
    }
    assert Amount(text, Hit(0, 2, 12, 14, 17)) == 100;
    MentionLine(text, 12, 14, 17);
  }

  /** "@alice 50" sends 50 coins to alice: the leading @ of a plain name is dropped. */
  lemma ParseAtWordExample(text: string)
    requires text == "@alice 50"
    ensures ParseSendCommand(text) == SendArgs("alice", 50, true)
  {
    assert text[1..6] == "alice" by {
      assert |text[1..6]| == 5 && forall k | 0 <= k < 5 :: text[1..6][k] == "alice"[k];
    }
    assert text[7..9] == "50";
    assert DecimalValue("50") == 50 by {
      assert "50"[..1] == "5" && "5"[..0] == "";
    }
    assert Amount(text, Hit(0, 1, 6, 7, 9)) == 50;
    assert All(text, 1, 6, IsWordChar) && text[6] == ' ' && All(text, 7, 9, IsDigit);
    WordLine(text, 1, 6, 9);
  }

  /** "alice 50" sends 50 coins to alice; so does "alice 50 coins", the rest ignored. */
  lemma ParseWordExamples(text: string)
    requires text == "alice 50" || text == "alice 50 coins"
    ensures ParseSendCommand(text) == SendArgs("alice", 50, true)
  {
    assert text[0..5] == "alice" && text[6..8] == "50";
    assert DecimalValue("50") == 50 by {
      assert "50"[..1] == "5" && "5"[..0] == "";
    }
    assert Amount(text, Hit(0, 0, 5, 6, 8)) == 50;
    assert All(text, 0, 5, IsWordChar) && text[5] == ' ' && All(text, 6, 8, IsDigit);
    assert forall k :: 8 <= k < |text| ==> text[k] != '<';
    assert 8 < |text| ==> !IsDigit(text[8]) && !IsSpace(text[|text| - 1]);
    WordLine(text, 0, 5, 8);
  }

  /** An amount of 0 is accepted by the parser; HandleSend refuses it later. */
  lemma ParseZeroExample(text: string)
    requires text == "alice 0"
    ensures ParseSendCommand(text) == SendArgs("alice", 0, true)
  {
    assert text[0..5] == "alice" && text[6..7] == "0";
    assert DecimalValue("0") == 0 by {
      assert "0"[..0] == "";
    }
    assert Amount(text, Hit(0, 0, 5, 6, 7)) == 0;
    WordLine(text, 0, 5, 7);
  }

  /** A recipient without an amount, or with a signed one, is no send command. */
  lemma ParseNoAmountExamples(text: string)
    requires text == "alice" || text == "alice -5"
    ensures ParseSendCommand(text) == NoMatch
  {
    TrimSpaceUntouched(text);
    ParseWithoutSpacedNumber(text);
  }

  // ---------------------------------------------------------------------------------------
  // HandleSend: debit, credit, and one compensating credit if the credit fails.

  const NonPositiveAmount: string := "Amount must be positive!"
  const TransferFailed: string := "Error processing transfer. Please try again."

  function InsufficientFunds(balance: int): string {
    "Insufficient funds! You have " + IntToDecimal(balance) + " :corbacoin:."
  }

  function SentMessage(senderId: string, amount: int, recipientId: string): string {
    "<@" + senderId + "> sent " + IntToDecimal(amount) + " :corbacoin: to <@" + recipientId + "> :corbacoin:"
  }

  /** The outcome of each store call HandleSend may make. */
  datatype SendIo = SendIo(sender: GetUserIo, recipient: GetUserIo, debit: UpdateIo, credit: UpdateIo, refund: UpdateIo)

  /** What a transfer returns, the collection it leaves, and the store calls it made. */
  datatype Transfer = Transfer(result: CommandResult, users: Users, calls: seq<StoreCall>)

  /** The collection once the sender and then the recipient have been looked up (and maybe created). */
  function Prepared(users: Users, senderId: string, senderName: string, recipientId: string,
                    recipientName: string, io: SendIo): Users
  {
    var afterSender := GetUserStep(users, senderId, senderName, io.sender).users;
    GetUserStep(afterSender, recipientId, recipientName, io.recipient).users
  }

  /** The transfer commands.HandleSend performs, as a function of the collection before it. */
  function TransferStep(users: Users, senderId: string, senderName: string, recipientId: string,
                        recipientName: string, amount: int, io: SendIo): Transfer
  {
    if amount <= 0 then
      Transfer(CommandResult(false, NonPositiveAmount), users, [])
    else
      var sender := GetUserStep(users, senderId, senderName, io.sender);
      if sender.value.coins < amount then
        Transfer(CommandResult(false, InsufficientFunds(sender.value.coins)), sender.users, [GetUserCall(senderId)])
      else
        var prepared := GetUserStep(sender.users, recipientId, recipientName, io.recipient).users;
        var settle := Settle(prepared, senderId, recipientId, amount, io);
        Transfer(settle.result, settle.users, [GetUserCall(senderId), GetUserCall(recipientId)] + settle.calls)
  }

  /**
   * The rest of a transfer once both lookups are done and the balance suffices: the debit,
   * the credit and, when the credit fails, the refund, with the store calls they make.
   */
  function Settle(prepared: Users, senderId: string, recipientId: string, amount: int, io: SendIo): Transfer
  {
    var debit := UpdateCoinsStep(prepared, senderId, -amount, io.debit);
    var debitCalls := [UpdateCoinsCall(senderId, -amount)];
    if debit.value.Failure? then
      Transfer(CommandResult(false, TransferFailed), debit.users, debitCalls)
    else
      var credit := UpdateCoinsStep(debit.users, recipientId, amount, io.credit);
      var creditCalls := debitCalls + [UpdateCoinsCall(recipientId, amount)];
      if credit.value.Failure? then
        var refund := UpdateCoinsStep(credit.users, senderId, amount, io.refund);
        Transfer(CommandResult(false, TransferFailed), refund.users, creditCalls + [UpdateCoinsCall(senderId, amount)])
      else
        Transfer(CommandResult(true, SentMessage(senderId, amount, recipientId)), credit.users, creditCalls)
  }

  /** A non-positive amount is refused before any store call. */
  lemma TransferNonPositive(users: Users, senderId: string, senderName: string, recipientId: string,
                            recipientName: string, amount: int, io: SendIo)
    requires amount <= 0
    ensures TransferStep(users, senderId, senderName, recipientId, recipientName, amount, io)
         == Transfer(CommandResult(false, NonPositiveAmount), users, [])
  {
  }

  /**
   * Too small a balance is refused with a message that reports it, after a single GetUser; no
   * balance is adjusted; the sender's document may have been written by GetUser's create path,
   * which resets an existing account whose read failed.
   */
  lemma TransferInsufficientFunds(users: Users, senderId: string, senderName: string, recipientId: string,
                                  recipientName: string, amount: int, io: SendIo)
    requires amount > 0
    requires GetUserStep(users, senderId, senderName, io.sender).value.coins < amount
    ensures var balance := GetUserStep(users, senderId, senderName, io.sender).value.coins;
      var t := TransferStep(users, senderId, senderName, recipientId, recipientName, amount, io);
      && t.result == CommandResult(false, InsufficientFunds(balance))
      && t.calls == [GetUserCall(senderId)]
      && (|| t.users == users
          || t.users == users[senderId := Record(User(senderId, NewUsername(senderId, senderName, io.sender.slackName), InitialCoins))])
  {
  }

  /** The collections a and b agree on the account k. */
  predicate Keeps(a: Users, b: Users, k: string) {
    (k in a <==> k in b) && (k in a ==> a[k] == b[k])
  }

  lemma GetUserKeeps(users: Users, userId: string, username: string, io: GetUserIo, k: string)
    requires k != userId
    ensures Keeps(users, GetUserStep(users, userId, username, io).users, k)
  {
    GetUserFrame(users, userId, username, io);
  }

  lemma UpdateCoinsKeeps(users: Users, userId: string, delta: int, io: UpdateIo, k: string)
    requires k != userId
    ensures Keeps(users, UpdateCoinsStep(users, userId, delta, io).users, k)
  {
    UpdateCoinsOutcome(users, userId, delta, io);
  }

  /** Accounts other than the two parties are never touched, whatever the outcome. */
  lemma TransferFrame(users: Users, senderId: string, senderName: string, recipientId: string,
                      recipientName: string, amount: int, io: SendIo, k: string)
    requires k != senderId && k != recipientId
    ensures var t := TransferStep(users, senderId, senderName, recipientId, recipientName, amount, io);
      (k in t.users <==> k in users) && (k in users ==> t.users[k] == users[k])
  {
    var sender := GetUserStep(users, senderId, senderName, io.sender);
    GetUserKeeps(users, senderId, senderName, io.sender, k);
    var prepared := GetUserStep(sender.users, recipientId, recipientName, io.recipient).users;
    GetUserKeeps(sender.users, recipientId, recipientName, io.recipient, k);
    var debit := UpdateCoinsStep(prepared, senderId, -amount, io.debit);
    UpdateCoinsKeeps(prepared, senderId, -amount, io.debit, k);
    var credit := UpdateCoinsStep(debit.users, recipientId, amount, io.credit);
    UpdateCoinsKeeps(debit.users, recipientId, amount, io.credit, k);
    UpdateCoinsKeeps(credit.users, senderId, amount, io.refund, k);
  }

  /** The account of `id` with `delta` added to its balance. */
  function Adjusted(users: Users, id: string, delta: int): Users
    requires id in users && users[id].Record?
  {
    users[id := Record(users[id].user.(coins := users[id].user.coins + delta))]
  }

  /**
   * A successful transfer made the four calls in order, debited the sender and credited the
   * recipient by the amount in the collection the lookups left, and reports both parties and
   * the amount. Between two distinct parties the money supply is conserved; a self-transfer
   * leaves the collection as the lookups left it.
   */
  lemma TransferSuccess(users: Users, senderId: string, senderName: string, recipientId: string,
                        recipientName: string, amount: int, io: SendIo)
    requires TransferStep(users, senderId, senderName, recipientId, recipientName, amount, io).result.success
    ensures var t := TransferStep(users, senderId, senderName, recipientId, recipientName, amount, io);
      var d := Prepared(users, senderId, senderName, recipientId, recipientName, io);
      && amount > 0
      && t.result.message == SentMessage(senderId, amount, recipientId)
      && t.calls == [GetUserCall(senderId), GetUserCall(recipientId),
                     UpdateCoinsCall(senderId, -amount), UpdateCoinsCall(recipientId, amount)]
      && senderId in d && d[senderId].Record? && recipientId in d && d[recipientId].Record?
      && (senderId != recipientId ==>
            && t.users == Adjusted(Adjusted(d, senderId, -amount), recipientId, amount)
            && Supply(t.users) == Supply(d))
      && (senderId == recipientId ==> t.users == d)
  {
    TransferSteps(users, senderId, senderName, recipientId, recipientName, amount, io);
    var d := Prepared(users, senderId, senderName, recipientId, recipientName, io);
    DebitThenCredit(d, senderId, recipientId, amount, io.debit, io.credit);
  }

  /**
   * A debit of the sender and then a credit of the recipient, both successful: between two
   * accounts the amount moves and the supply is kept; on one account the two cancel out.
   */
  lemma DebitThenCredit(d: Users, senderId: string, recipientId: string, amount: int, debitIo: UpdateIo, creditIo: UpdateIo)
    requires UpdateCoinsStep(d, senderId, -amount, debitIo).value.Success?
    requires UpdateCoinsStep(UpdateCoinsStep(d, senderId, -amount, debitIo).users, recipientId, amount, creditIo).value.Success?
    ensures var debit := UpdateCoinsStep(d, senderId, -amount, debitIo);
      var credit := UpdateCoinsStep(debit.users, recipientId, amount, creditIo);
      && senderId in d && d[senderId].Record? && recipientId in d && d[recipientId].Record?
      && (senderId != recipientId ==>
            && credit.users == Adjusted(Adjusted(d, senderId, -amount), recipientId, amount)
            && Supply(credit.users) == Supply(d))
      && (senderId == recipientId ==> credit.users == d)
  {
    var debit := UpdateCoinsStep(d, senderId, -amount, debitIo);
    UpdateCoinsOutcome(d, senderId, -amount, debitIo);
    UpdateCoinsOutcome(debit.users, recipientId, amount, creditIo);
    if senderId == recipientId {
      UpdateCoinsInverse(d, senderId, -amount, debitIo, creditIo);
    } else {
      UpdateCoinsSupply(d, senderId, -amount, debitIo);
      UpdateCoinsSupply(debit.users, recipientId, amount, creditIo);
    }
  }

  /** A successful transfer went through the debit and the credit, and nothing after them. */
  lemma TransferSteps(users: Users, senderId: string, senderName: string, recipientId: string,
                      recipientName: string, amount: int, io: SendIo)
    requires TransferStep(users, senderId, senderName, recipientId, recipientName, amount, io).result.success
    ensures var d := Prepared(users, senderId, senderName, recipientId, recipientName, io);
      var debit := UpdateCoinsStep(d, senderId, -amount, io.debit);
      var credit := UpdateCoinsStep(debit.users, recipientId, amount, io.credit);
      && amount > 0 && debit.value.Success? && credit.value.Success?
      && TransferStep(users, senderId, senderName, recipientId, recipientName, amount, io)
         == Transfer(CommandResult(true, SentMessage(senderId, amount, recipientId)), credit.users,
                     [GetUserCall(senderId), GetUserCall(recipientId),
                      UpdateCoinsCall(senderId, -amount), UpdateCoinsCall(recipientId, amount)])
  {
  }

  /**
   * The converse: a positive amount the sender can cover, both accounts decodable or absent, and
   * lookups, debit and credit that all reach the store make the transfer succeed, a transfer to
   * oneself included.
   */
  lemma TransferSucceeds(users: Users, senderId: string, senderName: string, recipientId: string,
                         recipientName: string, amount: int, io: SendIo)
    requires amount > 0
    requires io.sender.readOk && io.sender.writeOk && io.recipient.readOk && io.recipient.writeOk
    requires io.debit.readOk && io.debit.writeOk && io.credit.readOk && io.credit.writeOk
    requires senderId in users ==> users[senderId].Record?
    requires recipientId in users ==> users[recipientId].Record?
    requires GetUserStep(users, senderId, senderName, io.sender).value.coins >= amount
    ensures TransferStep(users, senderId, senderName, recipientId, recipientName, amount, io).result
         == CommandResult(true, SentMessage(senderId, amount, recipientId))
  {
    var sender := GetUserStep(users, senderId, senderName, io.sender);
    var d := Prepared(users, senderId, senderName, recipientId, recipientName, io);
    assert senderId in sender.users && sender.users[senderId].Record?;
    GetUserFrame(sender.users, recipientId, recipientName, io.recipient);
    assert senderId in d && d[senderId].Record? && recipientId in d && d[recipientId].Record?;
    var debit := UpdateCoinsStep(d, senderId, -amount, io.debit);
    UpdateCoinsOutcome(d, senderId, -amount, io.debit);
    UpdateCoinsOutcome(debit.users, recipientId, amount, io.credit);
  }

  /**
   * When the sender's lookup could read the store, the funds check saw the balance that is
   * debited, so a successful transfer leaves the sender with a non-negative balance.
   */
  lemma TransferKeepsSenderSolvent(users: Users, senderId: string, senderName: string, recipientId: string,
                                   recipientName: string, amount: int, io: SendIo)
    requires TransferStep(users, senderId, senderName, recipientId, recipientName, amount, io).result.success
    requires io.sender.readOk
    ensures var t := TransferStep(users, senderId, senderName, recipientId, recipientName, amount, io);
      senderId in t.users && Balance(t.users[senderId]) >= 0
  {
    TransferSuccess(users, senderId, senderName, recipientId, recipientName, amount, io);
  }

  /**
   * The check-then-debit is not atomic with respect to store faults: when the sender's read
   * fails and the create write fails too, the check sees the 5-coin default while the debit
   * reads the stored balance, which can then go negative.
   */
  lemma TransferOverdraftUnderFaults()
    ensures var users := map["S" := Record(User("S", "sam", 1)), "R" := Record(User("R", "rae", 0))];
      var ok := UpdateIo(true, true);
      var io := SendIo(GetUserIo(false, None, false), GetUserIo(true, None, true), ok, ok, ok);
      var t := TransferStep(users, "S", "sam", "R", "rae", 3, io);
      t.result.success && t.users["S"] == Record(User("S", "sam", -2))
  {
  }

  /** A failed debit leaves the collection as the lookups left it. */
  lemma TransferDebitFails(users: Users, senderId: string, senderName: string, recipientId: string,
                           recipientName: string, amount: int, io: SendIo)
    requires amount > 0 && GetUserStep(users, senderId, senderName, io.sender).value.coins >= amount
    requires UpdateCoinsStep(Prepared(users, senderId, senderName, recipientId, recipientName, io),
                             senderId, -amount, io.debit).value.Failure?
    ensures var t := TransferStep(users, senderId, senderName, recipientId, recipientName, amount, io);
      && t.result == CommandResult(false, TransferFailed)
      && t.users == Prepared(users, senderId, senderName, recipientId, recipientName, io)
      && t.calls == [GetUserCall(senderId), GetUserCall(recipientId), UpdateCoinsCall(senderId, -amount)]
  {
  }

  /**
   * A failed credit is followed by exactly one compensating credit of the sender. When that one
   * succeeds, the collection is back to what the lookups left: the debit is undone.
   */
  lemma TransferRollback(users: Users, senderId: string, senderName: string, recipientId: string,
                         recipientName: string, amount: int, io: SendIo)
    requires amount > 0 && GetUserStep(users, senderId, senderName, io.sender).value.coins >= amount
    requires var d := Prepared(users, senderId, senderName, recipientId, recipientName, io);
      var debit := UpdateCoinsStep(d, senderId, -amount, io.debit);
      debit.value.Success? && UpdateCoinsStep(debit.users, recipientId, amount, io.credit).value.Failure?
    requires io.refund.readOk && io.refund.writeOk
    ensures var t := TransferStep(users, senderId, senderName, recipientId, recipientName, amount, io);
      && t.result == CommandResult(false, TransferFailed)
      && t.users == Prepared(users, senderId, senderName, recipientId, recipientName, io)
      && t.calls == [GetUserCall(senderId), GetUserCall(recipientId), UpdateCoinsCall(senderId, -amount),
                     UpdateCoinsCall(recipientId, amount), UpdateCoinsCall(senderId, amount)]
  {
    TransferCreditFails(users, senderId, senderName, recipientId, recipientName, amount, io);
    var d := Prepared(users, senderId, senderName, recipientId, recipientName, io);
    UpdateCoinsInverse(d, senderId, -amount, io.debit, io.refund);
  }

  /** After a failed credit the sender is credited back, on the collection the debit left. */
  lemma TransferCreditFails(users: Users, senderId: string, senderName: string, recipientId: string,
                            recipientName: string, amount: int, io: SendIo)
    requires amount > 0 && GetUserStep(users, senderId, senderName, io.sender).value.coins >= amount
    requires var d := Prepared(users, senderId, senderName, recipientId, recipientName, io);
      var debit := UpdateCoinsStep(d, senderId, -amount, io.debit);
      debit.value.Success? && UpdateCoinsStep(debit.users, recipientId, amount, io.credit).value.Failure?
    ensures var d := Prepared(users, senderId, senderName, recipientId, recipientName, io);
      var debit := UpdateCoinsStep(d, senderId, -amount, io.debit);
      TransferStep(users, senderId, senderName, recipientId, recipientName, amount, io)
      == Transfer(CommandResult(false, TransferFailed), UpdateCoinsStep(debit.users, senderId, amount, io.refund).users,
                  [GetUserCall(senderId), GetUserCall(recipientId), UpdateCoinsCall(senderId, -amount),
                   UpdateCoinsCall(recipientId, amount), UpdateCoinsCall(senderId, amount)])
  {
    var d := Prepared(users, senderId, senderName, recipientId, recipientName, io);
    var debit := UpdateCoinsStep(d, senderId, -amount, io.debit);
    UpdateCoinsOutcome(debit.users, recipientId, amount, io.credit);
  }

  /** When the compensating credit fails too, the debited amount is lost from the supply. */
  lemma TransferRefundFails(users: Users, senderId: string, senderName: string, recipientId: string,
                            recipientName: string, amount: int, io: SendIo)
    requires amount > 0 && GetUserStep(users, senderId, senderName, io.sender).value.coins >= amount
    requires var d := Prepared(users, senderId, senderName, recipientId, recipientName, io);
      var debit := UpdateCoinsStep(d, senderId, -amount, io.debit);
      debit.value.Success? && UpdateCoinsStep(debit.users, recipientId, amount, io.credit).value.Failure?
    requires !(io.refund.readOk && io.refund.writeOk)
    ensures var t := TransferStep(users, senderId, senderName, recipientId, recipientName, amount, io);
      var d := Prepared(users, senderId, senderName, recipientId, recipientName, io);
      && t.result == CommandResult(false, TransferFailed)
      && senderId in d && d[senderId].Record?
      && t.users == Adjusted(d, senderId, -amount)
      && Supply(t.users) == Supply(d) - amount
  {
    TransferCreditFails(users, senderId, senderName, recipientId, recipientName, amount, io);
    var d := Prepared(users, senderId, senderName, recipientId, recipientName, io);
    var debit := UpdateCoinsStep(d, senderId, -amount, io.debit);
    UpdateCoinsOutcome(d, senderId, -amount, io.debit);
    UpdateCoinsOutcome(debit.users, senderId, amount, io.refund);
    UpdateCoinsSupply(d, senderId, -amount, io.debit);
  }

  /** The worked example: 10 and 5 coins, 3 sent, 7 and 8 remain. */
  lemma TransferExample()
    ensures var users := map["S" := Record(User("S", "sam", 10)), "R" := Record(User("R", "rae", 5))];
      var ok := UpdateIo(true, true);
      var found := GetUserIo(true, None, true);
      var t := TransferStep(users, "S", "sam", "R", "rae", 3, SendIo(found, found, ok, ok, ok));
      && t.result.success
      && t.users == map["S" := Record(User("S", "sam", 7)), "R" := Record(User("R", "rae", 8))]
  {
  }

  /** commands.HandleSend, over the store. */
  method HandleSend(store: Store, senderId: string, senderName: string, recipientId: string,
                    recipientName: string, amount: int, io: SendIo) returns (result: CommandResult)
    modifies store
    ensures var t := TransferStep(old(store.users), senderId, senderName, recipientId, recipientName, amount, io);
      && result == t.result
      && store.users == t.users
      && store.calls == old(store.calls) + t.calls
  {
    if amount <= 0 {
      return CommandResult(false, NonPositiveAmount);
    }
    ghost var users0, calls0 := store.users, store.calls;
    // GetUser never reports an error, so the "Error checking balance" branch cannot be taken.
    var sender := store.GetUser(senderId, senderName, io.sender);
    if sender.coins < amount {
      return CommandResult(false, InsufficientFunds(sender.coins));
    }
    // Likewise "Error finding recipient".
    var _ := store.GetUser(recipientId, recipientName, io.recipient);
    assert store.users == Prepared(users0, senderId, senderName, recipientId, recipientName, io);
    assert store.calls == calls0 + [GetUserCall(senderId), GetUserCall(recipientId)];
    result := SettleTransfer(store, senderId, recipientId, amount, io);
  }

  /** The debit, credit and refund part of commands.HandleSend, after both lookups. */
  method SettleTransfer(store: Store, senderId: string, recipientId: string, amount: int, io: SendIo)
    returns (result: CommandResult)
    modifies store
    ensures var t := Settle(old(store.users), senderId, recipientId, amount, io);
      && result == t.result
      && store.users == t.users
      && store.calls == old(store.calls) + t.calls
  {
    var debit := store.UpdateCoins(senderId, -amount, io.debit);
    if debit.Failure? {
      return CommandResult(false, TransferFailed);
    }
    var credit := store.UpdateCoins(recipientId, amount, io.credit);
    if credit.Failure? {
      // Try to roll back; the outcome is not looked at.
      var _ := store.UpdateCoins(senderId, amount, io.refund);
      return CommandResult(false, TransferFailed);
    }
    result := CommandResult(true, SentMessage(senderId, amount, recipientId));
  }


  // ---------------------------------------------------------------------------------------
  // HandleBalance and HandleLeaderboard.

  function BalanceMessage(userId: string, coins: int): string {
    "<@" + userId + "> has " + IntToDecimal(coins) + " :corbacoin:"
  }

  /** commands.HandleBalance: look the user up (creating them) and report the balance. */
  method HandleBalance(store: Store, userId: string, username: string, io: GetUserIo) returns (message: string)
    modifies store
    ensures var s := GetUserStep(old(store.users), userId, username, io);
      && message == BalanceMessage(userId, s.value.coins)
      && store.users == s.users
      && store.calls == old(store.calls) + [GetUserCall(userId)]
  {
    var user := store.GetUser(userId, username, io);
    message := BalanceMessage(userId, user.coins);
  }

  /** A user the collection has never seen is reported with the 5-coin grant. */
  lemma BalanceOfNewUser(users: Users, userId: string, username: string, io: GetUserIo)
    requires userId !in users
    ensures BalanceMessage(userId, GetUserStep(users, userId, username, io).value.coins)
         == "<@" + userId + "> has 5 :corbacoin:"
  {
    assert NatToDecimal(5) == "5";
  }

  const BoardHeader: string := "*Corbacoin Leaderboard* \U{1F3C6}\n"

  function BoardLine(rank: int, user: User): string {
    IntToDecimal(rank) + ". @" + user.username + ": " + IntToDecimal(user.coins) + " :corbacoin:\n"
  }

  const EmptyBoard: string := BoardHeader + "No users found."

  /** The numbered lines of the leaderboard: the i-th user of the list under rank i + 1. */
  function BoardBody(top: seq<User>): string {
    Numbered(top, BoardLine)
  }

  /** line(1, top[0]), line(2, top[1]), ... one after the other. */
  function Numbered(top: seq<User>, line: (int, User) -> string): string {
    if top == [] then "" else Numbered(top[..|top| - 1], line) + line(|top|, top[|top| - 1])
  }

  /** The text of the leaderboard for a list of users. */
  function BoardText(top: seq<User>): string {
    if top == [] then EmptyBoard else BoardHeader + BoardBody(top)
  }

  predicate IsPrefix(p: string, s: string) {
    |p| <= |s| && s[..|p|] == p
  }

  /** Whatever the line format, the line of rank 1 comes first. */
  lemma {:induction false} NumberedStartsWithFirst(top: seq<User>, line: (int, User) -> string)
    requires top != []
    ensures IsPrefix(line(1, top[0]), Numbered(top, line))
  {
    var n := |top|;
    if n > 1 {
      var front := top[..n - 1];
      assert front[0] == top[0];
      NumberedStartsWithFirst(front, line);
      var first := line(1, top[0]);
      assert Numbered(top, line)[..|first|] == Numbered(front, line)[..|first|];
    } else {
      assert top[..0] == [];
    }
  }

  /** The first user's line, with rank 1, comes first. */
  lemma BodyStartsWithLeader(top: seq<User>)
    requires top != []
    ensures IsPrefix(BoardLine(1, top[0]), BoardBody(top))
  {
    NumberedStartsWithFirst(top, BoardLine);
  }

  /** The first user is at the top of the board, ranked 1, right under the header. */
  lemma BoardStartsWithLeader(top: seq<User>)
    requires top != []
    ensures IsPrefix(BoardHeader + BoardLine(1, top[0]), BoardText(top))
  {
    BodyStartsWithLeader(top);
    var line := BoardLine(1, top[0]);
    var body := BoardBody(top);
    assert (BoardHeader + body)[..|BoardHeader + line|] == BoardHeader + body[..|line|];
  }

  /** Whatever the line format, one more user adds one line, with the next rank. */
  lemma NumberedSnoc(top: seq<User>, u: User, line: (int, User) -> string)
    ensures Numbered(top + [u], line) == Numbered(top, line) + line(|top| + 1, u)
  {
    var t := top + [u];
    assert t[..|t| - 1] == top && t[|t| - 1] == u;
  }

  /** Each further user adds one line to the board, with the next rank. */
  lemma BoardGrows(top: seq<User>, u: User)
    requires top != []
    ensures BoardText(top + [u]) == BoardText(top) + BoardLine(|top| + 1, u)
  {
    NumberedSnoc(top, u, BoardLine);
    var body := BoardBody(top);
    var line := BoardLine(|top| + 1, u);
    assert BoardHeader + (body + line) == (BoardHeader + body) + line;
  }

  lemma BoardBodyStep(top: seq<User>, i: nat)
    requires i < |top|
    ensures BoardBody(top[..i + 1]) == BoardBody(top[..i]) + BoardLine(i + 1, top[i])
  {
    assert top[..i + 1][..i] == top[..i];
  }

  /** The strings.Builder loop of HandleLeaderboard: one line per user, under the header. */
  method WriteBoard(top: seq<User>) returns (text: string)
    ensures text == BoardHeader + BoardBody(top)
  {
    var body := "";
    for i := 0 to |top|
      invariant body == BoardBody(top[..i])
    {
      BoardBodyStep(top, i);
      body := body + BoardLine(i + 1, top[i]);
    }
    assert top[..|top|] == top;
    text := BoardHeader + body;
  }

  /** commands.HandleLeaderboard: the top users, one numbered line each, or an error. */
  method HandleLeaderboard(store: Store, rows: seq<Fetch>) returns (r: Result<string, StoreError>)
    ensures r.Failure? <==> HasBroken(rows)
    ensures r.Success? ==> r.value == BoardText(Gathered(rows))
    ensures QueryServed(store.users, LeaderboardLimit, rows) ==>
      |Gathered(rows)| <= LeaderboardLimit && Descending(Gathered(rows))
    ensures QueryServed(store.users, LeaderboardLimit, rows) && r.Success? ==>
      HoldsHighest(store.users, rows, Gathered(rows))
  {
    var top, err := store.GetLeaderboard(LeaderboardLimit, rows);
    if err.Some? {
      return Failure(err.value);
    }
    if |top| == 0 {
      return Success(EmptyBoard);
    }
    var text := WriteBoard(top);
    r := Success(text);
  }

  /** commands.GetHelpMessage: the command list for mentions, or the one for slash commands. */
  function GetHelpMessage(isAppMention: bool): string {
    if isAppMention then
      "*Corbacoin Bot Commands*\n\n"
      + "• `@CorbacoinBot balance` - Check your balance\n"
      + "• `@CorbacoinBot send @user amount` - Send corbacoins\n"
      + "• `@CorbacoinBot leaderboard` - View top 10 users\n"
      + "• `@CorbacoinBot help` - Show this message\n\n"
      + "You can use these in any channel or thread!"
    else
      "*Corbacoin Slash Commands*\n\n"
      + "• `/balance` - Check your balance\n"
      + "• `/send @user amount` - Send corbacoins\n"
      + "• `/leaderboard` - View top 10 users"
  }
}
