/**
 capture.py: reading completed turns out of a transcript, and the identities derived from a turn.
 A string holds one character per UTF-8 byte. SHA-256 in lower-case hex is the parameter `sha`.
 */
module Capture {
  import opened Wrappers
  import opened Requests
  import opened Outbox

  // ---------------------------------------------------------------- committed turns

  datatype Role = User | Assistant | OtherRole

  /** A message with its flattened text. */
  datatype Message = Message(role: Role, content: string, toolCalls: bool)

  datatype TurnText = TurnText(user: string, assistant: string)

  datatype Reading = Reading(turns: seq<TurnText>, pending: Option<string>)

  function ReadOne(r: Reading, m: Message): Reading {
    if m.role.User? && m.content != "" then r.(pending := Some(m.content))
    else if !m.role.Assistant? || r.pending.None? || m.content == "" || m.toolCalls then r
    else Reading(r.turns + [TurnText(r.pending.value, m.content)], None)
  }

  function Read(messages: seq<Message>): Reading {
    if messages == [] then Reading([], None)
    else ReadOne(Read(messages[..|messages| - 1]), messages[|messages| - 1])
  }

  method CommittedTurns(messages: seq<Message>) returns (turns: seq<TurnText>)
    ensures turns == Read(messages).turns
  {
    turns := [];
    var pendingUser: Option<string> := None;
    var i := 0;
    while i < |messages|
      invariant 0 <= i <= |messages|
      invariant Reading(turns, pendingUser) == Read(messages[..i])
    {
      assert messages[..i + 1][..i] == messages[..i];
      var message := messages[i];
      i := i + 1;
      if message.role.User? && message.content != "" {
        pendingUser := Some(message.content);
        continue;
      }
      if !message.role.Assistant? || pendingUser.None? || message.content == "" { continue; }
      if message.toolCalls { continue; }
      turns := turns + [TurnText(pendingUser.value, message.content)];
      pendingUser := None;
    }
    assert messages[..i] == messages;
  }

  lemma ReadSnoc(messages: seq<Message>, m: Message)
    ensures Read(messages + [m]) == ReadOne(Read(messages), m)
  {
    assert (messages + [m])[..|messages|] == messages;
  }

  /** The turns of a prefix of the transcript are a prefix of its turns. */
  lemma {:induction false} TurnsOfPrefix(front: seq<Message>, rest: seq<Message>)
    ensures Read(front).turns <= Read(front + rest).turns
  {
    if rest == [] {
      assert front + rest == front;
    } else {
      var butLast, last := rest[..|rest| - 1], rest[|rest| - 1];
      TurnsOfPrefix(front, butLast);
      assert front + rest == (front + butLast) + [last];
      ReadSnoc(front + butLast, last);
    }
  }

  /** A message the capture boundary admits: user text, or assistant text without tool calls. */
  predicate Admitted(m: Message) {
    m.content != "" && (m.role.User? || (m.role.Assistant? && !m.toolCalls))
  }

  /** Tool traffic, empty texts and other roles never change what is read. */
  lemma {:induction false} OthersDoNotCount(front: seq<Message>, m: Message, rest: seq<Message>)
    requires !Admitted(m)
    ensures Read(front + [m] + rest) == Read(front + rest)
  {
    if rest == [] {
      ReadSnoc(front, m);
      assert front + [m] + rest == front + [m] && front + rest == front;
    } else {
      var butLast, last := rest[..|rest| - 1], rest[|rest| - 1];
      OthersDoNotCount(front, m, butLast);
      assert front + [m] + rest == (front + [m] + butLast) + [last];
      assert front + rest == (front + butLast) + [last];
      ReadSnoc(front + [m] + butLast, last);
      ReadSnoc(front + butLast, last);
    }
  }

  /** The messages the capture boundary admits, in order. */
  function Admit(messages: seq<Message>): seq<Message> {
    if messages == [] then [] else
      Admit(messages[..|messages| - 1])
      + if Admitted(messages[|messages| - 1]) then [messages[|messages| - 1]] else []
  }

  /** Every user message that an assistant message follows directly. */
  function Exchanges(messages: seq<Message>): seq<TurnText> {
    if |messages| < 2 then [] else
      var u, a := messages[|messages| - 2], messages[|messages| - 1];
      Exchanges(messages[..|messages| - 1])
      + if u.role.User? && a.role.Assistant? then [TurnText(u.content, a.content)] else []
  }

  /**
   The committed turns are the user texts directly followed, among the admitted messages, by an
   assistant text: of several user messages in a row the last counts, of several answers the first.
   */
  lemma {:induction false} TurnsAreExchanges(messages: seq<Message>)
    ensures Read(messages).turns == Exchanges(Admit(messages))
    ensures
      var admitted := Admit(messages);
      Read(messages).pending
      == if admitted != [] && admitted[|admitted| - 1].role.User? then Some(admitted[|admitted| - 1].content)
         else None
    ensures forall i | 0 <= i < |Admit(messages)| :: Admitted(Admit(messages)[i])
  {
    if messages != [] {
      var front, last := messages[..|messages| - 1], messages[|messages| - 1];
      TurnsAreExchanges(front);
      if Admitted(last) {
        assert Admit(messages)[..|Admit(front)|] == Admit(front);
      } else {
        assert Admit(messages) == Admit(front);
      }
    }
  }

  lemma ExchangeRead(r: Reading, u: string, a: string, b: string)
    requires u != "" && a != "" && b != ""
    ensures
      var answered := ReadOne(ReadOne(r, Message(User, u, false)), Message(Assistant, a, false));
      && answered == Reading(r.turns + [TurnText(u, a)], None)
      && ReadOne(answered, Message(Assistant, b, false)) == answered
  {
  }

  lemma ReadTwo(front: seq<Message>, m: Message, n: Message)
    ensures Read(front + [m] + [n]) == ReadOne(ReadOne(Read(front), m), n)
  {
    ReadSnoc(front, m);
    ReadSnoc(front + [m], n);
  }

  /** Whatever is pending: the last user message and its first answer make a turn, and a second answer none. */
  lemma LastExchangeCounts(front: seq<Message>, u: string, a: string, b: string)
    requires u != "" && a != "" && b != ""
    ensures
      var answered := front + [Message(User, u, false)] + [Message(Assistant, a, false)];
      && Read(answered).turns == Read(front).turns + [TurnText(u, a)]
      && Read(answered + [Message(Assistant, b, false)]) == Read(answered)
  {
    var answered := front + [Message(User, u, false)] + [Message(Assistant, a, false)];
    ExchangeRead(Read(front), u, a, b);
    ReadTwo(front, Message(User, u, false), Message(Assistant, a, false));
    ReadSnoc(answered, Message(Assistant, b, false));
  }

  function Render(turns: seq<TurnText>): seq<Message> {
    if turns == [] then [] else
      Render(turns[..|turns| - 1])
      + [Message(User, turns[|turns| - 1].user, false)]
      + [Message(Assistant, turns[|turns| - 1].assistant, false)]
  }

  ghost predicate NonEmptyTurns(turns: seq<TurnText>) {
    forall i | 0 <= i < |turns| :: turns[i].user != "" && turns[i].assistant != ""
  }

  /** Rendering turns as user and assistant messages and reading them back gives the turns. */
  lemma {:induction false} ReadRendered(turns: seq<TurnText>)
    requires NonEmptyTurns(turns)
    ensures Read(Render(turns)) == Reading(turns, None)
  {
    if turns != [] {
      var butLast, last := turns[..|turns| - 1], turns[|turns| - 1];
      ReadRendered(butLast);
      var u, a := Message(User, last.user, false), Message(Assistant, last.assistant, false);
      var front := Render(butLast);
      assert Render(turns) == front + [u] + [a];
      ReadSnoc(front, u);
      ReadSnoc(front + [u], a);
      assert turns == butLast + [last];
    }
  }

  lemma {:induction false} ReadTurnsAreNonEmpty(messages: seq<Message>)
    ensures NonEmptyTurns(Read(messages).turns)
    ensures Read(messages).pending.Some? ==> Read(messages).pending.value != ""
  {
    if messages != [] {
      ReadTurnsAreNonEmpty(messages[..|messages| - 1]);
    }
  }

  /** ... for every transcript: reading is idempotent through rendering. */
  lemma ReadRenderRead(messages: seq<Message>)
    ensures Read(Render(Read(messages).turns)).turns == Read(messages).turns
  {
    ReadTurnsAreNonEmpty(messages);
    ReadRendered(Read(messages).turns);
  }

  // ---------------------------------------------------------------- percent-encoding

  predicate IsBytes(s: string) {
    forall i | 0 <= i < |s| :: s[i] < 256 as char
  }

  /** Section 2.3 of RFC 3986. */
  predicate Unreserved(c: char) {
    'A' <= c <= 'Z' || 'a' <= c <= 'z' || '0' <= c <= '9' || c == '_' || c == '.' || c == '-' || c == '~'
  }

  function HexDigit(n: nat): (c: char)
    requires n < 16
    ensures '0' <= c <= '9' || 'A' <= c <= 'F'
  {
    if n < 10 then ('0' as int + n) as char else ('A' as int + n - 10) as char
  }

  function HexValue(c: char): Option<nat> {
    if '0' <= c <= '9' then Some(c as nat - '0' as nat)
    else if 'A' <= c <= 'F' then Some(c as nat - 'A' as nat + 10)
    else if 'a' <= c <= 'f' then Some(c as nat - 'a' as nat + 10)
    else None
  }

  /** urllib.parse.quote(s, safe=""): section 2.1 of RFC 3986 with upper-case digits, on bytes. */
  function Quote(s: string): string {
    if s == "" then "" else
      (if Unreserved(s[0]) then [s[0]]
       else ['%', HexDigit(s[0] as nat / 16 % 16), HexDigit(s[0] as nat % 16)])
      + Quote(s[1..])
  }

  /** urllib.parse.unquote: a percent sign without two hex digits stands for itself. */
  function Unquote(s: string): string {
    if s == "" then ""
    else if s[0] == '%' && |s| >= 3 && HexValue(s[1]).Some? && HexValue(s[2]).Some? then
      [(16 * HexValue(s[1]).value + HexValue(s[2]).value) as char] + Unquote(s[3..])
    else [s[0]] + Unquote(s[1..])
  }

  lemma HexRoundTrip(n: nat)
    requires n < 16
    ensures HexValue(HexDigit(n)) == Some(n)
  {
  }

  /** An escaped byte decodes to the byte, whatever follows. */
  lemma UnquoteEscape(c: char, rest: string)
    requires c < 256 as char
    ensures Unquote(['%', HexDigit(c as nat / 16 % 16), HexDigit(c as nat % 16)] + rest) == [c] + Unquote(rest)
  {
    var code := c as nat;
    var s := ['%', HexDigit(code / 16 % 16), HexDigit(code % 16)] + rest;
    assert code / 16 % 16 == code / 16;
    HexRoundTrip(code / 16);
    HexRoundTrip(code % 16);
    assert s[3..] == rest;
    assert 16 * (code / 16) + code % 16 == code;
  }

  lemma UnquotePlain(c: char, rest: string)
    requires c != '%'
    ensures Unquote([c] + rest) == [c] + Unquote(rest)
  {
    assert ([c] + rest)[1..] == rest;
  }

  lemma {:induction false} UnquoteQuote(s: string)
    requires IsBytes(s)
    ensures Unquote(Quote(s)) == s
  {
    if s != "" {
      UnquoteQuote(s[1..]);
      assert s == [s[0]] + s[1..];
      if Unreserved(s[0]) {
        UnquotePlain(s[0], Quote(s[1..]));
      } else {
        UnquoteEscape(s[0], Quote(s[1..]));
      }
    }
  }

  predicate Lacks(s: string, c: char) {
    forall i | 0 <= i < |s| :: s[i] != c
  }

  /** Quoting leaves no character outside the unreserved set but the percent sign. */
  lemma {:induction false} QuoteLacks(s: string, c: char)
    requires !Unreserved(c) && c != '%'
    ensures Lacks(Quote(s), c)
  {
    if s != "" {
      QuoteLacks(s[1..], c);
    }
  }

  lemma QuoteInjective(s: string, t: string)
    requires IsBytes(s) && IsBytes(t) && Quote(s) == Quote(t)
    ensures s == t
  {
    UnquoteQuote(s);
    UnquoteQuote(t);
  }

  // ---------------------------------------------------------------- decimal numbers

  function Decimal(n: nat): (s: string)
    ensures forall i | 0 <= i < |s| :: '0' <= s[i] <= '9'
    ensures s != ""
  {
    if n < 10 then [('0' as int + n) as char]
    else Decimal(n / 10) + [('0' as int + n % 10) as char]
  }

  function Numeral(s: string): int {
    if s == "" then 0 else 10 * Numeral(s[..|s| - 1]) + (s[|s| - 1] as int - '0' as int)
  }

  lemma {:induction false} NumeralDecimal(n: nat)
    ensures Numeral(Decimal(n)) == n
  {
    if n < 10 {
      assert Decimal(n)[..0] == "";
    } else {
      NumeralDecimal(n / 10);
      var front := Decimal(n / 10);
      assert Decimal(n)[..|front|] == front;
    }
  }

  lemma DecimalInjective(m: nat, n: nat)
    requires Decimal(m) == Decimal(n)
    ensures m == n
  {
    NumeralDecimal(m);
    NumeralDecimal(n);
  }

  // ---------------------------------------------------------------- identities

  const NUL: char := 0 as char

  /** What the model asks of a hash: no two inputs collide, and the output is lower-case hex. */
  ghost predicate Ideal(sha: string -> string) {
    && (forall x, y :: sha(x) == sha(y) ==> x == y)
    && (forall x :: sha(x) != "")
    && (forall x, i | 0 <= i < |sha(x)| :: '0' <= sha(x)[i] <= '9' || 'a' <= sha(x)[i] <= 'f')
  }

  function LowerHex(n: nat): (c: char)
    requires n < 16
    ensures '0' <= c <= '9' || 'a' <= c <= 'f'
  {
    if n < 10 then ('0' as int + n) as char else ('a' as int + n - 10) as char
  }

  function Hex(n: nat, width: nat): (s: string)
    ensures |s| == width && forall i | 0 <= i < width :: '0' <= s[i] <= '9' || 'a' <= s[i] <= 'f'
  {
    if width == 0 then "" else Hex(n / 16, width - 1) + [LowerHex(n % 16)]
  }

  predicate Fits(n: nat, width: nat) {
    if width == 0 then n == 0 else Fits(n / 16, width - 1)
  }

  /** A character as six hexadecimal digits. */
  function SixDigits(c: char): (s: string)
    ensures |s| == 6 && forall i | 0 <= i < 6 :: '0' <= s[i] <= '9' || 'a' <= s[i] <= 'f'
  {
    Hex(c as nat, 6)
  }

  /** A hash as ideal as one can be: it writes its input out. */
  function Spelled(s: string): (h: string)
    ensures |h| == 1 + 6 * |s| && forall i | 0 <= i < |h| :: '0' <= h[i] <= '9' || 'a' <= h[i] <= 'f'
  {
    if s == "" then "0" else Spelled(s[..|s| - 1]) + SixDigits(s[|s| - 1])
  }

  lemma LowerHexInjective(m: nat, n: nat)
    requires m < 16 && n < 16 && LowerHex(m) == LowerHex(n)
    ensures m == n
  {
  }

  lemma {:induction false} HexInjective(m: nat, n: nat, width: nat)
    requires Fits(m, width) && Fits(n, width) && Hex(m, width) == Hex(n, width)
    ensures m == n
  {
    if width > 0 {
      var s, t := Hex(m, width), Hex(n, width);
      assert s[..width - 1] == Hex(m / 16, width - 1) && t[..width - 1] == Hex(n / 16, width - 1);
      assert s[width - 1] == t[width - 1];
      HexInjective(m / 16, n / 16, width - 1);
      LowerHexInjective(m % 16, n % 16);
    }
  }

  lemma CharsFit(c: char)
    ensures Fits(c as nat, 6)
  {
    var n := c as nat;
    assert n < 0x100_0000;
    assert Fits(n / 16 / 16 / 16 / 16, 2);
    assert Fits(n / 16 / 16, 4);
  }

  lemma SixDigitsInjective(c: char, d: char)
    requires SixDigits(c) == SixDigits(d)
    ensures c == d
  {
    CharsFit(c);
    CharsFit(d);
    HexInjective(c as nat, d as nat, 6);
  }

  lemma {:induction false} SpelledInjective(x: string, y: string)
    requires Spelled(x) == Spelled(y)
    ensures x == y
    decreases |x|
  {
    if x != "" {
      var n := |Spelled(x)| - 6;
      assert Spelled(x)[..n] == Spelled(x[..|x| - 1]) && Spelled(y)[..n] == Spelled(y[..|y| - 1]);
      assert Spelled(x)[n..] == SixDigits(x[|x| - 1]) && Spelled(y)[n..] == SixDigits(y[|y| - 1]);
      SpelledInjective(x[..|x| - 1], y[..|y| - 1]);
      SixDigitsInjective(x[|x| - 1], y[|y| - 1]);
      assert x == x[..|x| - 1] + [x[|x| - 1]] && y == y[..|y| - 1] + [y[|y| - 1]];
    }
  }

  /** The hypothesis can be met. */
  lemma IdealExists()
    ensures Ideal(s => Spelled(s))
  {
    var sha: string -> string := s => Spelled(s);
    forall x, y | sha(x) == sha(y) ensures x == y {
      SpelledInjective(x, y);
    }
  }

  function Join(parts: seq<string>, separator: char): string {
    if parts == [] then ""
    else if |parts| == 1 then parts[0]
    else parts[0] + [separator] + Join(parts[1..], separator)
  }

  /** _delimited_hash and _hash_parts: parts joined by NUL bytes. */
  function HashParts(sha: string -> string, parts: seq<string>): string {
    sha(Join(parts, NUL))
  }

  function TurnHash(sha: string -> string, user: string, assistant: string): string {
    sha(user + [NUL] + assistant)
  }

  datatype TurnIdentity = TurnIdentity(
    operationId: string, sourceId: string, idempotencyKey: string, turnHash: string,
    localSequence: nat, turnNumber: nat, turnNumberSource: string)

  function OperationParts(agent: string, session: string, sequence: nat, turn: nat, digest: string)
    : seq<string>
  {
    [agent, session, Decimal(sequence), Decimal(turn), digest]
  }

  function Take(s: string, n: nat): string {
    if |s| <= n then s else s[..n]
  }

  function SourceId(agent: string, session: string, sequence: nat, turn: nat, digest: string): string {
    Join(["hermes", "turn", Quote(agent), Quote(session), Decimal(sequence), Decimal(turn),
          Take(digest, 16)], ':')
  }

  function DeriveTurnIdentity(
    sha: string -> string, agent: string, session: string, sequence: int, turnNumber: Option<int>,
    user: string, assistant: string): Result<TurnIdentity>
  {
    var turn := if turnNumber.Some? then turnNumber.value else sequence;
    if sequence < 1 || turn < 0 then Err(InvalidArgument) else
      var digest := TurnHash(sha, user, assistant);
      var id := HashParts(sha, OperationParts(agent, session, sequence, turn, digest));
      Ok(TurnIdentity(id, SourceId(agent, session, sequence, turn, digest), "hermes-turn-" + id,
                      digest, sequence, turn,
                      if turnNumber.Some? then "hermes" else "local-sequence-fallback"))
  }

  /** Cutting at the first separator: the parts before it are free of it. */
  lemma {:induction false} SplitFirst(a: string, x: string, b: string, y: string, c: char)
    requires Lacks(a, c) && Lacks(b, c) && a + [c] + x == b + [c] + y
    ensures a == b && x == y
  {
    var s, t := a + [c] + x, b + [c] + y;
    assert s[0] == (if a == "" then c else a[0]) && t[0] == (if b == "" then c else b[0]);
    assert a == "" ==> s[1..] == x;
    assert b == "" ==> t[1..] == y;
    if a != "" && b != "" {
      assert s[1..] == a[1..] + [c] + x && t[1..] == b[1..] + [c] + y;
      SplitFirst(a[1..], x, b[1..], y, c);
      assert a == [a[0]] + a[1..] && b == [b[0]] + b[1..];
    }
  }

  /** Cutting at the last separator. */
  lemma {:induction false} SplitLast(x: string, a: string, y: string, b: string, c: char)
    requires Lacks(a, c) && Lacks(b, c) && x + [c] + a == y + [c] + b
    ensures a == b && x == y
    decreases |a|
  {
    var s := x + [c] + a;
    var n := |s| - 1;
    assert s[n] == if a == "" then c else a[|a| - 1];
    assert s[n] == if b == "" then c else b[|b| - 1];
    if a == "" || b == "" {
      assert s[..n] == x && s[..n] == y;
    } else {
      var a', b' := a[..|a| - 1], b[..|b| - 1];
      assert s[..n] == x + [c] + a' && s[..n] == y + [c] + b';
      SplitLast(x, a', y, b', c);
      assert a == a' + [a[|a| - 1]] && b == b' + [b[|b| - 1]];
    }
  }

  /** Among turns whose user texts have no NUL, the turn hash tells turns apart. */
  lemma TurnHashDeterminesTurn(sha: string -> string, user: string, assistant: string, user': string,
                               assistant': string)
    requires Ideal(sha) && Lacks(user, NUL) && Lacks(user', NUL)
    ensures TurnHash(sha, user, assistant) == TurnHash(sha, user', assistant')
            <==> user == user' && assistant == assistant'
  {
    if TurnHash(sha, user, assistant) == TurnHash(sha, user', assistant') {
      SplitFirst(user, assistant, user', assistant', NUL);
    }
  }

  /** A NUL in either text lets the border between the two texts move: another turn has the hash. */
  lemma NulMovesTheBorder(sha: string -> string, user: string, assistant: string)
    returns (user': string, assistant': string)
    requires !Lacks(user, NUL) || !Lacks(assistant, NUL)
    ensures (user', assistant') != (user, assistant)
    ensures TurnHash(sha, user', assistant') == TurnHash(sha, user, assistant)
  {
    if !Lacks(user, NUL) {
      var i :| 0 <= i < |user| && user[i] == NUL;
      user', assistant' := user[..i], user[i + 1..] + [NUL] + assistant;
      assert user == user[..i] + [NUL] + user[i + 1..];
    } else {
      var i :| 0 <= i < |assistant| && assistant[i] == NUL;
      user', assistant' := user + [NUL] + assistant[..i], assistant[i + 1..];
      assert assistant == assistant[..i] + [NUL] + assistant[i + 1..];
    }
    assert user' + [NUL] + assistant' == user + [NUL] + assistant;
  }

  /** Between texts without NUL the border is where the only NUL is. */
  lemma OnlyBorder(user: string, assistant: string, user': string, assistant': string)
    requires Lacks(user, NUL) && Lacks(assistant, NUL)
    requires user + [NUL] + assistant == user' + [NUL] + assistant'
    ensures user == user' && assistant == assistant'
  {
    var s := user + [NUL] + assistant;
    assert s[|user'|] == NUL;
    assert forall k | 0 <= k < |user| :: s[k] == user[k];
    assert forall k | |user| < k < |s| :: s[k] == assistant[k - |user| - 1];
    assert s[..|user|] == user && s[|user| + 1..] == assistant;
    var t := user' + [NUL] + assistant';
    assert t[..|user'|] == user' && t[|user'| + 1..] == assistant';
  }

  ghost predicate SharesHash(sha: string -> string, user: string, assistant: string, user': string,
                             assistant': string)
  {
    TurnHash(sha, user', assistant') == TurnHash(sha, user, assistant) && (user', assistant') != (user, assistant)
  }

  /** No other turn has a turn's hash if and only if neither of its texts contains a NUL. */
  lemma TurnHashUniqueIff(sha: string -> string, user: string, assistant: string)
    requires Ideal(sha)
    ensures (forall u, a :: !SharesHash(sha, user, assistant, u, a))
            <==> Lacks(user, NUL) && Lacks(assistant, NUL)
  {
    if Lacks(user, NUL) && Lacks(assistant, NUL) {
      forall u, a ensures !SharesHash(sha, user, assistant, u, a) {
        if TurnHash(sha, u, a) == TurnHash(sha, user, assistant) {
          OnlyBorder(user, assistant, u, a);
        }
      }
    } else {
      var u, a := NulMovesTheBorder(sha, user, assistant);
      assert SharesHash(sha, user, assistant, u, a);
    }
  }

  lemma JoinFive(a: string, b: string, d: string, e: string, f: string, c: char)
    ensures Join([a, b, d, e, f], c) == a + [c] + (b + [c] + d + [c] + e + [c] + f)
  {
    assert Join([e, f], c) == e + [c] + f by {
      assert [e, f][1..] == [f];
    }
    assert Join([d, e, f], c) == d + [c] + Join([e, f], c) by {
      assert [d, e, f][1..] == [e, f];
    }
    assert Join([b, d, e, f], c) == b + [c] + Join([d, e, f], c) by {
      assert [b, d, e, f][1..] == [d, e, f];
    }
    assert [a, b, d, e, f][1..] == [b, d, e, f];
    assert b + [c] + (d + [c] + (e + [c] + f)) == b + [c] + d + [c] + e + [c] + f;
  }

  /** Turns that differ in agent, session, sequence, number or hash have different hash inputs. */
  lemma OperationPartsInjective(
    agent: string, session: string, sequence: nat, turn: nat, digest: string,
    agent': string, session': string, sequence': nat, turn': nat, digest': string)
    requires Lacks(agent, NUL) && Lacks(agent', NUL) && Lacks(digest, NUL) && Lacks(digest', NUL)
    requires Join(OperationParts(agent, session, sequence, turn, digest), NUL)
          == Join(OperationParts(agent', session', sequence', turn', digest'), NUL)
    ensures agent == agent' && session == session' && sequence == sequence' && turn == turn'
         && digest == digest'
  {
    var d, e, d', e' := Decimal(sequence), Decimal(turn), Decimal(sequence'), Decimal(turn');
    JoinFive(agent, session, d, e, digest, NUL);
    JoinFive(agent', session', d', e', digest', NUL);
    SplitFirst(agent, session + [NUL] + d + [NUL] + e + [NUL] + digest,
               agent', session' + [NUL] + d' + [NUL] + e' + [NUL] + digest', NUL);
    SplitLast(session + [NUL] + d + [NUL] + e, digest, session' + [NUL] + d' + [NUL] + e', digest', NUL);
    SplitLast(session + [NUL] + d, e, session' + [NUL] + d', e', NUL);
    SplitLast(session, d, session', d', NUL);
    DecimalInjective(sequence, sequence');
    DecimalInjective(turn, turn');
  }

  lemma JoinSource(a: string, b: string, d: string, e: string, f: string)
    ensures Join(["hermes", "turn", a, b, d, e, f], ':')
         == "hermes" + [':'] + ("turn" + [':'] + (a + [':'] + (b + [':'] + (d + [':'] + (e + [':'] + f)))))
  {
    var c := ':';
    JoinFive(a, b, d, e, f, c);
    var five := [a, b, d, e, f];
    assert Join(["turn"] + five, c) == "turn" + [c] + Join(five, c) by {
      assert (["turn"] + five)[1..] == five;
    }
    assert Join(["hermes"] + (["turn"] + five), c) == "hermes" + [c] + Join(["turn"] + five, c) by {
      assert (["hermes"] + (["turn"] + five))[1..] == ["turn"] + five;
    }
    assert ["hermes", "turn", a, b, d, e, f] == ["hermes"] + (["turn"] + five);
    assert a + [c] + (b + [c] + d + [c] + e + [c] + f)
        == a + [c] + (b + [c] + (d + [c] + (e + [c] + f)));
  }

  /** Source ids determine agent, session, sequence and turn number, whatever bytes the ids hold. */
  lemma SourceIdInjective(
    agent: string, session: string, sequence: nat, turn: nat, digest: string,
    agent': string, session': string, sequence': nat, turn': nat, digest': string)
    requires IsBytes(agent) && IsBytes(session) && IsBytes(agent') && IsBytes(session')
    requires SourceId(agent, session, sequence, turn, digest)
          == SourceId(agent', session', sequence', turn', digest')
    ensures agent == agent' && session == session' && sequence == sequence' && turn == turn'
  {
    var a, b, d, e, f := Quote(agent), Quote(session), Decimal(sequence), Decimal(turn), Take(digest, 16);
    var a', b', d', e', f' :=
      Quote(agent'), Quote(session'), Decimal(sequence'), Decimal(turn'), Take(digest', 16);
    JoinSource(a, b, d, e, f);
    JoinSource(a', b', d', e', f');
    SameSourceParts(a, b, d, e, f, a', b', d', e', f') by {
      QuoteLacks(agent, ':');
      QuoteLacks(session, ':');
      QuoteLacks(agent', ':');
      QuoteLacks(session', ':');
    }
    QuoteInjective(agent, agent');
    QuoteInjective(session, session');
    DecimalInjective(sequence, sequence');
    DecimalInjective(turn, turn');
  }

  lemma SameSourceParts(a: string, b: string, d: string, e: string, f: string,
                        a': string, b': string, d': string, e': string, f': string)
    requires Lacks(a, ':') && Lacks(b, ':') && Lacks(d, ':') && Lacks(e, ':')
    requires Lacks(a', ':') && Lacks(b', ':') && Lacks(d', ':') && Lacks(e', ':')
    requires "hermes" + [':'] + ("turn" + [':'] + (a + [':'] + (b + [':'] + (d + [':'] + (e + [':'] + f)))))
          == "hermes" + [':'] + ("turn" + [':'] + (a' + [':'] + (b' + [':'] + (d' + [':'] + (e' + [':'] + f')))))
    ensures a == a' && b == b' && d == d' && e == e' && f == f'
  {
    var r4, r4' := e + [':'] + f, e' + [':'] + f';
    var r3, r3' := d + [':'] + r4, d' + [':'] + r4';
    var r2, r2' := b + [':'] + r3, b' + [':'] + r3';
    var r1, r1' := a + [':'] + r2, a' + [':'] + r2';
    SplitFirst("hermes", "turn" + [':'] + r1, "hermes", "turn" + [':'] + r1', ':');
    SplitFirst("turn", r1, "turn", r1', ':');
    SplitFirst(a, r2, a', r2', ':');
    SplitFirst(b, r3, b', r3', ':');
    SplitFirst(d, r4, d', r4', ':');
    SplitFirst(e, f, e', f', ':');
  }

  /**
   Two turns get the same operation id, or the same source id, only if agent, session and local
   sequence agree.
   */
  lemma TurnIdentitiesDistinct(
    sha: string -> string, agent: string, session: string, sequence: int, turn: Option<int>,
    user: string, assistant: string, agent': string, session': string, sequence': int,
    turn': Option<int>, user': string, assistant': string)
    requires Ideal(sha) && IsBytes(agent) && IsBytes(session) && IsBytes(agent') && IsBytes(session')
    requires Lacks(agent, NUL) && Lacks(agent', NUL)
    ensures
      var x := DeriveTurnIdentity(sha, agent, session, sequence, turn, user, assistant);
      var y := DeriveTurnIdentity(sha, agent', session', sequence', turn', user', assistant');
      x.Ok? && y.Ok?
      && (x.value.operationId == y.value.operationId || x.value.sourceId == y.value.sourceId) ==>
        agent == agent' && session == session' && sequence == sequence'
  {
    var x := DeriveTurnIdentity(sha, agent, session, sequence, turn, user, assistant);
    var y := DeriveTurnIdentity(sha, agent', session', sequence', turn', user', assistant');
    if x.Ok? && y.Ok? {
      var v, w := x.value, y.value;
      assert Lacks(v.turnHash, NUL) && Lacks(w.turnHash, NUL);
      if v.operationId == w.operationId {
        OperationPartsInjective(agent, session, sequence, v.turnNumber, v.turnHash,
                                agent', session', sequence', w.turnNumber, w.turnHash);
      } else if v.sourceId == w.sourceId {
        SourceIdInjective(agent, session, sequence, v.turnNumber, v.turnHash,
                          agent', session', sequence', w.turnNumber, w.turnHash);
      }
    }
  }

  // ---------------------------------------------------------------- correction endpoints

  const MARKER := "/api/memory/inspect/"
  const CORRECTIONS := "/corrections"

  function CorrectionEndpoint(sourceId: string): string {
    MARKER + Quote(sourceId) + CORRECTIONS
  }

  /** _correction_source_id; an end before the start slices to nothing. */
  function CorrectionSourceId(endpoint: string): Result<string> {
    if !StartsWith(endpoint, MARKER) || !EndsWith(endpoint, CORRECTIONS) then Err(InvalidArgument)
    else if |endpoint| - |CORRECTIONS| < |MARKER| then Ok("")
    else Ok(Unquote(endpoint[|MARKER|..|endpoint| - |CORRECTIONS|]))
  }

  datatype RecoveryKind = NoRecovery | RawCaptureRecovery | CorrectionRecovery | ExposureRecovery

  function BeforeQuery(s: string): string {
    if s == "" || s[0] == '?' then "" else [s[0]] + BeforeQuery(s[1..])
  }

  function StripSlashes(s: string): string {
    if s != "" && s[|s| - 1] == '/' then StripSlashes(s[..|s| - 1]) else s
  }

  function RecoveryKindForEndpoint(endpoint: string): RecoveryKind {
    var path := StripSlashes(BeforeQuery(endpoint));
    if EndsWith(path, "/memory/raw") then RawCaptureRecovery
    else if EndsWith(path, "/memory/expose") then ExposureRecovery
    else if EndsWith(path, CORRECTIONS) then CorrectionRecovery
    else NoRecovery
  }

  lemma {:induction false} LackingDoesNotContain(s: string, c: char, part: string)
    requires Lacks(s, c) && |part| > 0 && part[0] == c
    ensures !Contains(s, part)
  {
    if s != "" {
      assert Lacks(s[1..], c);
      LackingDoesNotContain(s[1..], c, part);
    }
  }

  lemma {:induction false} NoQuery(s: string)
    requires Lacks(s, '?')
    ensures BeforeQuery(s) == s
  {
    if s != "" {
      assert Lacks(s[1..], '?');
      NoQuery(s[1..]);
      assert s == [s[0]] + s[1..];
    }
  }

  lemma PlainEndpoint(s: string)
    requires StartsWith(s, "/") && Lacks(s, ':') && Lacks(s, '?') && Lacks(s, '#')
    ensures ValidEndpoint(s)
  {
    LackingDoesNotContain(s, ':', "://");
    LackingDoesNotContain(s, '?', "?");
    LackingDoesNotContain(s, '#', "#");
  }

  /** The outbox accepts the endpoint built for any source id. */
  lemma CorrectionEndpointValid(sourceId: string)
    ensures ValidEndpoint(CorrectionEndpoint(sourceId))
  {
    var endpoint := CorrectionEndpoint(sourceId);
    EndpointLacks(sourceId, ':');
    EndpointLacks(sourceId, '?');
    EndpointLacks(sourceId, '#');
    PlainEndpoint(endpoint);
  }

  /** It ends as a correction and not as a capture or an exposure. */
  lemma CorrectionEndpointRoute(sourceId: string)
    ensures EndsWith(CorrectionEndpoint(sourceId), CORRECTIONS)
    ensures !EndsWith(CorrectionEndpoint(sourceId), "/memory/raw")
    ensures !EndsWith(CorrectionEndpoint(sourceId), "/memory/expose")
  {
    var endpoint := CorrectionEndpoint(sourceId);
    assert endpoint[|endpoint| - |CORRECTIONS|..] == CORRECTIONS;
    assert endpoint[|endpoint| - 1] == CORRECTIONS[|CORRECTIONS| - 1] == 's';
    LastDecides(endpoint, "/memory/raw");
    LastDecides(endpoint, "/memory/expose");
  }

  /**
   For every source id: the executor recovers it from the endpoint built for it, the outbox accepts
   that endpoint, and both the outbox and the executor classify it as a correction, not a capture.
   */
  lemma CorrectionEndpointRoundTrip(sourceId: string)
    requires IsBytes(sourceId)
    ensures
      var endpoint := CorrectionEndpoint(sourceId);
      && CorrectionSourceId(endpoint) == Ok(sourceId)
      && ValidEndpoint(endpoint)
      && RecoveryKindForEndpoint(endpoint) == CorrectionRecovery
      && EndsWith(endpoint, CORRECTIONS) && !EndsWith(endpoint, "/memory/raw")
  {
    var endpoint, middle := CorrectionEndpoint(sourceId), Quote(sourceId);
    assert endpoint[..|MARKER|] == MARKER;
    assert endpoint[|MARKER|..|endpoint| - |CORRECTIONS|] == middle;
    UnquoteQuote(sourceId);
    CorrectionEndpointValid(sourceId);
    CorrectionEndpointRoute(sourceId);
    EndpointLacks(sourceId, '?');
    NoQuery(endpoint);
    assert endpoint[|endpoint| - 1] == CORRECTIONS[|CORRECTIONS| - 1] == 's';
  }

  lemma EndpointLacks(sourceId: string, c: char)
    requires (c == ':' || c == '?' || c == '#')
    ensures Lacks(CorrectionEndpoint(sourceId), c)
  {
    QuoteLacks(sourceId, c);
    assert Lacks(MARKER, c) && Lacks(CORRECTIONS, c);
  }

  lemma LastDecides(s: string, suffix: string)
    requires s != "" && suffix != "" && s[|s| - 1] != suffix[|suffix| - 1]
    ensures !EndsWith(s, suffix)
  {
    if |suffix| <= |s| {
      assert s[|s| - |suffix|..][|suffix| - 1] == s[|s| - 1];
    }
  }
}
