/**
 * The rule checker of the counting game (src/rules.js): a post is judged
 * against the earlier posts of the channel and the current number, and
 * every rule that it breaks is reported, in a fixed order.
 */
module Rules {
  import opened Options

  type AuthorId = string

  /** A post as the rule checker sees it: who wrote it and what it says. */
  datatype Post = Post(authorId: AuthorId, content: string)

  /** The one configuration value the rules read. */
  datatype Config = Config(uniqueUsers: nat)

  /** The reasons a post can be rejected for, one constructor per rule. */
  datatype Reason =
    | TooFewUniquePeople(messagesCount: nat, authorsCount: nat)
    | NoNumber
    | LeadingZero
    | TrailingCharacter(character: char, number: string)
    | WrongNumber(expected: int, actual: nat)

  /** The result object: `{valid: true, number}` or `{valid: false, reasons}`. */
  datatype Verdict = Valid(number: nat) | Invalid(reasons: seq<Reason>)

  /** The position of each rule in the report. */
  function Rank(r: Reason): nat
  {
    match r
    case TooFewUniquePeople(_, _) => 0
    case NoNumber => 1
    case LeadingZero => 2
    case TrailingCharacter(_, _) => 3
    case WrongNumber(_, _) => 4
  }

  // ---------------------------------------------------------------------
  // Characters

  /** `\d` of a JavaScript regular expression without the `u` flag. */
  predicate IsDigit(c: char)
  {
    '0' <= c <= '9'
  }

  /** `\s` of a JavaScript regular expression: the WhiteSpace and
      LineTerminator code points of ECMAScript, which are also the
      characters `Number()` trims from its argument. */
  predicate IsWhitespace(c: char)
  {
    c == '\t' || c == '\n' || c == '\U{000B}' || c == '\U{000C}' || c == '\r' ||
    c == ' ' || c == '\U{00A0}' || c == '\U{1680}' ||
    ('\U{2000}' <= c <= '\U{200A}') ||
    c == '\U{2028}' || c == '\U{2029}' || c == '\U{202F}' || c == '\U{205F}' ||
    c == '\U{3000}' || c == '\U{FEFF}'
  }

  function DigitValue(c: char): (d: nat)
    requires IsDigit(c)
    ensures d < 10
  {
    c as int - '0' as int
  }

  function DigitChar(d: nat): (c: char)
    requires d < 10
    ensures IsDigit(c) && DigitValue(c) == d
  {
    ('0' as int + d) as char
  }

  predicate AllDigits(s: string)
  {
    forall i :: 0 <= i < |s| ==> IsDigit(s[i])
  }

  // ---------------------------------------------------------------------
  // Parsing the leading number

  /** Length of the maximal run of digits at the start of `s`: what `\d+`
      matches at `^`, greedily. */
  function DigitRunLength(s: string): (n: nat)
    ensures n <= |s|
    ensures AllDigits(s[..n])
    ensures n < |s| ==> !IsDigit(s[n])
  {
    if s != [] && IsDigit(s[0]) then
      var k := DigitRunLength(s[1..]);
      assert s[..k + 1] == [s[0]] + s[1..][..k];
      k + 1
    else 0
  }

  /** The leading digit run as text (`match(/^\d+/)[0]` when it exists). */
  function LeadingDigits(s: string): (d: string)
    ensures AllDigits(d) && d <= s
  {
    s[..DigitRunLength(s)]
  }

  /** The value of a decimal digit string, most significant digit first:
      `Number()` on a string of digits, without its loss of precision. */
  function DecimalValue(d: string): (n: nat)
    requires AllDigits(d)
    ensures n < Pow10(|d|)
    ensures d != [] && d[0] != '0' ==> Pow10(|d| - 1) <= n
  {
    if d == [] then 0
    else
      assert d != [] && |d| > 1 ==> d[..|d| - 1][0] == d[0];
      10 * DecimalValue(d[..|d| - 1]) + DigitValue(d[|d| - 1])
  }

  /** `10` to the power `k`. */
  function Pow10(k: nat): nat
  {
    if k == 0 then 1 else 10 * Pow10(k - 1)
  }

  /** The shortest decimal text of `n`, as `String(n)` writes it. */
  function DecimalString(n: nat): (s: string)
    ensures |s| >= 1 && AllDigits(s)
    ensures n > 0 ==> s[0] != '0'
    decreases n
  {
    if n < 10 then [DigitChar(n)] else DecimalString(n / 10) + [DigitChar(n % 10)]
  }

  /** Reading back the decimal text of a number gives the number. */
  lemma {:induction false} DecimalRoundTrip(n: nat)
    ensures DecimalValue(DecimalString(n)) == n
    decreases n
  {
    var s := DecimalString(n);
    if n >= 10 {
      DecimalRoundTrip(n / 10);
      assert s[..|s| - 1] == DecimalString(n / 10);
    }
  }

  /** The regular expression `/^(\d+\s)|(^\d+)$/` followed by `Number()`:
      a leading digit run that is followed by whitespace or ends the
      content, read as a number. */
  function NumberToken(s: string): (t: Option<nat>)
    ensures t.Some? <==> DigitRunLength(s) > 0 &&
                         (DigitRunLength(s) == |s| || IsWhitespace(s[DigitRunLength(s)]))
  {
    var n := DigitRunLength(s);
    if n > 0 && (n == |s| || IsWhitespace(s[n])) then Some(DecimalValue(s[..n])) else None
  }

  // ---------------------------------------------------------------------
  // The five rules, as specifications

  /** The author ids of some posts, as a set. */
  function AuthorIds(posts: seq<Post>): set<AuthorId>
  {
    set i | 0 <= i < |posts| :: posts[i].authorId
  }

  /** The index of the most recent post by `author`; the last post of
      `posts` is the most recent one. */
  function LastPostBy(posts: seq<Post>, author: AuthorId): (r: Option<nat>)
    ensures r.None? ==> forall i :: 0 <= i < |posts| ==> posts[i].authorId != author
    ensures r.Some? ==> r.value < |posts| && posts[r.value].authorId == author &&
                        forall i :: r.value < i < |posts| ==> posts[i].authorId != author
    decreases |posts|
  {
    if posts == [] then None
    else if posts[|posts| - 1].authorId == author then Some(|posts| - 1)
    else LastPostBy(posts[..|posts| - 1], author)
  }

  /** The most recent post by an author is the one after which that author
      does not post again. */
  lemma LastPostByIs(posts: seq<Post>, author: AuthorId, j: nat)
    requires j < |posts| && posts[j].authorId == author
    requires forall i :: j < i < |posts| ==> posts[i].authorId != author
    ensures LastPostBy(posts, author) == Some(j)
  {
  }

  /** Rule 1: too few unique people posted since the author's previous post. */
  function SpacingReasons(previous: seq<Post>, author: AuthorId, uniqueUsers: nat): seq<Reason>
  {
    match LastPostBy(previous, author)
    case None => []
    case Some(j) =>
      var between := previous[j + 1..];
      var authorsCount := |AuthorIds(between)|;
      if authorsCount >= uniqueUsers then [] else [TooFewUniquePeople(|between|, authorsCount)]
  }

  /** Rule 2: `/^\d/` does not match. */
  predicate MissesNumber(s: string)
  {
    s == [] || !IsDigit(s[0])
  }

  /** Rule 3: `/^0/` matches. */
  predicate StartsWithZero(s: string)
  {
    s != [] && s[0] == '0'
  }

  /** Rule 4: `/^(\d+)([^\s])?/` matched with its optional group present. */
  function TrailingReasons(s: string): seq<Reason>
  {
    var n := DigitRunLength(s);
    if 0 < n < |s| && !IsWhitespace(s[n]) then [TrailingCharacter(s[n], s[..n])] else []
  }

  /** Rule 5: the number token is not one more than the current number. */
  function WrongNumberReasons(s: string, currentNumber: int): seq<Reason>
  {
    match NumberToken(s)
    case None => []
    case Some(v) => if currentNumber + 1 != v then [WrongNumber(currentNumber + 1, v)] else []
  }

  /** Rules 2 to 5, about the content alone, in the order they run. */
  function FormatReasons(s: string, currentNumber: int): seq<Reason>
  {
    (if MissesNumber(s) then [NoNumber] else [])
    + (if StartsWithZero(s) then [LeadingZero] else [])
    + TrailingReasons(s)
    + WrongNumberReasons(s, currentNumber)
  }

  /** Every reason found, in the order the checks run. */
  function Reasons(message: Post, previous: seq<Post>, currentNumber: int, uniqueUsers: nat): seq<Reason>
  {
    SpacingReasons(previous, message.authorId, uniqueUsers) + FormatReasons(message.content, currentNumber)
  }

  /** The result of `checkValidity`: valid exactly when no reason was found. */
  function Validity(message: Post, previous: seq<Post>, currentNumber: int, config: Config): (v: Verdict)
    requires config.uniqueUsers >= 1
    ensures v.Valid? <==> Reasons(message, previous, currentNumber, config.uniqueUsers) == []
    ensures v.Invalid? ==> v.reasons == Reasons(message, previous, currentNumber, config.uniqueUsers)
    ensures v.Valid? ==> DigitRunLength(message.content) > 0 &&
                         v.number == DecimalValue(LeadingDigits(message.content))
  {
    var reasons := Reasons(message, previous, currentNumber, config.uniqueUsers);
    if reasons == [] then Valid(DecimalValue(LeadingDigits(message.content))) else Invalid(reasons)
  }

  // ---------------------------------------------------------------------
  // The checker as the source runs it

  function Reversed<T>(s: seq<T>): (r: seq<T>)
    ensures |r| == |s|
    ensures forall k :: 0 <= k < |s| ==> r[k] == s[|s| - 1 - k]
  {
    if s == [] then [] else Reversed(s[1..]) + [s[0]]
  }

  /** Posts read back to front have the same authors as read forwards. */
  lemma MirroredAuthors(r: seq<Post>, t: seq<Post>)
    requires |r| == |t|
    requires forall k :: 0 <= k < |r| ==> r[k] == t[|t| - 1 - k]
    ensures AuthorIds(r) == AuthorIds(t)
  {
    forall a | a in AuthorIds(r) ensures a in AuthorIds(t) {
      var k :| 0 <= k < |r| && r[k].authorId == a;
      assert t[|t| - 1 - k].authorId in AuthorIds(t);
    }
    forall a | a in AuthorIds(t) ensures a in AuthorIds(r) {
      var k :| 0 <= k < |t| && t[k].authorId == a;
      assert r[|r| - 1 - k] == t[k];
      assert r[|r| - 1 - k].authorId in AuthorIds(r);
    }
  }

  /** The first `idx` posts of the reversed list are the last `idx` posts of
      the list, back to front. */
  lemma ReversedPrefix(posts: seq<Post>, idx: nat)
    requires idx <= |posts|
    ensures |Reversed(posts)[..idx]| == |posts[|posts| - idx..]|
    ensures forall k :: 0 <= k < idx ==>
              Reversed(posts)[..idx][k] == posts[|posts| - idx..][idx - 1 - k]
  {
    var rev := Reversed(posts);
    var r := rev[..idx];
    var tail := posts[|posts| - idx..];
    forall k | 0 <= k < idx ensures r[k] == tail[idx - 1 - k] {
      assert r[k] == rev[k] == posts[|posts| - 1 - k];
    }
  }

  /** Hence the two stretches have the same authors. */
  lemma ReversedPrefixAuthors(posts: seq<Post>, idx: nat)
    requires idx <= |posts|
    ensures AuthorIds(Reversed(posts)[..idx]) == AuthorIds(posts[|posts| - idx..])
  {
    ReversedPrefix(posts, idx);
    MirroredAuthors(Reversed(posts)[..idx], posts[|posts| - idx..]);
  }

  /** The first block of `checkValidity`: scan the earlier posts newest
      first for the author's previous post, and report too few unique
      people after it. */
  method ScanSpacing(message: Post, previousMessages: seq<Post>, config: Config)
    returns (reasons: seq<Reason>)
    ensures reasons == SpacingReasons(previousMessages, message.authorId, config.uniqueUsers)
  {
    reasons := [];
    var reversedMessages := Reversed(previousMessages);
    var idx := 0;
    while idx < |reversedMessages|
      invariant idx <= |reversedMessages| == |previousMessages|
      invariant forall i :: |previousMessages| - idx <= i < |previousMessages| ==>
                  previousMessages[i].authorId != message.authorId
      invariant reasons == []
    {
      assert reversedMessages[idx] == previousMessages[|previousMessages| - 1 - idx];
      if reversedMessages[idx].authorId == message.authorId {
        var messagesCount := |reversedMessages[..idx]|;
        var authorsCount := |AuthorIds(reversedMessages[..idx])|;
        ReversedPrefixAuthors(previousMessages, idx);
        LastPostByIs(previousMessages, message.authorId, |previousMessages| - 1 - idx);
        if authorsCount >= config.uniqueUsers {
          break;
        }
        reasons := reasons + [TooFewUniquePeople(messagesCount, authorsCount)];
        break;
      }
      idx := idx + 1;
    }
  }

  /** `checkValidity`: all five checks run, each appending its reason. */
  method CheckValidity(message: Post, previousMessages: seq<Post>, currentNumber: int, config: Config)
    returns (v: Verdict)
    requires config.uniqueUsers >= 1
    ensures v == Validity(message, previousMessages, currentNumber, config)
  {
    // Too few unique people since the author's previous post.
    var reasons := ScanSpacing(message, previousMessages, config);
    ghost var spacing := reasons;

    var s := message.content;
    // The post must start with a number.
    if s == [] || !IsDigit(s[0]) {
      reasons := reasons + [NoNumber];
    }
    // The number cannot start with a zero.
    if s != [] && s[0] == '0' {
      reasons := reasons + [LeadingZero];
    }
    // Anything after the number must be separated by whitespace.
    var run := DigitRunLength(s);
    if run > 0 && run < |s| && !IsWhitespace(s[run]) {
      reasons := reasons + [TrailingCharacter(s[run], s[..run])];
    }
    // The number must be the next one.
    var token := NumberToken(s);
    if token.Some? && currentNumber + 1 != token.value {
      reasons := reasons + [WrongNumber(currentNumber + 1, token.value)];
    }
    assert reasons == spacing + FormatReasons(s, currentNumber);

    if |reasons| > 0 {
      v := Invalid(reasons);
    } else {
      v := Valid(DecimalValue(LeadingDigits(s)));
    }
  }
}
