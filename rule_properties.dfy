/**
 * What the rule checker of src/rules.js promises, proved about its
 * specification `Rules.Reasons` / `Rules.Validity`.
 */
module RuleProperties {
  import opened Options
  import opened Rules

  /** Reasons are listed in strictly increasing rule position. */
  predicate Ordered(rs: seq<Reason>)
  {
    forall i, j :: 0 <= i < j < |rs| ==> Rank(rs[i]) < Rank(rs[j])
  }

  /** At most one reason, and of rule position `n`. */
  predicate SingleOfRank(rs: seq<Reason>, n: nat)
  {
    |rs| <= 1 && forall r :: r in rs ==> Rank(r) == n
  }

  lemma {:induction false} AppendInOrder(a: seq<Reason>, b: seq<Reason>, n: nat)
    requires Ordered(a) && forall r :: r in a ==> Rank(r) < n
    requires SingleOfRank(b, n)
    ensures Ordered(a + b) && forall r :: r in a + b ==> Rank(r) <= n
  {
    forall i, j | 0 <= i < j < |a + b| ensures Rank((a + b)[i]) < Rank((a + b)[j]) {
      if j < |a| {
        assert (a + b)[i] == a[i] && (a + b)[j] == a[j];
      } else {
        assert (a + b)[i] == a[i] && (a + b)[i] in a;
        assert (a + b)[j] == b[j - |a|] && (a + b)[j] in b;
      }
    }
  }

  /** The content checks report in order no-number, leading-zero,
      trailing-character, wrong-number. */
  lemma FormatReasonsInOrder(s: string, currentNumber: int)
    ensures Ordered(FormatReasons(s, currentNumber))
    ensures forall r :: r in FormatReasons(s, currentNumber) ==> 1 <= Rank(r) <= 4
    ensures |FormatReasons(s, currentNumber)| <= 4
  {
    var p1: seq<Reason> := if MissesNumber(s) then [NoNumber] else [];
    var p2: seq<Reason> := if StartsWithZero(s) then [LeadingZero] else [];
    var p3 := TrailingReasons(s);
    var p4 := WrongNumberReasons(s, currentNumber);
    assert SingleOfRank(p1, 1) && SingleOfRank(p2, 2);
    assert SingleOfRank(p3, 3) && SingleOfRank(p4, 4);
    AppendInOrder([], p1, 1);
    assert [] + p1 == p1;
    AppendInOrder(p1, p2, 2);
    AppendInOrder(p1 + p2, p3, 3);
    AppendInOrder(p1 + p2 + p3, p4, 4);
    assert FormatReasons(s, currentNumber) == p1 + p2 + p3 + p4;
  }

  /** The reasons always come in the order too-few-unique-people, no-number,
      leading-zero, trailing-character, wrong-number; so each kind appears
      at most once and there are never more than five. */
  lemma ReasonsInOrder(message: Post, previous: seq<Post>, currentNumber: int, uniqueUsers: nat)
    ensures Ordered(Reasons(message, previous, currentNumber, uniqueUsers))
    ensures |Reasons(message, previous, currentNumber, uniqueUsers)| <= 5
  {
    var sp := SpacingReasons(previous, message.authorId, uniqueUsers);
    var fr := FormatReasons(message.content, currentNumber);
    FormatReasonsInOrder(message.content, currentNumber);
    assert SingleOfRank(sp, 0);
    forall i, j | 0 <= i < j < |sp + fr| ensures Rank((sp + fr)[i]) < Rank((sp + fr)[j]) {
      if i < |sp| {
        assert (sp + fr)[i] in sp;
        assert (sp + fr)[j] == fr[j - |sp|];
      } else {
        assert (sp + fr)[i] == fr[i - |sp|] && (sp + fr)[j] == fr[j - |sp|];
      }
    }
  }

  /** A reason is found by the spacing check exactly when it is a
      too-few-unique-people reason, and by the content checks otherwise. */
  lemma ReasonSource(message: Post, previous: seq<Post>, currentNumber: int, uniqueUsers: nat, r: Reason)
    ensures r in Reasons(message, previous, currentNumber, uniqueUsers) <==>
            if r.TooFewUniquePeople? then r in SpacingReasons(previous, message.authorId, uniqueUsers)
            else r in FormatReasons(message.content, currentNumber)
  {
    FormatReasonsInOrder(message.content, currentNumber);
  }

  /** Each content check contributes only reasons of its own kind. */
  lemma FormatMembership(s: string, currentNumber: int, r: Reason)
    ensures r in FormatReasons(s, currentNumber) <==>
            match r
            case TooFewUniquePeople(_, _) => false
            case NoNumber => MissesNumber(s)
            case LeadingZero => StartsWithZero(s)
            case TrailingCharacter(_, _) => r in TrailingReasons(s)
            case WrongNumber(_, _) => r in WrongNumberReasons(s, currentNumber)
  {
    var p1: seq<Reason> := if MissesNumber(s) then [NoNumber] else [];
    var p2: seq<Reason> := if StartsWithZero(s) then [LeadingZero] else [];
    var p3 := TrailingReasons(s);
    var p4 := WrongNumberReasons(s, currentNumber);
    assert FormatReasons(s, currentNumber) == p1 + p2 + p3 + p4;
    assert r in p1 + p2 + p3 + p4 <==> r in p1 || r in p2 || r in p3 || r in p4;
  }

  /** A valid post always carries the next number. */
  lemma ValidNumberIsNext(message: Post, previous: seq<Post>, currentNumber: int, config: Config)
    requires config.uniqueUsers >= 1
    ensures Validity(message, previous, currentNumber, config).Valid? ==>
            Validity(message, previous, currentNumber, config).number == currentNumber + 1
  {
    var s := message.content;
    if Validity(message, previous, currentNumber, config).Valid? {
      assert !MissesNumber(s);
      assert TrailingReasons(s) == [];
      assert NumberToken(s).Some?;
      assert WrongNumberReasons(s, currentNumber) == [];
    }
  }

  /** no-number is reported exactly when the content is empty or does not
      start with an ASCII digit, and then neither trailing-character nor
      wrong-number is. */
  lemma NoNumberIff(message: Post, previous: seq<Post>, currentNumber: int, uniqueUsers: nat)
    ensures var rs := Reasons(message, previous, currentNumber, uniqueUsers);
            NoNumber in rs <==> message.content == [] || !IsDigit(message.content[0])
    ensures var rs := Reasons(message, previous, currentNumber, uniqueUsers);
            NoNumber in rs ==> forall r :: r in rs ==> !r.TrailingCharacter? && !r.WrongNumber?
  {
    var s := message.content;
    if MissesNumber(s) {
      assert DigitRunLength(s) == 0;
    }
  }

  /** leading-zero is reported exactly when the content starts with `0`;
      it never comes with no-number. */
  lemma LeadingZeroIff(message: Post, previous: seq<Post>, currentNumber: int, uniqueUsers: nat)
    ensures var rs := Reasons(message, previous, currentNumber, uniqueUsers);
            LeadingZero in rs <==> message.content != [] && message.content[0] == '0'
    ensures var rs := Reasons(message, previous, currentNumber, uniqueUsers);
            LeadingZero in rs ==> NoNumber !in rs
  {
  }

  /** trailing-character is reported exactly when the maximal leading digit
      run is followed by a character that is not whitespace; it records that
      character (never a digit) and the digit run as text. */
  lemma TrailingCharacterIff(message: Post, previous: seq<Post>, currentNumber: int, uniqueUsers: nat,
                             c: char, d: string)
    ensures var rs := Reasons(message, previous, currentNumber, uniqueUsers);
            var s := message.content;
            var n := DigitRunLength(s);
            TrailingCharacter(c, d) in rs <==> 0 < n < |s| && c == s[n] && d == s[..n] && !IsWhitespace(c)
    ensures var rs := Reasons(message, previous, currentNumber, uniqueUsers);
            TrailingCharacter(c, d) in rs ==>
              !IsDigit(c) && d == LeadingDigits(message.content) && |d| > 0
  {
  }

  /** wrong-number is reported exactly when a number token exists and
      differs from the expected next number; it carries both numbers. */
  lemma WrongNumberIff(message: Post, previous: seq<Post>, currentNumber: int, uniqueUsers: nat,
                       e: int, a: nat)
    ensures var rs := Reasons(message, previous, currentNumber, uniqueUsers);
            WrongNumber(e, a) in rs <==>
              NumberToken(message.content) == Some(a) && e == currentNumber + 1 && a != e
  {
  }

  /** trailing-character and wrong-number never occur together: the number
      token needs whitespace or the end after the digit run. */
  lemma TrailingExcludesWrongNumber(message: Post, previous: seq<Post>, currentNumber: int, uniqueUsers: nat)
    ensures var rs := Reasons(message, previous, currentNumber, uniqueUsers);
            forall i, j :: 0 <= i < |rs| && 0 <= j < |rs| && rs[i].TrailingCharacter? ==> !rs[j].WrongNumber?
  {
    var rs := Reasons(message, previous, currentNumber, uniqueUsers);
    var s := message.content;
    forall i, j | 0 <= i < |rs| && 0 <= j < |rs| && rs[i].TrailingCharacter? ensures !rs[j].WrongNumber? {
      ReasonSource(message, previous, currentNumber, uniqueUsers, rs[i]);
      FormatMembership(s, currentNumber, rs[i]);
      ReasonSource(message, previous, currentNumber, uniqueUsers, rs[j]);
      FormatMembership(s, currentNumber, rs[j]);
      assert NumberToken(s).None?;
    }
  }

  /** The number of distinct authors of some posts is at most the number
      of posts. */
  lemma {:induction false} AuthorCountBound(posts: seq<Post>)
    ensures |AuthorIds(posts)| <= |posts|
  {
    if posts != [] {
      var init := posts[..|posts| - 1];
      AuthorCountBound(init);
      assert AuthorIds(posts) == AuthorIds(init) + {posts[|posts| - 1].authorId} by {
        forall a | a in AuthorIds(posts) ensures a in AuthorIds(init) + {posts[|posts| - 1].authorId} {
          var i :| 0 <= i < |posts| && posts[i].authorId == a;
          if i < |posts| - 1 { assert init[i] == posts[i]; }
        }
        forall a | a in AuthorIds(init) ensures a in AuthorIds(posts) {
          var i :| 0 <= i < |init| && init[i].authorId == a;
          assert posts[i] == init[i];
        }
      }
    }
  }

  /** The spacing check alone: it reports at most one reason, exactly when
      the author has an earlier post with fewer than `uniqueUsers` distinct
      authors after it, and then counts the posts after it and their
      distinct authors, which are never more. */
  lemma SpacingReasonIff(previous: seq<Post>, author: AuthorId, uniqueUsers: nat, mc: nat, ac: nat)
    ensures var last := LastPostBy(previous, author);
            TooFewUniquePeople(mc, ac) in SpacingReasons(previous, author, uniqueUsers) <==>
              last.Some? && mc == |previous| - 1 - last.value &&
              ac == |AuthorIds(previous[last.value + 1..])| && ac < uniqueUsers
    ensures TooFewUniquePeople(mc, ac) in SpacingReasons(previous, author, uniqueUsers) ==> ac <= mc
    ensures |SpacingReasons(previous, author, uniqueUsers)| <= 1
  {
    match LastPostBy(previous, author)
    case None =>
    case Some(j) =>
      AuthorCountBound(previous[j + 1..]);
  }

  /** too-few-unique-people is reported by `checkValidity` exactly as the
      spacing check finds it, and never when the author has no earlier post. */
  lemma TooFewUniquePeopleIff(message: Post, previous: seq<Post>, currentNumber: int, uniqueUsers: nat,
                              mc: nat, ac: nat)
    ensures var rs := Reasons(message, previous, currentNumber, uniqueUsers);
            var last := LastPostBy(previous, message.authorId);
            TooFewUniquePeople(mc, ac) in rs <==>
              last.Some? && mc == |previous| - 1 - last.value &&
              ac == |AuthorIds(previous[last.value + 1..])| && ac < uniqueUsers
    ensures var rs := Reasons(message, previous, currentNumber, uniqueUsers);
            TooFewUniquePeople(mc, ac) in rs ==> ac <= mc
    ensures var rs := Reasons(message, previous, currentNumber, uniqueUsers);
            LastPostBy(previous, message.authorId).None? ==> forall r :: r in rs ==> !r.TooFewUniquePeople?
  {
    ReasonSource(message, previous, currentNumber, uniqueUsers, TooFewUniquePeople(mc, ac));
    SpacingReasonIff(previous, message.authorId, uniqueUsers, mc, ac);
    if LastPostBy(previous, message.authorId).None? {
      forall r | r in Reasons(message, previous, currentNumber, uniqueUsers) ensures !r.TooFewUniquePeople? {
        ReasonSource(message, previous, currentNumber, uniqueUsers, r);
      }
    }
  }

  /** Posting again right after one's own post is always rejected when at
      least one other author is required in between. */
  lemma ImmediateRepostRejected(message: Post, previous: seq<Post>, currentNumber: int, config: Config)
    requires config.uniqueUsers >= 1
    requires previous != [] && previous[|previous| - 1].authorId == message.authorId
    ensures Validity(message, previous, currentNumber, config).Invalid?
    ensures TooFewUniquePeople(0, 0) in Validity(message, previous, currentNumber, config).reasons
  {
    assert AuthorIds(previous[|previous|..]) == {};
  }

  /** A digit string followed by nothing or a non-digit is the whole
      leading digit run. */
  lemma DigitRunOfPrefix(d: string, rest: string)
    requires AllDigits(d)
    requires rest == [] || !IsDigit(rest[0])
    ensures DigitRunLength(d + rest) == |d|
  {
    var s := d + rest;
    assert forall i :: 0 <= i < |d| ==> s[i] == d[i];
    assert rest != [] ==> s[|d|] == rest[0];
  }

  /** Posting the next number in its decimal form, optionally followed by
      whitespace and any text, is valid when the spacing rule is met. */
  lemma NextNumberIsValid(message: Post, previous: seq<Post>, currentNumber: nat, config: Config, rest: string)
    requires config.uniqueUsers >= 1
    requires message.content == DecimalString(currentNumber + 1) + rest
    requires rest == [] || IsWhitespace(rest[0])
    requires SpacingReasons(previous, message.authorId, config.uniqueUsers) == []
    ensures Validity(message, previous, currentNumber, config) == Valid(currentNumber + 1)
  {
    var d := DecimalString(currentNumber + 1);
    var s := message.content;
    DigitRunOfPrefix(d, rest);
    assert s[..|d|] == d;
    DecimalRoundTrip(currentNumber + 1);
    assert s[0] == d[0];
  }

  // ---------------------------------------------------------------------
  // Concrete posts

  /** A post by the author "alice". */
  function ByAlice(content: string): Post
  {
    Post("alice", content)
  }

  /** A bare next number is valid. */
  lemma BareNumberExample()
    ensures Validity(ByAlice("1"), [], 0, Config(5)) == Valid(1)
  {
    assert DecimalString(1) + "" == "1";
    NextNumberIsValid(ByAlice("1"), [], 0, Config(5), "");
  }

  /** The next number followed by a space, with or without text, is valid. */
  lemma NumberWithTextExamples()
    ensures Validity(ByAlice("1 "), [], 0, Config(5)) == Valid(1)
    ensures Validity(ByAlice("1 a message can go here"), [], 0, Config(5)) == Valid(1)
  {
    assert DecimalString(1) + " " == "1 ";
    assert DecimalString(1) + " a message can go here" == "1 a message can go here";
    NextNumberIsValid(ByAlice("1 "), [], 0, Config(5), " ");
    NextNumberIsValid(ByAlice("1 a message can go here"), [], 0, Config(5), " a message can go here");
  }

  /** Text without a digit gives no-number and nothing else. */
  lemma NonNumberExample()
    ensures Validity(ByAlice("something"), [], 0, Config(5)) == Invalid([NoNumber])
  {
    assert DigitRunLength("something") == 0;
  }

  /** A space before the number gives no-number and nothing else. */
  lemma SpaceBeforeNumberExample()
    ensures Validity(ByAlice(" 1"), [], 0, Config(5)) == Invalid([NoNumber])
  {
    assert DigitRunLength(" 1") == 0;
  }

  /** "001" after 0 gives leading-zero only: its number 1 is the next one. */
  lemma LeadingZeroExample()
    ensures Validity(ByAlice("001"), [], 0, Config(5)) == Invalid([LeadingZero])
  {
    DigitRunOfPrefix("001", "");
    assert "001"[..3] == "001";
    assert "001"[..2] == "00";
    assert "00"[..1] == "0";
    assert DecimalValue("001") == 1;
  }

  /** "1?" gives trailing-character with the character and the number. */
  lemma TrailingCharacterExample()
    ensures Validity(ByAlice("1?"), [], 0, Config(5)) == Invalid([TrailingCharacter('?', "1")])
  {
    DigitRunOfPrefix("1", "?");
    assert "1?" == "1" + "?";
  }

  /** The single digit `d` reads as the number `d`. */
  lemma SingleDigitToken(d: nat)
    requires d < 10
    ensures NumberToken([DigitChar(d)]) == Some(d)
  {
    var t := [DigitChar(d)];
    DigitRunOfPrefix(t, "");
    assert t + "" == t && t[..1] == t && t[..0] == "";
    assert t[..|t| - 1] == [];
    assert DecimalValue(t) == d;
    assert DigitRunLength(t) == 1;
  }

  /** A number other than the next one gives wrong-number with both. */
  lemma WrongNumberExample()
    ensures Validity(ByAlice("2"), [], 0, Config(5)) == Invalid([WrongNumber(1, 2)])
  {
    SingleDigitToken(2);
  }

  /** Repeating the current number is a wrong number. */
  lemma DoublePostExample()
    ensures Validity(ByAlice("2"), [], 2, Config(5)) == Invalid([WrongNumber(3, 2)])
  {
    SingleDigitToken(2);
  }

  /** Going back below the current number is a wrong number. */
  lemma LowerNumberExample()
    ensures Validity(ByAlice("1"), [], 2, Config(5)) == Invalid([WrongNumber(3, 1)])
  {
    SingleDigitToken(1);
  }

  /** Alice posts again after Bob, Charlie, Dave and Erin with five unique
      users required: four posts and four authors in between. */
  lemma TooFewUniquePeopleExample()
    ensures var previous := [Post("alice", "1"), Post("bob", "2"), Post("charlie", "3"),
                             Post("dave", "4"), Post("erin", "5")];
            Validity(Post("alice", "6"), previous, 5, Config(5)) == Invalid([TooFewUniquePeople(4, 4)])
  {
    var previous := [Post("alice", "1"), Post("bob", "2"), Post("charlie", "3"),
                     Post("dave", "4"), Post("erin", "5")];
    FourBetween();
    SingleDigitToken(6);
    assert FormatReasons("6", 5) == [];
    assert Reasons(Post("alice", "6"), previous, 5, 5) == [TooFewUniquePeople(4, 4)] + [];
  }

  lemma FourBetween()
    ensures SpacingReasons([Post("alice", "1"), Post("bob", "2"), Post("charlie", "3"),
                            Post("dave", "4"), Post("erin", "5")], "alice", 5)
            == [TooFewUniquePeople(4, 4)]
  {
    var previous := [Post("alice", "1"), Post("bob", "2"), Post("charlie", "3"),
                     Post("dave", "4"), Post("erin", "5")];
    LastPostByIs(previous, "alice", 0);
    var between := previous[1..];
    assert AuthorIds(between) == {"bob", "charlie", "dave", "erin"} by {
      assert between[0].authorId == "bob" && between[1].authorId == "charlie";
      assert between[2].authorId == "dave" && between[3].authorId == "erin";
    }
    assert |{"bob", "charlie", "dave", "erin"}| == 4;
  }
}
