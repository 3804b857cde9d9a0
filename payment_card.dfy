/** src/pages/Booking/PaymentCard.jsx: the card preview beside the payment form. */
module PaymentCard {
  import opened JsValues

  const CardPlaceholder := "**** **** **** ****"

  /** `\d{4}` matches at the front of s. */
  predicate FourDigitsAhead(s: string) {
    |s| >= 4 && IsDigit(s[0]) && IsDigit(s[1]) && IsDigit(s[2]) && IsDigit(s[3])
  }

  /** `s.replace(/(\d{4})/g, '$1 ')`: scanning left to right, each run of four digits
      gets a space after it; a match never overlaps the previous one. */
  function GroupDigits(s: string): string
    decreases |s|
  {
    if FourDigitsAhead(s) then s[..4] + " " + GroupDigits(s[4..])
    else if s == [] then []
    else [s[0]] + GroupDigits(s[1..])
  }

  /** The card number as shown: grouped, trimmed, or the placeholder when nothing is left. */
  function CardNumberDisplay(cardNumber: string): (r: string)
    ensures Trim(GroupDigits(cardNumber)) == "" ==> r == CardPlaceholder
    ensures Trim(GroupDigits(cardNumber)) != "" ==> r == Trim(GroupDigits(cardNumber))
    ensures Str(r) == Or(Str(Trim(GroupDigits(cardNumber))), Str(CardPlaceholder))
  {
    var t := Trim(GroupDigits(cardNumber));
    if t == "" then CardPlaceholder else t
  }

  function NameDisplay(nameOnCard: string): (r: string)
    ensures nameOnCard == "" ==> r == "John Doe"
    ensures nameOnCard != "" ==> r == nameOnCard
    ensures Str(r) == Or(Str(nameOnCard), Str("John Doe"))
  {
    if nameOnCard == "" then "John Doe" else nameOnCard
  }

  function ExpiryDisplay(expiryDate: string): (r: string)
    ensures expiryDate == "" ==> r == "MM/YY"
    ensures expiryDate != "" ==> r == expiryDate
    ensures Str(r) == Or(Str(expiryDate), Str("MM/YY"))
  {
    if expiryDate == "" then "MM/YY" else expiryDate
  }

  /** The CVV is never shown: three stars when one is typed, nothing otherwise. */
  function CvvDisplay(cvv: string): (r: string)
    ensures cvv != "" ==> r == "***"
    ensures cvv == "" ==> r == ""
    ensures r == (if Truthy(Str(cvv)) then "***" else "")
  {
    if cvv != "" then "***" else ""
  }

  /** The string without its spaces. */
  function RemoveSpaces(s: string): (r: string)
    ensures ' ' !in r
    decreases |s|
  {
    if s == [] then [] else (if s[0] == ' ' then [] else [s[0]]) + RemoveSpaces(s[1..])
  }

  lemma {:induction false} RemoveSpacesAppend(a: string, b: string)
    ensures RemoveSpaces(a + b) == RemoveSpaces(a) + RemoveSpaces(b)
    decreases |a|
  {
    if a != [] {
      assert (a + b)[1..] == a[1..] + b;
      RemoveSpacesAppend(a[1..], b);
    } else {
      assert a + b == b;
    }
  }

  /** Grouping only inserts spaces: removing them gives back what removing them from the
      input gives. */
  lemma {:induction false} GroupingOnlyAddsSpaces(s: string)
    ensures RemoveSpaces(GroupDigits(s)) == RemoveSpaces(s)
    decreases |s|
  {
    if FourDigitsAhead(s) {
      GroupingOnlyAddsSpaces(s[4..]);
      RemoveSpacesAppend(s[..4] + " ", GroupDigits(s[4..]));
      RemoveSpacesAppend(s[..4], " ");
      RemoveSpacesAppend(s[..4], s[4..]);
      assert s == s[..4] + s[4..];
    } else if s != [] {
      GroupingOnlyAddsSpaces(s[1..]);
      RemoveSpacesAppend([s[0]], GroupDigits(s[1..]));
      RemoveSpacesAppend([s[0]], s[1..]);
      assert s == [s[0]] + s[1..];
    }
  }

  /** Fewer than four characters are left as they are. */
  lemma {:induction false} ShortUnchanged(s: string)
    requires |s| < 4
    ensures GroupDigits(s) == s
    decreases |s|
  {
    if s != [] {
      ShortUnchanged(s[1..]);
    }
  }

  /** The shape of a grouped all-digit string: n digits and n / 4 spaces, starting with a
      digit, ending with a space exactly when n is a positive multiple of four, in which
      case a digit comes just before it. */
  lemma {:induction false} GroupedDigitsShape(s: string)
    requires AllDigits(s)
    ensures var g := GroupDigits(s);
            && |g| == |s| + |s| / 4
            && (forall i :: 0 <= i < |g| ==> IsDigit(g[i]) || g[i] == ' ')
            && (s != [] ==> IsDigit(g[0]))
            && (s != [] && |s| % 4 != 0 ==> IsDigit(g[|g| - 1]))
            && (s != [] && |s| % 4 == 0 ==> g[|g| - 1] == ' ' && IsDigit(g[|g| - 2]))
    decreases |s|
  {
    var g := GroupDigits(s);
    if |s| < 4 {
      ShortUnchanged(s);
    } else {
      assert FourDigitsAhead(s);
      var rest := s[4..];
      GroupedDigitsShape(rest);
      var gr := GroupDigits(rest);
      assert g == s[..4] + " " + gr;
      assert forall i :: 0 <= i < |g| ==> g[i] == if i < 4 then s[i] else if i == 4 then ' ' else gr[i - 5];
      if rest == [] {
        assert |g| == 5;
      }
    }
  }

  /** In a grouped all-digit string the spaces sit exactly after every fourth digit: at
      the positions 4, 9, 14, ... and nowhere else. */
  lemma {:induction false} SpacesEveryFifth(s: string)
    requires AllDigits(s)
    ensures forall i {:trigger GroupDigits(s)[i]} :: 0 <= i < |GroupDigits(s)| ==>
              (GroupDigits(s)[i] == ' ' <==> i % 5 == 4)
    decreases |s|
  {
    var g := GroupDigits(s);
    if |s| < 4 {
      ShortUnchanged(s);
      assert forall i :: 0 <= i < |g| ==> IsDigit(g[i]);
    } else {
      assert FourDigitsAhead(s);
      var rest := s[4..];
      SpacesEveryFifth(rest);
      var gr := GroupDigits(rest);
      assert g == s[..4] + " " + gr;
      forall i | 0 <= i < |g|
        ensures g[i] == ' ' <==> i % 5 == 4
      {
        if i < 4 {
          assert g[i] == s[i] && IsDigit(s[i]);
        } else if i > 4 {
          assert g[i] == gr[i - 5];
          assert (i - 5) % 5 == i % 5;
        }
      }
    }
  }

  /** The shown number keeps the spaces of the grouping: one after every fourth digit. */
  lemma DisplaySpacesEveryFifth(s: string)
    requires AllDigits(s) && s != []
    ensures forall i {:trigger CardNumberDisplay(s)[i]} :: 0 <= i < |CardNumberDisplay(s)| ==>
              (CardNumberDisplay(s)[i] == ' ' <==> i % 5 == 4)
  {
    var g := GroupDigits(s);
    GroupedDigitsShape(s);
    SpacesEveryFifth(s);
    if |s| % 4 == 0 {
      DisplayOfFullGroups(g);
      assert CardNumberDisplay(s) == g[..|g| - 1];
    } else {
      DisplayKeepsGrouping(s, g);
    }
  }

  /** Trimming a string that starts with a digit and ends with a digit, or with one space
      after a digit, removes that one space at most. */
  lemma TrimGrouped(g: string)
    requires |g| >= 1 && IsDigit(g[0])
    ensures IsDigit(g[|g| - 1]) ==> Trim(g) == g
    ensures |g| >= 2 && g[|g| - 1] == ' ' && IsDigit(g[|g| - 2]) ==> Trim(g) == g[..|g| - 1]
  {
    assert !IsWhitespace(g[0]);
    var t := TrimStart(g);
    assert t == g;
    var e := TrimEnd(g);
    if IsDigit(g[|g| - 1]) {
      assert !IsWhitespace(g[|g| - 1]);
      assert |e| == |g|;
    }
    if |g| >= 2 && g[|g| - 1] == ' ' && IsDigit(g[|g| - 2]) {
      assert !IsWhitespace(g[|g| - 2]);
      assert |e| == |g| - 1;
    }
  }

  /** An all-digit card number of length n > 0 is shown with n + ceil(n / 4) - 1
      characters, grouped in fours: a space after every fourth digit and nowhere else, and
      removing the spaces gives back the number. */
  lemma DigitsDisplay(s: string)
    requires AllDigits(s) && s != []
    ensures |CardNumberDisplay(s)| == |s| + (|s| + 3) / 4 - 1
    ensures RemoveSpaces(CardNumberDisplay(s)) == s
    ensures forall i {:trigger CardNumberDisplay(s)[i]} :: 0 <= i < |CardNumberDisplay(s)| ==>
              (CardNumberDisplay(s)[i] == ' ' <==> i % 5 == 4)
  {
    DisplaySpacesEveryFifth(s);
    var g := GroupDigits(s);
    GroupedDigitsShape(s);
    GroupingOnlyAddsSpaces(s);
    NoSpacesInDigits(s);
    Ceil4(|s|);
    if |s| % 4 == 0 {
      DisplayOfFullGroups(g);
      DropTrailingSpace(g);
    } else {
      DisplayKeepsGrouping(s, g);
    }
  }

  /** A length that is not a multiple of four: the grouped text is shown as it is. */
  lemma DisplayKeepsGrouping(s: string, g: string)
    requires g == GroupDigits(s)
    requires |g| >= 1 && IsDigit(g[0]) && IsDigit(g[|g| - 1])
    ensures CardNumberDisplay(s) == g
  {
    TrimGrouped(g);
  }

  lemma Ceil4(n: nat)
    requires n > 0
    ensures n % 4 == 0 ==> n / 4 == (n + 3) / 4
    ensures n % 4 != 0 ==> n / 4 + 1 == (n + 3) / 4
  {
  }

  /** A grouped text ending in a space after a digit loses just that space. */
  lemma DisplayOfFullGroups(g: string)
    requires |g| >= 2 && IsDigit(g[0]) && g[|g| - 1] == ' ' && IsDigit(g[|g| - 2])
    ensures Trim(g) == g[..|g| - 1] && Trim(g) != ""
  {
    TrimGrouped(g);
  }

  /** Dropping a trailing space leaves the same text once spaces are removed. */
  lemma DropTrailingSpace(g: string)
    requires |g| >= 1 && g[|g| - 1] == ' '
    ensures RemoveSpaces(g[..|g| - 1]) == RemoveSpaces(g)
  {
    var t := g[..|g| - 1];
    assert g == t + " ";
    RemoveSpacesAppend(t, " ");
    assert " "[1..] == [];
  }

  lemma {:induction false} NoSpacesInDigits(s: string)
    requires AllDigits(s)
    ensures RemoveSpaces(s) == s
    decreases |s|
  {
    if s != [] {
      NoSpacesInDigits(s[1..]);
    }
  }

  /** A character that is not a digit ends every run: what comes before and after it is
      grouped on its own. */
  lemma {:induction false} NonDigitRestartsGrouping(p: string, c: char, b: string)
    requires !IsDigit(c)
    ensures GroupDigits(p + [c] + b) == GroupDigits(p) + [c] + GroupDigits(b)
    decreases |p|
  {
    if p == [] {
      assert p + [c] + b == [c] + b;
      NonDigitHead(c, b);
    } else if FourDigitsAhead(p) {
      NonDigitRestartsGrouping(p[4..], c, b);
      AfterFullGroup(p, c, b);
    } else {
      NonDigitRestartsGrouping(p[1..], c, b);
      AfterOneChar(p, c, b);
    }
  }

  /** The inductive step past a leading run of four digits of p. */
  lemma AfterFullGroup(p: string, c: char, b: string)
    requires FourDigitsAhead(p)
    requires GroupDigits(p[4..] + [c] + b) == GroupDigits(p[4..]) + [c] + GroupDigits(b)
    ensures GroupDigits(p + [c] + b) == GroupDigits(p) + [c] + GroupDigits(b)
  {
    var s := p + [c] + b;
    assert s[..4] == p[..4];
    assert s[4..] == p[4..] + [c] + b;
    GroupStep(s);
    GroupStep(p);
  }

  /** The inductive step past the first character of p, which starts no run of four digits,
      even with the non-digit c after p. */
  lemma AfterOneChar(p: string, c: char, b: string)
    requires !IsDigit(c) && p != [] && !FourDigitsAhead(p)
    requires GroupDigits(p[1..] + [c] + b) == GroupDigits(p[1..]) + [c] + GroupDigits(b)
    ensures GroupDigits(p + [c] + b) == GroupDigits(p) + [c] + GroupDigits(b)
  {
    var s := p + [c] + b;
    NoFullGroupBeforeNonDigit(p, c, b);
    assert s[1..] == p[1..] + [c] + b;
    CharStep(s);
    CharStep(p);
  }

  /** One full run of four digits at the front is grouped and the rest is scanned on. */
  lemma GroupStep(s: string)
    requires FourDigitsAhead(s)
    ensures GroupDigits(s) == s[..4] + " " + GroupDigits(s[4..])
  {
  }

  /** Without a run of four digits at the front, the first character is kept as it is. */
  lemma CharStep(s: string)
    requires s != [] && !FourDigitsAhead(s)
    ensures GroupDigits(s) == [s[0]] + GroupDigits(s[1..])
  {
  }

  /** A non-digit character is kept and scanning resumes right after it. */
  lemma NonDigitHead(c: char, b: string)
    requires !IsDigit(c)
    ensures GroupDigits([c] + b) == [c] + GroupDigits(b)
  {
    var s := [c] + b;
    if |s| >= 4 {
      assert s[0] == c;
    }
    assert s[1..] == b;
  }

  /** When p does not start with four digits, neither does p followed by a non-digit. */
  lemma NoFullGroupBeforeNonDigit(p: string, c: char, b: string)
    requires !IsDigit(c) && p != [] && !FourDigitsAhead(p)
    ensures var s := p + [c] + b; s[0] == p[0] && !FourDigitsAhead(s)
  {
    var s := p + [c] + b;
    if |s| >= 4 {
      if |p| >= 4 {
        assert s[0] == p[0] && s[1] == p[1] && s[2] == p[2] && s[3] == p[3];
      } else {
        assert s[|p|] == c;
      }
    }
  }

  /** Without digits, grouping changes nothing. */
  lemma {:induction false} NoDigitsUnchanged(s: string)
    requires forall i :: 0 <= i < |s| ==> !IsDigit(s[i])
    ensures GroupDigits(s) == s
    decreases |s|
  {
    if s != [] {
      if |s| >= 4 {
        assert !IsDigit(s[0]);
      }
      NoDigitsUnchanged(s[1..]);
    }
  }

  /** An empty card number, or one of white space only, shows the placeholder. */
  lemma PlaceholderWhenBlank(s: string)
    requires forall i :: 0 <= i < |s| ==> IsWhitespace(s[i])
    ensures CardNumberDisplay(s) == CardPlaceholder
  {
    NoDigitsUnchanged(s);
  }
}
