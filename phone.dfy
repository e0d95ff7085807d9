/**
 * Phone-number normalisation and display: `formatPhoneToE164`
 * (config/api.ts), the dash formatter shared by the login and signup
 * screens, and the parenthesised formatter of the verification screen.
 */
module Phone {
  import opened Wrappers
  import opened Text

  /**
   * `formatPhoneToE164`: the '+'-prefixed form of ITU-T Recommendation E.164,
   * assuming country code 1 for ten-digit input. The third test can never
   * succeed (the cleaned string holds only digits); it is kept as written.
   */
  function ToE164(phoneNumber: string): (r: string)
    ensures |r| >= 1 && r[0] == '+' && AllIn(Digit, r[1..])
  {
    var cleaned := Digits(phoneNumber);
    if |cleaned| == 10 then "+1" + cleaned
    else if |cleaned| == 11 && cleaned[0] == '1' then "+" + cleaned
    else if StartsWith(cleaned, '+') then cleaned
    else "+" + cleaned
  }

  /** The "already starts with '+'" branch of `ToE164` is dead. */
  lemma PlusBranchDead(phoneNumber: string)
    ensures !StartsWith(Digits(phoneNumber), '+')
  {
    var cleaned := Digits(phoneNumber);
    if cleaned != [] {
      assert IsDigit(cleaned[0]);
    }
  }

  /** The digits of the result: the input's digits, behind a '1' exactly when there are ten of them. */
  lemma E164Digits(phoneNumber: string)
    ensures var d := Digits(phoneNumber);
            Digits(ToE164(phoneNumber)) == if |d| == 10 then "1" + d else d
  {
    var d := Digits(phoneNumber);
    KeepAllIn(Digit, d);
    PlusBranchDead(phoneNumber);
    if |d| == 10 {
      assert "+1" + d == "+" + ("1" + d);
      KeepConcat(Digit, "+", "1" + d);
      KeepConcat(Digit, "1", d);
    } else {
      KeepConcat(Digit, "+", d);
    }
  }

  /**
   * The whole result: '+' followed by the input's digits, with a '1' in front
   * when there are exactly ten. Eleven digits starting with '1' and every
   * other count (zero included, which yields "+") end up in the same form.
   */
  lemma E164Shape(phoneNumber: string)
    ensures var d := Digits(phoneNumber);
            ToE164(phoneNumber) == "+" + (if |d| == 10 then "1" + d else d)
  {
    PlusBranchDead(phoneNumber);
    var d := Digits(phoneNumber);
    if |d| == 10 {
      assert "+1" + d == "+" + ("1" + d);
    }
  }

  /** Only the digit sequence matters: other characters of the input are irrelevant. */
  lemma E164SameDigits(a: string, b: string)
    requires Digits(a) == Digits(b)
    ensures ToE164(a) == ToE164(b)
  {
  }

  /** Normalising an already normalised number changes nothing. */
  lemma E164Idempotent(phoneNumber: string)
    ensures ToE164(ToE164(phoneNumber)) == ToE164(phoneNumber)
  {
    var d := Digits(phoneNumber);
    var once := ToE164(phoneNumber);
    E164Digits(phoneNumber);
    E164Shape(phoneNumber);
    E164Shape(once);
    if |d| == 10 {
      assert Digits(once) == "1" + d;
      assert |Digits(once)| == 11;
      assert "+" + ("1" + d) == "+1" + d;
    }
  }

  /** The input's digits are a suffix of the result's digits. */
  lemma E164DigitsSuffix(phoneNumber: string)
    ensures var d := Digits(phoneNumber);
            var out := Digits(ToE164(phoneNumber));
            |d| <= |out| && out[|out| - |d|..] == d
  {
    E164Digits(phoneNumber);
  }

  /**
   * The groups `^(\d{0,3})(\d{0,3})(\d{0,4})$` captures from a string of
   * digits: None when it does not match. The pattern's quantifiers are
   * greedy, so the first group is as long as it can be, then the second.
   */
  function DashGroups(d: string): (g: Option<(string, string, string)>)
    ensures g.Some? <==> |d| <= 10
    ensures g.Some? ==> g.value.0 + g.value.1 + g.value.2 == d
    ensures g.Some? ==> |g.value.0| <= 3 && |g.value.1| <= 3 && |g.value.2| <= 4
    ensures g.Some? ==> (|g.value.0| < 3 ==> g.value.1 == []) && (|g.value.1| < 3 ==> g.value.2 == [])
  {
    if |d| > 10 then None
    else
      var a := if |d| < 3 then |d| else 3;
      var b := if |d| < 6 then |d| else 6;
      assert d[..a] + d[a..b] + d[b..] == d;
      Some((d[..a], d[a..b], d[b..]))
  }

  /**
   * `formatPhoneNumber` of the login and signup screens: the digits grouped
   * 3-3-4 and joined with '-' between non-empty groups; more than ten digits
   * fail the pattern and the raw text comes back unchanged.
   */
  function DashFormat(text: string): (r: string)
    ensures |Digits(text)| > 10 ==> r == text
    ensures var d := Digits(text);
            |d| <= 10 ==> r == if |d| <= 3 then d
                               else if |d| <= 6 then d[..3] + "-" + d[3..]
                               else d[..3] + "-" + d[3..6] + "-" + d[6..]
  {
    var cleaned := Digits(text);
    DashShape(cleaned);
    match DashGroups(cleaned)
    case Some((g1, g2, g3)) => Join(NonEmpty([g1, g2, g3]), "-")
    case None => text
  }

  /** `filter(Boolean)` on three groups. */
  lemma NonEmptyOfThree(a: string, b: string, c: string)
    ensures NonEmpty([a, b, c]) ==
              (if a == [] then [] else [a]) + (if b == [] then [] else [b]) + (if c == [] then [] else [c])
  {
    assert NonEmpty([c]) == (if c == [] then [] else [c]) + NonEmpty([]) by {
      assert [c][1..] == [];
    }
    assert NonEmpty([b, c]) == (if b == [] then [] else [b]) + NonEmpty([c]) by {
      assert [b, c][1..] == [c];
    }
    assert NonEmpty([a, b, c]) == (if a == [] then [] else [a]) + NonEmpty([b, c]) by {
      assert [a, b, c][1..] == [b, c];
    }
  }

  /** The matched groups joined: "ddd", "ddd-ddd" or "ddd-ddd-dddd", shorter groups last. */
  lemma DashShape(d: string)
    ensures |d| <= 10 ==>
              var g := DashGroups(d).value;
              Join(NonEmpty([g.0, g.1, g.2]), "-") ==
                if |d| <= 3 then d
                else if |d| <= 6 then d[..3] + "-" + d[3..]
                else d[..3] + "-" + d[3..6] + "-" + d[6..]
  {
    if |d| > 10 {
    } else if |d| == 0 {
      assert DashGroups(d) == Some(([], [], []));
      NonEmptyOfThree([], [], []);
    } else if |d| <= 3 {
      assert DashGroups(d) == Some((d, [], []));
      NonEmptyOfThree(d, [], []);
    } else if |d| <= 6 {
      assert d[3..|d|] == d[3..] && d[|d|..] == [];
      assert DashGroups(d) == Some((d[..3], d[3..], []));
      NonEmptyOfThree(d[..3], d[3..], []);
      assert NonEmpty([d[..3], d[3..], []]) == [d[..3], d[3..]];
      assert [d[..3], d[3..]][1..] == [d[3..]];
      assert Join([d[..3], d[3..]], "-") == d[..3] + "-" + d[3..];
    } else {
      assert DashGroups(d) == Some((d[..3], d[3..6], d[6..]));
      NonEmptyOfThree(d[..3], d[3..6], d[6..]);
      assert NonEmpty([d[..3], d[3..6], d[6..]]) == [d[..3], d[3..6], d[6..]];
      assert [d[..3], d[3..6], d[6..]][1..] == [d[3..6], d[6..]];
      assert [d[3..6], d[6..]][1..] == [d[6..]];
      assert Join([d[3..6], d[6..]], "-") == d[3..6] + "-" + d[6..];
      assert Join([d[..3], d[3..6], d[6..]], "-") == d[..3] + "-" + (d[3..6] + "-" + d[6..]);
    }
  }

  /** No leading, trailing or doubled dash. */
  predicate WellDashed(s: string) {
    && (s != [] ==> s[0] != '-' && s[|s| - 1] != '-')
    && forall i :: 0 <= i < |s| - 1 ==> !(s[i] == '-' && s[i + 1] == '-')
  }

  /** Only digits and dashes. */
  predicate DigitsAndDashes(s: string) {
    forall i :: 0 <= i < |s| ==> IsDigit(s[i]) || s[i] == '-'
  }

  /** Putting a group of digits and a dash in front of a well-dashed string keeps it well dashed. */
  lemma DashBefore(x: string, y: string)
    requires x != [] && AllIn(Digit, x)
    requires y != [] && WellDashed(y) && DigitsAndDashes(y)
    ensures var r := x + "-" + y;
            WellDashed(r) && DigitsAndDashes(r) && Digits(r) == x + Digits(y)
  {
    var r := x + "-" + y;
    forall i | 0 <= i < |r| - 1
      ensures !(r[i] == '-' && r[i + 1] == '-')
    {
      if i >= |x| + 1 {
        assert r[i] == y[i - |x| - 1] && r[i + 1] == y[i - |x|];
      }
    }
    KeepAllIn(Digit, x);
    KeepConcat(Digit, x + "-", y);
    KeepConcat(Digit, x, "-");
  }

  /** A group of digits on its own is well dashed. */
  lemma DigitGroup(x: string)
    requires AllIn(Digit, x)
    ensures WellDashed(x) && DigitsAndDashes(x) && Digits(x) == x
  {
    KeepAllIn(Digit, x);
  }

  /** Three non-empty digit groups joined by dashes. */
  lemma ThreeGroups(a: string, b: string, c: string)
    requires a != [] && b != [] && c != []
    requires AllIn(Digit, a) && AllIn(Digit, b) && AllIn(Digit, c)
    ensures var r := a + "-" + b + "-" + c;
            WellDashed(r) && DigitsAndDashes(r) && Digits(r) == a + b + c
  {
    DigitGroup(c);
    DashBefore(b, c);
    DashBefore(a, b + "-" + c);
    assert a + "-" + b + "-" + c == a + "-" + (b + "-" + c);
  }

  /**
   * Up to ten digits: the result is digits and dashes only, deleting the
   * dashes gives back the input's digits in order, the dashes are well
   * placed and the result fits the field's maxLength of 12.
   */
  lemma DashFormatted(text: string)
    requires |Digits(text)| <= 10
    ensures var r := DashFormat(text);
            DigitsAndDashes(r) && Digits(r) == Digits(text) && WellDashed(r) && |r| <= 12
  {
    var d := Digits(text);
    if |d| <= 3 {
      DigitGroup(d);
    } else if |d| <= 6 {
      var a, b := d[..3], d[3..];
      DigitGroup(b);
      DashBefore(a, b);
      assert a + b == d;
    } else {
      var a, b, c := d[..3], d[3..6], d[6..];
      ThreeGroups(a, b, c);
      assert a + b + c == d;
      assert DashFormat(text) == a + "-" + b + "-" + c;
    }
  }

  /** More than ten digits: the text the user typed is kept, not stripped. */
  lemma DashFormatTooLong(text: string)
    requires |Digits(text)| > 10
    ensures DashFormat(text) == text
  {
  }

  /** The digits never change, whatever the length. */
  lemma DashFormatKeepsDigits(text: string)
    ensures Digits(DashFormat(text)) == Digits(text)
  {
    if |Digits(text)| <= 10 {
      DashFormatted(text);
    }
  }

  /** Formatting a formatted number changes nothing. */
  lemma DashFormatIdempotent(text: string)
    ensures DashFormat(DashFormat(text)) == DashFormat(text)
  {
    DashFormatKeepsDigits(text);
  }

  /**
   * `formatPhoneNumber` of the verification screen: exactly ten digits become
   * "(ddd) ddd-dddd"; anything else is shown as it is.
   */
  function ParenFormat(phone: string): (r: string)
    ensures !(|phone| == 10 && AllIn(Digit, phone)) ==> r == phone
    ensures |phone| == 10 && AllIn(Digit, phone) ==>
              |r| == 14 && r[0] == '(' && r[1..4] == phone[..3] && r[4..6] == ") "
              && r[6..9] == phone[3..6] && r[9] == '-' && r[10..] == phone[6..]
  {
    if |phone| == 10 && AllIn(Digit, phone) then
      "(" + phone[..3] + ") " + phone[3..6] + "-" + phone[6..]
    else phone
  }

  /** Ten digits: fourteen characters whose digits are the input, in order. */
  lemma ParenFormatted(phone: string)
    requires |phone| == 10 && AllIn(Digit, phone)
    ensures var r := ParenFormat(phone);
            |r| == 14 && r[0] == '(' && r[4] == ')' && r[5] == ' ' && r[9] == '-' && Digits(r) == phone
  {
    var a, b, c := phone[..3], phone[3..6], phone[6..];
    assert phone == a + b + c;
    KeepAllIn(Digit, a);
    KeepAllIn(Digit, b);
    KeepAllIn(Digit, c);
    var s1 := "(" + a;
    var s2 := s1 + ") ";
    var s3 := s2 + b;
    var s4 := s3 + "-";
    KeepConcat(Digit, "(", a);
    assert Keep(Digit, s1) == a;
    KeepConcat(Digit, s1, ") ");
    assert Keep(Digit, s2) == a;
    KeepConcat(Digit, s2, b);
    assert Keep(Digit, s3) == a + b;
    KeepConcat(Digit, s3, "-");
    assert Keep(Digit, s4) == a + b;
    KeepConcat(Digit, s4, c);
    assert ParenFormat(phone) == s4 + c;
  }

  /**
   * The verification screen receives the E.164 form, which starts with '+',
   * so it is always displayed as it is, never in the parenthesised form.
   */
  lemma ParenFormatOfE164(phoneNumber: string)
    ensures ParenFormat(ToE164(phoneNumber)) == ToE164(phoneNumber)
  {
  }
}
