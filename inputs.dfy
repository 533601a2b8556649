/**
 * The two input validators of the registration form: the age answer and the
 * phone-number answer. Numbers are decimal digit strings; `ToDecimal` is the
 * inverse of reading one and is what the acceptance lemmas are stated over.
 */
module Inputs {
  import opened Base

  predicate AllDigits(s: string)
  {
    forall i | 0 <= i < |s| :: IsDigit(s[i])
  }

  /** `str.isnumeric` on decimal digits: non-empty and every character a digit. */
  predicate IsNumeric(s: string)
  {
    |s| > 0 && AllDigits(s)
  }

  function DigitValue(c: char): (d: nat)
    requires IsDigit(c)
    ensures d < 10
  {
    (c - '0') as nat
  }

  function DigitChar(d: nat): (c: char)
    requires d < 10
    ensures IsDigit(c) && DigitValue(c) == d
  {
    ('0' as int + d) as char
  }

  /** `int(s)` for a digit string: leading zeros are allowed. */
  function DecimalValue(s: string): (n: nat)
    requires AllDigits(s)
  {
    if s == [] then 0 else DecimalValue(s[..|s| - 1]) * 10 + DigitValue(s[|s| - 1])
  }

  /** The decimal numeral of `n`, without leading zeros. */
  function ToDecimal(n: nat): (s: string)
    ensures |s| > 0
    decreases n
  {
    if n < 10 then [DigitChar(n)] else ToDecimal(n / 10) + [DigitChar(n % 10)]
  }

  /** Reading back the numeral of `n` gives `n`. */
  lemma {:induction false} DecimalRoundTrip(n: nat)
    ensures IsNumeric(ToDecimal(n)) && DecimalValue(ToDecimal(n)) == n
    decreases n
  {
    var s := ToDecimal(n);
    if n < 10 {
      assert s[..|s| - 1] == [];
    } else {
      DecimalRoundTrip(n / 10);
      var prefix := ToDecimal(n / 10);
      assert s == prefix + [DigitChar(n % 10)];
      assert s[..|s| - 1] == prefix;
      assert forall i | 0 <= i < |s| :: IsDigit(s[i]) by {
        forall i | 0 <= i < |s| ensures IsDigit(s[i]) {
          if i < |prefix| {
            assert s[i] == prefix[i];
          }
        }
      }
    }
  }

  /**
   * The age answer: accepted iff it is numeric and its value lies strictly
   * between 8 and 100; the accepted value is the stored age.
   */
  function ParseAge(text: string): (r: Option<int>)
    ensures r.Some? ==> IsNumeric(text) && 9 <= r.value <= 99 && r.value == DecimalValue(text)
    ensures IsNumeric(text) && 8 < DecimalValue(text) < 100 ==> r.Some?
  {
    if IsNumeric(text) && 8 < DecimalValue(text) < 100 then Some(DecimalValue(text)) else None
  }

  /** The numeral of an age is accepted exactly for 9..99, and is stored as that age. */
  lemma AgeAcceptedIff(n: nat)
    ensures ParseAge(ToDecimal(n)) == if 9 <= n <= 99 then Some(n) else None
  {
    DecimalRoundTrip(n);
  }

  /** The boundaries: 9 and 99 are accepted, 8, 100 and 150 rejected, as is anything non-numeric. */
  lemma AgeBoundaries()
    ensures ParseAge("9") == Some(9) && ParseAge("99") == Some(99)
    ensures ParseAge("8") == None && ParseAge("100") == None && ParseAge("150") == None
    ensures ParseAge("") == None && ParseAge("2x") == None && ParseAge("-20") == None
  {
    assert DecimalValue("99"[..1]) == 9;
    assert DecimalValue("100"[..2]) == 10 by {
      assert DecimalValue("100"[..2][..1]) == 1;
    }
    assert DecimalValue("150"[..2]) == 15 by {
      assert DecimalValue("150"[..2][..1]) == 1;
    }
    assert !IsDigit("2x"[1]);
    assert !IsDigit("-20"[0]);
  }

  /** `text` with every leading `c` removed. */
  function StripLeading(s: string, c: char): (r: string)
    ensures |r| <= |s| && r == s[|s| - |r|..]
    ensures r == [] || r[0] != c
    ensures forall i | 0 <= i < |s| - |r| :: s[i] == c
  {
    if s != [] && s[0] == c then StripLeading(s[1..], c) else s
  }

  /** `text` with every trailing `c` removed. */
  function StripTrailing(s: string, c: char): (r: string)
    ensures |r| <= |s| && r == s[..|r|]
    ensures r == [] || r[|r| - 1] != c
    ensures forall i | |r| <= i < |s| :: s[i] == c
  {
    if s != [] && s[|s| - 1] == c then StripTrailing(s[..|s| - 1], c) else s
  }

  /** Python's `str.strip(c)`: removes `c` from both ends. */
  function Strip(s: string, c: char): string
  {
    StripTrailing(StripLeading(s, c), c)
  }

  /**
   * The phone-number answer: accepted iff it starts with `+` and what is
   * left after stripping every leading and trailing `+` is numeric; the
   * accepted value is that number, stored without the `+`.
   */
  function ParsePhone(text: string): (r: Option<int>)
    ensures r.Some? ==> StartsWith(text, "+") && IsNumeric(Strip(text, '+')) && r.value == DecimalValue(Strip(text, '+'))
    ensures StartsWith(text, "+") && IsNumeric(Strip(text, '+')) ==> r.Some?
    ensures r.Some? ==> r.value >= 0
  {
    if StartsWith(text, "+") && IsNumeric(Strip(text, '+')) then Some(DecimalValue(Strip(text, '+'))) else None
  }

  /** Stripping `+` leaves a `+`-free numeral in the middle untouched. */
  lemma StripAroundDigits(pre: string, digits: string, post: string)
    requires IsNumeric(digits)
    requires forall i | 0 <= i < |pre| :: pre[i] == '+'
    requires forall i | 0 <= i < |post| :: post[i] == '+'
    ensures Strip(pre + digits + post, '+') == digits
  {
    StripLeadingPluses(pre, digits + post);
    assert pre + digits + post == pre + (digits + post);
    StripTrailingPluses(digits, post);
  }

  lemma {:induction false} StripLeadingPluses(pre: string, rest: string)
    requires forall i | 0 <= i < |pre| :: pre[i] == '+'
    requires rest != [] && IsDigit(rest[0])
    ensures StripLeading(pre + rest, '+') == rest
    decreases |pre|
  {
    if pre == [] {
      assert pre + rest == rest;
    } else {
      assert (pre + rest)[1..] == pre[1..] + rest;
      StripLeadingPluses(pre[1..], rest);
    }
  }

  lemma {:induction false} StripTrailingPluses(body: string, post: string)
    requires forall i | 0 <= i < |post| :: post[i] == '+'
    requires body != [] && IsDigit(body[|body| - 1])
    ensures StripTrailing(body + post, '+') == body
    decreases |post|
  {
    if post == [] {
      assert body + post == body;
    } else {
      var shorter := post[..|post| - 1];
      assert (body + post)[..|body + post| - 1] == body + shorter;
      StripTrailingPluses(body, shorter);
    }
  }

  /** `+` followed by the numeral of `n` is accepted and stored as `n`. */
  lemma PhoneRoundTrip(n: nat)
    ensures ParsePhone("+" + ToDecimal(n)) == Some(n)
  {
    DecimalRoundTrip(n);
    StripAroundDigits("+", ToDecimal(n), []);
    assert "+" + ToDecimal(n) + [] == "+" + ToDecimal(n);
    assert ("+" + ToDecimal(n))[..1] == "+";
  }

  /** Surrounding `+` signs are stripped too: `++n+` is accepted as `n`. */
  lemma PhoneExtraPluses(n: nat)
    ensures ParsePhone("++" + ToDecimal(n) + "+") == Some(n)
  {
    DecimalRoundTrip(n);
    StripAroundDigits("++", ToDecimal(n), "+");
    assert ("++" + ToDecimal(n) + "+")[..1] == "+";
  }

  /** A number without the leading `+` is rejected. */
  lemma PhoneNeedsPlus(n: nat)
    ensures ParsePhone(ToDecimal(n)) == None
  {
    var s := ToDecimal(n);
    DecimalRoundTrip(n);
    assert s[..1][0] == s[0];
  }

  /** A text made only of `+` signs strips to nothing and is rejected. */
  lemma {:induction false} PhonePlusesOnly(k: nat)
    ensures StripLeading(Pluses(k + 1), '+') == []
    ensures ParsePhone(Pluses(k + 1)) == None
  {
    var s := Pluses(k + 1);
    assert s[1..] == Pluses(k);
    if k > 0 {
      PhonePlusesOnly(k - 1);
    }
  }

  /** `k` plus signs. */
  function Pluses(k: nat): (s: string)
    ensures |s| == k && forall i | 0 <= i < k :: s[i] == '+'
  {
    if k == 0 then [] else "+" + Pluses(k - 1)
  }
}
