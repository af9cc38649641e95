/** The one-time-password field of the bank page: what a keystroke stores,
    and which stored values a submit accepts. */
module Otp {
  import opened Decimal

  /** The field's `maxLength`. */
  const MaxLength: nat := 6
  /** The only length a submit accepts. */
  const CodeLength: nat := 6
  /** The code the page tells the tester to type; nothing compares against it. */
  const DemoCode: string := "123456"

  /** Drops every character that is not a decimal digit, keeping the others in order. */
  function Sanitize(s: string): (r: string)
    ensures AllDigits(r) && |r| <= |s|
    decreases |s|
  {
    if s == [] then []
    else (if IsDigit(s[0]) then [s[0]] else []) + Sanitize(s[1..])
  }

  /** What the browser lets into a field with `maxLength` 6: the first six
      characters of what was typed or pasted. */
  function FieldValue(typed: string): (v: string)
    ensures |v| <= MaxLength && v <= typed
    ensures |typed| <= MaxLength ==> v == typed
    ensures |typed| > MaxLength ==> |v| == MaxLength
  {
    if |typed| <= MaxLength then typed else typed[..MaxLength]
  }

  /** The value stored by the field's change handler. */
  function OnChange(typed: string): (otp: string)
    ensures AllDigits(otp) && |otp| <= MaxLength
  {
    Sanitize(FieldValue(typed))
  }

  /** Whether a submit opens the outcome prompt: the length alone decides. */
  predicate Accepts(otp: string) {
    |otp| == CodeLength
  }

  /** Sanitising distributes over concatenation: each character is kept or
      dropped on its own. */
  lemma {:induction false} SanitizeAppend(a: string, b: string)
    ensures Sanitize(a + b) == Sanitize(a) + Sanitize(b)
    decreases |a|
  {
    if a == [] {
      assert a + b == b;
    } else {
      var keep := if IsDigit(a[0]) then [a[0]] else [];
      assert (a + b)[0] == a[0] && (a + b)[1..] == a[1..] + b;
      assert Sanitize(a + b) == keep + Sanitize(a[1..] + b);
      SanitizeAppend(a[1..], b);
      assert Sanitize(a) == keep + Sanitize(a[1..]);
      assert keep + (Sanitize(a[1..]) + Sanitize(b)) == (keep + Sanitize(a[1..])) + Sanitize(b);
    }
  }

  /** A string comes through unchanged exactly when it is all digits. */
  lemma {:induction false} SanitizeFixesDigits(s: string)
    ensures Sanitize(s) == s <==> AllDigits(s)
    decreases |s|
  {
    if s != [] {
      SanitizeFixesDigits(s[1..]);
      if !IsDigit(s[0]) {
        assert |Sanitize(s)| < |s|;
      } else if !AllDigits(s[1..]) {
        var i :| 0 <= i < |s[1..]| && !IsDigit(s[1..][i]);
        assert s[i + 1] == s[1..][i];
        assert Sanitize(s)[1..] == Sanitize(s[1..]);
      } else {
        assert s == [s[0]] + s[1..];
      }
    }
  }

  /** Sanitising twice is sanitising once. */
  lemma SanitizeIdempotent(s: string)
    ensures Sanitize(Sanitize(s)) == Sanitize(s)
  {
    SanitizeFixesDigits(Sanitize(s));
  }

  /** Every digit of the input survives, as often as it occurs, and nothing else does. */
  lemma {:induction false} SanitizeKeepsExactlyDigits(s: string, c: char)
    ensures multiset(Sanitize(s))[c] == if IsDigit(c) then multiset(s)[c] else 0
    decreases |s|
  {
    if s != [] {
      SanitizeKeepsExactlyDigits(s[1..], c);
      assert s == [s[0]] + s[1..];
      assert multiset(s) == multiset([s[0]]) + multiset(s[1..]);
    }
  }

  /** Whatever is typed, the stored value is at most six digits, and typing
      digits only (at most six of them) stores exactly what was typed. */
  lemma OnChangeStoresDigitsOnly(typed: string)
    ensures AllDigits(OnChange(typed)) && |OnChange(typed)| <= MaxLength
    ensures |OnChange(typed)| <= |typed|
    ensures AllDigits(typed) && |typed| <= MaxLength ==> OnChange(typed) == typed
  {
    SanitizeFixesDigits(typed);
  }

  /** Any six digits are accepted, whether or not they are the displayed demo code,
      and nothing of another length is; typing digits fills the field once six or
      more are typed (the field keeps the first six). */
  lemma AcceptanceIgnoresTheCode(otp: string)
    requires AllDigits(otp)
    ensures Accepts(otp) <==> |otp| == |DemoCode|
    ensures Accepts(OnChange(otp)) <==> |otp| >= CodeLength
  {
    OnChangeStoresDigitsOnly(otp);
    if |otp| > MaxLength {
      var kept := otp[..MaxLength];
      assert AllDigits(kept) by {
        forall i | 0 <= i < |kept| ensures IsDigit(kept[i]) { assert kept[i] == otp[i]; }
      }
      SanitizeFixesDigits(kept);
    }
  }

  /** A five-digit and a six-digit entry are stored as typed. */
  lemma WalkThroughEntries()
    ensures OnChange("12345") == "12345"
    ensures OnChange("123456") == "123456"
  {
    assert AllDigits("12345");
    assert AllDigits("123456");
    OnChangeStoresDigitsOnly("12345");
    OnChangeStoresDigitsOnly("123456");
  }
}
