/**
 * Destination numbers: the E.164 shape check, the North American Numbering
 * Plan test and the rewrite of each number into the dialling form the
 * service expects.
 */
module FaxNumbers {
  import opened Values
  import opened Errors

  predicate IsDigit(c: char) {
    '0' <= c <= '9'
  }

  predicate AllDigits(s: string) {
    forall i :: 0 <= i < |s| ==> IsDigit(s[i])
  }

  /** E.164 shape: `+` followed by between 7 and 15 decimal digits, and nothing more. */
  predicate IsE164(s: string) {
    8 <= |s| <= 16 && s[0] == '+' && AllDigits(s[1..])
  }

  /**
   * The pattern `^\+\d{7,15}$` as Python's `re.match` applies it: some count of
   * 7 to 15 digits follows the `+`, and then `$` holds, which in Python is at
   * the end of the string OR just before a newline that ends it.
   */
  predicate MatchesE164Pattern(s: string) {
    exists m | 7 <= m <= 15 :: MatchesWithCount(s, m)
  }

  /** The pattern matches `s` when `\d{7,15}` takes exactly `m` digits. */
  predicate MatchesWithCount(s: string, m: nat) {
    1 + m <= |s| && s[0] == '+' && AllDigits(s[1..1 + m]) && (s[1 + m..] == "" || s[1 + m..] == "\n")
  }

  /** Every number of the list is in E.164 shape. */
  predicate AllE164(ns: seq<string>) {
    forall i :: 0 <= i < |ns| ==> IsE164(ns[i])
  }

  /** The pattern `^\+1`: the number is inside the North American Numbering Plan. */
  predicate IsNanp(s: string) {
    |s| >= 2 && s[0] == '+' && s[1] == '1'
  }

  /**
   * The dialling form of a valid number: a NANP number only loses its `+`
   * (so it keeps the country code 1), every other number has its `+`
   * replaced by the international prefix `011`.
   */
  function Dialable(n: string): (d: string)
    requires IsE164(n)
    ensures AllDigits(d)
    ensures IsNanp(n) ==> "+" + d == n && d[0] == '1'
    ensures !IsNanp(n) ==> |d| >= 3 && d[..3] == "011" && "+" + d[3..] == n
  {
    if IsNanp(n) then
      assert n == [n[0]] + n[1..];
      n[1..]
    else
      var d := "011" + n[1..];
      assert d[3..] == n[1..] && n == [n[0]] + n[1..];
      d
  }

  /** The number a dialling form stands for, as the service reads it back. */
  function FromDialable(d: string): string {
    if |d| >= 3 && d[..3] == "011" then "+" + d[3..] else "+" + d
  }

  /** No two valid numbers share a dialling form: the service can always recover the number. */
  lemma DialableRoundTrip(n: string)
    requires IsE164(n)
    ensures FromDialable(Dialable(n)) == n
  {
    var d := Dialable(n);
    if IsNanp(n) {
      assert d[0] != '0';
    }
  }

  /** A number outside the plan, `+442071838750`, gets the international prefix in place of its `+`. */
  lemma InternationalExample()
    ensures var digits := "442071838750";
      IsE164("+" + digits) && Dialable("+" + digits) == "011" + digits
  {
    var digits := "442071838750";
    assert AllDigits(digits);
    DialableOfDigits(digits);
  }

  /** The dialling form of `+` and 7 to 15 digits, by whether the digits start with the NANP country code. */
  lemma DialableOfDigits(digits: string)
    requires 7 <= |digits| <= 15 && AllDigits(digits)
    ensures IsE164("+" + digits)
    ensures Dialable("+" + digits) == if digits[0] == '1' then digits else "011" + digits
  {
    assert ("+" + digits)[1..] == digits;
  }

  /** A number inside the plan, `+12025550123`, only loses its `+`, keeping the country code 1. */
  lemma NanpExample()
    ensures var digits := "12025550123";
      IsE164("+" + digits) && Dialable("+" + digits) == digits
  {
    var digits := "12025550123";
    assert AllDigits(digits);
    DialableOfDigits(digits);
  }

  /** The dialling forms of a list of valid numbers, in order. */
  function DialAll(ns: seq<string>): (ds: seq<string>)
    requires AllE164(ns)
    ensures |ds| == |ns|
    ensures forall i :: 0 <= i < |ns| ==> ds[i] == Dialable(ns[i])
  {
    seq(|ns|, i requires 0 <= i < |ns| => Dialable(ns[i]))
  }

  /** The error raised for a number that is not in E.164 shape. */
  function NotE164(number: string): Error {
    TypeError("Number not in E.164 format: " + number)
  }

  /** `j` is the position of the first number in `ns` that is not in E.164 shape. */
  predicate FirstInvalid(ns: seq<string>, j: int) {
    0 <= j < |ns| && !IsE164(ns[j]) && forall i :: 0 <= i < j ==> IsE164(ns[i])
  }

  /**
   * Checks every destination of the list and rewrites it, in place, into its
   * dialling form; stops at the first number that is not in E.164 shape,
   * leaving the numbers before it rewritten and the rest as they were.
   */
  method RewriteFaxNumbers(numbers: array<string>) returns (r: Outcome)
    modifies numbers
    ensures r.Pass? <==> AllE164(old(numbers[..]))
    ensures r.Pass? ==> numbers[..] == DialAll(old(numbers[..]))
    ensures r.Fail? ==>
      exists j :: FirstInvalid(old(numbers[..]), j) && r.error == NotE164(old(numbers[..])[j])
        && AllE164(old(numbers[..])[..j]) && numbers[..j] == DialAll(old(numbers[..])[..j])
        && numbers[j..] == old(numbers[..])[j..]
  {
    ghost var given := numbers[..];
    var i := 0;
    while i < numbers.Length
      invariant 0 <= i <= numbers.Length
      invariant forall k :: 0 <= k < i ==> IsE164(given[k]) && numbers[k] == Dialable(given[k])
      invariant forall k :: i <= k < numbers.Length ==> numbers[k] == given[k]
    {
      var number := numbers[i];
      if !IsE164(number) {
        assert FirstInvalid(given, i);
        assert numbers[..i] == DialAll(given[..i]);
        assert numbers[i..] == given[i..];
        return Fail(NotE164(number));
      }
      if IsNanp(number) {
        numbers[i] := number[1..];
      } else {
        numbers[i] := "011" + number[1..];
      }
      i := i + 1;
    }
    assert numbers[..] == DialAll(given);
    return Pass;
  }

  /**
   * Checks every destination and returns their dialling forms; a single
   * number is a one-element list. The numbers are rewritten in a list of the
   * model's own, so the caller's destinations stay as they were.
   */
  method VerifyFaxNumbers(toFaxNumber: OneOrMany) returns (r: Result<seq<string>>)
    ensures r.Ok? <==> AllE164(AsList(toFaxNumber))
    ensures r.Ok? ==> r.value == DialAll(AsList(toFaxNumber))
    ensures r.Err? ==> exists j :: FirstInvalid(AsList(toFaxNumber), j) && r.error == NotE164(AsList(toFaxNumber)[j])
  {
    var given := AsList(toFaxNumber);
    var numbers := new string[|given|](i requires 0 <= i < |given| => given[i]);
    assert numbers[..] == given;
    var check := RewriteFaxNumbers(numbers);
    if check.Fail? {
      return Err(check.error);
    }
    return Ok(numbers[..]);
  }

  /**
   * Once a list has been rewritten, checking it again fails on its first
   * entry: no dialling form is in E.164 shape. A caller that retries with the
   * list it passed before gets this error.
   */
  lemma RewrittenListFailsAgain(ns: seq<string>)
    requires AllE164(ns) && |ns| >= 1
    ensures FirstInvalid(DialAll(ns), 0)
    ensures NotE164(DialAll(ns)[0]) == NotE164(Dialable(ns[0]))
  {
    var d := Dialable(ns[0]);
    assert |d| >= 1 && IsDigit(d[0]);
  }

  /** `+12025550123` is rewritten in place to `12025550123`, which a second check refuses. */
  lemma RetryWithRewrittenListFails()
    ensures var digits := "12025550123";
      AllE164(["+" + digits]) && DialAll(["+" + digits]) == [digits] && FirstInvalid([digits], 0)
  {
    var digits := "12025550123";
    NanpExample();
    RewrittenListFailsAgain(["+" + digits]);
  }

  /** The pattern as written accepts exactly the E.164 numbers and those numbers followed by one newline. */
  lemma PatternAsWritten(s: string)
    ensures MatchesE164Pattern(s) <==> IsE164(s) || (|s| >= 1 && s[|s| - 1] == '\n' && IsE164(s[..|s| - 1]))
  {
    if IsE164(s) {
      var m := |s| - 1;
      assert s[1..1 + m] == s[1..] && s[1 + m..] == "";
      assert MatchesWithCount(s, m);
    } else if |s| >= 1 && s[|s| - 1] == '\n' && IsE164(s[..|s| - 1]) {
      var m := |s| - 2;
      assert s[1..1 + m] == s[..|s| - 1][1..];
      assert s[1 + m..] == "\n";
      assert MatchesWithCount(s, m);
    }
    if MatchesE164Pattern(s) {
      var m :| 7 <= m <= 15 && MatchesWithCount(s, m);
      if s[1 + m..] == "" {
        assert s[1..] == s[1..1 + m];
      } else {
        assert s[..|s| - 1][1..] == s[1..1 + m];
      }
    }
  }

  /** A number with a trailing newline passes the pattern as written but is not an E.164 number. */
  lemma TrailingNewlineAccepted()
    ensures MatchesE164Pattern("+12025550123\n") && !IsE164("+12025550123\n")
  {
    var s := "+12025550123\n";
    assert !IsDigit(s[12]);
    assert s[..|s| - 1] == "+12025550123";
    assert AllDigits("+12025550123"[1..]);
    PatternAsWritten(s);
  }

  /** Under the pattern as written that number would be sent with the newline in its dialling form. */
  lemma TrailingNewlineReachesService()
    ensures var s := "+12025550123\n"; IsNanp(s) && !AllDigits(s[1..])
  {
    var s := "+12025550123\n";
    assert !IsDigit(s[1..][11]);
  }
}
