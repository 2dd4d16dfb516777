/** The checkout's field validators: e-mail shape, phone digit count and the
    CPF check digits of the Receita Federal (modulo 11). */
module Validators {
  import opened Text

  // ---------------------------------------------------------------- e-mail

  /** A character of the class `[^\s@]`. The pattern has no `u` flag, so it
      matches UTF-16 code units; both halves of a surrogate pair are in this
      class exactly when the character they encode is, because every
      whitespace character and '@' lies in the Basic Multilingual Plane. */
  predicate Plain(c: char) {
    !IsJsWhitespace(c) && c != '@'
  }

  predicate AllPlain(s: string) {
    forall k :: 0 <= k < |s| ==> Plain(s[k])
  }

  /** The string a match of `^[^\s@]+@[^\s@]+\.[^\s@]{2,}$` is made of. */
  function EmailParts(local: string, host: string, tld: string): string {
    local + "@" + host + "." + tld
  }

  /** Reference reading of the e-mail regular expression: the string splits
      into a non-empty local part, '@', a non-empty host, a literal '.', and a
      final part of at least two UTF-16 code units, none of the three parts
      holding whitespace or '@'. The separators are ASCII, so a match never
      splits a surrogate pair. */
  ghost predicate MatchesEmailPattern(t: string) {
    exists local, host, tld :: EmailParts(local, host, tld) == t
      && |local| >= 1 && |host| >= 1 && JsLength(tld) >= 2
      && AllPlain(local) && AllPlain(host) && AllPlain(tld)
  }

  /** The same pattern found by position: one '@' after at least one
      character, no other '@' or whitespace anywhere, and a '.' with at least
      one character between it and the '@' and at least two UTF-16 code units
      after it. */
  predicate EmailShape(t: string) {
    exists i | 0 < i < |t| ::
      && t[i] == '@'
      && (forall k | 0 <= k < |t| && k != i :: Plain(t[k]))
      && (exists j | i + 1 < j < |t| :: t[j] == '.' && JsLength(t[j + 1..]) >= 2)
  }

  /** `validateEmail` (pages/Checkout.tsx): the pattern applied to the trimmed input. */
  function ValidateEmail(email: string): (ok: bool)
    ensures ok <==> MatchesEmailPattern(Trim(email))
  {
    EmailShapeIffPattern(Trim(email));
    EmailShape(Trim(email))
  }

  /** Cutting a string at an '@' and a later '.' gives back its parts. */
  lemma SplitAtSeparators(t: string, i: nat, j: nat)
    requires i < j < |t| && t[i] == '@' && t[j] == '.'
    ensures EmailParts(t[..i], t[i + 1..j], t[j + 1..]) == t
  {
    assert t == t[..i] + [t[i]] + t[i + 1..j] + [t[j]] + t[j + 1..];
  }

  /** Every string the positional check accepts matches the pattern. */
  lemma EmailShapeMatches(t: string)
    requires EmailShape(t)
    ensures MatchesEmailPattern(t)
  {
    var i :| 0 < i < |t| && t[i] == '@'
      && (forall k | 0 <= k < |t| && k != i :: Plain(t[k]))
      && (exists j | i + 1 < j < |t| :: t[j] == '.' && JsLength(t[j + 1..]) >= 2);
    var j :| i + 1 < j < |t| && t[j] == '.' && JsLength(t[j + 1..]) >= 2;
    ShapeWitness(t, i, j);
  }

  /** The parts cut at the '@' at `i` and the '.' at `j` witness the pattern. */
  lemma ShapeWitness(t: string, i: nat, j: nat)
    requires 0 < i && i + 1 < j < |t| && t[i] == '@' && t[j] == '.' && JsLength(t[j + 1..]) >= 2
    requires forall k | 0 <= k < |t| && k != i :: Plain(t[k])
    ensures MatchesEmailPattern(t)
  {
    SplitAtSeparators(t, i, j);
    PlainSlice(t, i, 0, i);
    PlainSlice(t, i, i + 1, j);
    PlainSlice(t, i, j + 1, |t|);
    assert t[..i] == t[0..i] && t[j + 1..] == t[j + 1..|t|];
  }

  /** A slice that leaves out the one '@' holds no '@' and no whitespace. */
  lemma PlainSlice(t: string, i: int, a: nat, b: nat)
    requires a <= b <= |t| && !(a <= i < b)
    requires forall k | 0 <= k < |t| && k != i :: Plain(t[k])
    ensures AllPlain(t[a..b])
  {
    forall k | 0 <= k < b - a ensures Plain(t[a..b][k]) {
      assert t[a..b][k] == t[a + k];
    }
  }

  /** Every string the pattern matches passes the positional check. */
  lemma PatternHasEmailShape(local: string, host: string, tld: string)
    requires |local| >= 1 && |host| >= 1 && JsLength(tld) >= 2
    requires AllPlain(local) && AllPlain(host) && AllPlain(tld)
    ensures EmailShape(EmailParts(local, host, tld))
  {
    var t := EmailParts(local, host, tld);
    var i := |local|;
    var j := |local| + 1 + |host|;
    assert t[i] == '@';
    assert t[j] == '.';
    forall k | 0 <= k < |t| && k != i ensures Plain(t[k]) {
      if k < i {
        assert t[k] == local[k];
      } else if k < j {
        assert t[k] == host[k - i - 1];
      } else if k > j {
        assert t[k] == tld[k - j - 1];
      }
    }
    assert t[j + 1..] == tld;
    assert i + 1 < j < |t|;
  }

  /** The positional check accepts exactly the strings the pattern matches. */
  lemma EmailShapeIffPattern(t: string)
    ensures EmailShape(t) <==> MatchesEmailPattern(t)
  {
    if EmailShape(t) {
      EmailShapeMatches(t);
    }
    if MatchesEmailPattern(t) {
      var local, host, tld :| EmailParts(local, host, tld) == t
        && |local| >= 1 && |host| >= 1 && JsLength(tld) >= 2
        && AllPlain(local) && AllPlain(host) && AllPlain(tld);
      PatternHasEmailShape(local, host, tld);
    }
  }

  /** The final part is measured in UTF-16 code units: one emoji, two code
      units, is enough. */
  lemma AstralTldAccepted()
    ensures ValidateEmail("a@b.\U{1F600}")
  {
    var t := "a@b.\U{1F600}";
    TrimUnchanged(t);
    assert t[4..] == "\U{1F600}";
    assert JsLength(t[4..]) == 2;
    assert forall k | 0 <= k < |t| && k != 1 :: Plain(t[k]);
    assert t[1] == '@' && t[3] == '.';
  }

  /** A valid e-mail holds no whitespace once trimmed and exactly one '@'. */
  lemma ValidEmailHasOneAt(email: string)
    requires ValidateEmail(email)
    ensures var t := Trim(email);
      (forall k :: 0 <= k < |t| ==> !IsJsWhitespace(t[k]))
      && exists i :: 0 <= i < |t| && t[i] == '@' && forall k :: 0 <= k < |t| && k != i ==> t[k] != '@'
  {
    var t := Trim(email);
    var i :| 0 < i < |t| && t[i] == '@' && (forall k | 0 <= k < |t| && k != i :: Plain(t[k]));
    assert forall k :: 0 <= k < |t| ==> !IsJsWhitespace(t[k]) by {
      forall k | 0 <= k < |t| ensures !IsJsWhitespace(t[k]) {
        if k != i { assert Plain(t[k]); }
      }
    }
  }

  /** Surrounding whitespace does not change the verdict. */
  lemma ValidateEmailIgnoresSurroundingSpace(email: string)
    ensures ValidateEmail(email) == ValidateEmail(Trim(email))
  {
    TrimIdempotent(email);
  }

  // ---------------------------------------------------------------- phone

  /** `validatePhone`: a landline (10 digits) or a mobile (11 digits), area code included. */
  function ValidatePhone(phone: string): (ok: bool)
    ensures ok <==> |Digits(phone)| == 10 || |Digits(phone)| == 11
  {
    var n := |Digits(phone)|;
    n >= 10 && n <= 11
  }

  // ---------------------------------------------------------------- CPF

  predicate AllSame(d: string) {
    forall i :: 0 <= i < |d| ==> d[i] == d[0]
  }

  /** Σ_{i < n} d[i] · (top − i): the weighted sum over the first `n` digits. */
  function WeightedSum(d: string, n: nat, top: int): int
    requires n <= |d| && AllDigits(d)
  {
    if n == 0 then 0 else WeightedSum(d, n - 1, top) + DigitValue(d[n - 1]) * (top - (n - 1))
  }

  /** The check digit for a weighted sum: (sum · 10) mod 11, with 10 read as 0.
      The sums are never negative, so Dafny's `%` agrees with JavaScript's. */
  function CheckDigit(sum: int): (c: nat)
    ensures c <= 9
  {
    var r := (sum * 10) % 11;
    if r == 10 then 0 else r
  }

  /** Reference definition of a valid CPF: eleven digits once separators are
      stripped, not all equal, the tenth digit being the check digit of the
      first nine under weights 10..2 and the eleventh that of the first ten
      under weights 11..2. */
  predicate IsValidCpf(cpf: string) {
    var d := Digits(cpf);
    && |d| == 11
    && !AllSame(d)
    && CheckDigit(WeightedSum(d, 9, 10)) == DigitValue(d[9])
    && CheckDigit(WeightedSum(d, 10, 11)) == DigitValue(d[10])
  }

  /** `validateCPF`, with its two accumulating loops. */
  method ValidateCpf(cpf: string) returns (ok: bool)
    ensures ok == IsValidCpf(cpf)
  {
    var digits := Digits(cpf);
    if |digits| != 11 {
      return false;
    }
    // /^(\d)\1{10}$/
    if AllSame(digits) {
      return false;
    }
    var sum := 0;
    for j := 0 to 9
      invariant sum == WeightedSum(digits, j, 10)
    {
      sum := sum + DigitValue(digits[j]) * (10 - j);
    }
    var remainder := (sum * 10) % 11;
    if remainder == 10 {
      remainder := 0;
    }
    if remainder != DigitValue(digits[9]) {
      return false;
    }
    sum := 0;
    for j := 0 to 10
      invariant sum == WeightedSum(digits, j, 11)
    {
      sum := sum + DigitValue(digits[j]) * (11 - j);
    }
    remainder := (sum * 10) % 11;
    if remainder == 10 {
      remainder := 0;
    }
    if remainder != DigitValue(digits[10]) {
      return false;
    }
    return true;
  }

  /** Only the digits matter: a formatted and a bare CPF get the same verdict. */
  lemma CpfVerdictDependsOnlyOnDigits(cpf: string)
    ensures IsValidCpf(cpf) == IsValidCpf(Digits(cpf))
  {
    DigitsIdempotent(cpf);
  }

  /** The two check digits of a nine-digit base. */
  function CompleteCpf(base: string): (cpf: string)
    requires |base| == 9 && AllDigits(base)
    ensures |cpf| == 11 && AllDigits(cpf) && cpf[..9] == base
  {
    var d10 := DigitChar(CheckDigit(WeightedSum(base, 9, 10)));
    var partial := base + [d10];
    partial + [DigitChar(CheckDigit(WeightedSum(partial, 10, 11)))]
  }

  lemma {:induction false} WeightedSumPrefix(d: string, e: string, n: nat, top: int)
    requires n <= |d| && n <= |e| && AllDigits(d) && AllDigits(e) && d[..n] == e[..n]
    ensures WeightedSum(d, n, top) == WeightedSum(e, n, top)
  {
    if n > 0 {
      assert d[n - 1] == d[..n][n - 1] == e[..n][n - 1] == e[n - 1];
      assert d[..n - 1] == d[..n][..n - 1];
      assert e[..n - 1] == e[..n][..n - 1];
      WeightedSumPrefix(d, e, n - 1, top);
    }
  }

  /** The check digits are determined by the base: a CPF passes the two
      checksums exactly when it is the completion of its first nine digits. */
  lemma CheckDigitsDetermined(d: string)
    requires |d| == 11 && AllDigits(d)
    ensures (CheckDigit(WeightedSum(d, 9, 10)) == DigitValue(d[9])
             && CheckDigit(WeightedSum(d, 10, 11)) == DigitValue(d[10]))
            <==> d == CompleteCpf(d[..9])
  {
    var base := d[..9];
    var c := CompleteCpf(base);
    var partial := base + [DigitChar(CheckDigit(WeightedSum(base, 9, 10)))];
    assert c == partial + [c[10]];
    WeightedSumPrefix(d, base, 9, 10);
    WeightedSumPrefix(d, c, 9, 10);
    if CheckDigit(WeightedSum(d, 9, 10)) == DigitValue(d[9]) {
      assert d[9] == c[9];
      assert d[..10] == partial;
      WeightedSumPrefix(d, partial, 10, 11);
      if CheckDigit(WeightedSum(d, 10, 11)) == DigitValue(d[10]) {
        assert d[10] == c[10];
        assert d == c;
      }
    }
    if d == c {
      assert d[..10] == partial;
      WeightedSumPrefix(d, partial, 10, 11);
    }
  }

  lemma {:induction false} WeightedSumOfRepeated(d: string, n: nat, top: int)
    requires n <= |d| && AllDigits(d) && AllSame(d) && d != []
    ensures WeightedSum(d, n, top) == DigitValue(d[0]) * (n * top - n * (n - 1) / 2)
  {
    if n > 0 {
      WeightedSumOfRepeated(d, n - 1, top);
      var v := DigitValue(d[0]);
      assert d[n - 1] == d[0];
      var before, last := (n - 1) * top - (n - 1) * (n - 2) / 2, top - (n - 1);
      assert WeightedSum(d, n, top) == v * before + v * last;
      Distribute(v, before, last);
      TriangleStep(n, top);
    }
  }

  lemma Distribute(v: int, a: int, b: int)
    ensures v * a + v * b == v * (a + b)
  {
  }

  /** One more term of the weights `top, top - 1, ...`. */
  lemma TriangleStep(n: int, top: int)
    requires n >= 1
    ensures (n - 1) * top - (n - 1) * (n - 2) / 2 + (top - (n - 1)) == n * top - n * (n - 1) / 2
  {
    assert (n - 1) * (n - 2) / 2 + (n - 1) == n * (n - 1) / 2;
  }

  /** Why repeated digits need their own rule: 000.000.000-00 through
      999.999.999-99 all pass both checksums. */
  lemma RepeatedDigitsPassChecksums(d: string)
    requires |d| == 11 && AllDigits(d) && AllSame(d)
    ensures CheckDigit(WeightedSum(d, 9, 10)) == DigitValue(d[9])
    ensures CheckDigit(WeightedSum(d, 10, 11)) == DigitValue(d[10])
    ensures !IsValidCpf(d)
  {
    WeightedSumOfRepeated(d, 9, 10);
    WeightedSumOfRepeated(d, 10, 11);
    DigitsOfDigits(d);
    var v := DigitValue(d[0]);
    assert d[9] == d[0] && d[10] == d[0];
    assert WeightedSum(d, 9, 10) == 54 * v;
    assert WeightedSum(d, 10, 11) == 65 * v;
    assert v == 0 || v == 1 || v == 2 || v == 3 || v == 4 || v == 5 || v == 6 || v == 7 || v == 8 || v == 9;
  }

  /** Every nine-digit base with two different digits has exactly one valid
      completion, the one `CompleteCpf` builds. */
  lemma CompletionIsValid(base: string)
    requires |base| == 9 && AllDigits(base) && !AllSame(base)
    ensures IsValidCpf(CompleteCpf(base))
  {
    var c := CompleteCpf(base);
    DigitsOfDigits(c);
    assert c[..9] == base;
    var k :| 0 <= k < 9 && base[k] != base[0];
    assert c[k] == base[k] && c[0] == base[0];
    CheckDigitsDetermined(c);
  }

  // ------------------------------------------------------------ known CPFs

  /** A bare eleven-digit string is valid when it passes the checksums. */
  lemma BareCpfValid(d: string)
    requires |d| == 11 && AllDigits(d) && !AllSame(d)
    requires CheckDigit(WeightedSum(d, 9, 10)) == DigitValue(d[9])
    requires CheckDigit(WeightedSum(d, 10, 11)) == DigitValue(d[10])
    ensures IsValidCpf(d)
  {
    DigitsOfDigits(d);
  }

  /** The check digit read off a division of ten times the sum by 11. */
  lemma CheckDigitFromDivision(sum: int, q: int, r: int)
    requires sum * 10 == 11 * q + r && 0 <= r < 10
    ensures CheckDigit(sum) == r
  {
  }

  lemma SampleSums()
    ensures WeightedSum("52998224725", 9, 10) == 295
    ensures WeightedSum("52998224725", 10, 11) == 347
  {
    SampleAllDigits();
  }

  /** The sample's eleven characters are digits. */
  lemma SampleAllDigits()
    ensures AllDigits("52998224725")
  {
  }

  lemma SampleNotRepeated()
    ensures !AllSame("52998224725")
  {
    assert "52998224725"[1] != "52998224725"[0];
  }

  /** 52998224725, shown as 529.982.247-25 once masked, is a valid CPF. */
  lemma SampleCpfValid()
    ensures IsValidCpf("52998224725")
  {
    var d := "52998224725";
    SampleAllDigits();
    SampleSums();
    SampleNotRepeated();
    CheckDigitFromDivision(295, 268, 2);
    CheckDigitFromDivision(347, 315, 5);
    assert DigitValue(d[9]) == 2;
    assert DigitValue(d[10]) == 5;
    BareCpfValid(d);
  }

  /** Repeated digits are refused whatever the separators. */
  lemma RepeatedDigitsRefused(cpf: string)
    requires AllSame(Digits(cpf))
    ensures !IsValidCpf(cpf)
  {
  }

  /** 11111111111 is refused: its digits are all equal (it would pass both
      checksums, see RepeatedDigitsPassChecksums). */
  lemma RepeatedCpfRefused()
    ensures !IsValidCpf("11111111111")
  {
    var d := "11111111111";
    OnesAllDigits();
    DigitsOfDigits(d);
    RepeatedDigitsRefused(d);
  }

  /** The eleven characters of 11111111111 are equal digits. */
  lemma OnesAllDigits()
    ensures AllDigits("11111111111") && AllSame("11111111111")
  {
  }
}
