/** The input masks of the checkout form. Each keeps the digits of what was
    typed, cuts them to the field's digit budget and puts the separators back
    in: CPF 000.000.000-00, phone (00) 00000-0000, CEP 00000-000, card number
    in groups of four, expiry MM/YY, CVV bare. */
module Masks {
  import opened Text
  import opened Validators

  /** Digit budgets of the masked fields. */
  const CpfDigits: nat := 11
  const PhoneDigits: nat := 11
  const CepDigits: nat := 8
  const CardDigits: nat := 16
  const ExpiryDigits: nat := 4
  const CvvDigits: nat := 4

  /** `maskCPF`: at most 14 characters, the `maxLength` of the CPF input. */
  function MaskCpf(value: string): (r: string)
    ensures |r| <= 14
  {
    var digits := Prefix(Digits(value), CpfDigits);
    if |digits| <= 3 then digits
    else if |digits| <= 6 then digits[..3] + "." + digits[3..]
    else if |digits| <= 9 then digits[..3] + "." + digits[3..6] + "." + digits[6..]
    else digits[..3] + "." + digits[3..6] + "." + digits[6..9] + "-" + digits[9..]
  }

  /** `maskPhone`: at most 15 characters, the `maxLength` of the phone input. */
  function MaskPhone(value: string): (r: string)
    ensures |r| <= 15
  {
    var digits := Prefix(Digits(value), PhoneDigits);
    if |digits| <= 2 then (if |digits| > 0 then "(" + digits else "")
    else if |digits| <= 7 then "(" + digits[..2] + ") " + digits[2..]
    else "(" + digits[..2] + ") " + digits[2..7] + "-" + digits[7..]
  }

  /** `maskCEP`: at most 9 characters, the `maxLength` of the CEP input. */
  function MaskCep(value: string): (r: string)
    ensures |r| <= 9
  {
    var digits := Prefix(Digits(value), CepDigits);
    if |digits| <= 5 then digits else digits[..5] + "-" + digits[5..]
  }

  /** `digits.replace(/(\d{4})(?=\d)/g, '$1 ')` on a string of digits: a
      space after every complete group of four that more digits follow. */
  function GroupsOfFour(digits: string): (r: string)
    decreases |digits|
  {
    if |digits| <= 4 then digits else digits[..4] + " " + GroupsOfFour(digits[4..])
  }

  /** `maskCardNumber`: at most 19 characters, the `maxLength` of the card input. */
  function MaskCardNumber(value: string): (r: string)
    ensures |r| <= 19
  {
    var digits := Prefix(Digits(value), CardDigits);
    GroupsOfFourShape(digits);
    Trim(GroupsOfFour(digits))
  }

  /** `maskCardExpiry`: at most 5 characters, the `maxLength` of the expiry input. */
  function MaskCardExpiry(value: string): (r: string)
    ensures |r| <= 5
  {
    var digits := Prefix(Digits(value), ExpiryDigits);
    if |digits| <= 2 then digits else digits[..2] + "/" + digits[2..]
  }

  /** `maskCVV`: at most 4 characters, the `maxLength` of the CVV input. */
  function MaskCvv(value: string): (r: string)
    ensures |r| <= 4
  {
    Prefix(Digits(value), CvvDigits)
  }

  // ------------------------------------------------------------ helpers

  lemma DigitsAfterSeparator(x: string, sep: string, b: string)
    requires AllDigits(b) && forall i :: 0 <= i < |sep| ==> !IsDigit(sep[i])
    ensures Digits(x + sep + b) == Digits(x) + b
  {
    calc {
      Digits(x + sep + b);
      { DigitsAppend(x + sep, b); }
      Digits(x + sep) + Digits(b);
      { DigitsAppend(x, sep); NoDigits(sep); }
      (Digits(x) + []) + Digits(b);
      { assert Digits(x) + [] == Digits(x); DigitsOfDigits(b); }
      Digits(x) + b;
    }
  }

  lemma {:induction false} NoDigits(s: string)
    requires forall i :: 0 <= i < |s| ==> !IsDigit(s[i])
    ensures Digits(s) == []
  {
    if s != [] {
      NoDigits(s[1..]);
    }
  }

  /** A prefix cut of a string of at most `n` characters changes nothing. */
  lemma PrefixOfShort(s: string, n: nat)
    requires |s| <= n
    ensures Prefix(s, n) == s
  {
  }

  // ------------------------------------------------- digits are preserved

  /** The digits of a masked CPF are the first 11 digits typed. */
  lemma MaskCpfDigits(value: string)
    ensures Digits(MaskCpf(value)) == Prefix(Digits(value), CpfDigits)
  {
    var d := Prefix(Digits(value), CpfDigits);
    DigitsOfDigits(d);
    if |d| <= 3 {
    } else if |d| <= 6 {
      CpfTwoGroupsDigits(d);
    } else if |d| <= 9 {
      CpfThreeGroupsDigits(d);
    } else {
      CpfFourGroupsDigits(d);
    }
  }

  /** The digits of `000.000`. */
  lemma CpfTwoGroupsDigits(d: string)
    requires AllDigits(d) && 3 < |d|
    ensures Digits(d[..3] + "." + d[3..]) == d
  {
    DigitsAfterSeparator(d[..3], ".", d[3..]);
    DigitsOfDigits(d[..3]);
    assert d[..3] + d[3..] == d;
  }

  /** The digits of `000.000.000`. */
  lemma CpfThreeGroupsDigits(d: string)
    requires AllDigits(d) && 6 < |d|
    ensures Digits(d[..3] + "." + d[3..6] + "." + d[6..]) == d
  {
    DigitsAfterSeparator(d[..3] + "." + d[3..6], ".", d[6..]);
    CpfTwoGroupsDigits(d[..6]);
    assert d[..6][..3] == d[..3] && d[..6][3..] == d[3..6];
    assert d[..6] + d[6..] == d;
  }

  /** The digits of `000.000.000-00`. */
  lemma CpfFourGroupsDigits(d: string)
    requires AllDigits(d) && 9 < |d|
    ensures Digits(d[..3] + "." + d[3..6] + "." + d[6..9] + "-" + d[9..]) == d
  {
    DigitsAfterSeparator(d[..3] + "." + d[3..6] + "." + d[6..9], "-", d[9..]);
    CpfThreeGroupsDigits(d[..9]);
    assert d[..9][..3] == d[..3] && d[..9][3..6] == d[3..6] && d[..9][6..] == d[6..9];
    assert d[..9] + d[9..] == d;
  }

  /** The digits of a masked phone are the first 11 digits typed. */
  lemma MaskPhoneDigits(value: string)
    ensures Digits(MaskPhone(value)) == Prefix(Digits(value), PhoneDigits)
  {
    var d := Prefix(Digits(value), PhoneDigits);
    DigitsOfDigits(d);
    if |d| == 0 {
    } else if |d| <= 2 {
      DigitsAfterSeparator("", "(", d);
      assert "" + "(" + d == "(" + d;
    } else if |d| <= 7 {
      ShortPhoneDigits(d);
    } else {
      LongPhoneDigits(d);
    }
  }

  /** The digits of `(DD) NNNNN`. */
  lemma ShortPhoneDigits(d: string)
    requires AllDigits(d) && 2 < |d|
    ensures Digits("(" + d[..2] + ") " + d[2..]) == d
  {
    DigitsAfterSeparator("(" + d[..2], ") ", d[2..]);
    DigitsAfterSeparator("", "(", d[..2]);
    assert "" + "(" + d[..2] == "(" + d[..2];
    assert d[..2] + d[2..] == d;
  }

  /** The digits of `(DD) NNNNN-NNNN`. */
  lemma LongPhoneDigits(d: string)
    requires AllDigits(d) && 7 < |d|
    ensures Digits("(" + d[..2] + ") " + d[2..7] + "-" + d[7..]) == d
  {
    DigitsAfterSeparator("(" + d[..2] + ") " + d[2..7], "-", d[7..]);
    ShortPhoneDigits(d[..7]);
    assert d[..7][..2] == d[..2] && d[..7][2..] == d[2..7];
    assert d[..7] + d[7..] == d;
  }

  /** The digits of a masked CEP are the first 8 digits typed. */
  lemma MaskCepDigits(value: string)
    ensures Digits(MaskCep(value)) == Prefix(Digits(value), CepDigits)
  {
    var d := Prefix(Digits(value), CepDigits);
    DigitsOfDigits(d);
    if |d| > 5 {
      DigitsAfterSeparator(d[..5], "-", d[5..]);
      DigitsOfDigits(d[..5]);
      assert d[..5] + d[5..] == d;
    }
  }

  /** Grouping a string of digits: a space at exactly every fifth position
      (one between consecutive groups of four), digits everywhere else, none
      at either end. */
  lemma {:induction false} GroupsOfFourShape(d: string)
    requires AllDigits(d)
    ensures var r := GroupsOfFour(d);
      && (d == [] ==> r == [])
      && (d != [] ==> |r| == |d| + (|d| - 1) / 4)
      && (forall i :: 0 <= i < |r| ==> (r[i] == ' ' <==> i % 5 == 4))
      && (forall i :: 0 <= i < |r| && i % 5 != 4 ==> IsDigit(r[i]))
      && (r != [] ==> IsDigit(r[0]) && IsDigit(r[|r| - 1]))
  {
    var r := GroupsOfFour(d);
    if |d| > 4 {
      var rest := GroupsOfFour(d[4..]);
      GroupsOfFourShape(d[4..]);
      assert r == d[..4] + " " + rest;
      forall i | 5 <= i < |r|
        ensures r[i] == rest[i - 5] && (i % 5 == 4 <==> (i - 5) % 5 == 4)
      {
      }
    }
  }

  /** Grouping a string of digits keeps exactly those digits. */
  lemma {:induction false} GroupsOfFourDigits(d: string)
    requires AllDigits(d)
    ensures Digits(GroupsOfFour(d)) == d
  {
    if |d| <= 4 {
      DigitsOfDigits(d);
    } else {
      var rest := GroupsOfFour(d[4..]);
      calc {
        Digits(GroupsOfFour(d));
        Digits(d[..4] + " " + rest);
        { DigitsAppend(d[..4] + " ", rest); }
        Digits(d[..4] + " ") + Digits(rest);
        { DigitsAppend(d[..4], " "); NoDigits(" "); DigitsOfDigits(d[..4]); }
        (d[..4] + []) + Digits(rest);
        { GroupsOfFourDigits(d[4..]); assert d[..4] + [] == d[..4]; }
        d[..4] + d[4..];
        d;
      }
    }
  }

  /** The digits of a masked card number are the first 16 digits typed. */
  lemma MaskCardNumberDigits(value: string)
    ensures Digits(MaskCardNumber(value)) == Prefix(Digits(value), CardDigits)
  {
    var d := Prefix(Digits(value), CardDigits);
    GroupsOfFourShape(d);
    GroupsOfFourDigits(d);
    TrimUnchanged(GroupsOfFour(d));
  }

  /** The digits of a masked expiry are the first 4 digits typed. */
  lemma MaskCardExpiryDigits(value: string)
    ensures Digits(MaskCardExpiry(value)) == Prefix(Digits(value), ExpiryDigits)
  {
    var d := Prefix(Digits(value), ExpiryDigits);
    DigitsOfDigits(d);
    if |d| > 2 {
      DigitsAfterSeparator(d[..2], "/", d[2..]);
      DigitsOfDigits(d[..2]);
      assert d[..2] + d[2..] == d;
    }
  }

  /** The digits of a masked CVV are the first 4 digits typed. */
  lemma MaskCvvDigits(value: string)
    ensures Digits(MaskCvv(value)) == Prefix(Digits(value), CvvDigits)
  {
    DigitsOfDigits(Prefix(Digits(value), CvvDigits));
  }

  // ------------------------------------------------------- idempotence

  /** Masking a masked CPF changes nothing. */
  lemma MaskCpfIdempotent(value: string)
    ensures MaskCpf(MaskCpf(value)) == MaskCpf(value)
  {
    MaskCpfDigits(value);
    PrefixOfShort(Prefix(Digits(value), CpfDigits), CpfDigits);
  }

  /** Masking a masked phone changes nothing. */
  lemma MaskPhoneIdempotent(value: string)
    ensures MaskPhone(MaskPhone(value)) == MaskPhone(value)
  {
    MaskPhoneDigits(value);
    PrefixOfShort(Prefix(Digits(value), PhoneDigits), PhoneDigits);
  }

  /** Masking a masked CEP changes nothing. */
  lemma MaskCepIdempotent(value: string)
    ensures MaskCep(MaskCep(value)) == MaskCep(value)
  {
    MaskCepDigits(value);
    PrefixOfShort(Prefix(Digits(value), CepDigits), CepDigits);
  }

  /** Masking a masked card number changes nothing. */
  lemma MaskCardNumberIdempotent(value: string)
    ensures MaskCardNumber(MaskCardNumber(value)) == MaskCardNumber(value)
  {
    MaskCardNumberDigits(value);
    PrefixOfShort(Prefix(Digits(value), CardDigits), CardDigits);
  }

  /** Masking a masked expiry changes nothing. */
  lemma MaskCardExpiryIdempotent(value: string)
    ensures MaskCardExpiry(MaskCardExpiry(value)) == MaskCardExpiry(value)
  {
    MaskCardExpiryDigits(value);
    PrefixOfShort(Prefix(Digits(value), ExpiryDigits), ExpiryDigits);
  }

  /** Masking a masked CVV changes nothing. */
  lemma MaskCvvIdempotent(value: string)
    ensures MaskCvv(MaskCvv(value)) == MaskCvv(value)
  {
    MaskCvvDigits(value);
    PrefixOfShort(Prefix(Digits(value), CvvDigits), CvvDigits);
  }

  // ------------------------------------------------------------ layouts

  /** The complete CPF layout 000.000.000-00. */
  predicate CpfLayout(s: string) {
    && |s| == 14 && s[3] == '.' && s[7] == '.' && s[11] == '-'
    && forall i :: 0 <= i < 14 && i != 3 && i != 7 && i != 11 ==> IsDigit(s[i])
  }

  /** The complete mobile layout (00) 00000-0000. */
  predicate PhoneLayout(s: string) {
    && |s| == 15 && s[0] == '(' && s[3] == ')' && s[4] == ' ' && s[10] == '-'
    && forall i :: 0 <= i < 15 && i != 0 && i != 3 && i != 4 && i != 10 ==> IsDigit(s[i])
  }

  /** The complete CEP layout 00000-000. */
  predicate CepLayout(s: string) {
    && |s| == 9 && s[5] == '-'
    && forall i :: 0 <= i < 9 && i != 5 ==> IsDigit(s[i])
  }

  /** A CPF comes out in the full layout exactly when 11 digits were typed. */
  lemma MaskCpfLayout(value: string)
    ensures CpfLayout(MaskCpf(value)) <==> |Digits(value)| >= CpfDigits
  {
    var d := Prefix(Digits(value), CpfDigits);
    var r := MaskCpf(value);
    KeptDigits(value, CpfDigits);
    if |d| == CpfDigits {
      assert r == d[..3] + "." + d[3..6] + "." + d[6..9] + "-" + d[9..];
      forall i | 0 <= i < 14 && i != 3 && i != 7 && i != 11 ensures IsDigit(r[i]) {
        if i < 3 { assert r[i] == d[i]; }
        else if i < 7 { assert r[i] == d[i - 1]; }
        else if i < 11 { assert r[i] == d[i - 2]; }
        else { assert r[i] == d[i - 3]; }
      }
    } else {
      assert |r| < 14;
    }
  }

  /** The digits a mask keeps are digits. */
  lemma KeptDigits(value: string, n: nat)
    ensures AllDigits(Prefix(Digits(value), n))
  {
    var d := Digits(value);
    var p := Prefix(d, n);
    forall i | 0 <= i < |p| ensures IsDigit(p[i]) {
      assert p[i] == d[i];
    }
  }

  /** A phone comes out in the full layout exactly when 11 digits were typed. */
  lemma MaskPhoneLayout(value: string)
    ensures PhoneLayout(MaskPhone(value)) <==> |Digits(value)| >= PhoneDigits
  {
    var d := Prefix(Digits(value), PhoneDigits);
    var r := MaskPhone(value);
    KeptDigits(value, PhoneDigits);
    if |d| == PhoneDigits {
      assert r == "(" + d[..2] + ") " + d[2..7] + "-" + d[7..];
      forall i | 0 <= i < 15 && i != 0 && i != 3 && i != 4 && i != 10 ensures IsDigit(r[i]) {
        if i < 3 { assert r[i] == d[i - 1]; }
        else if i < 10 { assert r[i] == d[i - 3]; }
        else { assert r[i] == d[i - 4]; }
      }
    } else {
      assert |r| < 15;
    }
  }

  /** A CEP comes out in the full layout exactly when 8 digits were typed. */
  lemma MaskCepLayout(value: string)
    ensures CepLayout(MaskCep(value)) <==> |Digits(value)| >= CepDigits
  {
    var d := Prefix(Digits(value), CepDigits);
    var r := MaskCep(value);
    KeptDigits(value, CepDigits);
    if |d| == CepDigits {
      assert r == d[..5] + "-" + d[5..];
      forall i | 0 <= i < 9 && i != 5 ensures IsDigit(r[i]) {
        if i < 5 { assert r[i] == d[i]; } else { assert r[i] == d[i - 1]; }
      }
    } else {
      assert |r| < 9;
    }
  }

  /** Nothing typed gives an empty phone field; one or two digits give an
      open area-code parenthesis. */
  lemma MaskPhoneAreaCode(value: string)
    ensures |Digits(value)| == 0 ==> MaskPhone(value) == ""
    ensures 1 <= |Digits(value)| <= 2 ==> MaskPhone(value) == "(" + Digits(value)
  {
  }

  /** Ten digits (a landline number) keep five digits before the hyphen, as
      for a mobile number: (11) 23456-789, not (11) 2345-6789. */
  lemma MaskPhoneTenDigits(value: string)
    requires |Digits(value)| == 10
    ensures var r := MaskPhone(value); |r| == 14 && r[10] == '-' && r[9] != '-'
  {
  }

  /** The card number comes in groups of four digits separated by single
      spaces, with no space at either end. */
  lemma MaskCardNumberLayout(value: string)
    ensures var r := MaskCardNumber(value);
      && (forall i :: 0 <= i < |r| ==> (r[i] == ' ' <==> i % 5 == 4))
      && (forall i :: 0 <= i < |r| && i % 5 != 4 ==> IsDigit(r[i]))
      && (r != [] ==> r[|r| - 1] != ' ')
      && (|Digits(value)| >= CardDigits ==> |r| == 19)
  {
    var d := Prefix(Digits(value), CardDigits);
    KeptDigits(value, CardDigits);
    var g := GroupsOfFour(d);
    GroupsOfFourShape(d);
    TrimUnchanged(g);
    assert MaskCardNumber(value) == g;
    if |d| == CardDigits {
      assert |g| == 16 + 15 / 4;
    }
  }

  /** The expiry is MM/YY once three or more digits were typed. */
  lemma MaskCardExpiryLayout(value: string)
    ensures var r := MaskCardExpiry(value);
      (|Digits(value)| > 2 <==> (|r| > 2 && r[2] == '/'))
  {
  }

  // ------------------------------------------ masks against validators

  /** A masked phone passes the phone check exactly when at least ten digits
      were typed. */
  lemma MaskedPhoneValid(value: string)
    ensures ValidatePhone(MaskPhone(value)) <==> |Digits(value)| >= 10
  {
    MaskPhoneDigits(value);
  }

  /** Masking never changes the CPF verdict of an input of at most 11 digits;
      longer inputs are judged by their first 11 digits. */
  lemma MaskedCpfVerdict(value: string)
    ensures IsValidCpf(MaskCpf(value)) == IsValidCpf(Prefix(Digits(value), CpfDigits))
    ensures |Digits(value)| <= CpfDigits ==> IsValidCpf(MaskCpf(value)) == IsValidCpf(value)
  {
    MaskCpfDigits(value);
    CpfVerdictDependsOnlyOnDigits(MaskCpf(value));
    CpfVerdictDependsOnlyOnDigits(Prefix(Digits(value), CpfDigits));
    CpfVerdictDependsOnlyOnDigits(value);
    DigitsIdempotent(value);
  }
}
