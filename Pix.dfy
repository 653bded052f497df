/**
 * PIX keys (the Banco Central instant-payment scheme): an e-mail address, a
 * phone number, a CPF, a CNPJ or a 32-hex-digit random key. The validators
 * below are the character-level reading of the regular expressions used by
 * the key form; `DetectPixKeyType` tries them in a fixed order.
 */
module Pix {
  import opened Optional
  import opened Text
  import opened CpfCnpj

  datatype PixKeyType = Email | Phone | Cpf | Cnpj | Random | Invalid

  // ----- validateEmail -----

  /** The class `[^\s@]` of the e-mail pattern. */
  predicate EmailChar(c: char) {
    !IsWhitespace(c) && c != '@'
  }

  /**
   * `/^[^\s@]+@[^\s@]+\.[^\s@]+$/` read as a statement about positions: a
   * literal '@' at `at`, a literal '.' at `dot`, each of the three runs
   * non-empty, and every other character in `[^\s@]`.
   */
  ghost predicate MatchesEmailPattern(s: string) {
    exists at: nat, dot: nat ::
      0 < at && at + 1 < dot && dot + 1 < |s| && s[at] == '@' && s[dot] == '.' &&
      forall j :: 0 <= j < |s| && j != at ==> EmailChar(s[j])
  }

  /** The position of the first `c` in `s`. */
  function FirstIndex(s: string, c: char): (r: Option<nat>)
    ensures r.Some? ==> r.value < |s| && s[r.value] == c && c !in s[..r.value]
    ensures r.None? ==> c !in s
  {
    if s == [] then None
    else if s[0] == c then Some(0)
    else match FirstIndex(s[1..], c)
      case None => None
      case Some(i) =>
        assert s[..i + 1] == [s[0]] + s[1..][..i];
        Some(i + 1)
  }

  predicate NoWhitespace(s: string) {
    forall j :: 0 <= j < |s| ==> !IsWhitespace(s[j])
  }

  /** A '.' that is neither the first nor the last character. */
  predicate HasInteriorDot(d: string) {
    exists k :: 0 < k < |d| - 1 && d[k] == '.'
  }

  /**
   * `validateEmail`: no whitespace, exactly one '@' with something before
   * it, and a '.' inside what follows it.
   */
  function ValidateEmail(email: string): (r: bool)
    ensures r <==> MatchesEmailPattern(email)
  {
    EmailPatternSplit(email);
    match FirstIndex(email, '@')
    case None => false
    case Some(at) =>
      at > 0 && NoWhitespace(email) && '@' !in email[at + 1..] && HasInteriorDot(email[at + 1..])
  }

  lemma EmailPatternSplit(email: string)
    ensures MatchesEmailPattern(email) <==>
      match FirstIndex(email, '@')
      case None => false
      case Some(at) =>
        at > 0 && NoWhitespace(email) && '@' !in email[at + 1..] && HasInteriorDot(email[at + 1..])
  {
    match FirstIndex(email, '@')
    case None =>
    case Some(at) =>
      var domain := email[at + 1..];
      if MatchesEmailPattern(email) {
        var at', dot: nat :| 0 < at' && at' + 1 < dot && dot + 1 < |email| && email[at'] == '@' && email[dot] == '.' &&
          forall j :: 0 <= j < |email| && j != at' ==> EmailChar(email[j]);
        assert at == at';
        forall j | 0 <= j < |email| ensures !IsWhitespace(email[j]) {
          if j != at { assert EmailChar(email[j]); }
        }
        assert '@' !in domain by {
          forall k | 0 <= k < |domain| ensures domain[k] != '@' {
            assert domain[k] == email[at + 1 + k];
            assert EmailChar(email[at + 1 + k]);
          }
        }
        assert domain[dot - at - 1] == '.';
      }
      if at > 0 && NoWhitespace(email) && '@' !in domain && HasInteriorDot(domain) {
        var k :| 0 < k < |domain| - 1 && domain[k] == '.';
        forall j | 0 <= j < |email| && j != at ensures EmailChar(email[j]) {
          if j < at {
            assert email[j] == email[..at][j];
          } else {
            assert email[j] == domain[j - at - 1];
          }
        }
        assert email[at + 1 + k] == '.';
      }
  }

  // ----- validatePhone -----

  /** `parseInt` of two digit characters. */
  function TwoDigitValue(a: char, b: char): (v: nat)
    requires IsDigit(a) && IsDigit(b)
    ensures v <= 99
  {
    10 * DigitValue(a) + DigitValue(b)
  }

  predicate StartsWith55(n: string) {
    |n| >= 2 && n[0] == '5' && n[1] == '5'
  }

  /** `validatePhone`, branch for branch. */
  function ValidatePhone(phone: string): (r: bool)
    ensures var n := DigitsOf(phone);
      r <==> (StartsWith55(n) && 12 <= |n| <= 13 && TwoDigitValue(n[2], n[3]) >= 11) ||
             (!StartsWith55(n) && |n| == 11 && TwoDigitValue(n[0], n[1]) >= 11)
    // the branch for a ten-digit local number can never accept
    ensures |DigitsOf(phone)| == 10 ==> !r
    // an eleven-digit number beginning 55 is read as a country code and refused
    ensures |DigitsOf(phone)| == 11 && StartsWith55(DigitsOf(phone)) ==> !r
  {
    var numbers := DigitsOf(phone);
    if |numbers| < 11 || |numbers| > 13 then false
    else if StartsWith55(numbers) then
      var withoutCountryCode := numbers[2..];
      if |withoutCountryCode| != 10 && |withoutCountryCode| != 11 then false
      else
        var ddd := TwoDigitValue(withoutCountryCode[0], withoutCountryCode[1]);
        !(ddd < 11 || ddd > 99)
    else if |numbers| != 10 && |numbers| != 11 then false
    else
      var ddd := TwoDigitValue(numbers[0], numbers[1]);
      !(ddd < 11 || ddd > 99)
  }

  // ----- validateRandomKey -----

  /** `[a-f0-9]` under the `i` flag. */
  predicate IsHexDigit(c: char) {
    ('0' <= c <= '9') || ('a' <= c <= 'f') || ('A' <= c <= 'F')
  }

  /** The class `[-\s]` that is stripped before the random-key test. */
  predicate IsKeySeparator(c: char) {
    c == '-' || IsWhitespace(c)
  }

  /** `key.replace(/[-\s]/g, '')`. */
  function StripKeySeparators(key: string): (r: string)
    ensures forall j :: 0 <= j < |r| ==> !IsKeySeparator(r[j])
  {
    if key == [] then []
    else if IsKeySeparator(key[0]) then StripKeySeparators(key[1..])
    else [key[0]] + StripKeySeparators(key[1..])
  }

  /** How many characters of `key` are not separators. */
  function KeptCount(key: string): nat {
    if key == [] then 0
    else (if IsKeySeparator(key[0]) then 0 else 1) + KeptCount(key[1..])
  }

  predicate AllHex(s: string) {
    forall j :: 0 <= j < |s| ==> IsHexDigit(s[j])
  }

  /** Every character of `key` that survives the stripping is hexadecimal. */
  predicate KeptAreHex(key: string) {
    forall j :: 0 <= j < |key| && !IsKeySeparator(key[j]) ==> IsHexDigit(key[j])
  }

  lemma KeptAreHexCons(key: string)
    requires key != []
    ensures KeptAreHex(key) <==> (IsKeySeparator(key[0]) || IsHexDigit(key[0])) && KeptAreHex(key[1..])
  {
    if (IsKeySeparator(key[0]) || IsHexDigit(key[0])) && KeptAreHex(key[1..]) {
      forall j | 0 < j < |key| && !IsKeySeparator(key[j]) ensures IsHexDigit(key[j]) {
        assert key[j] == key[1..][j - 1];
      }
    }
    if KeptAreHex(key) {
      forall j | 0 <= j < |key[1..]| && !IsKeySeparator(key[1..][j]) ensures IsHexDigit(key[1..][j]) {
        assert key[1..][j] == key[j + 1];
      }
    }
  }

  lemma AllHexCons(c: char, r: string)
    ensures AllHex([c] + r) <==> IsHexDigit(c) && AllHex(r)
  {
    if IsHexDigit(c) && AllHex(r) {
      forall j | 0 < j < |[c] + r| ensures IsHexDigit(([c] + r)[j]) {
        assert ([c] + r)[j] == r[j - 1];
      }
    }
    if AllHex([c] + r) {
      assert ([c] + r)[0] == c;
      forall j | 0 <= j < |r| ensures IsHexDigit(r[j]) {
        assert ([c] + r)[j + 1] == r[j];
      }
    }
  }

  /**
   * The stripped key holds exactly the characters of `key` that are not
   * separators, as many of them as `key` has.
   */
  lemma {:induction false} StripKeySeparatorsFacts(key: string)
    ensures forall c :: c in StripKeySeparators(key) <==> c in key && !IsKeySeparator(c)
    ensures |StripKeySeparators(key)| == KeptCount(key)
    ensures AllHex(StripKeySeparators(key)) <==> KeptAreHex(key)
  {
    if key != [] {
      StripKeySeparatorsFacts(key[1..]);
      assert key == [key[0]] + key[1..];
      KeptAreHexCons(key);
      if !IsKeySeparator(key[0]) {
        AllHexCons(key[0], StripKeySeparators(key[1..]));
      }
    }
  }

  /**
   * `validateRandomKey`: stated on the key as typed, exactly 32 of its
   * characters are not '-' or whitespace, and every one of those is hexadecimal.
   */
  function ValidateRandomKey(key: string): (r: bool)
    ensures r <==> KeptCount(key) == 32 && KeptAreHex(key)
  {
    StripKeySeparatorsFacts(key);
    var cleanKey := StripKeySeparators(key);
    |cleanKey| == 32 && AllHex(cleanKey)
  }

  lemma {:induction false} StripKeySeparatorsAppend(a: string, b: string)
    ensures StripKeySeparators(a + b) == StripKeySeparators(a) + StripKeySeparators(b)
  {
    if a == [] {
      assert a + b == b;
    } else {
      assert (a + b)[1..] == a[1..] + b;
      StripKeySeparatorsAppend(a[1..], b);
    }
  }

  /** Hyphens and whitespace anywhere in a random key are ignored. */
  lemma RandomKeyIgnoresSeparator(a: string, sep: char, b: string)
    requires IsKeySeparator(sep)
    ensures ValidateRandomKey(a + [sep] + b) == ValidateRandomKey(a + b)
  {
    StripKeySeparatorsAppend(a + [sep], b);
    StripKeySeparatorsAppend(a, [sep]);
    StripKeySeparatorsAppend(a, b);
    assert StripKeySeparators([sep]) == [];
    assert StripKeySeparators(a + [sep]) == StripKeySeparators(a);
  }

  // ----- detectPixKeyType / validatePixKey / getPixKeyTypeLabel -----

  /** `!key || key.trim().length === 0`. */
  predicate IsBlank(key: string) {
    key == [] || |Trim(key)| == 0
  }

  /** The blank guard refuses exactly the keys made only of whitespace, the empty key included. */
  lemma IsBlankMeansAllWhitespace(key: string)
    ensures IsBlank(key) <==> AllWhitespace(key)
  {
  }

  /** `detectPixKeyType`: e-mail, phone, CPF, CNPJ, random key, first match wins. */
  function DetectPixKeyType(key: string): (t: PixKeyType)
    ensures IsBlank(key) ==> t == Invalid
    ensures t == Email ==> ValidateEmail(Trim(key))
    ensures t == Phone ==> ValidatePhone(Trim(key)) && !ValidateEmail(Trim(key))
    ensures t == Cpf ==> IsValidCpf(Trim(key)) && !ValidatePhone(Trim(key)) && !ValidateEmail(Trim(key))
    ensures t == Cnpj ==> IsValidCnpj(Trim(key)) && !ValidateEmail(Trim(key))
    ensures t == Random ==>
      ValidateRandomKey(Trim(key)) && !IsValidCpf(Trim(key)) && !IsValidCnpj(Trim(key)) &&
      !ValidatePhone(Trim(key)) && !ValidateEmail(Trim(key))
    ensures t == Invalid && !IsBlank(key) ==>
      (var k := Trim(key);
       !ValidateEmail(k) && !ValidatePhone(k) && !IsValidCpf(k) && !IsValidCnpj(k) && !ValidateRandomKey(k))
  {
    if key == [] || |Trim(key)| == 0 then Invalid
    else
      var trimmedKey := Trim(key);
      if ValidateEmail(trimmedKey) then Email
      else if ValidatePhone(trimmedKey) then Phone
      else
        var numbers := DigitsOf(trimmedKey);
        if |numbers| == 11 && IsValidCpf(trimmedKey) then Cpf
        else if |numbers| == 14 && IsValidCnpj(trimmedKey) then Cnpj
        else if ValidateRandomKey(trimmedKey) then Random
        else Invalid
  }

  /** A string without '@' is never an e-mail key. */
  lemma NoAtNoEmail(s: string)
    requires '@' !in s
    ensures !ValidateEmail(s)
  {
  }

  /**
   * Because the phone test runs first, a key is classified CPF only when its
   * first two digits are below 11 or are 55; every other valid CPF is a phone.
   */
  lemma CpfKeyPrefix(key: string)
    requires DetectPixKeyType(key) == Cpf
    ensures var n := DigitsOf(Trim(key));
      |n| == 11 && (StartsWith55(n) || TwoDigitValue(n[0], n[1]) < 11)
  {
  }

  lemma ValidCpfReadAsPhone(key: string)
    requires '@' !in Trim(key) && IsValidCpf(Trim(key))
    requires var n := DigitsOf(Trim(key)); !StartsWith55(n) && TwoDigitValue(n[0], n[1]) >= 11
    ensures DetectPixKeyType(key) == Phone
  {
    NoAtNoEmail(Trim(key));
  }

  /** The result of `validatePixKey`. */
  datatype KeyCheck = KeyCheck(valid: bool, keyType: PixKeyType, message: string)

  /** `validatePixKey`: valid exactly when a type was detected, with that type's message. */
  function ValidatePixKey(key: string): (r: KeyCheck)
    ensures r.valid <==> DetectPixKeyType(key) != Invalid
    ensures r.keyType == DetectPixKeyType(key)
    ensures IsBlank(key) ==> r.message == "Digite uma chave PIX"
    ensures !IsBlank(key) && !r.valid ==>
      r.message == "Chave PIX inválida. Use email, telefone, CPF, CNPJ ou chave aleatória"
  {
    if key == [] || |Trim(key)| == 0 then KeyCheck(false, Invalid, "Digite uma chave PIX")
    else
      match DetectPixKeyType(key)
      case Email => KeyCheck(true, Email, "Email válido")
      case Phone => KeyCheck(true, Phone, "Telefone válido")
      case Cpf => KeyCheck(true, Cpf, "CPF válido")
      case Cnpj => KeyCheck(true, Cnpj, "CNPJ válido")
      case Random => KeyCheck(true, Random, "Chave aleatória válida")
      case Invalid => KeyCheck(false, Invalid, "Chave PIX inválida. Use email, telefone, CPF, CNPJ ou chave aleatória")
  }

  /** `getPixKeyTypeLabel`. */
  function PixKeyTypeLabel(t: PixKeyType): (name: string)
    ensures name != []
  {
    match t
    case Email => "Email"
    case Phone => "Telefone"
    case Cpf => "CPF"
    case Cnpj => "CNPJ"
    case Random => "Chave Aleatória"
    case Invalid => "Inválida"
  }

  /** No two key types share a label. */
  lemma PixKeyTypeLabelsDistinct(a: PixKeyType, b: PixKeyType)
    requires a != b
    ensures PixKeyTypeLabel(a) != PixKeyTypeLabel(b)
  {
  }

  // ----- formatPixPhone -----

  /** `formatPixPhone`: separators around the digits, chosen by digit count. */
  function FormatPixPhone(value: string): (r: string)
    ensures var n := DigitsOf(value);
      !(StartsWith55(n) && |n| >= 12) && |n| != 11 && |n| != 10 ==> r == value
  {
    var numbers := DigitsOf(value);
    if StartsWith55(numbers) && |numbers| >= 12 then
      var countryCode := numbers[..2];
      var ddd := numbers[2..4];
      var firstPart := numbers[4..|numbers| - 4];
      var lastPart := numbers[|numbers| - 4..];
      "+" + countryCode + " (" + ddd + ") " + firstPart + "-" + lastPart
    else if |numbers| == 11 then
      // `/(\d{2})(\d{5})(\d{4})/` on exactly eleven digits matches all of them
      "(" + numbers[..2] + ") " + numbers[2..7] + "-" + numbers[7..]
    else if |numbers| == 10 then
      // `/(\d{2})(\d{4})(\d{4})/` on exactly ten digits matches all of them
      "(" + numbers[..2] + ") " + numbers[2..6] + "-" + numbers[6..]
    else value
  }

  /** `pre + group + post` where `pre` and `post` are literal separators. */
  lemma DigitsOfGroup(acc: string, sep: string, group: string)
    requires DigitsOf(sep) == [] && AllDigits(group)
    ensures DigitsOf(acc + sep + group) == DigitsOf(acc) + group
  {
    DigitsOfAppend(acc, sep);
    DigitsOfAppend(acc + sep, group);
  }

  /** Four digit groups, each after a separator without digits, carry exactly their digits. */
  lemma FourGroupsDigits(p1: string, a: string, p2: string, b: string, p3: string, c: string, p4: string, d: string)
    requires DigitsOf(p1) == [] && DigitsOf(p2) == [] && DigitsOf(p3) == [] && DigitsOf(p4) == []
    requires AllDigits(a) && AllDigits(b) && AllDigits(c) && AllDigits(d)
    ensures DigitsOf(p1 + a + p2 + b + p3 + c + p4 + d) == a + b + c + d
  {
    var s1 := p1 + a;
    DigitsOfAppend(p1, a);
    var s2 := s1 + p2 + b;
    DigitsOfGroup(s1, p2, b);
    var s3 := s2 + p3 + c;
    DigitsOfGroup(s2, p3, c);
    DigitsOfGroup(s3, p4, d);
  }

  lemma InternationalLayoutDigits(n: string)
    requires AllDigits(n) && |n| >= 12
    ensures DigitsOf("+" + n[..2] + " (" + n[2..4] + ") " + n[4..|n| - 4] + "-" + n[|n| - 4..]) == n
  {
    assert DigitsOf("+") == [] && DigitsOf(" (") == [] && DigitsOf(") ") == [] && DigitsOf("-") == [];
    FourGroupsDigits("+", n[..2], " (", n[2..4], ") ", n[4..|n| - 4], "-", n[|n| - 4..]);
    assert n[..2] + n[2..4] + n[4..|n| - 4] + n[|n| - 4..] == n;
  }

  lemma LocalLayoutDigits(n: string, mid: nat)
    requires AllDigits(n) && 2 <= mid <= |n|
    ensures DigitsOf("(" + n[..2] + ") " + n[2..mid] + "-" + n[mid..]) == n
  {
    assert DigitsOf("(") == [] && DigitsOf(") ") == [] && DigitsOf("-") == [];
    DigitsOfGroup("", "(", n[..2]);
    assert "" + "(" + n[..2] == "(" + n[..2];
    DigitsOfGroup("(" + n[..2], ") ", n[2..mid]);
    DigitsOfGroup("(" + n[..2] + ") " + n[2..mid], "-", n[mid..]);
    assert n[..2] + n[2..mid] + n[mid..] == n;
  }

  /** The formatter only adds separators: its output has exactly the digits of its input. */
  lemma FormatPixPhoneDigits(value: string)
    ensures DigitsOf(FormatPixPhone(value)) == DigitsOf(value)
  {
    var n := DigitsOf(value);
    if StartsWith55(n) && |n| >= 12 {
      InternationalLayoutDigits(n);
    } else if |n| == 11 {
      LocalLayoutDigits(n, 7);
    } else if |n| == 10 {
      LocalLayoutDigits(n, 6);
    }
  }

  /** Formatting a phone key never changes whether it is a valid phone. */
  lemma FormatPixPhoneKeepsValidity(value: string)
    ensures ValidatePhone(FormatPixPhone(value)) == ValidatePhone(value)
  {
    FormatPixPhoneDigits(value);
  }
}
