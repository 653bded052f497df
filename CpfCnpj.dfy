/**
 * Brazilian taxpayer numbers: the CPF (11 digits, individuals) and the CNPJ
 * (14 digits, companies). Each ends in two check digits computed with the
 * Receita Federal modulo-11 rule; `FormatCpfCnpj` inserts the usual
 * separators, and `CheckCpfCnpj` is the form-field verdict.
 */
module CpfCnpj {
  import opened Optional
  import opened Text

  // The modulo-11 weight tables, as the Receita Federal publishes them.
  const CpfFirstWeights: seq<int> := [10, 9, 8, 7, 6, 5, 4, 3, 2]
  const CpfSecondWeights: seq<int> := [11, 10, 9, 8, 7, 6, 5, 4, 3, 2]
  const CnpjFirstWeights: seq<int> := [5, 4, 3, 2, 9, 8, 7, 6, 5, 4, 3, 2]
  const CnpjSecondWeights: seq<int> := [6, 5, 4, 3, 2, 9, 8, 7, 6, 5, 4, 3, 2]

  /** The sum of each digit's value times the weight at the same position. */
  function WeightedSum(d: string, w: seq<int>): int
    requires |d| == |w| && AllDigits(d)
  {
    if d == [] then 0
    else WeightedSum(d[..|d| - 1], w[..|w| - 1]) + DigitValue(d[|d| - 1]) * w[|w| - 1]
  }

  /** CPF reduction: eleven minus the remainder, where 10 and 11 become 0. */
  function CpfCheckDigit(sum: int): (v: int)
    ensures 0 <= v <= 9
    ensures (v + sum) % 11 == 0 || (v == 0 && sum % 11 == 1)
  {
    var digit := 11 - sum % 11;
    if digit >= 10 then 0 else digit
  }

  /** CNPJ reduction: a remainder below 2 gives 0, any other r gives 11 - r. */
  function CnpjCheckDigit(sum: int): (v: int)
    ensures 0 <= v <= 9
    ensures (v + sum) % 11 == 0 || (v == 0 && sum % 11 == 1)
  {
    if sum % 11 < 2 then 0 else 11 - sum % 11
  }

  /** `/^(\d)\1+$/`: at least two characters, all equal to a leading digit. */
  predicate RepeatsOneDigit(n: string) {
    |n| >= 2 && IsDigit(n[0]) && forall i :: 1 <= i < |n| ==> n[i] == n[0]
  }

  /** On a digit string, the pattern means: two or more digits, all the same. */
  lemma RepeatsOneDigitMeans(n: string)
    requires AllDigits(n)
    ensures RepeatsOneDigit(n) <==> |n| >= 2 && forall i, j :: 0 <= i < j < |n| ==> n[i] == n[j]
  {
  }

  /** The CPF rule on the digits of `cpf`; every other character is ignored. */
  predicate IsValidCpf(cpf: string) {
    var n := DigitsOf(cpf);
    |n| == 11 && !RepeatsOneDigit(n) &&
    CpfCheckDigit(WeightedSum(n[..9], CpfFirstWeights)) == DigitValue(n[9]) &&
    CpfCheckDigit(WeightedSum(n[..10], CpfSecondWeights)) == DigitValue(n[10])
  }

  /** The CNPJ rule on the digits of `cnpj`; every other character is ignored. */
  predicate IsValidCnpj(cnpj: string) {
    var n := DigitsOf(cnpj);
    |n| == 14 && !RepeatsOneDigit(n) &&
    CnpjCheckDigit(WeightedSum(n[..12], CnpjFirstWeights)) == DigitValue(n[12]) &&
    CnpjCheckDigit(WeightedSum(n[..13], CnpjSecondWeights)) == DigitValue(n[13])
  }

  /** One more position of a weighted sum, taken from the front. */
  lemma WeightedSumStep(d: string, w: seq<int>, i: nat)
    requires |d| == |w| && AllDigits(d) && i < |d|
    ensures AllDigits(d[..i + 1]) && AllDigits(d[..i])
    ensures WeightedSum(d[..i + 1], w[..i + 1]) == WeightedSum(d[..i], w[..i]) + DigitValue(d[i]) * w[i]
  {
    assert d[..i + 1][..i] == d[..i];
    assert w[..i + 1][..i] == w[..i];
  }

  /** `validateCpf`: two accumulation loops, one per check digit. */
  method ValidateCpf(cpf: string) returns (ok: bool)
    ensures ok == IsValidCpf(cpf)
  {
    var numbers := DigitsOf(cpf);
    if |numbers| != 11 {
      return false;
    }
    if RepeatsOneDigit(numbers) {
      return false;
    }

    var sum := 0;
    for i := 0 to 9
      invariant sum == WeightedSum(numbers[..i], CpfFirstWeights[..i])
    {
      WeightedSumStep(numbers[..9], CpfFirstWeights, i);
      assert numbers[..9][..i] == numbers[..i] && numbers[..9][..i + 1] == numbers[..i + 1];
      sum := sum + DigitValue(numbers[i]) * (10 - i);
    }
    assert numbers[..9] == numbers[..9][..9] && CpfFirstWeights[..9] == CpfFirstWeights;
    var digit := 11 - sum % 11;
    if digit >= 10 {
      digit := 0;
    }
    if digit != DigitValue(numbers[9]) {
      return false;
    }

    sum := 0;
    for i := 0 to 10
      invariant sum == WeightedSum(numbers[..i], CpfSecondWeights[..i])
    {
      WeightedSumStep(numbers[..10], CpfSecondWeights, i);
      assert numbers[..10][..i] == numbers[..i] && numbers[..10][..i + 1] == numbers[..i + 1];
      sum := sum + DigitValue(numbers[i]) * (11 - i);
    }
    assert CpfSecondWeights[..10] == CpfSecondWeights;
    digit := 11 - sum % 11;
    if digit >= 10 {
      digit := 0;
    }
    if digit != DigitValue(numbers[10]) {
      return false;
    }
    return true;
  }

  /** The weight that follows `pos` in the CNPJ cycle 9, 8, ..., 2, 9, ... */
  function NextCnpjWeight(pos: int): int {
    if pos == 2 then 9 else pos - 1
  }

  /** Both CNPJ tables are the cycle 9..2 stepped backwards; the second is the first with 6 in front. */
  lemma CnpjWeightsCycle()
    ensures forall i :: 0 <= i < 11 ==> CnpjFirstWeights[i + 1] == NextCnpjWeight(CnpjFirstWeights[i])
    ensures forall i :: 0 <= i < 12 ==> CnpjSecondWeights[i + 1] == NextCnpjWeight(CnpjSecondWeights[i])
  {
  }

  /** `validateCnpj`: two accumulation loops stepping the weight `pos` through the cycle. */
  method ValidateCnpj(cnpj: string) returns (ok: bool)
    ensures ok == IsValidCnpj(cnpj)
  {
    var numbers := DigitsOf(cnpj);
    if |numbers| != 14 {
      return false;
    }
    if RepeatsOneDigit(numbers) {
      return false;
    }
    CnpjWeightsCycle();

    var sum := 0;
    var pos := 5;
    for i := 0 to 12
      invariant sum == WeightedSum(numbers[..i], CnpjFirstWeights[..i])
      invariant i < 12 ==> pos == CnpjFirstWeights[i]
    {
      WeightedSumStep(numbers[..12], CnpjFirstWeights, i);
      assert numbers[..12][..i] == numbers[..i] && numbers[..12][..i + 1] == numbers[..i + 1];
      sum := sum + DigitValue(numbers[i]) * pos;
      pos := if pos == 2 then 9 else pos - 1;
    }
    assert CnpjFirstWeights[..12] == CnpjFirstWeights;
    var digit := if sum % 11 < 2 then 0 else 11 - sum % 11;
    if digit != DigitValue(numbers[12]) {
      return false;
    }

    sum := 0;
    pos := 6;
    for i := 0 to 13
      invariant sum == WeightedSum(numbers[..i], CnpjSecondWeights[..i])
      invariant i < 13 ==> pos == CnpjSecondWeights[i]
    {
      WeightedSumStep(numbers[..13], CnpjSecondWeights, i);
      assert numbers[..13][..i] == numbers[..i] && numbers[..13][..i + 1] == numbers[..i + 1];
      sum := sum + DigitValue(numbers[i]) * pos;
      pos := if pos == 2 then 9 else pos - 1;
    }
    assert CnpjSecondWeights[..13] == CnpjSecondWeights;
    digit := if sum % 11 < 2 then 0 else 11 - sum % 11;
    if digit != DigitValue(numbers[13]) {
      return false;
    }
    return true;
  }

  lemma DigitValueInjective(a: char, b: char)
    requires IsDigit(a) && IsDigit(b) && DigitValue(a) == DigitValue(b)
    ensures a == b
  {
  }

  /** A valid CPF is fixed by its first nine digits: the two check digits admit no alternative. */
  lemma {:induction false} CpfDeterminedByBase(a: string, b: string)
    requires AllDigits(a) && AllDigits(b)
    requires IsValidCpf(a) && IsValidCpf(b) && a[..9] == b[..9]
    ensures a == b
  {
    assert DigitsOf(a) == a && DigitsOf(b) == b;
    DigitValueInjective(a[9], b[9]);
    assert a[..10] == a[..9] + [a[9]] && b[..10] == b[..9] + [b[9]];
    DigitValueInjective(a[10], b[10]);
    assert a == a[..10] + [a[10]] && b == b[..10] + [b[10]];
  }

  /** A valid CNPJ is fixed by its first twelve digits. */
  lemma {:induction false} CnpjDeterminedByBase(a: string, b: string)
    requires AllDigits(a) && AllDigits(b)
    requires IsValidCnpj(a) && IsValidCnpj(b) && a[..12] == b[..12]
    ensures a == b
  {
    assert DigitsOf(a) == a && DigitsOf(b) == b;
    DigitValueInjective(a[12], b[12]);
    assert a[..13] == a[..12] + [a[12]] && b[..13] == b[..12] + [b[12]];
    DigitValueInjective(a[13], b[13]);
    assert a == a[..13] + [a[13]] && b == b[..13] + [b[13]];
  }

  // ----- validateCpfCnpj -----

  /** The field verdict: valid, or invalid with the message shown to the user. */
  datatype Verdict = Verdict(valid: bool, message: Option<string>)

  const MsgRequired := "Campo obrigatório"
  const MsgBadCpf := "CPF inválido"
  const MsgBadCnpj := "CNPJ inválido"
  const MsgBadLength := "Digite um CPF (11 dígitos) ou CNPJ (14 dígitos)"

  /** `validateCpfCnpj`: the digit count selects the rule. */
  function CheckCpfCnpj(value: string): (v: Verdict)
    ensures v.valid <==> IsValidCpf(value) || IsValidCnpj(value)
    ensures v.valid <==> v.message == None
    ensures DigitsOf(value) == [] ==> v.message == Some(MsgRequired)
    ensures |DigitsOf(value)| == 11 && !v.valid ==> v.message == Some(MsgBadCpf)
    ensures |DigitsOf(value)| == 14 && !v.valid ==> v.message == Some(MsgBadCnpj)
    ensures |DigitsOf(value)| !in {0, 11, 14} ==> v.message == Some(MsgBadLength)
  {
    var numbers := DigitsOf(value);
    if numbers == [] then Verdict(false, Some(MsgRequired))
    else if |numbers| == 11 then
      (if !IsValidCpf(value) then Verdict(false, Some(MsgBadCpf)) else Verdict(true, None))
    else if |numbers| == 14 then
      (if !IsValidCnpj(value) then Verdict(false, Some(MsgBadCnpj)) else Verdict(true, None))
    else Verdict(false, Some(MsgBadLength))
  }

  // ----- formatCpfCnpj -----

  /** `len` digits start at position `p` of `s`. */
  predicate DigitRunAt(s: string, p: nat, len: nat) {
    p + len <= |s| && forall j :: p <= j < p + len ==> IsDigit(s[j])
  }

  /** The leftmost position at or after `from` where a run of `len` digits starts. */
  function FirstDigitRun(s: string, len: nat, from: nat): (r: Option<nat>)
    requires len >= 1
    ensures r.Some? ==> from <= r.value && DigitRunAt(s, r.value, len)
    ensures r.Some? ==> forall q :: from <= q < r.value ==> !DigitRunAt(s, q, len)
    ensures r.None? ==> forall q :: from <= q ==> !DigitRunAt(s, q, len)
    decreases |s| - from
  {
    if from + len > |s| then None
    else if DigitRunAt(s, from, len) then Some(from)
    else FirstDigitRun(s, len, from + 1)
  }

  /** When `p` is the first start of a digit run, the search finds exactly `p`. */
  lemma FirstDigitRunIs(s: string, len: nat, p: nat)
    requires len >= 1 && DigitRunAt(s, p, len)
    requires forall q :: 0 <= q < p ==> !DigitRunAt(s, q, len)
    ensures FirstDigitRun(s, len, 0) == Some(p)
  {
  }

  /** `s.replace(/(\d{k})(\d)/, '$1' + sep + '$2')`: in the first run of k+1 digits, `sep` goes after the first k. */
  function SeparateAfterRun(s: string, k: nat, sep: char): (r: string)
    requires !IsDigit(sep)
    ensures DigitsOf(r) == DigitsOf(s)
  {
    match FirstDigitRun(s, k + 1, 0)
    case None => s
    case Some(p) =>
      DigitsOfInsert(s, p + k, sep);
      s[..p + k] + [sep] + s[p + k..]
  }

  /**
   * `s.replace(/(\d{k})(\d{1,2})$/, '$1' + sep + '$2')`: the leftmost match
   * is a trailing run of k+2 digits if there is one, else of k+1 digits.
   */
  function SeparateTail(s: string, k: nat, sep: char): (r: string)
    requires !IsDigit(sep)
    ensures DigitsOf(r) == DigitsOf(s)
  {
    if |s| >= k + 2 && DigitRunAt(s, |s| - (k + 2), k + 2) then
      DigitsOfInsert(s, |s| - 2, sep);
      s[..|s| - 2] + [sep] + s[|s| - 2..]
    else if |s| >= k + 1 && DigitRunAt(s, |s| - (k + 1), k + 1) then
      DigitsOfInsert(s, |s| - 1, sep);
      s[..|s| - 1] + [sep] + s[|s| - 1..]
    else s
  }

  /** `formatCpfCnpj`: separators only, CPF style up to 11 digits and CNPJ style beyond. */
  function FormatCpfCnpj(value: string): (r: string)
    ensures DigitsOf(r) == DigitsOf(value)
  {
    var numbers := DigitsOf(value);
    if |numbers| <= 11 then
      SeparateTail(SeparateAfterRun(SeparateAfterRun(numbers, 3, '.'), 3, '.'), 3, '-')
    else
      SeparateTail(SeparateAfterRun(SeparateAfterRun(SeparateAfterRun(numbers, 2, '.'), 3, '.'), 3, '/'), 4, '-')
  }

  /** The `/(\d{k})(\d)/` replacement once the first run of k+1 digits is known to start at `p`. */
  lemma SeparateAfterRunAt(s: string, k: nat, sep: char, p: nat)
    requires !IsDigit(sep) && FirstDigitRun(s, k + 1, 0) == Some(p)
    ensures SeparateAfterRun(s, k, sep) == s[..p + k] + [sep] + s[p + k..]
  {
  }

  lemma CpfFirstDot(n: string)
    requires |n| == 11 && AllDigits(n)
    ensures SeparateAfterRun(n, 3, '.') == n[..3] + "." + n[3..]
  {
    FirstDigitRunIs(n, 4, 0);
    SeparateAfterRunAt(n, 3, '.', 0);
  }

  lemma CpfSecondDot(n: string)
    requires |n| == 11 && AllDigits(n)
    ensures SeparateAfterRun(n[..3] + "." + n[3..], 3, '.') == n[..3] + "." + n[3..6] + "." + n[6..]
  {
    var s1 := n[..3] + "." + n[3..];
    forall q | 0 <= q < 4 ensures !DigitRunAt(s1, q, 4) {
      assert s1[3] == '.';
    }
    forall j | 4 <= j < 8 ensures IsDigit(s1[j]) {
      assert s1[j] == n[j - 1];
    }
    FirstDigitRunIs(s1, 4, 4);
    SeparateAfterRunAt(s1, 3, '.', 4);
    assert s1[..7] == n[..3] + "." + n[3..6];
    assert s1[7..] == n[6..];
  }

  lemma CpfHyphen(n: string)
    requires |n| == 11 && AllDigits(n)
    ensures SeparateTail(n[..3] + "." + n[3..6] + "." + n[6..], 3, '-')
         == n[..3] + "." + n[3..6] + "." + n[6..9] + "-" + n[9..]
  {
    var s2 := n[..3] + "." + n[3..6] + "." + n[6..];
    forall j | 8 <= j < 13 ensures IsDigit(s2[j]) {
      assert s2[j] == n[j - 2];
    }
    assert DigitRunAt(s2, 8, 5);
    assert s2[..11] == n[..3] + "." + n[3..6] + "." + n[6..9];
    assert s2[11..] == n[9..];
  }

  /** Eleven digits come out as XXX.XXX.XXX-XX. */
  lemma FormatCpfShape(value: string)
    requires |DigitsOf(value)| == 11
    ensures var n := DigitsOf(value);
      FormatCpfCnpj(value) == n[..3] + "." + n[3..6] + "." + n[6..9] + "-" + n[9..]
  {
    var n := DigitsOf(value);
    CpfFirstDot(n);
    CpfSecondDot(n);
    CpfHyphen(n);
  }

  lemma CnpjFirstDot(n: string)
    requires |n| == 14 && AllDigits(n)
    ensures SeparateAfterRun(n, 2, '.') == n[..2] + "." + n[2..]
  {
    FirstDigitRunIs(n, 3, 0);
    SeparateAfterRunAt(n, 2, '.', 0);
  }

  lemma CnpjSecondDot(n: string)
    requires |n| == 14 && AllDigits(n)
    ensures SeparateAfterRun(n[..2] + "." + n[2..], 3, '.') == n[..2] + "." + n[2..5] + "." + n[5..]
  {
    var s1 := n[..2] + "." + n[2..];
    forall q | 0 <= q < 3 ensures !DigitRunAt(s1, q, 4) {
      assert s1[2] == '.';
    }
    forall j | 3 <= j < 7 ensures IsDigit(s1[j]) {
      assert s1[j] == n[j - 1];
    }
    FirstDigitRunIs(s1, 4, 3);
    SeparateAfterRunAt(s1, 3, '.', 3);
    assert s1[..6] == n[..2] + "." + n[2..5];
    assert s1[6..] == n[5..];
  }

  lemma CnpjSlash(n: string)
    requires |n| == 14 && AllDigits(n)
    ensures SeparateAfterRun(n[..2] + "." + n[2..5] + "." + n[5..], 3, '/')
         == n[..2] + "." + n[2..5] + "." + n[5..8] + "/" + n[8..]
  {
    var s2 := n[..2] + "." + n[2..5] + "." + n[5..];
    forall q | 0 <= q < 7 ensures !DigitRunAt(s2, q, 4) {
      if q <= 2 { assert s2[2] == '.'; } else { assert s2[6] == '.'; }
    }
    forall j | 7 <= j < 11 ensures IsDigit(s2[j]) {
      assert s2[j] == n[j - 2];
    }
    FirstDigitRunIs(s2, 4, 7);
    SeparateAfterRunAt(s2, 3, '/', 7);
    assert s2[..10] == n[..2] + "." + n[2..5] + "." + n[5..8];
    assert s2[10..] == n[8..];
  }

  lemma CnpjHyphen(n: string)
    requires |n| == 14 && AllDigits(n)
    ensures SeparateTail(n[..2] + "." + n[2..5] + "." + n[5..8] + "/" + n[8..], 4, '-')
         == n[..2] + "." + n[2..5] + "." + n[5..8] + "/" + n[8..12] + "-" + n[12..]
  {
    var s3 := n[..2] + "." + n[2..5] + "." + n[5..8] + "/" + n[8..];
    forall j | 11 <= j < 17 ensures IsDigit(s3[j]) {
      assert s3[j] == n[j - 3];
    }
    assert DigitRunAt(s3, 11, 6);
    assert s3[..15] == n[..2] + "." + n[2..5] + "." + n[5..8] + "/" + n[8..12];
    assert s3[15..] == n[12..];
  }

  /** Fourteen digits come out as XX.XXX.XXX/XXXX-XX. */
  lemma FormatCnpjShape(value: string)
    requires |DigitsOf(value)| == 14
    ensures var n := DigitsOf(value);
      FormatCpfCnpj(value) == n[..2] + "." + n[2..5] + "." + n[5..8] + "/" + n[8..12] + "-" + n[12..]
  {
    var n := DigitsOf(value);
    CnpjFirstDot(n);
    CnpjSecondDot(n);
    CnpjSlash(n);
    CnpjHyphen(n);
  }

  /** Formatting never changes whether a value is a valid CPF or CNPJ, nor the field verdict. */
  lemma FormatKeepsValidity(value: string)
    ensures IsValidCpf(FormatCpfCnpj(value)) == IsValidCpf(value)
    ensures IsValidCnpj(FormatCpfCnpj(value)) == IsValidCnpj(value)
    ensures CheckCpfCnpj(FormatCpfCnpj(value)) == CheckCpfCnpj(value)
  {
  }
}
