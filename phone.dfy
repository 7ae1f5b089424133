/**
 * The WhatsApp / phone number rules of the profile page
 * (`validateWhatsAppNumber`, `formatWhatsAppNumber`) and of the notifications
 * page (`validatePhoneNumber`, the same rule as `validateWhatsAppNumber`).
 */
module PhoneNumber {
  import opened Js

  /** `number.replace(/\D/g, '')`: the digits of `number`, in order. */
  function DigitsOf(number: string): (r: string)
    ensures AllDigits(r) && |r| <= |number|
    ensures forall i :: 0 <= i < |r| ==> r[i] in number
    ensures forall i :: 0 <= i < |number| && IsDigit(number[i]) ==> number[i] in r
    ensures AllDigits(number) ==> r == number
  {
    if AllDigits(number) then FilterKeepsAll(number, IsDigit); Filter(number, IsDigit)
    else Filter(number, IsDigit)
  }

  /** Reading a number left to right: each character adds itself to the digits exactly
      when it is a digit. With DigitsOf("") == "" this fixes the digit string of every
      input. */
  lemma DigitsOfSnoc(a: string, c: char)
    ensures DigitsOf(a + [c]) == DigitsOf(a) + (if IsDigit(c) then [c] else [])
  {
    FilterConcat(a, [c], IsDigit);
    assert Filter([c], IsDigit) == (if IsDigit(c) then [c] else []) + Filter([c][1..], IsDigit);
  }

  /** A number is accepted when it holds 10 to 15 digits; every other character
      (spaces, dashes, a leading '+') is ignored. A string of digits alone is accepted
      exactly when its length is 10 to 15. */
  function IsValid(number: string): (ok: bool)
    ensures ok ==> 10 <= |number|
    ensures AllDigits(number) ==> (ok <==> 10 <= |number| <= 15)
  {
    10 <= |DigitsOf(number)| <= 15
  }

  /** A number written as two runs of digits around one separator (a space or a dash)
      has exactly the digits of the two runs, and is accepted exactly when they number
      10 to 15 together. */
  lemma SeparatedDigitsValid(a: string, c: char, b: string)
    requires AllDigits(a) && AllDigits(b) && !IsDigit(c)
    ensures DigitsOf(a + [c] + b) == a + b
    ensures IsValid(a + [c] + b) <==> 10 <= |a| + |b| <= 15
  {
    SeparatorsIgnored(a, c, b);
    assert AllDigits(a + b) by {
      forall i | 0 <= i < |a + b|
        ensures IsDigit((a + b)[i])
      {
        if i < |a| { assert (a + b)[i] == a[i]; } else { assert (a + b)[i] == b[i - |a|]; }
      }
    }
  }

  predicate IsDigitOrPlus(c: char) {
    IsDigit(c) || c == '+'
  }

  /** `number.replace(/[^\d+]/g, '')`, applied to every keystroke in the number field. */
  function Format(number: string): (r: string)
    ensures forall i :: 0 <= i < |r| ==> IsDigitOrPlus(r[i]) && r[i] in number
    ensures forall i :: 0 <= i < |number| && IsDigitOrPlus(number[i]) ==> number[i] in r
  {
    Filter(number, IsDigitOrPlus)
  }

  /** Formatting keeps the digits and '+' characters in their original order:
      formatting a concatenation is concatenating the formatted parts. */
  lemma FormatKeepsOrder(a: string, b: string)
    ensures Format(a + b) == Format(a) + Format(b)
  {
    FilterConcat(a, b, IsDigitOrPlus);
  }

  /** Formatting twice is formatting once. */
  lemma FormatIdempotent(number: string)
    ensures Format(Format(number)) == Format(number)
  {
    FilterIdempotent(number, IsDigitOrPlus);
  }

  /** Formatting never removes a digit, so it never changes whether a number is valid. */
  lemma FormatKeepsValidity(number: string)
    ensures DigitsOf(Format(number)) == DigitsOf(number)
    ensures IsValid(Format(number)) == IsValid(number)
  {
    FilterNarrow(number, IsDigitOrPlus, IsDigit);
  }

  /** Inserting a character that is not a digit never changes whether a number is valid. */
  lemma SeparatorsIgnored(a: string, c: char, b: string)
    requires !IsDigit(c)
    ensures DigitsOf(a + [c] + b) == DigitsOf(a + b)
    ensures IsValid(a + [c] + b) == IsValid(a + b)
  {
    FilterConcat(a + [c], b, IsDigit);
    FilterConcat(a, [c], IsDigit);
    FilterConcat(a, b, IsDigit);
  }
}
