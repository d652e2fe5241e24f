/** The number used in a WhatsApp link: the user's phone with every
    non-digit removed and the Brazilian country code "55" in front. */
module Phone {
  import opened Seqs
  import opened Text

  const CountryCode: string := "55"

  /** `phone.replace(/\D/g, '')` */
  function Digits(phone: string): (r: string)
    ensures forall c :: c in r <==> c in phone && IsDigit(c)
  {
    Filter(phone, IsDigit)
  }

  /** Cleaning keeps every digit, in order and with its multiplicity: it
      distributes over concatenation, keeps a single digit and drops a single
      non-digit. */
  lemma DigitsConcat(a: string, b: string)
    ensures Digits(a + b) == Digits(a) + Digits(b)
    ensures forall c :: Digits([c]) == if IsDigit(c) then [c] else []
  {
    FilterConcat(a, b, IsDigit);
  }

  /** The cleaned digits, prefixed with "55" unless they already start with it. */
  function WhatsAppNumber(phone: string): (r: string)
    ensures forall c :: c in r ==> IsDigit(c)
    ensures StartsWith(r, CountryCode)
    ensures var d := Digits(phone);
      |r| == |d| + (if StartsWith(d, CountryCode) then 0 else |CountryCode|) && r[|r| - |d|..] == d
  {
    var d := Digits(phone);
    if StartsWith(d, CountryCode) then d else CountryCode + d
  }

  /** Cleaning a string of digits changes nothing. */
  lemma DigitsOfDigits(s: string)
    requires forall c :: c in s ==> IsDigit(c)
    ensures Digits(s) == s
  {
    FilterKeepsAll(s, IsDigit);
  }

  /** Normalising an already normalised number changes nothing. */
  lemma WhatsAppNumberIdempotent(phone: string)
    ensures WhatsAppNumber(WhatsAppNumber(phone)) == WhatsAppNumber(phone)
  {
    var r := WhatsAppNumber(phone);
    DigitsOfDigits(r);
  }
}
