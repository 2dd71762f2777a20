/**
 The mode selector: the optional `mode` form entry picks one of the six
 optimization presets; anything unusable falls back to 6, the most thorough.
 */
module Mode {
  import opened Wrappers
  import opened Form

  /** The only texts the selector accepts. */
  const PresetTexts: set<string> := {"1", "2", "3", "4", "5", "6"}

  const DefaultMode: nat := 6

  predicate IsDigit(c: char)
  {
    '0' <= c <= '9'
  }

  function DigitValue(c: char): nat
    requires IsDigit(c)
  {
    (c as int - '0' as int) as nat
  }

  /** The value of a string of decimal digits, most significant first. */
  function DecimalValue(digits: string): nat
    requires forall i :: 0 <= i < |digits| ==> IsDigit(digits[i])
  {
    if |digits| == 0 then 0
    else 10 * DecimalValue(digits[..|digits| - 1]) + DigitValue(digits[|digits| - 1])
  }

  /**
   `str::parse::<u8>`: an optional `+`, then one or more decimal digits whose
   value fits in a byte.
   */
  function ParseU8(s: string): (r: Option<nat>)
    ensures r.Some? ==> r.value < 256
  {
    var digits := if |s| > 0 && s[0] == '+' then s[1..] else s;
    if |digits| == 0 || exists i :: 0 <= i < |digits| && !IsDigit(digits[i]) then None
    else
      var v := DecimalValue(digits);
      if v < 256 then Some(v) else None
  }

  /** The one-character string holding the decimal digit `k`. */
  function DigitText(k: nat): string
    requires k <= 9
  {
    [('0' as int + k) as char]
  }

  /** Parsing a single digit yields that digit. */
  lemma ParseDigitText(k: nat)
    requires k <= 9
    ensures ParseU8(DigitText(k)) == Some(k)
  {
    var s := DigitText(k);
    assert s[0] != '+' && IsDigit(s[0]);
    assert s[..0] == [];
    assert DecimalValue(s) == DigitValue(s[0]) == k;
  }

  /** The accepted texts are exactly the digits 1 to 6. */
  lemma PresetTextsAreDigits(s: string)
    ensures s in PresetTexts <==> exists k :: 1 <= k <= 6 && s == DigitText(k)
  {
    if s in PresetTexts {
      var k := if s == "1" then 1 else if s == "2" then 2 else if s == "3" then 3
               else if s == "4" then 4 else if s == "5" then 5 else 6;
      assert s == DigitText(k);
    }
  }

  /**
   The preset level for the `mode` entry: a field whose text is one of "1" to
   "6" is parsed (the source's `m.parse().unwrap()`, which cannot fail on those
   texts); any other text, a file part, or no entry gives 6.
   */
  function Resolve(entry: Option<FormEntry>): (m: nat)
    ensures 1 <= m <= 6
  {
    match entry
    case Some(Field(text)) =>
      if text in PresetTexts then
        PresetTextsAreDigits(text);
        var k :| 1 <= k <= 6 && text == DigitText(k);
        ParseDigitText(k);
        ParseU8(text).value
      else DefaultMode
    case _ => DefaultMode
  }

  /** The mode taken from a parsed form's entries. */
  function ResolveForm(entries: map<string, FormEntry>): (m: nat)
    ensures 1 <= m <= 6
  {
    Resolve(Lookup(entries, "mode"))
  }

  /** A `mode` field spelling a digit from 1 to 6 selects exactly that preset. */
  lemma FieldSelectsItsDigit(k: nat)
    requires 1 <= k <= 6
    ensures Resolve(Some(Field(DigitText(k)))) == k
  {
    PresetTextsAreDigits(DigitText(k));
    ParseDigitText(k);
  }

  /** Every text other than "1" to "6" falls back to preset 6. */
  lemma OtherTextFallsBack(text: string)
    requires forall k :: 1 <= k <= 6 ==> text != DigitText(k)
    ensures Resolve(Some(Field(text))) == DefaultMode
  {
    PresetTextsAreDigits(text);
  }

  /** A file part under `mode`, or no `mode` entry at all, gives preset 6. */
  lemma NonFieldFallsBack(entry: Option<FormEntry>)
    requires !(entry.Some? && entry.value.Field?)
    ensures Resolve(entry) == DefaultMode
  {
  }

  /** A mode other than 6 is only ever chosen by a field spelling it. */
  lemma NonDefaultComesFromField(entry: Option<FormEntry>)
    requires Resolve(entry) != DefaultMode
    ensures entry == Some(Field(DigitText(Resolve(entry))))
  {
    var text := entry.value.text;
    PresetTextsAreDigits(text);
    var k :| 1 <= k <= 6 && text == DigitText(k);
    FieldSelectsItsDigit(k);
  }
}
