/**
 * Company-number normalisation: `CompanyData._clean_input` and `format_id`.
 * Both strip the input, delete every non-digit and accept what is left only
 * when it is 10 or 11 characters long; anything else is the `ValueError`
 * "Wrong input - Length mismatch".
 */
module CompanyId {
  import opened Wrappers
  import opened Text

  /** The `ValueError` both functions raise. */
  datatype IdError = LengthMismatch

  /** What `\D` does not match, read as ASCII. */
  predicate IsDigit(c: char) {
    '0' <= c <= '9'
  }

  predicate AllDigits(s: string) {
    forall i :: 0 <= i < |s| ==> IsDigit(s[i])
  }

  /** `re.sub(r"\D", '', s)`: the digits of `s`, in order. */
  function Digits(s: string): string {
    if s == [] then [] else (if IsDigit(s[0]) then [s[0]] else []) + Digits(s[1..])
  }

  lemma {:induction false} DigitsAreDigits(s: string)
    ensures AllDigits(Digits(s))
  {
    if s != [] {
      DigitsAreDigits(s[1..]);
    }
  }

  predicate ValidLength(d: string) {
    |d| == 10 || |d| == 11
  }

  lemma {:induction false} DigitsConcat(a: string, b: string)
    ensures Digits(a + b) == Digits(a) + Digits(b)
  {
    if a == [] {
      assert a + b == b;
    } else {
      var head := if IsDigit(a[0]) then [a[0]] else [];
      assert (a + b)[0] == a[0];
      assert (a + b)[1..] == a[1..] + b;
      assert Digits(a + b) == head + Digits(a[1..] + b);
      DigitsConcat(a[1..], b);
      assert Digits(a) == head + Digits(a[1..]);
      assert head + (Digits(a[1..]) + Digits(b)) == (head + Digits(a[1..])) + Digits(b);
    }
  }

  lemma {:induction false} DigitsOfDigits(d: string)
    requires AllDigits(d)
    ensures Digits(d) == d
  {
    if d != [] {
      DigitsOfDigits(d[1..]);
    }
  }

  lemma {:induction false} DigitsOfNonDigits(s: string)
    requires forall i :: 0 <= i < |s| ==> !IsDigit(s[i])
    ensures Digits(s) == []
  {
    if s != [] {
      DigitsOfNonDigits(s[1..]);
    }
  }

  lemma {:induction false} LStripKeepsDigits(s: string)
    ensures Digits(LStrip(s)) == Digits(s)
  {
    if s != [] && IsSpace(s[0]) {
      LStripKeepsDigits(s[1..]);
    }
  }

  lemma {:induction false} RStripKeepsDigits(s: string)
    ensures Digits(RStrip(s)) == Digits(s)
  {
    if s != [] && IsSpace(s[|s| - 1]) {
      var init := s[..|s| - 1];
      RStripKeepsDigits(init);
      assert s == init + [s[|s| - 1]];
      DigitsConcat(init, [s[|s| - 1]]);
      DigitsOfNonDigits([s[|s| - 1]]);
    }
  }

  /** `strip()` before the substitution never changes which digits remain. */
  lemma StripKeepsDigits(s: string)
    ensures Digits(Strip(s)) == Digits(s)
  {
    LStripKeepsDigits(s);
    RStripKeepsDigits(LStrip(s));
  }

  /** `CompanyData._clean_input`: the digits of the input, or the length error. */
  function CleanInput(input: string): (r: Result<string, IdError>)
    ensures r.Ok? <==> ValidLength(Digits(input))
    ensures r.Ok? ==> r.value == Digits(input) && AllDigits(r.value)
  {
    StripKeepsDigits(input);
    DigitsAreDigits(input);
    var cleaned := Digits(Strip(input));
    if ValidLength(cleaned) then Ok(cleaned) else Err(LengthMismatch)
  }

  /** The display form: "BE " then groups of 4, 3 and the remaining 3 or 4 digits, dot-separated. */
  predicate DisplayForm(f: string, d: string)
    requires ValidLength(d)
  {
    && |f| == |d| + 5
    && f[..3] == "BE " && f[7] == '.' && f[11] == '.'
    && f[3..7] == d[..4] && f[8..11] == d[4..7] && f[12..] == d[7..]
  }

  /** The display layout of an already cleaned number. */
  function Display(d: string): (f: string)
    requires ValidLength(d)
    ensures DisplayForm(f, d)
  {
    var f := "BE " + d[..4] + "." + d[4..7] + "." + d[7..];
    assert f[..3] == "BE " && f[3..7] == d[..4] && f[7] == '.';
    assert f[8..11] == d[4..7] && f[11] == '.' && f[12..] == d[7..];
    f
  }

  /**
   * `format_id`: the same cleaning and length check as `CleanInput`, and with
   * `prefix` set the "BE dddd.ddd.ddd" layout.
   */
  function FormatId(input: string, prefix: bool): (r: Result<string, IdError>)
    ensures r.Ok? <==> ValidLength(Digits(input))
    ensures r.Ok? && !prefix ==> r == CleanInput(input)
    ensures r.Ok? && prefix ==> DisplayForm(r.value, Digits(input))
  {
    match CleanInput(input)
    case Err(e) => Err(e)
    case Ok(d) => if prefix then Ok(Display(d)) else Ok(d)
  }

  /** A non-digit anywhere in the input (white space, dots, a country code) never changes the outcome. */
  lemma NonDigitIgnored(a: string, c: char, b: string)
    requires !IsDigit(c)
    ensures CleanInput(a + [c] + b) == CleanInput(a + b)
    ensures FormatId(a + [c] + b, true) == FormatId(a + b, true)
  {
    DropNonDigit(a, c, b);
  }

  lemma DropNonDigit(a: string, c: char, b: string)
    requires !IsDigit(c)
    ensures Digits(a + [c] + b) == Digits(a + b)
  {
    DigitsConcat(a + [c], b);
    DigitsConcat(a, [c]);
    DigitsConcat(a, b);
    DigitsOfNonDigits([c]);
  }

  /** The display layout adds no digit and drops none. */
  lemma DisplayDigits(d: string)
    requires ValidLength(d) && AllDigits(d)
    ensures Digits(Display(d)) == d
  {
    DisplayPieces(d[..4], d[4..7], d[7..]);
    DigitGroups(d);
  }

  /** The digits of the three groups, put back together, are the number itself. */
  lemma DigitGroups(d: string)
    requires |d| >= 7 && AllDigits(d)
    ensures Digits(d[..4]) + Digits(d[4..7]) + Digits(d[7..]) == d
  {
    var p, q, t := d[..4], d[4..7], d[7..];
    assert d == p + q + t;
    DigitsConcat(p + q, t);
    DigitsConcat(p, q);
    DigitsOfDigits(d);
  }

  /** Only the three digit groups of the layout contribute digits. */
  lemma DisplayPieces(p: string, q: string, t: string)
    ensures Digits("BE " + p + "." + q + "." + t) == Digits(p) + Digits(q) + Digits(t)
  {
    var s1 := "BE " + p;
    DigitsConcat("BE ", p);
    assert Digits("BE ") == [];
    assert Digits(s1) == Digits(p);
    DigitsAppendNonDigit(s1, '.');
    DigitsConcat(s1 + ".", q);
    DigitsAppendNonDigit(s1 + "." + q, '.');
    DigitsConcat(s1 + "." + q + ".", t);
  }

  /** Appending a non-digit adds no digit. */
  lemma DigitsAppendNonDigit(s: string, c: char)
    requires !IsDigit(c)
    ensures Digits(s + [c]) == Digits(s)
  {
    DigitsConcat(s, [c]);
    assert [c][1..] == [];
    assert Digits([c]) == [];
    assert Digits(s) + [] == Digits(s);
  }

  /** Cleaning the display form gives back the plain form. */
  lemma FormatRoundTrip(input: string)
    requires FormatId(input, true).Ok?
    ensures CleanInput(FormatId(input, true).value) == FormatId(input, false)
  {
    var d := CleanInput(input).value;
    DigitsAreDigits(input);
    DisplayDigits(d);
    assert FormatId(input, true).value == Display(d);
  }

  /** Cleaning is idempotent. */
  lemma CleanIdempotent(input: string)
    requires CleanInput(input).Ok?
    ensures CleanInput(CleanInput(input).value) == CleanInput(input)
  {
    DigitsAreDigits(input);
    DigitsOfDigits(Digits(input));
  }

  lemma {:induction false} DigitsLength(s: string)
    ensures |Digits(s)| <= |s|
  {
    if s != [] {
      DigitsLength(s[1..]);
    }
  }

  /** Fewer than ten characters can never make a company number ("123" is rejected). */
  lemma ShortInputRejected(s: string)
    requires |s| < 10
    ensures CleanInput(s) == Err(LengthMismatch)
  {
    DigitsLength(s);
  }
}
