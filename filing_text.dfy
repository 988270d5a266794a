/**
 * The string builders that flatten parts of a filing document:
 * `_fetch_address`, `_fetch_legal_form`, `_fetch_mandate` and
 * `_fetch_representative`.
 *
 * A document dictionary is a sequence of (key, value) entries in the
 * dictionary's own order. A value is `None`, a string, or anything else
 * (a number, a nested document); calling `replace` on anything else raises,
 * and the address and legal-form builders catch that and overwrite what they
 * built so far with a fixed error text.
 */
module FilingText {
  import opened Wrappers
  import opened Text

  datatype Value = Null | Str(text: string) | Other

  type Dict = seq<(string, Value)>

  /**
   * How one of the two looping builders treats a dictionary: the keys it
   * reads (`None` = every key), the markers it deletes from each value, in
   * order, and the text an unreadable value leaves behind.
   */
  datatype TextRule = TextRule(keep: Option<set<string>>, markers: seq<string>, errorText: string)

  predicate Kept(rule: TextRule, key: string) {
    rule.keep.None? || key in rule.keep.value
  }

  /** The rule of `_fetch_address`: five keys (no `PostalCode`), postal-code and country markers. */
  const AddressRule := TextRule(Some({"Street", "Number", "Box", "City", "Country"}), ["pcd:m", "cty:m"], "Address dictionary not found or got error")

  /** The rule of `_fetch_legal_form`: every value, the legal-form marker. */
  const LegalFormRule := TextRule(None, ["lgf:m"], "error in legal form dictionary or not found")

  /** The chained `replace(marker, '')` calls. */
  function RemoveMarkers(s: string, markers: seq<string>): string
    decreases |markers|
  {
    if markers == [] then s
    else if markers[0] == [] then RemoveMarkers(s, markers[1..])
    else RemoveMarkers(ReplaceAll(s, markers[0], ""), markers[1..])
  }

  /** An entry the builder reads whose value has no `replace`. */
  predicate Unreadable(rule: TextRule, entry: (string, Value)) {
    Kept(rule, entry.0) && entry.1.Other?
  }

  /** One pass of the loop body: skip, overwrite with the error text, or append the cleaned value and a space. */
  function Step(rule: TextRule, acc: string, entry: (string, Value)): string {
    if entry.1.Null? || !Kept(rule, entry.0) then acc
    else if entry.1.Other? then rule.errorText
    else acc + RemoveMarkers(entry.1.text, rule.markers) + " "
  }

  /** The accumulator after the loop has run over `entries`, starting from `acc`. */
  function AccFrom(rule: TextRule, acc: string, entries: Dict): string
    decreases |entries|
  {
    if entries == [] then acc else AccFrom(rule, Step(rule, acc, entries[0]), entries[1..])
  }

  /** What the builder returns: the accumulator, stripped. */
  function FlattenText(rule: TextRule, d: Dict): (r: string)
    ensures Trimmed(r)
    ensures d == [] ==> r == []
  {
    if d == [] then StripTrimmed([]); Strip([])
    else Strip(AccFrom(rule, "", d))
  }

  function AddressText(d: Dict): string {
    FlattenText(AddressRule, d)
  }

  function LegalFormText(d: Dict): string {
    FlattenText(LegalFormRule, d)
  }

  /** The loop of `_fetch_address` / `_fetch_legal_form`, growing the text entry by entry. */
  method BuildText(rule: TextRule, d: Dict) returns (s: string)
    ensures s == FlattenText(rule, d)
  {
    var acc := "";
    var i := 0;
    while i < |d|
      invariant 0 <= i <= |d|
      invariant AccFrom(rule, acc, d[i..]) == AccFrom(rule, "", d)
    {
      var (k, v) := d[i];
      if v.Null? || !Kept(rule, k) {
      } else if v.Other? {
        acc := rule.errorText;
      } else {
        acc := acc + RemoveMarkers(v.text, rule.markers) + " ";
      }
      assert d[i..][1..] == d[i + 1..];
      i := i + 1;
    }
    assert d[i..] == [];
    s := Strip(acc);
  }

  lemma {:induction false} AccFromConcat(rule: TextRule, acc: string, a: Dict, b: Dict)
    ensures AccFrom(rule, acc, a + b) == AccFrom(rule, AccFrom(rule, acc, a), b)
    decreases |a|
  {
    if a == [] {
      assert a + b == b;
    } else {
      assert (a + b)[1..] == a[1..] + b;
      AccFromConcat(rule, Step(rule, acc, a[0]), a[1..], b);
    }
  }

  /** An entry with a `None` value or a key the builder does not read never changes the text. */
  lemma IgnoredEntry(rule: TextRule, a: Dict, entry: (string, Value), b: Dict)
    requires entry.1.Null? || !Kept(rule, entry.0)
    ensures FlattenText(rule, a + [entry] + b) == FlattenText(rule, a + b)
  {
    AccFromConcat(rule, "", a + [entry], b);
    AccFromConcat(rule, "", a, [entry]);
    AccFromConcat(rule, "", a, b);
  }

  /** `PostalCode` is not among the address keys: it never shows in the address. */
  lemma AddressIgnoresPostalCode(a: Dict, v: Value, b: Dict)
    ensures AddressText(a + [("PostalCode", v)] + b) == AddressText(a + b)
  {
    assert !Kept(AddressRule, "PostalCode");
    IgnoredEntry(AddressRule, a, ("PostalCode", v), b);
  }

  /** The cleaned values of the entries the builder reads, in order: the reference reading of the loop. */
  function Parts(rule: TextRule, d: Dict): seq<string> {
    if d == [] then []
    else
      var (k, v) := d[0];
      (if v.Str? && Kept(rule, k) then [RemoveMarkers(v.text, rule.markers)] else []) + Parts(rule, d[1..])
  }

  /** Each part followed by one space. */
  function JoinSpaced(parts: seq<string>): string {
    if parts == [] then "" else parts[0] + " " + JoinSpaced(parts[1..])
  }

  predicate Readable(rule: TextRule, d: Dict) {
    forall i :: 0 <= i < |d| ==> !Unreadable(rule, d[i])
  }

  lemma {:induction false} AccFromReadable(rule: TextRule, acc: string, d: Dict)
    requires Readable(rule, d)
    ensures AccFrom(rule, acc, d) == acc + JoinSpaced(Parts(rule, d))
    decreases |d|
  {
    if d != [] {
      var (k, v) := d[0];
      assert !Unreadable(rule, d[0]);
      assert Readable(rule, d[1..]) by {
        forall i | 0 <= i < |d| - 1 ensures !Unreadable(rule, d[1..][i]) {
          assert d[1..][i] == d[i + 1];
        }
      }
      AccFromReadable(rule, Step(rule, acc, d[0]), d[1..]);
      if v.Str? && Kept(rule, k) {
        var p := RemoveMarkers(v.text, rule.markers);
        assert Parts(rule, d) == [p] + Parts(rule, d[1..]);
        assert JoinSpaced([p] + Parts(rule, d[1..])) == p + " " + JoinSpaced(Parts(rule, d[1..]));
      } else {
        assert Parts(rule, d) == Parts(rule, d[1..]);
      }
    }
  }

  /**
   * Without an unreadable entry the builder returns the cleaned values it
   * reads, in dictionary order, joined by single spaces and stripped.
   */
  lemma FlattenReadable(rule: TextRule, d: Dict)
    requires Readable(rule, d)
    ensures FlattenText(rule, d) == Strip(JoinSpaced(Parts(rule, d)))
  {
    AccFromReadable(rule, "", d);
    assert "" + JoinSpaced(Parts(rule, d)) == JoinSpaced(Parts(rule, d));
  }

  /**
   * After the last unreadable entry the error text stands in for everything
   * before it, and the readable values after it are still appended.
   */
  lemma FlattenAfterError(rule: TextRule, a: Dict, bad: (string, Value), b: Dict)
    requires Unreadable(rule, bad) && Readable(rule, b)
    ensures FlattenText(rule, a + [bad] + b) == Strip(rule.errorText + JoinSpaced(Parts(rule, b)))
  {
    AccFromConcat(rule, "", a + [bad], b);
    AccFromConcat(rule, "", a, [bad]);
    AccFromReadable(rule, rule.errorText, b);
  }

  /** A mandate date as `get(key, 'NA')` renders it: absent, `None`, or a date text. */
  datatype DateField = Absent | NullDate | Date(text: string)

  function Render(f: DateField): string {
    match f
    case Absent => "NA"
    case NullDate => "None"
    case Date(t) => t
  }

  datatype Mandate = Mandate(functionMandate: string, startDate: DateField, endDate: DateField)

  /** `_fetch_mandate`: "<function>, from <start> until <end>", the function code marker spelled out. */
  function MandateText(m: Mandate): (r: string)
    ensures Trimmed(r)
  {
    Strip(ReplaceAll(m.functionMandate, "fct:m", "FunctionCode ") + ", from " + Render(m.startDate) + " until " + Render(m.endDate))
  }

  /**
   * When the function text does not start with white space and the end date
   * is a non-blank text, stripping removes nothing: the mandate reads
   * exactly function, start and end in that layout.
   */
  lemma MandateLayout(m: Mandate)
    requires var f := ReplaceAll(m.functionMandate, "fct:m", "FunctionCode "); f == [] || !IsSpace(f[0])
    requires var e := Render(m.endDate); e != [] && !IsSpace(e[|e| - 1])
    ensures MandateText(m) == ReplaceAll(m.functionMandate, "fct:m", "FunctionCode ") + ", from " + Render(m.startDate) + " until " + Render(m.endDate)
  {
    var f := ReplaceAll(m.functionMandate, "fct:m", "FunctionCode ");
    var e := Render(m.endDate);
    var s := f + ", from " + Render(m.startDate) + " until " + e;
    assert s[|s| - 1] == e[|e| - 1];
    if f == [] {
      assert s[0] == ',';
    } else {
      assert s[0] == f[0];
    }
    StripTrimmed(s);
  }

  /** `_fetch_representative`: first and last name, each title-cased, separated by a space. */
  function RepresentativeName(firstName: string, lastName: string): (r: string)
    ensures Trimmed(r)
  {
    Strip(Title(firstName) + " " + Title(lastName))
  }

  /**
   * Names that carry no white space at their outer ends come out as
   * "First Last", and feeding that back in as the names changes nothing.
   */
  lemma RepresentativeLayout(firstName: string, lastName: string)
    requires firstName != [] && !IsSpace(firstName[0])
    requires lastName != [] && !IsSpace(lastName[|lastName| - 1])
    ensures RepresentativeName(firstName, lastName) == Title(firstName) + " " + Title(lastName)
    ensures RepresentativeName(Title(firstName), Title(lastName)) == RepresentativeName(firstName, lastName)
  {
    var f, l := Title(firstName), Title(lastName);
    var s := f + " " + l;
    TitleFromKeeps(firstName, false, 0);
    TitleFromKeeps(lastName, false, |lastName| - 1);
    assert s[0] == f[0] && s[|s| - 1] == l[|l| - 1];
    StripTrimmed(s);
    TitleIdempotent(firstName);
    TitleIdempotent(lastName);
  }
}
