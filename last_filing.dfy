/**
 * `_last_filing`: the reference key of the most recent filing of a company.
 * The "year" of a key is its text before the first '-'; the greatest year
 * (as a string) is found with `max`, and the first key, in the dictionary's
 * order, that starts with it is returned. An empty dictionary makes `max`
 * raise.
 */
module LastFiling {
  import opened Wrappers
  import opened Text

  /** The `ValueError` of `max` on an empty sequence. */
  datatype LastFilingError = NoFilings

  /** `key.split(sep='-')[0]`. */
  function YearPart(key: string): (p: string)
    ensures StartsWith(key, p) && '-' !in p
    ensures |p| < |key| ==> key[|p|] == '-'
  {
    if key == [] || key[0] == '-' then [] else [key[0]] + YearPart(key[1..])
  }

  function YearParts(keys: seq<string>): (ps: seq<string>)
    ensures |ps| == |keys| && forall i :: 0 <= i < |keys| ==> ps[i] == YearPart(keys[i])
  {
    seq(|keys|, i requires 0 <= i < |keys| => YearPart(keys[i]))
  }

  lemma UpperBoundRaised(xs: seq<string>, a: string, b: string)
    requires forall x :: x in xs ==> LexLe(x, a)
    requires LexLe(a, b)
    ensures forall x :: x in xs ==> LexLe(x, b)
  {
    forall x | x in xs ensures LexLe(x, b) {
      LexLeTransitive(x, a, b);
    }
  }

  /** `max` over strings: an element no other element exceeds. */
  function MaxString(xs: seq<string>): (m: string)
    requires xs != []
    ensures m in xs
    ensures forall x :: x in xs ==> LexLe(x, m)
  {
    if |xs| == 1 then LexLeReflexive(xs[0]); xs[0]
    else
      var rest := MaxString(xs[1..]);
      assert xs == [xs[0]] + xs[1..];
      LexLeTotal(xs[0], rest);
      if LexLe(xs[0], rest) then rest
      else
        UpperBoundRaised(xs[1..], rest, xs[0]);
        LexLeReflexive(xs[0]);
        xs[0]
  }

  /** The index `fnmatch.filter(keys, prefix + '*')[0]` picks: the first key starting with `prefix`. */
  function FirstStartingWith(keys: seq<string>, prefix: string): (i: nat)
    requires exists k :: k in keys && StartsWith(k, prefix)
    ensures i < |keys| && StartsWith(keys[i], prefix)
    ensures forall j :: 0 <= j < i ==> !StartsWith(keys[j], prefix)
  {
    if StartsWith(keys[0], prefix) then 0
    else
      assert keys == [keys[0]] + keys[1..];
      1 + FirstStartingWith(keys[1..], prefix)
  }

  lemma {:induction false} YearPartExtends(key: string, m: string)
    requires StartsWith(key, m) && '-' !in m
    ensures StartsWith(YearPart(key), m)
  {
    if m != [] {
      assert key[0] == m[0];
      assert key[1..][..|m| - 1] == m[1..];
      YearPartExtends(key[1..], m[1..]);
    }
  }

  /**
   * A key that starts with the greatest year has exactly that year: its own
   * year extends the greatest one, so it cannot be smaller, and nothing is
   * greater.
   */
  lemma StartsWithMaxYear(key: string, m: string)
    requires StartsWith(key, m) && '-' !in m
    requires LexLe(YearPart(key), m)
    ensures YearPart(key) == m
  {
    YearPartExtends(key, m);
    LexLePrefix(m, YearPart(key));
    LexLeAntisymmetric(m, YearPart(key));
  }

  /**
   * `_last_filing`: a key of the dictionary whose year is the greatest year
   * of all keys, and no earlier key has that year; the error when there is
   * no key.
   */
  function LastFiling(keys: seq<string>): (r: Result<string, LastFilingError>)
    ensures r.Err? <==> keys == []
    ensures r.Ok? ==> forall k :: k in keys ==> LexLe(YearPart(k), YearPart(r.value))
    ensures r.Ok? ==> exists i :: 0 <= i < |keys| && keys[i] == r.value &&
                                 (forall j :: 0 <= j < i ==> YearPart(keys[j]) != YearPart(r.value))
  {
    if keys == [] then Err(NoFilings)
    else
      var years := YearParts(keys);
      var latest := MaxString(years);
      var w :| 0 <= w < |keys| && years[w] == latest;
      assert keys[w] in keys && StartsWith(keys[w], latest);
      var i := FirstStartingWith(keys, latest);
      assert years[i] in years;
      StartsWithMaxYear(keys[i], latest);
      assert forall k :: k in keys ==> YearPart(k) in years;
      Ok(keys[i])
  }
}
