/** The handful of Python string operations the scripts rely on:
    `str.lower`, `str.upper`, `in` on strings, `str.startswith`, and the
    code-point order that `sorted` uses for strings. */
module Text {

  /** `str.lower` on one character, for the Latin and Cyrillic letters that
      warehouse names and articles are written in: A-Z, А-Я and Ѐ-Џ (Ё among
      them). Every other character is left as it is. */
  function LowerChar(c: char): char {
    if 'A' <= c <= 'Z' then (c as int + 32) as char
    else if 'А' <= c <= 'Я' then (c as int + 32) as char
    else if 'Ѐ' <= c <= 'Џ' then (c as int + 80) as char
    else c
  }

  /** `str.upper` on one character, the inverse case mapping of `LowerChar`. */
  function UpperChar(c: char): char {
    if 'a' <= c <= 'z' then (c as int - 32) as char
    else if 'а' <= c <= 'я' then (c as int - 32) as char
    else if 'ѐ' <= c <= 'џ' then (c as int - 80) as char
    else c
  }

  function Lower(s: string): (r: string)
    ensures |r| == |s|
    ensures forall i :: 0 <= i < |s| ==> r[i] == LowerChar(s[i])
  {
    if |s| == 0 then [] else [LowerChar(s[0])] + Lower(s[1..])
  }

  function Upper(s: string): (r: string)
    ensures |r| == |s|
    ensures forall i :: 0 <= i < |s| ==> r[i] == UpperChar(s[i])
  {
    if |s| == 0 then [] else [UpperChar(s[0])] + Upper(s[1..])
  }

  /** Lowering forgets the case of a letter: upper-casing first changes nothing. */
  lemma LowerUpper(s: string)
    ensures Lower(Upper(s)) == Lower(s)
  {
  }

  /** Upper-casing forgets the case of a letter. */
  lemma UpperLower(s: string)
    ensures Upper(Lower(s)) == Upper(s)
  {
  }

  /** `needle in hay` for strings. */
  function Contains(hay: string, needle: string): bool {
    needle <= hay || (|hay| > 0 && Contains(hay[1..], needle))
  }

  /** `needle` occurs in `hay` starting at index `i`. */
  predicate OccursAt(hay: string, needle: string, i: int) {
    0 <= i && i + |needle| <= |hay| && hay[i..i + |needle|] == needle
  }

  /** `Contains` finds exactly the places where `needle` occurs in `hay`. */
  lemma {:induction false} ContainsOccurrence(hay: string, needle: string)
    ensures Contains(hay, needle) <==> exists i :: OccursAt(hay, needle, i)
  {
    if needle <= hay {
      assert OccursAt(hay, needle, 0);
    } else if |hay| > 0 {
      ContainsOccurrence(hay[1..], needle);
      if exists i :: OccursAt(hay, needle, i) {
        var i :| OccursAt(hay, needle, i);
        assert i != 0;
        assert OccursAt(hay[1..], needle, i - 1);
      }
      if exists i :: OccursAt(hay[1..], needle, i) {
        var i :| OccursAt(hay[1..], needle, i);
        assert OccursAt(hay, needle, i + 1);
      }
    } else {
      assert forall i :: OccursAt(hay, needle, i) ==> i == 0;
      assert OccursAt(hay, needle, 0) ==> needle <= hay;
    }
  }

  /** `s.startswith(prefix)`. */
  predicate StartsWith(s: string, prefix: string) {
    prefix <= s
  }

  /** Python's `<` on strings: lexicographic by code point. (Dafny's own `<`
      on sequences means "proper prefix".) */
  predicate Less(a: string, b: string) {
    if |a| == 0 then |b| > 0
    else if |b| == 0 then false
    else if a[0] != b[0] then a[0] < b[0]
    else Less(a[1..], b[1..])
  }

  lemma {:induction false} LessIrreflexive(a: string)
    ensures !Less(a, a)
  {
    if |a| > 0 {
      LessIrreflexive(a[1..]);
    }
  }

  lemma {:induction false} LessTransitive(a: string, b: string, c: string)
    requires Less(a, b) && Less(b, c)
    ensures Less(a, c)
  {
    if |a| > 0 && a[0] == b[0] && b[0] == c[0] {
      LessTransitive(a[1..], b[1..], c[1..]);
    }
  }

  lemma {:induction false} LessTotal(a: string, b: string)
    ensures a == b || Less(a, b) || Less(b, a)
  {
    if |a| > 0 && |b| > 0 && a[0] == b[0] {
      LessTotal(a[1..], b[1..]);
      if a[1..] == b[1..] {
        assert a == [a[0]] + a[1..] && b == [b[0]] + b[1..];
      }
    }
  }

  /** Every element of `r` comes before every later one. */
  ghost predicate Ascending(r: seq<string>) {
    forall i, j :: 0 <= i < j < |r| ==> Less(r[i], r[j])
  }

  /** A non-empty finite set of strings has a least element. */
  lemma {:induction false} LeastExists(s: set<string>)
    requires s != {}
    ensures exists m :: m in s && forall y | y in s :: !Less(y, m)
    decreases |s|
  {
    var x :| x in s;
    if s == {x} {
      LessIrreflexive(x);
    } else {
      LeastExists(s - {x});
      var m :| m in s - {x} && forall y | y in s - {x} :: !Less(y, m);
      if Less(x, m) {
        LessIrreflexive(x);
        forall y | y in s ensures !Less(y, x) {
          if y != x && Less(y, x) {
            LessTransitive(y, x, m);
          }
        }
      } else {
        assert forall y | y in s :: !Less(y, m);
      }
    }
  }

  /** `sorted(s)` for a set of strings: its elements in ascending order, each
      once. */
  method SortStrings(s: set<string>) returns (r: seq<string>)
    ensures Ascending(r)
    ensures forall x :: x in r <==> x in s
    ensures |r| == |s|
  {
    r := [];
    var rest := s;
    while rest != {}
      invariant rest <= s
      invariant forall x :: x in s <==> x in r || x in rest
      invariant forall x | x in r :: x !in rest
      invariant |r| + |rest| == |s|
      invariant Ascending(r)
      invariant forall i, y | 0 <= i < |r| && y in rest :: Less(r[i], y)
      decreases |rest|
    {
      LeastExists(rest);
      var m :| m in rest && forall y | y in rest :: !Less(y, m);
      forall y | y in rest - {m} ensures Less(m, y) {
        LessTotal(m, y);
      }
      r := r + [m];
      rest := rest - {m};
    }
  }
}
