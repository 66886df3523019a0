/**
 * Java's `String.split(regex, -1)` for a regex that is a single character without special
 * meaning (such as ";"): a negative limit applies the pattern as often as possible and
 * keeps trailing empty fields.
 */
module JavaSplit {

  /** The number of occurrences of `c` in `s`. */
  function Count(s: string, c: char): (n: nat) {
    if s == [] then 0 else (if s[0] == c then 1 else 0) + Count(s[1..], c)
  }

  /**
   * `s.split(sep, -1)`: the text between consecutive separators, in order, keeping empty
   * leading, inner and trailing fields; the empty string gives the one field "".
   */
  function Split(s: string, sep: char): (fields: seq<string>)
    ensures |fields| == Count(s, sep) + 1
  {
    if s == [] then [""]
    else
      var rest := Split(s[1..], sep);
      if s[0] == sep then [""] + rest else [[s[0]] + rest[0]] + rest[1..]
  }

  /** `String.join(sep, fields)`: the fields with one separator between neighbours. */
  function Join(fields: seq<string>, sep: char): (s: string)
    requires fields != []
  {
    if |fields| == 1 then fields[0] else fields[0] + [sep] + Join(fields[1..], sep)
  }

  /** No field of a split contains the separator. */
  lemma {:induction false} SplitFieldsFree(s: string, sep: char)
    ensures forall f :: f in Split(s, sep) ==> sep !in f
  {
    if s != [] {
      SplitFieldsFree(s[1..], sep);
    }
  }

  /** Splitting loses nothing: joining the fields again restores the string. */
  lemma {:induction false} JoinOfSplit(s: string, sep: char)
    ensures Join(Split(s, sep), sep) == s
  {
    if s != [] {
      var rest := Split(s[1..], sep);
      JoinOfSplit(s[1..], sep);
      if s[0] != sep && |rest| > 1 {
        assert Join(rest, sep) == rest[0] + [sep] + Join(rest[1..], sep);
        assert ([[s[0]] + rest[0]] + rest[1..])[1..] == rest[1..];
      }
    }
  }

  /** A separator-free prefix becomes the start of the first field. */
  lemma {:induction false} SplitLeading(a: string, t: string, sep: char)
    requires sep !in a
    ensures Split(a + t, sep) == [a + Split(t, sep)[0]] + Split(t, sep)[1..]
  {
    var x := Split(t, sep);
    if a == [] {
      assert a + t == t && a + x[0] == x[0];
    } else {
      var u := a + t;
      assert u[0] == a[0] && u[1..] == a[1..] + t;
      SplitLeading(a[1..], t, sep);
      var rest := Split(u[1..], sep);
      assert rest == [a[1..] + x[0]] + x[1..];
      assert Split(u, sep) == [[a[0]] + rest[0]] + rest[1..];
      assert [a[0]] + (a[1..] + x[0]) == a + x[0];
    }
  }

  /** A separator-free field followed by the separator splits off as one field. */
  lemma SplitField(f: string, tail: string, sep: char)
    requires sep !in f
    ensures Split(f + [sep] + tail, sep) == [f] + Split(tail, sep)
  {
    var u := [sep] + tail;
    SplitLeading(f, u, sep);
    assert f + [sep] + tail == f + u;
    assert u[1..] == tail;
    var x := Split(u, sep);
    assert x == [""] + Split(tail, sep);
    assert f + x[0] == f;
  }

  /** Splitting undoes joining, for fields free of the separator. */
  lemma {:induction false} SplitOfJoin(fields: seq<string>, sep: char)
    requires fields != [] && forall f :: f in fields ==> sep !in f
    ensures Split(Join(fields, sep), sep) == fields
  {
    var f := fields[0];
    if |fields| == 1 {
      SplitLeading(f, [], sep);
      assert f + [] == f;
    } else {
      assert forall g :: g in fields[1..] ==> g in fields;
      SplitOfJoin(fields[1..], sep);
      SplitField(f, Join(fields[1..], sep), sep);
      assert fields == [f] + fields[1..];
    }
  }

  /** The case the coordinate parser relies on: two separator-free fields around one separator. */
  lemma SplitPair(a: string, b: string, sep: char)
    requires sep !in a && sep !in b
    ensures Split(a + [sep] + b, sep) == [a, b]
  {
    assert [a, b][1..] == [b];
    SplitOfJoin([a, b], sep);
  }
}
