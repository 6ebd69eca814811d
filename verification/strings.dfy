/**
  Python's `str.split(sep)` for a one-character separator, the matching
  `sep.join(fields)`, and a split at the first occurrence of a separator.
 */
module Strings {
  import opened Py

  /** `sep.join(fields)` for a non-empty list of fields. */
  function JoinWith(fields: seq<string>, sep: char): string
    requires |fields| >= 1
    decreases |fields|
  {
    if |fields| == 1 then fields[0] else fields[0] + [sep] + JoinWith(fields[1..], sep)
  }

  /**
    `s.split(sep)`: the maximal runs between separators. There is always at
    least one field, no field contains the separator, and joining the fields
    with the separator gives back `s`.
   */
  function Split(s: string, sep: char): (fields: seq<string>)
    ensures |fields| >= 1
    ensures forall i :: 0 <= i < |fields| ==> sep !in fields[i]
    ensures JoinWith(fields, sep) == s
    ensures sep in s <==> |fields| >= 2
    decreases |s|
  {
    if |s| == 0 then [""]
    else
      var rest := Split(s[1..], sep);
      if s[0] == sep then
        assert ([""] + rest)[1..] == rest;
        assert sep in s;
        [""] + rest
      else
        var head := [s[0]] + rest[0];
        assert s == [s[0]] + s[1..];
        assert sep in s <==> sep in s[1..];
        assert sep !in head;
        if |rest| == 1 then [head]
        else
          var fields := [head] + rest[1..];
          assert fields[1..] == rest[1..];
          assert forall i :: 1 <= i < |fields| ==> fields[i] == rest[i];
          assert JoinWith(fields, sep) == head + [sep] + JoinWith(rest[1..], sep);
          fields
  }

  /** A separator-free string is a single field. */
  lemma {:induction false} SplitNoSep(a: string, sep: char)
    requires sep !in a
    ensures Split(a, sep) == [a]
    decreases |a|
  {
    if |a| > 0 {
      SplitNoSep(a[1..], sep);
      assert [a[0]] + a[1..] == a;
    }
  }

  /** A separator-free prefix followed by the separator is exactly the first field. */
  lemma {:induction false} SplitAfterField(a: string, sep: char, rest: string)
    requires sep !in a
    ensures Split(a + [sep] + rest, sep) == [a] + Split(rest, sep)
    decreases |a|
  {
    if |a| == 0 {
      assert a + [sep] + rest == [sep] + rest;
      assert ([sep] + rest)[1..] == rest;
    } else {
      var s := a + [sep] + rest;
      assert s[1..] == a[1..] + [sep] + rest;
      SplitAfterField(a[1..], sep, rest);
      assert [a[0]] + a[1..] == a;
    }
  }

  /** Splitting undoes joining when no field contains the separator. */
  lemma {:induction false} SplitJoin(fields: seq<string>, sep: char)
    requires |fields| >= 1
    requires forall i :: 0 <= i < |fields| ==> sep !in fields[i]
    ensures Split(JoinWith(fields, sep), sep) == fields
    decreases |fields|
  {
    if |fields| == 1 {
      SplitNoSep(fields[0], sep);
    } else {
      SplitJoin(fields[1..], sep);
      SplitAfterField(fields[0], sep, JoinWith(fields[1..], sep));
      assert [fields[0]] + fields[1..] == fields;
    }
  }

  /** `s.split(sep, 1)` as a pair, or None when `sep` does not occur in `s`. */
  function SplitOnce(s: string, sep: char): (r: Option<(string, string)>)
    ensures r.None? <==> sep !in s
    ensures r.Some? ==> sep !in r.value.0 && s == r.value.0 + [sep] + r.value.1
  {
    var fields := Split(s, sep);
    if |fields| == 1 then None else Some((fields[0], JoinWith(fields[1..], sep)))
  }

  /** Splitting once at a separator-free prefix recovers the prefix and the remainder. */
  lemma SplitOnceAt(a: string, sep: char, b: string)
    requires sep !in a
    ensures SplitOnce(a + [sep] + b, sep) == Some((a, b))
  {
    SplitAfterField(a, sep, b);
    assert (([a] + Split(b, sep))[1..]) == Split(b, sep);
  }
}
