/**
 * The part of Ruby's String behaviour the host parsers rely on: `String#split`
 * with a one-character separator (every separator cuts, trailing empty fields
 * are dropped, and "" splits to []), and the `is_a?(String)` test that tells a
 * host string from a host array.
 */
module RubyString {

  /** A Ruby argument that is either a String or an Array of Strings. */
  datatype StringOrArray = Str(s: string) | Arr(items: seq<string>)

  /** Every field of `s` between occurrences of `sep`, empty ones included. */
  function Fields(s: string, sep: char): (r: seq<string>)
    ensures |r| >= 1
    ensures forall i :: 0 <= i < |r| ==> sep !in r[i]
    decreases |s|
  {
    if s == [] then [[]]
    else
      var rest := Fields(s[1..], sep);
      if s[0] == sep then [[]] + rest
      else [[s[0]] + rest[0]] + rest[1..]
  }

  /** The fields put back together with `sep` between neighbours. */
  function Join(fields: seq<string>, sep: char): string
  {
    if |fields| == 0 then []
    else if |fields| == 1 then fields[0]
    else fields[0] + [sep] + Join(fields[1..], sep)
  }

  /** Removes the empty fields at the end, as `split` does with no limit. */
  function DropTrailingEmpty(fields: seq<string>): (r: seq<string>)
    ensures r <= fields
    ensures r == [] || r[|r| - 1] != []
    ensures forall i :: |r| <= i < |fields| ==> fields[i] == []
  {
    if fields == [] then []
    else if fields[|fields| - 1] == [] then DropTrailingEmpty(fields[..|fields| - 1])
    else fields
  }

  /** Ruby's `s.split(sep)` for a one-character separator other than a space. */
  function Split(s: string, sep: char): (r: seq<string>)
    ensures forall i :: 0 <= i < |r| ==> sep !in r[i]
    ensures r == [] || r[|r| - 1] != []
  {
    DropTrailingEmpty(Fields(s, sep))
  }

  /** Joining the fields of `s` gives `s` back: no character is lost or moved. */
  lemma {:induction false} JoinFields(s: string, sep: char)
    ensures Join(Fields(s, sep), sep) == s
    decreases |s|
  {
    if s != [] {
      JoinFields(s[1..], sep);
      var rest := Fields(s[1..], sep);
      if s[0] == sep {
        assert ([[]] + rest)[1..] == rest;
      } else if |rest| > 1 {
        assert ([[s[0]] + rest[0]] + rest[1..])[1..] == rest[1..];
      }
    }
  }

  /** A prefix free of separators sticks to the front of the first field. */
  lemma {:induction false} FieldsOfPrefix(w: string, t: string, sep: char)
    requires sep !in w
    ensures Fields(w + t, sep) == [w + Fields(t, sep)[0]] + Fields(t, sep)[1..]
    decreases |w|
  {
    var ft := Fields(t, sep);
    if w == [] {
      assert w + t == t && w + ft[0] == ft[0];
      assert ft == [ft[0]] + ft[1..];
    } else {
      assert (w + t)[0] == w[0] && (w + t)[1..] == w[1..] + t;
      FieldsOfPrefix(w[1..], t, sep);
      var rest := Fields(w[1..] + t, sep);
      assert rest[0] == w[1..] + ft[0] && rest[1..] == ft[1..];
      assert [w[0]] + (w[1..] + ft[0]) == w + ft[0];
    }
  }

  /** Cutting a join of separator-free fields gives those fields back. */
  lemma {:induction false} FieldsOfJoin(fields: seq<string>, sep: char)
    requires |fields| >= 1
    requires forall i :: 0 <= i < |fields| ==> sep !in fields[i]
    ensures Fields(Join(fields, sep), sep) == fields
    decreases |fields|
  {
    if |fields| == 1 {
      FieldsOfPrefix(fields[0], [], sep);
      assert fields[0] + [] == fields[0];
    } else {
      var tail := Join(fields[1..], sep);
      FieldsOfJoin(fields[1..], sep);
      assert Join(fields, sep) == fields[0] + ([sep] + tail);
      FieldsOfPrefix(fields[0], [sep] + tail, sep);
      assert ([sep] + tail)[0] == sep && ([sep] + tail)[1..] == tail;
      var ft := Fields([sep] + tail, sep);
      assert ft == [[]] + fields[1..];
      assert ft[0] == [] && ft[1..] == fields[1..];
      assert fields[0] + [] == fields[0];
      assert fields == [fields[0]] + fields[1..];
    }
  }

  /**
   * `split` undoes a join of separator-free hosts whose last one is not empty;
   * in particular `"".split(sep)` is `[]`.
   */
  lemma SplitJoin(fields: seq<string>, sep: char)
    requires forall i :: 0 <= i < |fields| ==> sep !in fields[i]
    requires fields == [] || fields[|fields| - 1] != []
    ensures Split(Join(fields, sep), sep) == fields
  {
    if fields != [] {
      FieldsOfJoin(fields, sep);
    }
  }

  /** What `split` leaves out of the fields is only empty fields at the end. */
  lemma SplitDropsOnlyTrailingEmpty(s: string, sep: char)
    ensures Split(s, sep) <= Fields(s, sep)
    ensures forall i :: |Split(s, sep)| <= i < |Fields(s, sep)| ==> Fields(s, sep)[i] == []
    ensures Join(Fields(s, sep), sep) == s
  {
    JoinFields(s, sep);
  }
}
