/** Small shared vocabulary: optional values, Python's `int` on floats and `str.split` on one character. */
module Prelude {

  datatype Option<+T> = None | Some(value: T)

  /** Python's `int()` on a float: truncation toward zero. */
  function Trunc(x: real): int {
    if x >= 0.0 then x.Floor else -((-x).Floor)
  }

  /** No value occurs at two positions. */
  ghost predicate Distinct<T>(xs: seq<T>) {
    forall i, j :: 0 <= i < j < |xs| ==> xs[i] != xs[j]
  }

  /** `s.split(sep)` for a one-character separator: never empty. */
  function Split(s: string, sep: char): (parts: seq<string>)
    ensures |parts| >= 1
    ensures forall i :: 0 <= i < |parts| ==> sep !in parts[i]
  {
    if s == "" then [""] else Attach(s[0], sep, Split(s[1..], sep))
  }

  /** The parts of a text with one more character in front. */
  function Attach(c: char, sep: char, parts: seq<string>): (r: seq<string>)
    requires |parts| >= 1
    ensures |r| >= 1
  {
    if c == sep then [""] + parts else [[c] + parts[0]] + parts[1..]
  }

  lemma AttachConcat(c: char, sep: char, parts: seq<string>, more: seq<string>)
    requires |parts| >= 1
    ensures Attach(c, sep, parts + more) == Attach(c, sep, parts) + more
  {
    assert (parts + more)[1..] == parts[1..] + more;
  }

  /** The inverse of `Split`: `sep.join(parts)`. */
  function Join(parts: seq<string>, sep: char): (s: string) {
    if parts == [] then ""
    else if |parts| == 1 then parts[0]
    else parts[0] + [sep] + Join(parts[1..], sep)
  }

  /** Splitting loses nothing: joining the parts gives the text back. */
  lemma {:induction false} JoinSplit(s: string, sep: char)
    ensures Join(Split(s, sep), sep) == s
  {
    if s != "" {
      JoinSplit(s[1..], sep);
      var rest := Split(s[1..], sep);
      if s[0] == sep {
        assert ([""] + rest)[1..] == rest;
      } else {
        var all := [[s[0]] + rest[0]] + rest[1..];
        assert all[1..] == rest[1..];
        if |rest| > 1 {
          assert Join(all, sep) == [s[0]] + (rest[0] + [sep] + Join(rest[1..], sep));
        }
      }
      assert s == [s[0]] + s[1..];
    }
  }

  /** A separator between two texts splits them apart. */
  lemma {:induction false} SplitConcat(s: string, rest: string, sep: char)
    ensures Split(s + [sep] + rest, sep) == Split(s, sep) + Split(rest, sep)
  {
    var all := s + [sep] + rest;
    if s == "" {
      assert all[0] == sep && all[1..] == rest;
    } else {
      SplitConcat(s[1..], rest, sep);
      assert all[0] == s[0] && all[1..] == s[1..] + [sep] + rest;
      AttachConcat(s[0], sep, Split(s[1..], sep), Split(rest, sep));
    }
  }

  /** One part exactly when there is no separator. */
  lemma {:induction false} SplitWhole(s: string, sep: char)
    ensures sep !in s ==> Split(s, sep) == [s]
    ensures sep in s ==> |Split(s, sep)| >= 2
  {
    if s != "" {
      SplitWhole(s[1..], sep);
      assert s == [s[0]] + s[1..];
    }
  }
}
