/** Go's `strings.Split(s, sep)` for a one-character separator, and its inverse.

    Split keeps empty segments: the result has one more element than `s` has
    occurrences of `sep`, so `""` splits into `[""]`, `"/x"` into `["", "x"]`
    and `"in/"` into `["in", ""]`.
 */
module Strings {

  /** The segments of `parts` with one `sep` between neighbours. */
  function Join(parts: seq<string>, sep: char): string
    requires |parts| > 0
    decreases |parts|
  {
    if |parts| == 1 then parts[0] else parts[0] + [sep] + Join(parts[1..], sep)
  }

  /** The maximal `sep`-free segments of `s`, in order: a separator closes
      the current segment, any other character extends it. */
  function Split(s: string, sep: char): (parts: seq<string>)
    ensures |parts| > 0
    decreases |s|
  {
    if s == [] then [[]]
    else
      var rest := Split(s[1..], sep);
      if s[0] == sep then [[]] + rest else [[s[0]] + rest[0]] + rest[1..]
  }

  /** Split yields one segment more than `s` has separators, none of them
      holding the separator, and the segments joined back give `s`. */
  lemma SplitSpec(s: string, sep: char)
    ensures |Split(s, sep)| == multiset(s)[sep] + 1
    ensures forall i :: 0 <= i < |Split(s, sep)| ==> sep !in Split(s, sep)[i]
    ensures Join(Split(s, sep), sep) == s
  {
    SplitCount(s, sep);
    SplitSegments(s, sep);
    SplitJoins(s, sep);
  }

  /** One segment more than separators. */
  lemma {:induction false} SplitCount(s: string, sep: char)
    ensures |Split(s, sep)| == multiset(s)[sep] + 1
    decreases |s|
  {
    if s != [] {
      SplitCount(s[1..], sep);
      CountHead(s, sep);
    }
  }

  /** No segment holds the separator. */
  lemma {:induction false} SplitSegments(s: string, sep: char)
    ensures forall i :: 0 <= i < |Split(s, sep)| ==> sep !in Split(s, sep)[i]
    decreases |s|
  {
    if s != [] {
      var rest := Split(s[1..], sep);
      SplitSegments(s[1..], sep);
      if s[0] != sep {
        assert forall i :: 1 <= i < |Split(s, sep)| ==> Split(s, sep)[i] == rest[i];
      }
    }
  }

  /** Joining the segments gives the string back. */
  lemma {:induction false} SplitJoins(s: string, sep: char)
    ensures Join(Split(s, sep), sep) == s
    decreases |s|
  {
    if s != [] {
      var rest := Split(s[1..], sep);
      SplitJoins(s[1..], sep);
      if s[0] == sep {
        JoinSeparatorFirst(rest, sep);
      } else {
        JoinCharFirst(s[0], rest, sep);
      }
    }
  }

  /** The separator count of `s` is that of its tail plus its head's. */
  lemma CountHead(s: string, sep: char)
    requires s != []
    ensures multiset(s)[sep] == multiset(s[1..])[sep] + (if s[0] == sep then 1 else 0)
  {
    assert s == [s[0]] + s[1..];
  }

  /** An empty first segment contributes only the separator after it. */
  lemma JoinSeparatorFirst(rest: seq<string>, sep: char)
    requires |rest| > 0
    ensures Join([[]] + rest, sep) == [sep] + Join(rest, sep)
  {
    assert ([[]] + rest)[1..] == rest;
  }

  /** A character prepended to the first segment is prepended to the join. */
  lemma JoinCharFirst(c: char, rest: seq<string>, sep: char)
    requires |rest| > 0
    ensures Join([[c] + rest[0]] + rest[1..], sep) == [c] + Join(rest, sep)
  {
    var parts := [[c] + rest[0]] + rest[1..];
    assert parts[1..] == rest[1..];
  }

  /** A separator-free prefix becomes the first segment of its own. */
  lemma {:induction false} SplitCons(head: string, sep: char, tail: string)
    requires sep !in head
    ensures Split(head + [sep] + tail, sep) == [head] + Split(tail, sep)
    decreases |head|
  {
    var s := head + [sep] + tail;
    if head == [] {
      assert s[0] == sep && s[1..] == tail;
    } else {
      assert s[0] == head[0] && s[1..] == head[1..] + [sep] + tail;
      SplitCons(head[1..], sep, tail);
      var rest := Split(s[1..], sep);
      assert rest[0] == head[1..] && rest[1..] == Split(tail, sep);
      assert Split(s, sep) == [[s[0]] + rest[0]] + rest[1..];
      assert [s[0]] + rest[0] == head;
    }
  }

  /** A string without the separator is a single segment. */
  lemma SplitSingle(s: string, sep: char)
    requires sep !in s
    ensures Split(s, sep) == [s]
  {
    assert sep !in multiset(s);
    SplitSpec(s, sep);
  }

  /** Two separator-free segments joined by one separator split back into the two. */
  lemma SplitTwo(a: string, sep: char, b: string)
    requires sep !in a && sep !in b
    ensures Split(a + [sep] + b, sep) == [a, b]
  {
    SplitCons(a, sep, b);
    SplitSingle(b, sep);
  }

  /** Split inverts Join: separator-free segments are recovered exactly. */
  lemma {:induction false} SplitJoin(parts: seq<string>, sep: char)
    requires |parts| > 0
    requires forall i :: 0 <= i < |parts| ==> sep !in parts[i]
    ensures Split(Join(parts, sep), sep) == parts
    decreases |parts|
  {
    if |parts| == 1 {
      SplitSingle(parts[0], sep);
    } else {
      assert forall i :: 0 <= i < |parts[1..]| ==> sep !in parts[1..][i] by {
        forall i | 0 <= i < |parts[1..]| ensures sep !in parts[1..][i] {
          assert parts[1..][i] == parts[i + 1];
        }
      }
      SplitJoin(parts[1..], sep);
      SplitCons(parts[0], sep, Join(parts[1..], sep));
      assert [parts[0]] + parts[1..] == parts;
    }
  }
}
