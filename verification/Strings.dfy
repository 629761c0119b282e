/** str.split and str.join for a one-character separator. */
module Strings {
  import opened Sequences

  // s.split(sep): always at least one segment.
  function Split(s: string, sep: char): (parts: seq<string>)
    ensures |parts| >= 1
    ensures forall p :: p in parts ==> sep !in p
  {
    if s == "" then [""]
    else
      var rest := Split(s[1..], sep);
      assert sep !in rest[0];
      SplitCons(s[0], rest, sep)
  }

  function SplitCons(c: char, rest: seq<string>, sep: char): seq<string>
    requires |rest| >= 1
  {
    if c == sep then [""] + rest else [[c] + rest[0]] + rest[1..]
  }

  // sep.join(parts)
  function Join(parts: seq<string>, sep: char): string
    requires |parts| >= 1
  {
    if |parts| == 1 then parts[0] else parts[0] + [sep] + Join(parts[1..], sep)
  }

  lemma JoinCons(c: char, rest: seq<string>, sep: char)
    requires |rest| >= 1
    ensures Join(SplitCons(c, rest, sep), sep) == [c] + Join(rest, sep)
  {
    var parts := SplitCons(c, rest, sep);
    if c == sep {
      assert parts[1..] == rest;
      assert "" + [sep] == [c];
    } else if |rest| > 1 {
      assert parts[1..] == rest[1..];
      var tail := Join(rest[1..], sep);
      Associates([c], rest[0], [sep]);
      Associates([c], rest[0] + [sep], tail);
      assert Join(rest, sep) == rest[0] + [sep] + tail;
    }
  }

  // join undoes split.
  lemma {:induction false} JoinSplit(s: string, sep: char)
    ensures Join(Split(s, sep), sep) == s
  {
    if s != "" {
      JoinSplit(s[1..], sep);
      JoinCons(s[0], Split(s[1..], sep), sep);
      assert s == [s[0]] + s[1..];
    }
  }

  lemma {:induction false} SplitInjective(a: string, b: string, sep: char)
    requires Split(a, sep) == Split(b, sep)
    ensures a == b
  {
    JoinSplit(a, sep);
    JoinSplit(b, sep);
  }

  lemma {:induction false} SplitSegment(n: string, sep: char)
    requires sep !in n
    ensures Split(n, sep) == [n]
  {
    if n != "" {
      assert n[0] in n;
      assert forall c :: c in n[1..] ==> c in n;
      SplitSegment(n[1..], sep);
      assert n == [n[0]] + n[1..];
    }
  }

  // Splitting around a separator splits each side.
  lemma {:induction false} SplitAppend(a: string, b: string, sep: char)
    ensures Split(a + [sep] + b, sep) == Split(a, sep) + Split(b, sep)
  {
    var s := a + [sep] + b;
    if a == "" {
      assert s[0] == sep && s[1..] == b;
    } else {
      SplitAppend(a[1..], b, sep);
      assert s[0] == a[0] && s[1..] == a[1..] + [sep] + b;
      SplitConsAppend(a[0], Split(a[1..], sep), Split(b, sep), sep);
    }
  }

  lemma SplitConsAppend(c: char, xs: seq<string>, ys: seq<string>, sep: char)
    requires |xs| >= 1
    ensures SplitCons(c, xs + ys, sep) == SplitCons(c, xs, sep) + ys
  {
  }

  // A string is two segments exactly when it is spelled as them.
  lemma {:induction false} SplitTwo(s: string, sep: char)
    ensures |Split(s, sep)| == 2 <==> exists a, b :: sep !in a && sep !in b && s == a + [sep] + b
    ensures forall a, b | sep !in a && sep !in b && s == a + [sep] + b :: Split(s, sep) == [a, b]
  {
    var parts := Split(s, sep);
    if |parts| == 2 {
      JoinSplit(s, sep);
      assert parts[1..] == [parts[1]];
      assert s == parts[0] + [sep] + parts[1];
      assert sep !in parts[0] && sep !in parts[1];
    }
    forall a, b | sep !in a && sep !in b && s == a + [sep] + b ensures Split(s, sep) == [a, b] {
      SplitAppend(a, b, sep);
      SplitSegment(a, sep);
      SplitSegment(b, sep);
    }
  }
}
