/** Joining strings with a one-character separator (the behaviour of Go's
    `strings.Join` that the request builder uses), and splitting on it, which
    undoes a join and lets the rendered path be read back. */
module Strings {

  /** No part contains the separator, so a join of them can be split back. */
  predicate NoneContains(parts: seq<string>, sep: char)
  {
    forall i :: 0 <= i < |parts| ==> sep !in parts[i]
  }

  /** The parts in order with one `sep` between neighbours; no parts gives
      the empty string and one part gives that part. */
  function Join(parts: seq<string>, sep: char): (r: string)
    ensures r == "" <==> |parts| == 0 || (|parts| == 1 && parts[0] == "")
  {
    if |parts| == 0 then ""
    else if |parts| == 1 then parts[0]
    else parts[0] + [sep] + Join(parts[1..], sep)
  }

  /** The pieces of `s` between occurrences of `sep`; the empty string
      splits into one empty piece. */
  function Split(s: string, sep: char): (r: seq<string>)
    ensures |r| >= 1
    ensures NoneContains(r, sep)
    ensures |r| == 1 <==> sep !in s
    decreases |s|
  {
    if |s| == 0 then [""]
    else
      var rest := Split(s[1..], sep);
      if s[0] == sep then [""] + rest
      else [[s[0]] + rest[0]] + rest[1..]
  }

  /** A join starts with its first part, and with the first two parts and
      a separator between them when there are two or more. */
  lemma JoinPrefix(parts: seq<string>, sep: char)
    ensures |parts| > 0 ==> parts[0] <= Join(parts, sep)
    ensures |parts| > 1 ==> parts[0] + [sep] + parts[1] <= Join(parts, sep)
  {
    if |parts| > 1 {
      var tail := Join(parts[1..], sep);
      assert parts[1] <= tail by {
        if |parts| > 2 {
          assert parts[1..][1..] == parts[2..];
        }
      }
      assert parts[0] + [sep] + tail == (parts[0] + [sep]) + tail;
    }
  }

  /** Three parts joined: two separators between them. */
  lemma JoinThree(a: string, b: string, c: string, sep: char)
    ensures Join([a, b, c], sep) == a + [sep] + b + [sep] + c
  {
    assert [a, b, c][1..] == [b, c];
    assert [b, c][1..] == [c];
    assert Join([b, c], sep) == b + [sep] + c;
    assert Join([a, b, c], sep) == a + [sep] + (b + [sep] + c);
  }

  /** Four parts joined: three separators between them. */
  lemma JoinFour(a: string, b: string, c: string, d: string, sep: char)
    ensures Join([a, b, c, d], sep) == a + [sep] + b + [sep] + c + [sep] + d
  {
    assert [a, b, c, d][1..] == [b, c, d];
    JoinThree(b, c, d, sep);
    assert Join([a, b, c, d], sep) == a + [sep] + (b + [sep] + c + [sep] + d);
  }

  /** Six parts joined: five separators between them. */
  lemma JoinSix(a: string, b: string, c: string, d: string, e: string, f: string, sep: char)
    ensures Join([a, b, c, d, e, f], sep) == a + [sep] + b + [sep] + c + [sep] + d + [sep] + e + [sep] + f
  {
    assert [a, b, c, d, e, f][1..] == [b, c, d, e, f];
    assert [b, c, d, e, f][1..] == [c, d, e, f];
    JoinFour(c, d, e, f, sep);
    assert Join([b, c, d, e, f], sep) == b + [sep] + (c + [sep] + d + [sep] + e + [sep] + f);
    assert Join([a, b, c, d, e, f], sep) == a + [sep] + (b + [sep] + (c + [sep] + d + [sep] + e + [sep] + f));
  }

  /** Adding a last part adds one separator and that part at the end. */
  lemma {:induction false} JoinAppend(parts: seq<string>, last: string, sep: char)
    requires |parts| > 0
    ensures Join(parts + [last], sep) == Join(parts, sep) + [sep] + last
    decreases |parts|
  {
    if |parts| == 1 {
      assert parts + [last] == [parts[0], last];
      assert [parts[0], last][1..] == [last];
    } else {
      assert (parts + [last])[1..] == parts[1..] + [last];
      JoinAppend(parts[1..], last, sep);
    }
  }

  /** Joining two non-empty lists of parts one after the other is joining
      each and putting one separator between the results. */
  lemma {:induction false} JoinConcat(xs: seq<string>, ys: seq<string>, sep: char)
    requires |xs| > 0 && |ys| > 0
    ensures Join(xs + ys, sep) == Join(xs, sep) + [sep] + Join(ys, sep)
    decreases |xs|
  {
    if |xs| == 1 {
      assert (xs + ys)[1..] == ys;
      assert (xs + ys)[0] == xs[0];
    } else {
      assert (xs + ys)[1..] == xs[1..] + ys;
      JoinConcat(xs[1..], ys, sep);
      var a := Join(xs[1..], sep);
      var b := Join(ys, sep);
      assert xs[0] + [sep] + (a + [sep] + b) == (xs[0] + [sep] + a) + [sep] + b;
    }
  }

  /** A prefix free of the separator merges into the first piece. */
  lemma {:induction false} SplitPrefix(a: string, t: string, sep: char)
    requires sep !in a
    ensures Split(a + t, sep) == [a + Split(t, sep)[0]] + Split(t, sep)[1..]
    decreases |a|
  {
    if |a| == 0 {
      var pieces := Split(t, sep);
      assert a + t == t;
      assert a + pieces[0] == pieces[0];
      assert [pieces[0]] + pieces[1..] == pieces;
    } else {
      assert (a + t)[1..] == a[1..] + t;
      SplitPrefix(a[1..], t, sep);
      assert [a[0]] + (a[1..] + Split(t, sep)[0]) == a + Split(t, sep)[0];
    }
  }

  /** Splitting a join of separator-free parts gives the parts back. */
  lemma {:induction false} SplitJoin(parts: seq<string>, sep: char)
    requires |parts| > 0
    requires NoneContains(parts, sep)
    ensures Split(Join(parts, sep), sep) == parts
    decreases |parts|
  {
    if |parts| == 1 {
      SplitPrefix(parts[0], "", sep);
      assert parts[0] + "" == parts[0];
    } else {
      var tail := Join(parts[1..], sep);
      assert NoneContains(parts[1..], sep) by {
        forall i | 0 <= i < |parts[1..]|
          ensures sep !in parts[1..][i]
        {
          assert parts[1..][i] == parts[i + 1];
        }
      }
      SplitJoin(parts[1..], sep);
      assert sep !in parts[0];
      assert parts[0] + [sep] + tail == parts[0] + ([sep] + tail);
      SplitPrefix(parts[0], [sep] + tail, sep);
      assert ([sep] + tail)[1..] == tail;
      assert Split([sep] + tail, sep) == [""] + parts[1..];
      assert parts[0] + "" == parts[0];
      assert [parts[0]] + parts[1..] == parts;
    }
  }

  /** Putting a character in front of the first part puts it in front of
      the join. */
  lemma JoinConsChar(c: char, parts: seq<string>, sep: char)
    requires |parts| > 0
    ensures Join([[c] + parts[0]] + parts[1..], sep) == [c] + Join(parts, sep)
  {
    var pieces := [[c] + parts[0]] + parts[1..];
    if |parts| > 1 {
      assert pieces[1..] == parts[1..];
      var tail := Join(parts[1..], sep);
      assert ([c] + parts[0]) + [sep] + tail == [c] + (parts[0] + [sep] + tail);
    }
  }

  /** Joining the pieces of a split restores the string. */
  lemma {:induction false} JoinSplit(s: string, sep: char)
    ensures Join(Split(s, sep), sep) == s
    decreases |s|
  {
    if |s| > 0 {
      var rest := Split(s[1..], sep);
      JoinSplit(s[1..], sep);
      assert [s[0]] + s[1..] == s;
      if s[0] == sep {
        assert ([""] + rest)[1..] == rest;
      } else {
        JoinConsChar(s[0], rest, sep);
      }
    }
  }

  /** A character other than the separator that no part holds does not
      occur in the join either. */
  lemma {:induction false} CharNotInJoin(parts: seq<string>, sep: char, c: char)
    requires c != sep
    requires NoneContains(parts, c)
    ensures c !in Join(parts, sep)
    decreases |parts|
  {
    if |parts| > 1 {
      assert NoneContains(parts[1..], c) by {
        forall i | 0 <= i < |parts[1..]|
          ensures c !in parts[1..][i]
        {
          assert parts[1..][i] == parts[i + 1];
        }
      }
      CharNotInJoin(parts[1..], sep, c);
      assert c !in parts[0];
    }
  }
}
