/** String helpers: joining, splitting, decimal rendering, counting characters. */
module Text {

  /** `parts.join(sep)`. */
  function Join(parts: seq<string>, sep: string): string
    decreases |parts|
  {
    if |parts| == 0 then ""
    else if |parts| == 1 then parts[0]
    else Join(parts[..|parts| - 1], sep) + sep + parts[|parts| - 1]
  }

  /** `s.split(c)` for a one-character separator: at least one piece, none containing `c`. */
  function Split(s: string, c: char): (pieces: seq<string>)
    ensures |pieces| >= 1
    decreases |s|
  {
    if |s| == 0 then [""]
    else
      var rest := Split(s[..|s| - 1], c);
      if s[|s| - 1] == c then rest + [""]
      else rest[..|rest| - 1] + [rest[|rest| - 1] + [s[|s| - 1]]]
  }

  /** The number of times `c` occurs in `s`. */
  function Occurrences(s: string, c: char): (k: nat)
    ensures k == 0 <==> c !in s
    ensures k <= |s|
  {
    if |s| == 0 then 0
    else Occurrences(s[..|s| - 1], c) + (if s[|s| - 1] == c then 1 else 0)
  }

  /** Counting distributes over concatenation. */
  lemma {:induction false} OccurrencesAppend(a: string, b: string, c: char)
    ensures Occurrences(a + b, c) == Occurrences(a, c) + Occurrences(b, c)
    decreases |b|
  {
    if |b| == 0 {
      assert a + b == a;
    } else {
      OccurrencesAppend(a, b[..|b| - 1], c);
      assert (a + b)[..|a + b| - 1] == a + b[..|b| - 1];
    }
  }

  /** Appending nothing changes nothing. */
  lemma AppendEmpty(s: string)
    ensures s + "" == s
  {
  }

  /** Counting one more character. */
  lemma OccurrencesPush(s: string, x: char, c: char)
    ensures Occurrences(s + [x], c) == Occurrences(s, c) + (if x == c then 1 else 0)
  {
    assert (s + [x])[..|s|] == s;
  }

  /** A text free of `c` followed by one `c` holds exactly one. */
  lemma OccurrencesMark(s: string, c: char)
    requires c !in s
    ensures Occurrences(s + [c], c) == 1
  {
    assert (s + [c])[..|s|] == s;
  }

  predicate IsDigit(c: char) {
    '0' <= c <= '9'
  }

  /** The decimal text of a natural number, as JavaScript renders an integer. */
  function NatToString(n: nat): (r: string)
    ensures |r| > 0 && forall i | 0 <= i < |r| :: IsDigit(r[i])
  {
    if n < 10 then [(48 + n) as char]
    else NatToString(n / 10) + [(48 + n % 10) as char]
  }

  /** Reads back a string of decimal digits. */
  function ParseNat(s: string): nat
    requires forall i | 0 <= i < |s| :: IsDigit(s[i])
  {
    if |s| == 0 then 0
    else
      var last := s[|s| - 1];
      assert IsDigit(last);
      10 * ParseNat(s[..|s| - 1]) + (last as int - '0' as int)
  }

  lemma {:induction false} NatToStringRoundTrip(n: nat)
    ensures ParseNat(NatToString(n)) == n
  {
    if n >= 10 {
      var r := NatToString(n);
      assert r[..|r| - 1] == NatToString(n / 10);
      NatToStringRoundTrip(n / 10);
    }
  }

  /** Extending the last part extends the join. */
  lemma JoinExtendLast(parts: seq<string>, sep: string, x: char)
    requires |parts| >= 1
    ensures Join(parts[..|parts| - 1] + [parts[|parts| - 1] + [x]], sep) == Join(parts, sep) + [x]
  {
    var k := |parts|;
    var q := parts[..k - 1] + [parts[k - 1] + [x]];
    if k > 1 {
      assert q[..k - 1] == parts[..k - 1];
      var j := Join(parts[..k - 1], sep);
      assert Join(q, sep) == j + sep + (parts[k - 1] + [x]);
      assert j + sep + (parts[k - 1] + [x]) == (j + sep + parts[k - 1]) + [x];
    }
  }

  /** Joining the pieces of a split with the separator gives the string back. */
  lemma {:induction false} SplitJoin(s: string, c: char)
    ensures Join(Split(s, c), [c]) == s
    decreases |s|
  {
    if |s| > 0 {
      var init, x := s[..|s| - 1], s[|s| - 1];
      assert s == init + [x];
      SplitJoin(init, c);
      var rest := Split(init, c);
      if x == c {
        assert Split(s, c) == rest + [""];
        assert (rest + [""])[..|rest|] == rest;
      } else {
        assert Split(s, c) == rest[..|rest| - 1] + [rest[|rest| - 1] + [x]];
        JoinExtendLast(rest, [c], x);
      }
    }
  }

  /** No piece of a split contains the separator, and there is one piece more than separators. */
  lemma {:induction false} SplitPieces(s: string, c: char)
    ensures forall i | 0 <= i < |Split(s, c)| :: c !in Split(s, c)[i]
    ensures |Split(s, c)| == Occurrences(s, c) + 1
    decreases |s|
  {
    if |s| > 0 {
      var init, x := s[..|s| - 1], s[|s| - 1];
      assert s == init + [x];
      SplitPieces(init, c);
      var rest, pieces := Split(init, c), Split(s, c);
      var k := |rest|;
      if x != c {
        forall i | 0 <= i < |pieces| ensures c !in pieces[i] {
          if i < k - 1 {
            assert pieces[i] == rest[i];
          } else {
            assert pieces[i] == rest[k - 1] + [x];
          }
        }
      }
    }
  }

  /** A text without the separator is a single piece. */
  lemma {:induction false} SplitFree(s: string, c: char)
    requires c !in s
    ensures Split(s, c) == [s]
    decreases |s|
  {
    if |s| > 0 {
      SplitFree(s[..|s| - 1], c);
      assert s[..|s| - 1] + [s[|s| - 1]] == s;
    }
  }

  /** A separator followed by a text without separators closes the pieces so far and opens one more. */
  lemma {:induction false} SplitAfterSeparator(s: string, c: char, tail: string)
    requires c !in tail
    ensures Split(s + [c] + tail, c) == Split(s, c) + [tail]
    decreases |tail|
  {
    var t := s + [c] + tail;
    if |tail| == 0 {
      assert t[..|t| - 1] == s;
    } else {
      var init := tail[..|tail| - 1];
      SplitAfterSeparator(s, c, init);
      assert t[..|t| - 1] == s + [c] + init;
      assert init + [tail[|tail| - 1]] == tail;
    }
  }

  /** Splitting undoes joining when no piece holds the separator: the pieces of a text are unique. */
  lemma {:induction false} SplitOfJoin(pieces: seq<string>, c: char)
    requires |pieces| >= 1
    requires forall i | 0 <= i < |pieces| :: c !in pieces[i]
    ensures Split(Join(pieces, [c]), c) == pieces
    decreases |pieces|
  {
    if |pieces| == 1 {
      SplitFree(pieces[0], c);
    } else {
      var init := pieces[..|pieces| - 1];
      SplitOfJoin(init, c);
      SplitAfterSeparator(Join(init, [c]), c, pieces[|pieces| - 1]);
      assert init + [pieces[|pieces| - 1]] == pieces;
    }
  }

  /** A non-empty join starts with the first part's first character. */
  lemma {:induction false} JoinHead(parts: seq<string>, sep: string)
    requires |parts| > 0 && |parts[0]| > 0
    ensures |Join(parts, sep)| > 0 && Join(parts, sep)[0] == parts[0][0]
    decreases |parts|
  {
    if |parts| > 1 {
      JoinHead(parts[..|parts| - 1], sep);
    }
  }

  /** The number of times `c` occurs in all the parts together. */
  function TotalOccurrences(parts: seq<string>, c: char): nat {
    if |parts| == 0 then 0
    else TotalOccurrences(parts[..|parts| - 1], c) + Occurrences(parts[|parts| - 1], c)
  }

  /** A separator free of `c` adds no occurrence of `c` to a join. */
  lemma {:induction false} JoinOccurrences(parts: seq<string>, sep: string, c: char)
    requires c !in sep
    ensures Occurrences(Join(parts, sep), c) == TotalOccurrences(parts, c)
    decreases |parts|
  {
    if |parts| == 1 {
      assert parts[..0] == [];
    } else if |parts| > 1 {
      var init := Join(parts[..|parts| - 1], sep);
      JoinOccurrences(parts[..|parts| - 1], sep, c);
      OccurrencesAppend(init, sep, c);
      OccurrencesAppend(init + sep, parts[|parts| - 1], c);
    }
  }
}
