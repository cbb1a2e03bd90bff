/** String building blocks used by the two text exports: concatenation of a
    list of pieces (JavaScript template literals and `+=`), `Array.join` and its
    inverse `String.split`, and the placement facts that say where each piece
    ends up in the result. */
module Text {

  /** The pieces glued together with nothing between them (`Array.join('')`). */
  function Concat(parts: seq<string>): string
  {
    if parts == [] then "" else parts[0] + Concat(parts[1..])
  }

  lemma {:induction false} ConcatAppend(a: seq<string>, b: seq<string>)
    ensures Concat(a + b) == Concat(a) + Concat(b)
  {
    if a == [] {
      assert a + b == b;
    } else {
      assert (a + b)[1..] == a[1..] + b;
      ConcatAppend(a[1..], b);
    }
  }

  /** The position at which `parts[i]` starts inside `Concat(parts)`. */
  function Offset(parts: seq<string>, i: nat): nat
    requires i <= |parts|
  {
    |Concat(parts[..i])|
  }

  /** `parts[i]` is found, whole, at `Offset(parts, i)`, and the next piece
      starts right after it. */
  lemma ConcatPlacement(parts: seq<string>, i: nat)
    requires i < |parts|
    ensures Offset(parts, i) + |parts[i]| <= |Concat(parts)|
    ensures Concat(parts)[Offset(parts, i)..Offset(parts, i) + |parts[i]|] == parts[i]
    ensures Offset(parts, i + 1) == Offset(parts, i) + |parts[i]|
  {
    assert parts == parts[..i] + [parts[i]] + parts[i + 1..];
    assert parts[..i + 1] == parts[..i] + [parts[i]];
    ConcatAppend(parts[..i] + [parts[i]], parts[i + 1..]);
    ConcatAppend(parts[..i], [parts[i]]);
    assert Concat([parts[i]]) == parts[i];
  }

  /** Pieces appear in the order of the list: a later piece never starts
      before an earlier one ends. */
  lemma OffsetsInOrder(parts: seq<string>, i: nat, j: nat)
    requires i < j < |parts|
    ensures Offset(parts, i) + |parts[i]| <= Offset(parts, j)
  {
    ConcatPlacement(parts, i);
    assert parts[..j] == parts[..i + 1] + parts[i + 1..j];
    ConcatAppend(parts[..i + 1], parts[i + 1..j]);
  }

  /** `Array.join(sep)`: the pieces with `sep` between neighbours. */
  function Join(parts: seq<string>, sep: string): string
  {
    if |parts| == 0 then ""
    else if |parts| == 1 then parts[0]
    else parts[0] + sep + Join(parts[1..], sep)
  }

  /** Joining two non-empty lists puts exactly one separator at the seam. */
  lemma {:induction false} JoinAppend(a: seq<string>, b: seq<string>, sep: string)
    requires a != [] && b != []
    ensures Join(a + b, sep) == Join(a, sep) + sep + Join(b, sep)
  {
    if |a| == 1 {
      assert (a + b)[1..] == b;
    } else {
      assert (a + b)[1..] == a[1..] + b;
      JoinAppend(a[1..], b, sep);
    }
  }

  /** Joining one more piece onto a non-empty prefix. */
  lemma JoinPrefixStep(parts: seq<string>, sep: string, k: nat)
    requires 0 < k < |parts|
    ensures Join(parts[..k + 1], sep) == Join(parts[..k], sep) + sep + parts[k]
  {
    assert parts[..k + 1] == parts[..k] + [parts[k]];
    JoinAppend(parts[..k], [parts[k]], sep);
  }

  /** Where `parts[i]` starts inside `Join(parts, sep)`. */
  function JoinStart(parts: seq<string>, sep: string, i: nat): nat
    requires i <= |parts|
  {
    if i == 0 then 0 else |Join(parts[..i], sep)| + |sep|
  }

  /** From the start of `parts[i]` on, the joined text is the join of the
      pieces from `i` on. */
  lemma JoinSuffix(parts: seq<string>, sep: string, i: nat)
    requires i < |parts|
    ensures JoinStart(parts, sep, i) <= |Join(parts, sep)|
    ensures Join(parts, sep)[JoinStart(parts, sep, i)..] == Join(parts[i..], sep)
  {
    if i == 0 {
      assert parts[i..] == parts;
    } else {
      assert parts == parts[..i] + parts[i..];
      JoinAppend(parts[..i], parts[i..], sep);
    }
  }

  /** The next piece starts one separator after this one ends. */
  lemma JoinStartNext(parts: seq<string>, sep: string, i: nat)
    requires i + 1 < |parts|
    ensures JoinStart(parts, sep, i + 1) == JoinStart(parts, sep, i) + |parts[i]| + |sep|
  {
    if i == 0 {
      assert parts[..1] == [parts[0]];
    } else {
      JoinPrefixStep(parts, sep, i);
    }
  }

  /** `parts[i]` is found, whole, at `JoinStart(parts, sep, i)`; it is
      followed by one separator and then the next piece, or, when it is the
      last piece, by the end of the text. */
  lemma JoinPlacement(parts: seq<string>, sep: string, i: nat)
    requires i < |parts|
    ensures var j := Join(parts, sep); var s := JoinStart(parts, sep, i); var e := s + |parts[i]|;
      && e <= |j|
      && j[s..e] == parts[i]
      && (i + 1 < |parts| ==> e + |sep| <= |j| && j[e..e + |sep|] == sep && JoinStart(parts, sep, i + 1) == e + |sep|)
      && (i + 1 == |parts| ==> e == |j|)
  {
    var j := Join(parts, sep);
    var s := JoinStart(parts, sep, i);
    var e := s + |parts[i]|;
    var tail := Join(parts[i..], sep);
    JoinSuffix(parts, sep, i);
    assert j[s..] == tail;
    if i + 1 < |parts| {
      assert parts[i..][1..] == parts[i + 1..];
      assert tail == parts[i] + sep + Join(parts[i + 1..], sep);
      assert j[s..e] == tail[..|parts[i]|];
      assert j[e..e + |sep|] == tail[|parts[i]|..|parts[i]| + |sep|];
      JoinStartNext(parts, sep, i);
    } else {
      assert parts[i..] == [parts[i]];
      assert tail == parts[i];
    }
  }

  /** `String.split(c)` for a one-character separator: the maximal runs of
      characters other than `c`, so `k` separators give `k + 1` pieces. */
  function Split(s: string, c: char): (r: seq<string>)
    ensures |r| >= 1
    decreases |s|
  {
    if |s| == 0 then [""]
    else if s[0] == c then [""] + Split(s[1..], c)
    else
      var rest := Split(s[1..], c);
      [[s[0]] + rest[0]] + rest[1..]
  }

  lemma {:induction false} SplitWithout(x: string, c: char)
    requires c !in x
    ensures Split(x, c) == [x]
  {
    if |x| > 0 {
      assert c !in x[1..];
      SplitWithout(x[1..], c);
      assert [x[0]] + x[1..] == x;
    }
  }

  lemma {:induction false} SplitAtFirst(x: string, y: string, c: char)
    requires c !in x
    ensures Split(x + [c] + y, c) == [x] + Split(y, c)
  {
    var s := x + [c] + y;
    if |x| == 0 {
      assert s == [c] + y;
      assert s[1..] == y;
    } else {
      assert s[0] == x[0];
      assert s[1..] == x[1..] + [c] + y;
      assert c !in x[1..];
      SplitAtFirst(x[1..], y, c);
      assert [x[0]] + x[1..] == x;
    }
  }

  /** Splitting undoes joining, as long as no piece holds the separator. */
  lemma {:induction false} SplitJoin(parts: seq<string>, c: char)
    requires parts != []
    requires forall i :: 0 <= i < |parts| ==> c !in parts[i]
    ensures Split(Join(parts, [c]), c) == parts
  {
    if |parts| == 1 {
      SplitWithout(parts[0], c);
    } else {
      SplitJoin(parts[1..], c);
      assert Join(parts, [c]) == parts[0] + [c] + Join(parts[1..], [c]);
      SplitAtFirst(parts[0], Join(parts[1..], [c]), c);
      assert [parts[0]] + parts[1..] == parts;
    }
  }
}
