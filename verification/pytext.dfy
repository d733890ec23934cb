/** Python's `sep.join(pieces)` and `s.split(c)` for a one-character separator. */
module PyText {

  /** `sep.join(pieces)`. */
  function Join(sep: string, pieces: seq<string>): string
  {
    if |pieces| == 0 then ""
    else if |pieces| == 1 then pieces[0]
    else pieces[0] + sep + Join(sep, pieces[1..])
  }

  /** Position of the first `c` in `s` (Python's `s.index(c)`). */
  function FirstIndexOf(s: string, c: char): (i: nat)
    requires c in s
    ensures i < |s| && s[i] == c
    ensures forall k :: 0 <= k < i ==> s[k] != c
  {
    if s[0] == c then 0 else 1 + FirstIndexOf(s[1..], c)
  }

  /** `s.split(sep)`: the maximal separator-free pieces, in order; the empty
      string splits into one empty piece. */
  function Split(s: string, sep: char): (pieces: seq<string>)
    ensures |pieces| >= 1
    ensures forall k :: 0 <= k < |pieces| ==> sep !in pieces[k]
    ensures |pieces| >= 2 <==> sep in s
    decreases |s|
  {
    if sep !in s then [s]
    else
      var i := FirstIndexOf(s, sep);
      [s[..i]] + Split(s[i + 1..], sep)
  }

  /** Joining the pieces of a split with the same separator gives back the string. */
  lemma {:induction false} JoinSplit(s: string, sep: char)
    ensures Join([sep], Split(s, sep)) == s
    decreases |s|
  {
    if sep in s {
      var i := FirstIndexOf(s, sep);
      JoinSplit(s[i + 1..], sep);
      var rest := Split(s[i + 1..], sep);
      assert Split(s, sep) == [s[..i]] + rest;
      assert s == s[..i] + [sep] + s[i + 1..];
    }
  }

  /** Splitting a separator-free piece followed by the separator peels the piece off. */
  lemma SplitCons(p: string, sep: char, rest: string)
    requires sep !in p
    ensures Split(p + [sep] + rest, sep) == [p] + Split(rest, sep)
  {
    var s := p + [sep] + rest;
    assert s[|p|] == sep;
    assert forall k :: 0 <= k < |p| ==> s[k] == p[k];
    assert FirstIndexOf(s, sep) == |p|;
    assert s[..|p|] == p;
    assert s[|p| + 1..] == rest;
  }

  /** Splitting a join of separator-free pieces recovers the pieces, provided there
      is at least one: `"".split(c)` is `[""]`, not `[]`. */
  lemma {:induction false} SplitJoin(pieces: seq<string>, sep: char)
    requires |pieces| >= 1
    requires forall k :: 0 <= k < |pieces| ==> sep !in pieces[k]
    ensures Split(Join([sep], pieces), sep) == pieces
  {
    if |pieces| > 1 {
      var tail := pieces[1..];
      assert Join([sep], pieces) == pieces[0] + [sep] + Join([sep], tail);
      assert sep !in pieces[0];
      SplitCons(pieces[0], sep, Join([sep], tail));
      SplitJoin(tail, sep);
      assert pieces == [pieces[0]] + tail;
    }
  }
}
