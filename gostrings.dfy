/**
 * Go's `strings.Split(s, sep)` for a one-character separator: the pieces of `s`
 * between occurrences of `sep`. A string without `sep` (the empty string
 * included) gives one piece, the string itself.
 */
module GoStrings {

  /** Number of occurrences of `c` in `s`. */
  function Count(s: string, c: char): nat
  {
    if s == [] then 0 else (if s[0] == c then 1 else 0) + Count(s[1..], c)
  }

  /** The pieces of `s` around every `sep`; there is one more piece than separators. */
  function Split(s: string, sep: char): (r: seq<string>)
    ensures |r| == Count(s, sep) + 1
    decreases |s|
  {
    if s == [] then [[]]
    else
      var rest := Split(s[1..], sep);
      if s[0] == sep then [[]] + rest
      else [[s[0]] + rest[0]] + rest[1..]
  }

  /** Glues pieces back together with `sep` between neighbours (Go's `strings.Join`). */
  function Join(ts: seq<string>, sep: char): string
    requires |ts| >= 1
  {
    if |ts| == 1 then ts[0] else ts[0] + [sep] + Join(ts[1..], sep)
  }

  /** No piece of a split contains the separator. */
  lemma {:induction false} SplitPiecesFree(s: string, sep: char)
    ensures forall t :: t in Split(s, sep) ==> sep !in t
  {
    if s != [] {
      SplitPiecesFree(s[1..], sep);
      var rest := Split(s[1..], sep);
      if s[0] != sep {
        assert sep !in rest[0];
        assert forall t :: t in rest[1..] ==> t in rest;
      }
    }
  }

  /** Splitting loses nothing: joining the pieces restores the string. */
  lemma {:induction false} JoinSplit(s: string, sep: char)
    ensures Join(Split(s, sep), sep) == s
  {
    if s != [] {
      JoinSplit(s[1..], sep);
      var rest := Split(s[1..], sep);
      if s[0] == sep {
        assert Split(s, sep)[1..] == rest;
      } else {
        var r := Split(s, sep);
        if |rest| == 1 {
          assert r == [[s[0]] + rest[0]];
        } else {
          assert r[1..] == rest[1..];
          assert Join(rest, sep) == rest[0] + [sep] + Join(rest[1..], sep);
        }
        assert s == [s[0]] + s[1..];
      }
    }
  }

  /** Splitting `t + rest` where `t` has no separator glues `t` to the front of the first piece of `rest`. */
  lemma {:induction false} SplitPrefix(t: string, rest: string, sep: char)
    requires sep !in t
    ensures Split(t + rest, sep) == [t + Split(rest, sep)[0]] + Split(rest, sep)[1..]
  {
    if t != [] {
      SplitPrefix(t[1..], rest, sep);
      assert (t + rest)[1..] == t[1..] + rest;
      assert (t + rest)[0] == t[0];
      assert [t[0]] + (t[1..] + Split(rest, sep)[0]) == t + Split(rest, sep)[0];
    } else {
      var r := Split(rest, sep);
      assert t + rest == rest;
      assert t + r[0] == r[0];
      assert [r[0]] + r[1..] == r;
    }
  }

  /** Joining separator-free pieces and splitting again gives the pieces back. */
  lemma {:induction false} SplitJoin(ts: seq<string>, sep: char)
    requires |ts| >= 1
    requires forall t :: t in ts ==> sep !in t
    ensures Split(Join(ts, sep), sep) == ts
  {
    if |ts| == 1 {
      SplitPrefix(ts[0], [], sep);
      assert ts[0] + [] == ts[0];
    } else {
      assert forall t :: t in ts[1..] ==> t in ts;
      SplitJoin(ts[1..], sep);
      var u := Join(ts[1..], sep);
      assert ts[0] + [sep] + u == ts[0] + ([sep] + u);
      SplitPrefix(ts[0], [sep] + u, sep);
      assert ([sep] + u)[1..] == u;
      assert Split([sep] + u, sep) == [[]] + ts[1..];
      assert ts[0] + [] == ts[0];
    }
  }

  /** The two-piece case, by the text around the single separator: splitting `k + [sep] + v` gives exactly `[k, v]`. */
  lemma SplitAroundOne(k: string, v: string, sep: char)
    requires sep !in k && sep !in v
    ensures Split(k + [sep] + v, sep) == [k, v]
  {
    assert Join([k, v], sep) == k + [sep] + v;
    SplitJoin([k, v], sep);
  }

  /** Conversely, two pieces mean the string is the first piece, one separator, and the second piece. */
  lemma SplitTwoPieces(s: string, sep: char)
    requires |Split(s, sep)| == 2
    ensures Count(s, sep) == 1
    ensures s == Split(s, sep)[0] + [sep] + Split(s, sep)[1]
    ensures sep !in Split(s, sep)[0] && sep !in Split(s, sep)[1]
  {
    var r := Split(s, sep);
    JoinSplit(s, sep);
    assert Join(r[1..], sep) == r[1];
    SplitPiecesFree(s, sep);
    assert r[0] in r && r[1] in r;
  }
}
