/**
 * The two string operations the override pipeline relies on, with a
 * one-character separator: the JavaScript `String.prototype.split` and
 * `Array.prototype.join`.
 */
module Strings {

  /** The number of occurrences of `c` in `s`. */
  function Count(s: string, c: char): nat
  {
    if |s| == 0 then 0 else (if s[0] == c then 1 else 0) + Count(s[1..], c)
  }

  /**
   * `s.split(sep)`: the maximal pieces between separators, empty pieces
   * included, so "" gives [""] and ",a" gives ["", "a"].
   */
  function Split(s: string, sep: char): (pieces: seq<string>)
    ensures |pieces| > 0
  {
    if |s| == 0 then [""] else Prepend(s[0], Split(s[1..], sep), sep)
  }

  /** The split of `[c] + t`, given the split `rest` of `t`. */
  function Prepend(c: char, rest: seq<string>, sep: char): seq<string>
    requires |rest| > 0
  {
    if c == sep then [""] + rest else [[c] + rest[0]] + rest[1..]
  }

  /** `pieces.join(sep)`. */
  function Join(pieces: seq<string>, sep: char): string
  {
    if |pieces| == 0 then ""
    else if |pieces| == 1 then pieces[0]
    else pieces[0] + [sep] + Join(pieces[1..], sep)
  }

  /** Splitting yields one piece more than there are separators. */
  lemma {:induction false} SplitLength(s: string, sep: char)
    ensures |Split(s, sep)| == Count(s, sep) + 1
  {
    if |s| > 0 {
      SplitLength(s[1..], sep);
    }
  }

  /** No piece of a split contains the separator. */
  lemma {:induction false} SplitPiecesFree(s: string, sep: char)
    ensures forall i :: 0 <= i < |Split(s, sep)| ==> sep !in Split(s, sep)[i]
  {
    if |s| > 0 {
      SplitPiecesFree(s[1..], sep);
      var rest := Split(s[1..], sep);
      if s[0] != sep {
        assert sep !in rest[0];
        var pieces := Split(s, sep);
        forall i | 0 <= i < |pieces| ensures sep !in pieces[i] {
          if i > 0 {
            assert pieces[i] == rest[i];
          }
        }
      }
    }
  }

  /** Joining the pieces of a split gives the string back. */
  lemma {:induction false} JoinSplit(s: string, sep: char)
    ensures Join(Split(s, sep), sep) == s
  {
    if |s| > 0 {
      var rest := Split(s[1..], sep);
      JoinSplit(s[1..], sep);
      var pieces := Split(s, sep);
      if s[0] == sep {
        assert pieces[1..] == rest;
        assert s == [sep] + s[1..];
      } else if |rest| == 1 {
        assert s == [s[0]] + s[1..];
      } else {
        assert pieces[1..] == rest[1..];
        assert Join(rest, sep) == rest[0] + [sep] + Join(rest[1..], sep);
        assert s == [s[0]] + s[1..];
      }
    }
  }

  /** A string free of the separator splits into itself alone. */
  lemma {:induction false} SplitWithoutSeparator(s: string, sep: char)
    requires sep !in s
    ensures Split(s, sep) == [s]
  {
    if |s| > 0 {
      assert sep !in s[1..] by {
        forall k | 0 <= k < |s| - 1 ensures s[1..][k] != sep {
          assert s[1..][k] == s[k + 1];
        }
      }
      SplitWithoutSeparator(s[1..], sep);
      assert s == [s[0]] + s[1..];
    }
  }

  /** Gluing two strings with the separator concatenates their splits. */
  lemma {:induction false} SplitConcat(a: string, b: string, sep: char)
    ensures Split(a + [sep] + b, sep) == Split(a, sep) + Split(b, sep)
  {
    var whole := a + [sep] + b;
    if |a| == 0 {
      assert whole == [sep] + b;
      assert whole[1..] == b;
    } else {
      assert whole[0] == a[0];
      assert whole[1..] == a[1..] + [sep] + b;
      SplitConcat(a[1..], b, sep);
      PrependConcat(a[0], Split(a[1..], sep), Split(b, sep), sep);
    }
  }

  lemma PrependConcat(c: char, ra: seq<string>, rb: seq<string>, sep: char)
    requires |ra| > 0
    ensures Prepend(c, ra + rb, sep) == Prepend(c, ra, sep) + rb
  {
    if c != sep {
      assert (ra + rb)[0] == ra[0];
      assert (ra + rb)[1..] == ra[1..] + rb;
    }
  }

  /** Joining separator-free pieces and splitting again gives the pieces back. */
  lemma {:induction false} SplitJoin(pieces: seq<string>, sep: char)
    requires |pieces| > 0
    requires forall i :: 0 <= i < |pieces| ==> sep !in pieces[i]
    ensures Split(Join(pieces, sep), sep) == pieces
  {
    if |pieces| == 1 {
      SplitWithoutSeparator(pieces[0], sep);
    } else {
      SplitJoin(pieces[1..], sep);
      SplitWithoutSeparator(pieces[0], sep);
      SplitConcat(pieces[0], Join(pieces[1..], sep), sep);
      assert pieces == [pieces[0]] + pieces[1..];
    }
  }
}
