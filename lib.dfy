/** `stripped_type_name` (`src/lib.rs`): the last `::`-separated piece of a type name. */
module Lib {

  /** `s` contains the delimiter `::` somewhere. */
  predicate HasDelim(s: string) {
    exists i :: 0 <= i < |s| - 1 && s[i] == ':' && s[i + 1] == ':'
  }

  /** `str::split("::")`: the pieces between non-overlapping occurrences of `::`, found
      from the left. There is always at least one piece. */
  function Split(s: string): (pieces: seq<string>)
    ensures |pieces| >= 1
    ensures |pieces[0]| <= |s| && pieces[0] == s[..|pieces[0]|]
    decreases |s|
  {
    if |s| < 2 then [s]
    else if s[..2] == "::" then [""] + Split(s[2..])
    else
      var rest := Split(s[1..]);
      [[s[0]] + rest[0]] + rest[1..]
  }

  /** The pieces joined back with `::` in between. */
  function Join(pieces: seq<string>): string
    requires |pieces| >= 1
  {
    if |pieces| == 1 then pieces[0] else pieces[0] + "::" + Join(pieces[1..])
  }

  function Last<T>(xs: seq<T>): T
    requires |xs| >= 1
  {
    xs[|xs| - 1]
  }

  /** Splitting loses nothing: joining the pieces gives the input back. */
  lemma {:induction false} JoinSplit(s: string)
    ensures Join(Split(s)) == s
    decreases |s|
  {
    if |s| < 2 {
    } else if s[..2] == "::" {
      JoinSplit(s[2..]);
      assert s == "::" + s[2..];
    } else {
      var rest := Split(s[1..]);
      JoinSplit(s[1..]);
      if |rest| == 1 {
        assert s == [s[0]] + s[1..];
      } else {
        assert Join(rest) == rest[0] + "::" + Join(rest[1..]);
        assert [[s[0]] + rest[0]] + rest[1..] == [[s[0]] + rest[0]] + rest[1..];
        assert ([[s[0]] + rest[0]] + rest[1..])[1..] == rest[1..];
        assert s == [s[0]] + s[1..];
      }
    }
  }

  /** No piece contains the delimiter. */
  lemma {:induction false} SplitPiecesHaveNoDelim(s: string)
    ensures forall k :: 0 <= k < |Split(s)| ==> !HasDelim(Split(s)[k])
    decreases |s|
  {
    if |s| < 2 {
    } else if s[..2] == "::" {
      SplitPiecesHaveNoDelim(s[2..]);
      assert Split(s)[1..] == Split(s[2..]);
    } else {
      var rest := Split(s[1..]);
      SplitPiecesHaveNoDelim(s[1..]);
      var first := [s[0]] + rest[0];
      assert s[..2] == [s[0], s[1]];
      forall i | 0 <= i < |first| - 1
        ensures !(first[i] == ':' && first[i + 1] == ':')
      {
        if i == 0 {
          assert first[1] == rest[0][0] == s[1];
        } else {
          assert first[i] == rest[0][i - 1] && first[i + 1] == rest[0][i];
          assert !HasDelim(rest[0]);
        }
      }
      assert Split(s)[1..] == rest[1..];
    }
  }

  /** A string without the delimiter is a single piece. */
  lemma {:induction false} SplitWithoutDelim(s: string)
    requires !HasDelim(s)
    ensures Split(s) == [s]
    decreases |s|
  {
    if |s| >= 2 {
      assert s[..2] == [s[0], s[1]];
      assert !(s[0] == ':' && s[1] == ':');
      forall i | 0 <= i < |s[1..]| - 1
        ensures !(s[1..][i] == ':' && s[1..][i + 1] == ':')
      {
        assert s[1..][i] == s[i + 1] && s[1..][i + 1] == s[i + 2];
      }
      SplitWithoutDelim(s[1..]);
      assert s == [s[0]] + s[1..];
    }
  }

  /** The joined string ends with the last piece. */
  lemma {:induction false} JoinEndsWithLast(pieces: seq<string>)
    requires |pieces| >= 1
    ensures |Last(pieces)| <= |Join(pieces)|
    ensures Join(pieces)[|Join(pieces)| - |Last(pieces)|..] == Last(pieces)
    decreases |pieces|
  {
    if |pieces| > 1 {
      JoinEndsWithLast(pieces[1..]);
      assert Last(pieces[1..]) == Last(pieces);
      var j := Join(pieces[1..]);
      var pre := pieces[0] + "::";
      assert Join(pieces) == pre + j;
      assert (pre + j)[|pre + j| - |Last(pieces)|..] == j[|j| - |Last(pieces)|..];
    }
  }

  /** Splitting `a + "::" + t` splits `a` and `t` separately, provided `a` does not end
      with `:` (which would move the match one place to the left). */
  lemma {:induction false} SplitAround(a: string, t: string)
    requires |a| == 0 || a[|a| - 1] != ':'
    ensures Split(a + "::" + t) == Split(a) + Split(t)
    decreases |a|
  {
    if |a| == 0 {
      assert a + "::" + t == "::" + t;
      SplitAfterDelim(t);
    } else if |a| >= 2 && a[..2] == "::" {
      SplitAround(a[2..], t);
      SplitAroundDelimFirst(a, t);
    } else if |a| == 1 {
      SplitAfterDelim(t);
      SplitAroundSingle(a, t);
    } else {
      SplitAround(a[1..], t);
      SplitAroundOther(a, t);
    }
  }

  lemma SplitAfterDelim(t: string)
    ensures Split("::" + t) == [""] + Split(t)
  {
    var s := "::" + t;
    assert s[..2] == "::" && s[2..] == t;
  }

  lemma SplitAroundDelimFirst(a: string, t: string)
    requires |a| >= 2 && a[..2] == "::"
    requires Split(a[2..] + "::" + t) == Split(a[2..]) + Split(t)
    ensures Split(a + "::" + t) == Split(a) + Split(t)
  {
    DelimFirstParts(a, t);
    SplitDelimFirst(a + "::" + t);
    SplitDelimFirst(a);
  }

  lemma DelimFirstParts(a: string, t: string)
    requires |a| >= 2 && a[..2] == "::"
    ensures (a + "::" + t)[..2] == "::" && (a + "::" + t)[2..] == a[2..] + "::" + t
  {
    var s := a + "::" + t;
    assert s[..2] == a[..2];
    assert s[2..] == a[2..] + "::" + t;
  }

  lemma SplitDelimFirst(s: string)
    requires |s| >= 2 && s[..2] == "::"
    ensures Split(s) == [""] + Split(s[2..])
  {
  }

  lemma SplitAroundSingle(a: string, t: string)
    requires |a| == 1 && a[0] != ':'
    requires Split("::" + t) == [""] + Split(t)
    ensures Split(a + "::" + t) == Split(a) + Split(t)
  {
    var s := a + "::" + t;
    assert s[..2] == [a[0], ':'];
    assert s[1..] == "::" + t;
    assert [a[0]] + "" == a;
  }

  lemma SplitAroundOther(a: string, t: string)
    requires |a| >= 2 && a[..2] != "::"
    requires Split(a[1..] + "::" + t) == Split(a[1..]) + Split(t)
    ensures Split(a + "::" + t) == Split(a) + Split(t)
  {
    var s := a + "::" + t;
    assert s[..2] == a[..2];
    assert s[1..] == a[1..] + "::" + t;
    assert s[0] == a[0];
    SplitCons(a, Split(t));
  }

  /** `Split` of a string of two or more characters that does not start with `::`. */
  lemma SplitCons(a: string, tail: seq<string>)
    requires |a| >= 2 && a[..2] != "::"
    ensures var ra := Split(a[1..]);
      [[a[0]] + (ra + tail)[0]] + (ra + tail)[1..] == Split(a) + tail
  {
    ConsFirst([a[0]], Split(a[1..]), tail);
  }

  lemma ConsFirst<T>(x: seq<T>, xs: seq<seq<T>>, tail: seq<seq<T>>)
    requires |xs| >= 1
    ensures [x + (xs + tail)[0]] + (xs + tail)[1..] == ([x + xs[0]] + xs[1..]) + tail
  {
    assert (xs + tail)[1..] == xs[1..] + tail;
  }

  /** `stripped_type_name`: the last piece of `s.split("::")`; `unwrap` cannot fail
      because `Split` always yields a piece. The result is a suffix of the name without
      the delimiter, and a name without the delimiter is kept whole. */
  function StrippedTypeName(s: string): (r: string)
    ensures |r| <= |s| && r == s[|s| - |r|..]
    ensures !HasDelim(r)
    ensures !HasDelim(s) ==> r == s
  {
    JoinSplit(s);
    JoinEndsWithLast(Split(s));
    SplitPiecesHaveNoDelim(s);
    if !HasDelim(s) then SplitWithoutDelim(s); Last(Split(s))
    else Last(Split(s))
  }

  lemma NoColonNoDelim(s: string)
    requires forall i :: 0 <= i < |s| ==> s[i] != ':'
    ensures !HasDelim(s)
  {
  }

  /** After a final `::` the remainder is the stripped name. */
  lemma StrippedAfterLastDelim(a: string, t: string)
    requires |a| == 0 || a[|a| - 1] != ':'
    requires !HasDelim(t)
    ensures StrippedTypeName(a + "::" + t) == t
  {
    SplitAround(a, t);
    SplitWithoutDelim(t);
  }

}
