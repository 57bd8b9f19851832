/** Splitting text at a separator, shared by path templates and header lists. */
module Text {

  /** The pieces between occurrences of `sep`; the empty text is one empty piece. */
  function Split(s: string, sep: char): (pieces: seq<string>)
    ensures pieces != []
  {
    if s == "" then [""]
    else
      var rest := Split(s[1..], sep);
      if s[0] == sep then [""] + rest else [[s[0]] + rest[0]] + rest[1..]
  }

  function Join(pieces: seq<string>, sep: char): (s: string)
    requires pieces != []
  {
    if |pieces| == 1 then pieces[0] else pieces[0] + [sep] + Join(pieces[1..], sep)
  }

  lemma {:induction false} JoinSplit(s: string, sep: char)
    ensures Join(Split(s, sep), sep) == s
    decreases |s|
  {
    if s != "" {
      JoinSplit(s[1..], sep);
      var rest := Split(s[1..], sep);
      if s[0] == sep {
        assert ([""] + rest)[1..] == rest;
        assert s == [sep] + s[1..];
      } else {
        var pieces := [[s[0]] + rest[0]] + rest[1..];
        assert pieces[1..] == rest[1..];
        assert s == [s[0]] + s[1..];
        if |rest| > 1 {
          assert [s[0]] + (rest[0] + [sep] + Join(rest[1..], sep)) == ([s[0]] + rest[0]) + [sep] + Join(rest[1..], sep);
        }
      }
    }
  }

  lemma SplitIsInjective(a: string, b: string, sep: char)
    requires Split(a, sep) == Split(b, sep)
    ensures a == b
  {
    JoinSplit(a, sep);
    JoinSplit(b, sep);
  }

  lemma {:induction false} SplitAppend(a: string, b: string, sep: char)
    ensures Split(a + [sep] + b, sep) == Split(a, sep) + Split(b, sep)
    decreases |a|
  {
    var whole := a + [sep] + b;
    if a == "" {
      assert whole[1..] == b;
    } else {
      var tail := a[1..];
      SplitAppend(tail, b, sep);
      assert whole[0] == a[0] && whole[1..] == tail + [sep] + b;
      SplitStep(whole, sep);
      SplitStep(a, sep);
      Regroup(a[0], sep, Split(tail, sep), Split(b, sep));
    }
  }

  lemma Regroup(c: char, sep: char, front: seq<string>, back: seq<string>)
    requires front != []
    ensures var all := front + back;
            && [""] + all == [""] + front + back
            && [[c] + all[0]] + all[1..] == [[c] + front[0]] + front[1..] + back
  {
    var all := front + back;
    assert all[0] == front[0] && all[1..] == front[1..] + back;
  }

  /** One character at the front. */
  lemma {:induction false} SplitStep(s: string, sep: char)
    requires s != ""
    ensures var rest := Split(s[1..], sep);
            Split(s, sep) == if s[0] == sep then [""] + rest else [[s[0]] + rest[0]] + rest[1..]
  {
  }

  lemma {:induction false} SplitClean(s: string, sep: char)
    requires sep !in s
    ensures Split(s, sep) == [s]
    decreases |s|
  {
    if s != "" {
      SplitClean(s[1..], sep);
      assert [s[0]] + s[1..] == s;
    }
  }

  lemma {:induction false} JoinAppend(a: seq<string>, b: seq<string>, sep: char)
    requires a != [] && b != []
    ensures Join(a + b, sep) == Join(a, sep) + [sep] + Join(b, sep)
    decreases |a|
  {
    if |a| == 1 {
      assert (a + b)[1..] == b;
    } else {
      JoinAppend(a[1..], b, sep);
      assert (a + b)[1..] == a[1..] + b;
    }
  }

  /** Whole-piece prefixes are exactly the textual prefixes that end at a separator. */
  lemma {:induction false} PiecePrefix(base: string, s: string, sep: char)
    ensures base + [sep] <= s <==>
            |Split(base, sep)| < |Split(s, sep)| && Split(s, sep)[..|Split(base, sep)|] == Split(base, sep)
  {
    if base + [sep] <= s {
      PrefixSplits(base, s, sep);
    } else if |Split(base, sep)| < |Split(s, sep)| && Split(s, sep)[..|Split(base, sep)|] == Split(base, sep) {
      SplitsPrefix(base, s, sep);
    }
  }

  lemma {:induction false} PrefixSplits(base: string, s: string, sep: char)
    requires base + [sep] <= s
    ensures |Split(base, sep)| < |Split(s, sep)| && Split(s, sep)[..|Split(base, sep)|] == Split(base, sep)
  {
    var rest := s[|base| + 1..];
    assert s == base + [sep] + rest;
    SplitAppend(base, rest, sep);
  }

  lemma {:induction false} SplitsPrefix(base: string, s: string, sep: char)
    requires |Split(base, sep)| < |Split(s, sep)| && Split(s, sep)[..|Split(base, sep)|] == Split(base, sep)
    ensures base + [sep] <= s
  {
    var b, p := Split(base, sep), Split(s, sep);
    JoinSplit(s, sep);
    JoinSplit(base, sep);
    assert p == b + p[|b|..];
    JoinAppend(b, p[|b|..], sep);
  }

  /** No piece contains the separator. */
  lemma {:induction false} PiecesAreClean(s: string, sep: char)
    ensures forall piece | piece in Split(s, sep) :: sep !in piece
    decreases |s|
  {
    if s != "" {
      PiecesAreClean(s[1..], sep);
    }
  }

  /** Clean pieces joined by the separator split into these pieces again. */
  lemma {:induction false} SplitJoin(pieces: seq<string>, sep: char)
    requires pieces != [] && forall piece | piece in pieces :: sep !in piece
    ensures Split(Join(pieces, sep), sep) == pieces
    decreases |pieces|
  {
    SplitClean(pieces[0], sep);
    if |pieces| > 1 {
      SplitJoin(pieces[1..], sep);
      SplitAppend(pieces[0], Join(pieces[1..], sep), sep);
      assert pieces == [pieces[0]] + pieces[1..];
    }
  }

  // ---------------------------------------------------------------------------
  // Where pieces begin
  // ---------------------------------------------------------------------------

  lemma {:induction false} SplitMany(s: string, sep: char)
    ensures |Split(s, sep)| > 1 <==> sep in s
    decreases |s|
  {
    if s != "" {
      SplitMany(s[1..], sep);
      assert s == [s[0]] + s[1..];
    }
  }

  lemma FirstPiece(s: string, sep: char)
    ensures var first := Split(s, sep)[0];
            if s == "" || s[0] == sep then first == "" else first != "" && first[0] == s[0]
  {
  }

  predicate BeginsWith(piece: string, c: char) { piece != "" && piece[0] == c }

  /** A piece other than the first begins with `c`; for `inner`, it is not the last either. */
  ghost predicate LaterPiece(pieces: seq<string>, c: char, inner: bool) {
    exists k :: 1 <= k < |pieces| - (if inner then 1 else 0) && BeginsWith(pieces[k], c)
  }

  lemma LaterPieceSep(rest: seq<string>, c: char, inner: bool)
    requires rest != []
    ensures LaterPiece([""] + rest, c, inner) <==>
            (BeginsWith(rest[0], c) && (inner ==> |rest| > 1)) || LaterPiece(rest, c, inner)
  {
    hide BeginsWith;
    var pieces := [""] + rest;
    if LaterPiece(pieces, c, inner) {
      var k :| 1 <= k < |pieces| - (if inner then 1 else 0) && BeginsWith(pieces[k], c);
      assert pieces[k] == rest[k - 1];
    }
    if LaterPiece(rest, c, inner) {
      var k :| 1 <= k < |rest| - (if inner then 1 else 0) && BeginsWith(rest[k], c);
      assert pieces[k + 1] == rest[k];
    }
    if BeginsWith(rest[0], c) {
      assert pieces[1] == rest[0];
    }
  }

  lemma LaterPieceChar(first: string, rest: seq<string>, c: char, inner: bool)
    requires rest != []
    ensures LaterPiece([first] + rest[1..], c, inner) <==> LaterPiece(rest, c, inner)
  {
    hide BeginsWith;
    var pieces := [first] + rest[1..];
    assert |pieces| == |rest| && forall k | 1 <= k < |rest| :: pieces[k] == rest[k];
  }

  /** `c` stands right after a separator at `i`; for `inner`, another separator follows. */
  ghost predicate BeginsAt(s: string, sep: char, c: char, inner: bool, i: int) {
    0 <= i < |s| - 1 && s[i] == sep && s[i + 1] == c && (inner ==> sep in s[i + 1..])
  }

  ghost predicate BeginsSomewhere(s: string, sep: char, c: char, inner: bool) {
    exists i :: BeginsAt(s, sep, c, inner, i)
  }

  lemma BeginsStep(s: string, sep: char, c: char, inner: bool)
    requires s != ""
    ensures BeginsSomewhere(s, sep, c, inner) <==>
            BeginsAt(s, sep, c, inner, 0) || BeginsSomewhere(s[1..], sep, c, inner)
  {
    var tail := s[1..];
    forall i | 1 <= i ensures BeginsAt(s, sep, c, inner, i) <==> BeginsAt(tail, sep, c, inner, i - 1) {
      if i < |s| {
        assert tail[i..] == s[i + 1..];
      }
    }
    if BeginsSomewhere(tail, sep, c, inner) {
      var i :| BeginsAt(tail, sep, c, inner, i);
      assert BeginsAt(s, sep, c, inner, i + 1) by { assert s[i + 2..] == tail[i + 1..]; }
    }
  }

  /** A later piece begins with `c` exactly where the text has `c` right after a separator. */
  lemma {:induction false} PieceBegins(s: string, sep: char, c: char, inner: bool)
    requires c != sep
    ensures LaterPiece(Split(s, sep), c, inner) <==> BeginsSomewhere(s, sep, c, inner)
    decreases |s|
  {
    if s != "" {
      hide LaterPiece, BeginsSomewhere, Split;
      var tail := s[1..];
      var rest := Split(tail, sep);
      PieceBegins(tail, sep, c, inner);
      FirstPiece(tail, sep);
      SplitMany(tail, sep);
      SplitStep(s, sep);
      BeginsStep(s, sep, c, inner);
      if s[0] == sep {
        LaterPieceSep(rest, c, inner);
      } else {
        LaterPieceChar([s[0]] + rest[0], rest, c, inner);
      }
    }
  }
}
