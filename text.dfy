/** `String.prototype.split` with a one-character separator, as the
    authorization header (`split(" ")`) and the date formatter (`split("T")`)
    use it, with the property that pins it down: the pieces contain no
    separator and joining them back gives the original text. */
module Text {

  import opened Options

  /** `s.split(c)`: the maximal separator-free pieces of `s`, in order.
      An empty text splits into one empty piece, and two adjacent separators
      produce an empty piece between them. */
  function Split(s: string, c: char): (r: seq<string>)
    ensures |r| >= 1
  {
    if s == [] then [""]
    else
      var rest := Split(s[1..], c);
      if s[0] == c then [""] + rest
      else [[s[0]] + rest[0]] + rest[1..]
  }

  /** `pieces.join([c])`. */
  function Join(pieces: seq<string>, c: char): string
    requires |pieces| >= 1
  {
    if |pieces| == 1 then pieces[0]
    else pieces[0] + [c] + Join(pieces[1..], c)
  }

  /** `pieces[i]`, which JavaScript reads as `undefined` past the end. */
  function Field(pieces: seq<string>, i: nat): (r: Option<string>)
    ensures r.Some? <==> i < |pieces|
    ensures r.Some? ==> r.value == pieces[i]
  {
    if i < |pieces| then Some(pieces[i]) else None
  }

  /** Every piece of a split is free of the separator. */
  lemma {:induction false} SplitPiecesFree(s: string, c: char)
    ensures forall i :: 0 <= i < |Split(s, c)| ==> c !in Split(s, c)[i]
  {
    if s != [] {
      SplitPiecesFree(s[1..], c);
    }
  }

  /** Joining the pieces of a split restores the text. */
  lemma {:induction false} JoinSplit(s: string, c: char)
    ensures Join(Split(s, c), c) == s
  {
    if s != [] {
      var rest := Split(s[1..], c);
      JoinSplit(s[1..], c);
      if s[0] == c {
        assert Split(s, c)[1..] == rest;
      } else {
        var r := Split(s, c);
        if |rest| == 1 {
          assert r == [[s[0]] + rest[0]];
        } else {
          assert r[1..] == rest[1..];
          assert Join(r, c) == [s[0]] + rest[0] + [c] + Join(rest[1..], c);
        }
      }
    }
  }

  /** Splitting is the only separator-free decomposition that joins back to
      the text: any such decomposition is the result of `Split`. */
  lemma {:induction false} SplitUnique(pieces: seq<string>, c: char)
    requires |pieces| >= 1
    requires forall i :: 0 <= i < |pieces| ==> c !in pieces[i]
    ensures Split(Join(pieces, c), c) == pieces
  {
    if |pieces| == 1 {
      NoSeparatorSplit(pieces[0], c);
    } else {
      var tail := Join(pieces[1..], c);
      SplitUnique(pieces[1..], c);
      SplitAfterPrefix(pieces[0], tail, c);
      assert [pieces[0]] + pieces[1..] == pieces;
    }
  }

  /** A text without the separator splits into itself alone. */
  lemma {:induction false} NoSeparatorSplit(w: string, c: char)
    requires c !in w
    ensures Split(w, c) == [w]
  {
    if w != [] {
      NoSeparatorSplit(w[1..], c);
      assert [w[0]] + w[1..] == w;
    }
  }

  /** A text splits into more than one piece exactly when it holds the separator. */
  lemma {:induction false} SeparatorSplits(s: string, c: char)
    ensures |Split(s, c)| > 1 <==> c in s
  {
    if s != [] {
      SeparatorSplits(s[1..], c);
      assert s == [s[0]] + s[1..];
    }
  }

  /** A separator-free prefix followed by the separator becomes the first piece. */
  lemma {:induction false} SplitAfterPrefix(w: string, tail: string, c: char)
    requires c !in w
    ensures Split(w + [c] + tail, c) == [w] + Split(tail, c)
  {
    if w == [] {
      assert w + [c] + tail == [c] + tail;
      assert ([c] + tail)[1..] == tail;
    } else {
      var s := w + [c] + tail;
      assert s[0] == w[0] && s[1..] == w[1..] + [c] + tail;
      SplitAfterPrefix(w[1..], tail, c);
      assert [w[0]] + w[1..] == w;
    }
  }

  /** The first piece of a split is the longest separator-free prefix: it is
      a prefix of the text and, unless it is the whole text, a separator
      follows it. */
  lemma {:induction false} SplitFirstPiece(s: string, c: char)
    ensures Split(s, c)[0] <= s
    ensures c !in Split(s, c)[0]
    ensures |Split(s, c)[0]| < |s| ==> s[|Split(s, c)[0]|] == c
  {
    if s != [] && s[0] != c {
      SplitFirstPiece(s[1..], c);
      assert [s[0]] + s[1..] == s;
    }
  }
}
