/**
 * Go's strings.Split(s, " "): the pieces of a string between single space
 * characters. Only the space separates; tabs, newlines and punctuation stay
 * inside a piece. n spaces give n + 1 pieces, so the empty string is one empty
 * piece and two adjacent spaces give an empty piece between them.
 *
 * strings.Join(pieces, " ") is its inverse and is given here as its partner.
 */
module Tokens {

  const Space: char := ' '

  function Split(s: string): (pieces: seq<string>)
    ensures |pieces| >= 1
    ensures forall i :: 0 <= i < |pieces| ==> Space !in pieces[i]
  {
    if s == [] then [""]
    else
      var rest := Split(s[1..]);
      if s[0] == Space then [""] + rest
      else [[s[0]] + rest[0]] + rest[1..]
  }

  function Join(pieces: seq<string>): (s: string)
  {
    if pieces == [] then ""
    else if |pieces| == 1 then pieces[0]
    else pieces[0] + [Space] + Join(pieces[1..])
  }

  /** The number of separators in s. */
  function Spaces(s: string): nat
  {
    if s == [] then 0 else (if s[0] == Space then 1 else 0) + Spaces(s[1..])
  }

  /** Splitting loses nothing: joining the pieces with single spaces gives s back. */
  lemma {:induction false} JoinSplit(s: string)
    ensures Join(Split(s)) == s
  {
    if s != [] {
      var rest := Split(s[1..]);
      JoinSplit(s[1..]);
      if s[0] == Space {
        assert Split(s) == [""] + rest;
      } else if |rest| == 1 {
        assert Split(s) == [[s[0]] + rest[0]];
      } else {
        var pieces := Split(s);
        assert pieces[1..] == rest[1..];
        calc {
          Join(pieces);
          ([s[0]] + rest[0]) + [Space] + Join(rest[1..]);
          [s[0]] + (rest[0] + [Space] + Join(rest[1..]));
          [s[0]] + Join(rest);
          [s[0]] + s[1..];
        }
      }
    }
  }

  /** One more space gives one more piece. */
  lemma {:induction false} SplitCount(s: string)
    ensures |Split(s)| == Spaces(s) + 1
  {
    if s != [] {
      SplitCount(s[1..]);
    }
  }

  /** A space-free word is a single piece. */
  lemma {:induction false} SplitWord(w: string)
    requires Space !in w
    ensures Split(w) == [w]
  {
    if w != [] {
      SplitWord(w[1..]);
      assert w[0] != Space;
      assert [w[0]] + w[1..] == w;
    }
  }

  /** A space-free word followed by a space is split off as the first piece. */
  lemma {:induction false} SplitWordThen(w: string, t: string)
    requires Space !in w
    ensures Split(w + [Space] + t) == [w] + Split(t)
  {
    if w == [] {
      assert w + [Space] + t == [Space] + t;
      assert ([Space] + t)[1..] == t;
    } else {
      assert (w + [Space] + t)[1..] == w[1..] + [Space] + t;
      SplitWordThen(w[1..], t);
      assert [w[0]] + w[1..] == w;
    }
  }

  /** Joining space-free pieces and splitting again gives the pieces back. */
  lemma {:induction false} SplitJoin(pieces: seq<string>)
    requires |pieces| >= 1
    requires forall i :: 0 <= i < |pieces| ==> Space !in pieces[i]
    ensures Split(Join(pieces)) == pieces
  {
    if |pieces| == 1 {
      SplitWord(pieces[0]);
    } else {
      SplitJoin(pieces[1..]);
      SplitWordThen(pieces[0], Join(pieces[1..]));
    }
  }
}
