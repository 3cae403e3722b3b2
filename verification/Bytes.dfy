/** Byte strings, and the concatenation of a list of them. */
module Bytes {
  type byte = x: int | 0 <= x < 256
  type bytes = seq<byte>

  datatype Option<+T> = None | Some(value: T)

  /** All pieces joined, in order. */
  function Join<T>(pieces: seq<seq<T>>): (s: seq<T>)
  {
    if pieces == [] then [] else Join(pieces[..|pieces| - 1]) + pieces[|pieces| - 1]
  }

  lemma JoinAppend<T>(pieces: seq<seq<T>>, last: seq<T>)
    ensures Join(pieces + [last]) == Join(pieces) + last
  {
    assert (pieces + [last])[..|pieces|] == pieces;
  }

  lemma {:induction false} JoinConcat<T>(xs: seq<seq<T>>, ys: seq<seq<T>>)
    ensures Join(xs + ys) == Join(xs) + Join(ys)
  {
    if ys == [] {
      assert xs + ys == xs;
    } else {
      var front := ys[..|ys| - 1];
      JoinConcat(xs, front);
      assert (xs + ys)[..|xs + ys| - 1] == xs + front;
    }
  }

  lemma JoinOne<T>(piece: seq<T>)
    ensures Join([piece]) == piece
  {
    JoinAppend([], piece);
    assert [] + [piece] == [piece];
  }

  lemma JoinCons<T>(first: seq<T>, rest: seq<seq<T>>)
    ensures Join([first] + rest) == first + Join(rest)
  {
    JoinConcat([first], rest);
    JoinOne(first);
  }

  lemma JoinFrom<T>(pieces: seq<seq<T>>, i: nat)
    requires i < |pieces|
    ensures Join(pieces[i..]) == pieces[i] + Join(pieces[i + 1..])
  {
    assert pieces[i..] == [pieces[i]] + pieces[i + 1..];
    JoinCons(pieces[i], pieces[i + 1..]);
  }

  lemma JoinTake<T>(pieces: seq<seq<T>>, i: nat)
    requires i < |pieces|
    ensures Join(pieces[..i + 1]) == Join(pieces[..i]) + pieces[i]
  {
    var front := pieces[..i + 1];
    assert front[..i] == pieces[..i] && front[i] == pieces[i];
  }

  lemma JoinAround<T>(pieces: seq<seq<T>>, i: nat)
    requires i < |pieces|
    ensures Join(pieces[..i + 1]) == Join(pieces[..i]) + pieces[i]
    ensures Join(pieces[..i]) + pieces[i] <= Join(pieces)
  {
    JoinTake(pieces, i);
    JoinPrefix(pieces, i + 1);
  }

  lemma JoinPrefix<T>(pieces: seq<seq<T>>, i: nat)
    requires i <= |pieces|
    ensures Join(pieces[..i]) <= Join(pieces)
  {
    assert pieces == pieces[..i] + pieces[i..];
    JoinConcat(pieces[..i], pieces[i..]);
  }

  /** xs is a prefix of ys; named so that quantifiers and lemmas can mention it. */
  predicate IsPrefix<T(==)>(xs: seq<T>, ys: seq<T>) {
    xs <= ys
  }
}
