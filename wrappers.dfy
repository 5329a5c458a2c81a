/** The optional value used wherever the source has `null` or `undefined`. */
module Wrappers {
  datatype Option<+T> = None | Some(value: T)

  /** A loop invariant `acc + rest == whole` survives moving `part` from the
      front of `rest` onto the end of `acc`. */
  lemma Regroup<T>(acc: seq<T>, part: seq<T>, rest: seq<T>, whole: seq<T>)
    requires acc + (part + rest) == whole
    ensures (acc + part) + rest == whole
  {
    assert (acc + part) + rest == acc + (part + rest);
  }

  /** A loop invariant `acc == whole[..i]` survives appending `whole[i]`. */
  lemma PrefixGrows<T>(whole: seq<T>, i: nat)
    requires i < |whole|
    ensures whole[..i + 1] == whole[..i] + [whole[i]]
  {
  }
}
