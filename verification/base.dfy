/** Shared vocabulary of the model: optional values, chat messages as the
    agent framework hands them to the samples, and mapping a function over a
    sequence (the list comprehensions of the source). */
module Base {

  /** An optional value: `None` stands for Python's `None`, and for a parse
      that raised. */
  datatype Option<+T> = None | Some(value: T)

  /** Either a value or the error a Python call would have raised. */
  datatype Result<+T, +E> = Ok(value: T) | Err(error: E)

  /** The author of a chat message. */
  datatype Role = User | Assistant | System | Tool

  /** A chat message reduced to what the samples read and write: its role
      and its text. */
  datatype ChatMessage = ChatMessage(role: Role, text: string)

  /** `[f(x) for x in xs]`: one image per element, in the same order. */
  function MapSeq<A, B>(f: A -> B, xs: seq<A>): (r: seq<B>)
    ensures |r| == |xs|
    ensures forall i :: 0 <= i < |xs| ==> r[i] == f(xs[i])
  {
    if |xs| == 0 then [] else [f(xs[0])] + MapSeq(f, xs[1..])
  }

  /** Concatenation is associative (stated once so that larger proofs need
      not rediscover it). */
  lemma AppendAssociative<T>(a: seq<T>, b: seq<T>, c: seq<T>)
    ensures (a + b) + c == a + (b + c)
  {
  }

  /** Mapping distributes over concatenation. */
  lemma MapSeqAppend<A, B>(f: A -> B, xs: seq<A>, ys: seq<A>)
    ensures MapSeq(f, xs + ys) == MapSeq(f, xs) + MapSeq(f, ys)
  {
    var l, r := MapSeq(f, xs + ys), MapSeq(f, xs) + MapSeq(f, ys);
    assert |l| == |r|;
    forall i | 0 <= i < |l|
      ensures l[i] == r[i]
    {
      if i < |xs| {
        assert (xs + ys)[i] == xs[i];
      } else {
        assert (xs + ys)[i] == ys[i - |xs|];
      }
    }
  }
}
