/** Java's nullable references, made explicit, and a sequence fact the loop proofs share. */
module Wrappers {

  /** `None` stands for a Java `null`. */
  datatype Option<+T> = None | Some(value: T)

  /** Concatenation is associative; a loop's output is kept as what came before it followed by what it added. */
  lemma AppendAssoc<T>(a: seq<T>, b: seq<T>, c: seq<T>)
    ensures (a + b) + c == a + (b + c)
  {
  }
}
