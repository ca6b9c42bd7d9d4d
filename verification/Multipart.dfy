/** Byte strings and multipart uploads: numbered parts that completion concatenates in order. */
module Multipart {
  newtype Byte = b: int | 0 <= b < 256
  type Bytes = seq<Byte>
  type Digest = string

  predicate HasParts(parts: map<nat, Bytes>, count: nat) {
    forall k :: 1 <= k <= count ==> k in parts
  }

  /** What completing with the parts numbered 1..count stores. */
  function Assemble(parts: map<nat, Bytes>, count: nat): Bytes
    requires HasParts(parts, count)
  {
    if count == 0 then [] else Assemble(parts, count - 1) + parts[count]
  }

  lemma {:induction false} AssembleFrame(parts: map<nat, Bytes>, other: map<nat, Bytes>, count: nat)
    requires HasParts(parts, count) && forall k :: 1 <= k <= count ==> k in other && other[k] == parts[k]
    ensures Assemble(other, count) == Assemble(parts, count)
  {
    if count > 0 { AssembleFrame(parts, other, count - 1); }
  }
}
