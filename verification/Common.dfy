/** Small vocabulary shared by every component model. */
module Common {

  datatype Option<+T> = None | Some(value: T)

  datatype Result<+T, +E> = Ok(value: T) | Err(error: E)

  /** One octet of a frame, a file or a wire message. */
  type byte = x: int | 0 <= x < 256

  type Bytes = seq<byte>

  /** SHA-256 idealised as an injective constructor: equal digests mean equal content. */
  datatype Digest = Sha256(content: Bytes)

  function Min(a: int, b: int): int {
    if a <= b then a else b
  }

  function Max(a: int, b: int): int {
    if a >= b then a else b
  }

  /** No element occurs at two positions. */
  ghost predicate Distinct<T>(s: seq<T>) {
    forall i, j :: 0 <= i < j < |s| ==> s[i] != s[j]
  }

  /** The elements of a sequence as a set. */
  function Elements<T>(s: seq<T>): set<T> {
    set x | x in s
  }

  function Pow2(n: nat): nat {
    if n == 0 then 1 else 2 * Pow2(n - 1)
  }

  lemma {:induction false} PowPositive(n: nat)
    ensures Pow2(n) >= 1
  {
    if n > 0 {
      PowPositive(n - 1);
    }
  }

  /** The characters .NET counts as white space. */
  predicate IsWhiteSpace(c: char) {
    || '\t' <= c <= '\r' || c == ' ' || c == '\U{85}' || c == '\U{A0}' || c == '\U{1680}'
    || '\U{2000}' <= c <= '\U{200A}' || c == '\U{2028}' || c == '\U{2029}' || c == '\U{202F}'
    || c == '\U{205F}' || c == '\U{3000}'
  }

  predicate Blank(s: string) {
    forall i :: 0 <= i < |s| ==> IsWhiteSpace(s[i])
  }
}
