/**
 * The few Go runtime notions the notification code relies on: values held in
 * an `any` field, the byte length of a string, and `json.Marshal`.
 */
module GoValues {
  import opened Wrappers

  /**
   * A value stored in a Go field of type `any` (an interface).
   *  - `Nil`: the nil interface;
   *  - `Json`: a `datatypes.JSON` document, its bytes read as text;
   *  - `Slice`: a `[]any` slice, e.g. the variadic arguments of a call; an
   *    interface holding a slice is never nil, even when the slice is empty;
   *  - `Other`: any other non-nil Go value, known here only by an identity.
   */
  datatype Any = Nil | Json(doc: string) | Slice(items: seq<Any>) | Other(tag: nat)

  /**
   * `json.Marshal`: encodes a value as JSON text, or fails with an error
   * message. Its behaviour is not modelled; every operation that marshals
   * takes it as a parameter.
   */
  type Marshaller = Any -> Result<string, string>

  /** Number of bytes the UTF-8 encoding of `c` occupies. */
  function Utf8Width(c: char): (w: nat)
    ensures 1 <= w <= 4
    ensures w == 1 <==> c < 128 as char
  {
    if c < 0x80 as char then 1
    else if c < 0x800 as char then 2
    else if c < 0x1_0000 as char then 3
    else 4
  }

  /**
   * Go's `len` on a string: the number of bytes of its UTF-8 encoding. It is
   * at least the number of characters and at most four times it.
   */
  function Len(s: string): (n: nat)
    ensures |s| <= n <= 4 * |s|
  {
    if s == [] then 0 else Utf8Width(s[0]) + Len(s[1..])
  }

  /** Byte lengths add up under concatenation. */
  lemma {:induction false} LenAppend(a: string, b: string)
    ensures Len(a + b) == Len(a) + Len(b)
  {
    if a == [] {
      assert a + b == b;
    } else {
      assert (a + b)[0] == a[0] && (a + b)[1..] == a[1..] + b;
      LenAppend(a[1..], b);
    }
  }
}
