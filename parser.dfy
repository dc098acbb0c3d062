/** The byte cursor every parser reads through: a fixed input array, the
    point where the structure being parsed starts, and the read pointer. */
module Parser {
  import opened Common

  datatype ParserError = NotEnoughBytes(requested: int, left: int)

  /** The result of reading an n-byte field at offset p of a. A field that
      does not fit (or has a negative size) is an error. */
  function Field(a: seq<Byte>, p: nat, n: int): (r: Result<seq<Byte>, ParserError>)
    ensures r.Ok? <==> 0 <= n && p + n <= |a|
    ensures r.Ok? ==> |r.value| == n && r.value == a[p..p + n]
  {
    if 0 <= n && p + n <= |a| then Ok(a[p..p + n]) else Err(NotEnoughBytes(n, |a| - p))
  }

  class Parser {
    const input: seq<Byte>
    const startPoint: nat
    var pointer: nat

    ghost predicate Valid()
      reads this
    {
      startPoint <= pointer <= |input|
    }

    constructor (startPoint: nat, input: seq<Byte>)
      requires startPoint <= |input|
      ensures Valid() && this.input == input && this.startPoint == startPoint && pointer == startPoint
    {
      this.input := input;
      this.startPoint := startPoint;
      this.pointer := startPoint;
    }

    function BytesLeft(): (n: nat)
      reads this
      requires Valid()
    {
      |input| - pointer
    }

    /** Returns the next `length` bytes and moves past them; on a field that
        does not fit, fails and leaves the pointer where it was. */
    method ParseByteArrayField(length: int) returns (r: Result<seq<Byte>, ParserError>)
      requires Valid()
      modifies this`pointer
      ensures Valid()
      ensures r == Field(input, old(pointer), length)
      ensures pointer == if r.Ok? then old(pointer) + length else old(pointer)
    {
      r := Field(input, pointer, length);
      if r.Ok? {
        pointer := pointer + length;
      }
    }

    /** Reads the next `length` bytes as an unsigned big-endian integer. */
    method ParseIntField(length: nat) returns (r: Result<nat, ParserError>)
      requires Valid()
      modifies this`pointer
      ensures Valid()
      ensures Field(input, old(pointer), length).Ok? <==> r.Ok?
      ensures r.Ok? ==> r.value == DecodeUint(input[old(pointer)..old(pointer) + length])
      ensures pointer == if r.Ok? then old(pointer) + length else old(pointer)
    {
      var bytes := ParseByteArrayField(length);
      if bytes.Ok? {
        r := Ok(DecodeUint(bytes.value));
      } else {
        r := Err(bytes.error);
      }
    }
  }
}
