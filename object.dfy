/**
 * The `object` attribute type: a byte slice behind the `Objecter`
 * interface, with nil-safe conversions. A Go string is a read-only byte
 * sequence, so both strings and slices are sequences of the same unit
 * here, and `string(b)` / `[]byte(s)` are the identity; a slice
 * additionally may be nil.
 */
module Objects {

  /** One unit of a string or slice; bytes and characters are not told apart. */
  type Byte = char

  /** A Go `[]byte`: nil, or a (possibly empty) allocated slice. */
  datatype Slice = Nil | Slice(data: seq<Byte>)

  /** `type object []byte`. */
  type Object = Slice

  /** A `*bytes.Buffer` holding `contents`. */
  datatype Buffer = Buffer(contents: seq<Byte>)

  /** The bytes a slice holds; a nil slice holds none. */
  function Contents(o: Slice): seq<Byte>
  {
    match o
    case Nil => []
    case Slice(d) => d
  }

  /** `NewObjectEmpty()`: the empty, non-nil `object{}`. */
  function NewObjectEmpty(): (o: Object)
    ensures o != Nil && |Contents(o)| == 0
  {
    Slice([])
  }

  /** `NewObjectFromBytes(v)`: the slice itself, nil included. */
  function NewObjectFromBytes(v: Slice): (o: Object)
    ensures Contents(o) == Contents(v)
    ensures o == Nil <==> v == Nil
  {
    v
  }

  /** `NewObjectFromString(s)`: a converted string is never nil. */
  function NewObjectFromString(s: seq<Byte>): (o: Object)
    ensures o != Nil && Contents(o) == s
  {
    Slice(s)
  }

  /** `String()`: "" for an empty object, its bytes otherwise. */
  function String(o: Object): (s: seq<Byte>)
    ensures |Contents(o)| == 0 ==> s == []
    ensures s == Contents(o)
  {
    if |Contents(o)| == 0 then [] else Contents(o)
  }

  /** `Bytes()`: never nil; an empty object gives a fresh empty slice. */
  function Bytes(o: Object): (b: Slice)
    ensures b != Nil
    ensures Contents(b) == Contents(o)
  {
    if |Contents(o)| == 0 then Slice([]) else o
  }

  /** `Buffer()`: a buffer holding the same bytes as `Bytes()`. */
  function ToBuffer(o: Object): (b: Buffer)
    ensures b.contents == Contents(Bytes(o))
  {
    if |Contents(o)| == 0 then Buffer([]) else Buffer(Contents(o))
  }

  /** `NewObjectFromString(s).String() == s`. */
  lemma StringRoundTrip(s: seq<Byte>)
    ensures String(NewObjectFromString(s)) == s
  {
  }

  /** `NewObjectFromBytes(v).Bytes()` equals `v`, except that a nil `v` comes back empty but allocated. */
  lemma BytesRoundTrip(v: Slice)
    ensures Bytes(NewObjectFromBytes(v)) == (if v == Nil then Slice([]) else v)
  {
  }

  /** The empty object prints as "" and has length 0 however it is read. */
  lemma EmptyObject()
    ensures String(NewObjectEmpty()) == []
    ensures Bytes(NewObjectEmpty()) == Slice([])
    ensures ToBuffer(NewObjectEmpty()) == Buffer([])
  {
  }
}
