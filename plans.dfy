/**
 * The values the platform code exchanges with its collaborators: bytes written
 * to records, the execution triple (environment, executable, argument vector)
 * and the mutable string lists the source hands around and changes in place.
 */
module Plans {

  newtype byte = x: int | 0 <= x < 256

  /** The content of a stored record. */
  type Bytes = seq<byte>

  /** An execution plan: environment pairs in order (duplicates allowed), the
      executable path and the argument vector. */
  datatype Triple = Triple(env: seq<(string, string)>, exe: string, argv: seq<string>)

  /** The sx-plan serializer, whose format is not part of this model. */
  type Serializer = Triple -> string

  /** The text encoding applied before a record is stored (UTF-8 in the source). */
  type Encoder = string -> Bytes

  /** A Python list of strings that callers share and the code mutates in place. */
  class StringList {
    var items: seq<string>

    constructor (items: seq<string>)
      ensures this.items == items
    {
      this.items := items;
    }

    /** `list.insert(0, x)` */
    method InsertFirst(x: string)
      modifies this
      ensures items == [x] + old(items)
    {
      items := [x] + items;
    }

    /** `list.append(x)` */
    method Append(x: string)
      modifies this
      ensures items == old(items) + [x]
    {
      items := items + [x];
    }
  }
}
