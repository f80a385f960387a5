/**
  The configuration serializer (`json.Stringifyer`), made abstract: a
  deterministic encoding that may fail. Its byte layout is not modelled.
*/
module Json {
  import opened Wrappers
  import opened FileSystem

  datatype Stringifyer<!T> = Stringifyer(encode: T -> Option<Bytes>)
  {
    function Stringify(x: T): Option<Bytes>
    {
      encode(x)
    }
  }
}
