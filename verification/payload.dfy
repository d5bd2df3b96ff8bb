/** GenericPayload: a unit of work that carries a PHP array and serialises to it. */
module Payload {
  import opened Psl

  datatype ArrayKey = IntKey(i: int) | StringKey(s: string)

  /** The PHP values an array may hold. */
  datatype Mixed =
    | Null
    | Bool(b: bool)
    | Int(i: int)
    | Str(s: string)
    | Array(entries: seq<(ArrayKey, Mixed)>)

  /** An ordered PHP array. */
  type PhpArray = seq<(ArrayKey, Mixed)>

  datatype PayloadError =
    | DataNotInitialized  // reading `data` before anything assigned it
    | DataIsReadonly      // assigning `data` a second time

  class GenericPayload {
    /** The readonly `data` property; `None` while it is still uninitialised, which is
        how unserialize() hands the object to `__unserialize`. */
    var data: Option<PhpArray>

    constructor (data: PhpArray)
      ensures this.data == Some(data)
    {
      this.data := Some(data);
    }

    /** The object unserialize() makes without running the constructor. */
    constructor Blank()
      ensures data == None
    {
      data := None;
    }

    /** GenericPayload::create. */
    static method Create(data: PhpArray) returns (p: GenericPayload)
      ensures fresh(p) && p.data == Some(data)
    {
      p := new GenericPayload(data);
    }

    /** GenericPayload::__serialize: the data itself, changing nothing. */
    function Serialize(): (r: Result<PhpArray, PayloadError>)
      reads this
      ensures r.Success? <==> data.Some?
      ensures r.Success? ==> Some(r.value) == data
      ensures r.Failure? ==> r.error == DataNotInitialized
    {
      match data
      case Some(d) => Success(d)
      case None => Failure(DataNotInitialized)
    }

    /** GenericPayload::__unserialize: the data becomes `d`; a readonly property that
        already holds a value cannot be assigned again. */
    method Unserialize(d: PhpArray) returns (r: Outcome<PayloadError>)
      modifies this
      ensures old(data).None? ==> r == Pass && data == Some(d)
      ensures old(data).Some? ==> r == Fail(DataIsReadonly) && data == old(data)
    {
      if data.Some? {
        return Fail(DataIsReadonly);
      }
      data := Some(d);
      r := Pass;
    }
  }

  /** Unserialising what a payload serialises into a fresh object gives a payload with
      the same data, which serialises to the same array again. */
  method RoundTrip(p: GenericPayload) returns (q: GenericPayload)
    requires p.data.Some?
    ensures fresh(q)
    ensures q.data == p.data
    ensures q.Serialize() == p.Serialize()
  {
    var serialized := p.Serialize();
    q := new GenericPayload.Blank();
    var outcome := q.Unserialize(serialized.value);
  }
}
