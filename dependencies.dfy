/** The task interfaces of dependencies/compensation.go: what an ITasker and an
    IOutTasker expose, the DefaultTask record, and the shared validation of a
    task's JSON arguments. */
module Dependencies {
  import opened Base

  /** Raw JSON text of one decoded value of the argument object. */
  type JsonValue = string

  /** What decoding the argument text into a `map[string]interface{}` gave:
      json.Unmarshal itself is not part of this model, so callers pass the
      decoder in as a function from text to this result. */
  datatype Decoded = Malformed(reason: string) | Object(fields: map<string, JsonValue>)

  const ParamsNotEnough: string := "params not enough"

  /** GetParams: the decode error is passed on, an empty object is rejected,
      and any other object is returned as it was decoded. */
  function DecodeParams(args: string, decode: string -> Decoded): (r: Result<map<string, JsonValue>>)
    ensures r.Success? <==> decode(args).Object? && |decode(args).fields| > 0
    ensures r.Success? ==> r.value == decode(args).fields
    ensures decode(args).Malformed? ==> r == Failure(decode(args).reason)
    ensures decode(args).Object? && |decode(args).fields| == 0 ==> r == Failure(ParamsNotEnough)
  {
    match decode(args)
    case Malformed(reason) => Failure(reason)
    case Object(fields) => if |fields| < 1 then Failure(ParamsNotEnough) else Success(fields)
  }

  /** The values an ITasker's getters return. */
  datatype Tasker = Tasker(id: string, group: int32, name: string, args: string, deadline: int, owner: string)

  /** An IOutTasker: an ITasker with exactly two more getters. */
  datatype OutTasker = OutTasker(tasker: Tasker, lastError: string, retries: int)

  datatype DefaultTask = DefaultTask(
    ID: string, Group: int32, Name: string, Args: string, Deadline: int, Owner: string, LastErr: string)
  {
    /** Every getter returns its field unchanged; LastErr has no getter. */
    function AsTasker(): (t: Tasker)
      ensures t.id == ID && t.group == Group && t.name == Name && t.args == Args
      ensures t.deadline == Deadline && t.owner == Owner
    {
      Tasker(ID, Group, Name, Args, Deadline, Owner)
    }

    function GetParams(decode: string -> Decoded): Result<map<string, JsonValue>> {
      DecodeParams(Args, decode)
    }
  }
}
