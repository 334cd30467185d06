/** One record of the write-ahead log. */
module Record {
  import opened Wrappers
  import opened Errors
  import Base64
  import Config
  import Utf8

  /** Record types; `Other` is any name the log format does not define, "" included. */
  datatype Op =
    | QueueCreate | QueueDelete | Send | Receive | Ack | Nack | Extend | Dead | Move
    | Other(name: string)

  /** Absent fields hold their zero values.  Times are Unix milliseconds, 0 when absent. */
  datatype Record = Record(
    op: Op,
    queue: string,
    id: string := "",
    body: seq<byte> := [],
    bodyB64: string := "",
    ts: int := 0,
    nbf: int := 0,
    deadline: int := 0,
    receipt: string := "",
    count: int := 0,
    to: string := "",
    config: Option<Config.Config> := None)
  {
    /** Stores b as plain text when it is valid UTF-8 and as base64 otherwise. */
    function SetBody(b: seq<byte>): Record {
      if Utf8.Valid(b) then this.(body := b, bodyB64 := "")
      else this.(body := [], bodyB64 := Base64.Encode(b))
    }

    function GetBody(): Result<seq<byte>, Error> {
      if bodyB64 != "" then
        match Base64.Decode(bodyB64)
        case Some(b) => Ok(b)
        case None => Err(BadBody)
      else Ok(body)
    }

    /** A record duraq could have written. */
    predicate Validate() {
      && (match op
          case Other(_) => false
          case QueueCreate => queue != ""
          case QueueDelete => queue != ""
          case _ => queue != "" && id != "")
      && (op == Receive ==> deadline != 0)
      && (op == Move ==> to != "")
    }
  }

  /** A record is invalid exactly for one of these reasons. */
  lemma InvalidRecords(r: Record)
    ensures !r.Validate() <==>
      || r.op.Other? || r.queue == ""
      || (r.id == "" && r.op != QueueCreate && r.op != QueueDelete)
      || (r.op == Receive && r.deadline == 0)
      || (r.op == Move && r.to == "")
  {
  }

  /** The body field is text a JSON string can carry. */
  predicate Printable(r: Record) {
    Utf8.Valid(r.body)
  }

  /** Every body survives being stored, and the base64 field alone tells which form was used. */
  lemma BodyRoundTrip(r: Record, b: seq<byte>)
    ensures r.SetBody(b).GetBody() == Ok(b)
    ensures r.SetBody(b).bodyB64 == "" <==> Utf8.Valid(b)
    ensures Printable(r.SetBody(b))
  {
    hide Base64.Encode, Base64.Decode, Utf8.RuneLen;
    Base64.RoundTrip(b);
  }
}
