/** A command as received from the outside, before normalisation
    (RawCommand.h / RawCommand.cpp). */
module RawCommands {
  import opened Json
  import opened JsonUtil

  datatype RawCommand = RawCommand(
    commandId: string,
    source: string,
    payload: Json,
    receivedAtMs: Int64,
    idempotencyKey: string,
    dedupWindowMs: Int64)

  /** Default construction: empty strings, zero numbers, payload `{}`. */
  const Default: RawCommand := RawCommand("", "", EmptyObject, 0, "", 0)

  const Keys: set<string> := {"command_id", "source", "received_at_ms", "idempotency_key", "dedup_window_ms", "payload"}

  function ToJson(c: RawCommand): (j: Json)
    ensures j.Obj? && j.fields.Keys == Keys
  {
    Obj(map[
      "command_id" := Str(c.commandId),
      "source" := Str(c.source),
      "received_at_ms" := Int(c.receivedAtMs),
      "idempotency_key" := Str(c.idempotencyKey),
      "dedup_window_ms" := Int(c.dedupWindowMs),
      "payload" := c.payload])
  }

  /** Strings default to "", numbers to 0; the payload is replaced only by a
      stored object. */
  function FromJson(j: Json): (c: RawCommand)
    ensures c.payload.Obj?
    ensures !j.Obj? ==> c == Default
    ensures j.Obj? && "payload" in j.fields && j.fields["payload"].Obj? ==> c.payload == j.fields["payload"]
  {
    RawCommand(
      GetStringOr(j, Key("command_id"), ""),
      GetStringOr(j, Key("source"), ""),
      match Find(j, "payload") case Some(p) => if p.Obj? then p else EmptyObject case None => EmptyObject,
      GetInt64Or(j, Key("received_at_ms"), 0),
      GetStringOr(j, Key("idempotency_key"), ""),
      GetInt64Or(j, Key("dedup_window_ms"), 0))
  }

  /** A command survives serialisation exactly when its payload is an object. */
  lemma RoundTrip(c: RawCommand)
    ensures FromJson(ToJson(c)) == c <==> c.payload.Obj?
  {
    var j := ToJson(c);
    assert GetInt64Or(j, Key("received_at_ms"), 0) == c.receivedAtMs;
    assert GetInt64Or(j, Key("dedup_window_ms"), 0) == c.dedupWindowMs;
  }
}
