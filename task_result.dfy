/** The outcome of one executed task (TaskResult.h / TaskResult.cpp). */
module TaskResults {
  import opened Json
  import opened JsonUtil
  import Error

  datatype TaskResult = TaskResult(
    code: Error.ErrorCode,
    message: string,
    startedAtMs: Int64,
    finishedAtMs: Int64,
    output: Json)

  /** A default-constructed result: Ok, empty message, zero times, `{}`. */
  const Default: TaskResult := TaskResult(Error.Ok, "", 0, 0, EmptyObject)

  const Keys: set<string> := {"code", "message", "started_at_ms", "finished_at_ms", "output"}

  function ToJson(r: TaskResult): (j: Json)
    ensures j.Obj? && j.fields.Keys == Keys
  {
    Obj(map[
      "code" := Int(r.code as int),
      "message" := Str(r.message),
      "started_at_ms" := Int(r.startedAtMs),
      "finished_at_ms" := Int(r.finishedAtMs),
      "output" := r.output])
  }

  /** Every field falls back to its default when absent or mistyped; `output`
      is taken only when it is an object, so a parsed result always carries
      an object there. */
  function FromJson(j: Json): (r: TaskResult)
    ensures r.output.Obj?
    ensures !j.Obj? ==> r == Default
    ensures j.Obj? && "output" in j.fields && j.fields["output"].Obj? ==> r.output == j.fields["output"]
    ensures !(j.Obj? && "output" in j.fields && j.fields["output"].Obj?) ==> r.output == EmptyObject
  {
    TaskResult(
      GetIntOr(j, Key("code"), Error.Ok as Int32) as Error.ErrorCode,
      GetStringOr(j, Key("message"), ""),
      GetInt64Or(j, Key("started_at_ms"), 0),
      GetInt64Or(j, Key("finished_at_ms"), 0),
      match Find(j, "output") case Some(o) => if o.Obj? then o else EmptyObject case None => EmptyObject)
  }

  /** Serialising and parsing back gives the same result exactly when its
      output is an object (a non-object output is replaced by `{}`). */
  lemma RoundTrip(r: TaskResult)
    ensures FromJson(ToJson(r)) == r <==> r.output.Obj?
  {
    var j := ToJson(r);
    assert GetIntOr(j, Key("code"), 0) == r.code as int;
    assert GetInt64Or(j, Key("started_at_ms"), 0) == r.startedAtMs;
    assert GetInt64Or(j, Key("finished_at_ms"), 0) == r.finishedAtMs;
  }
}
