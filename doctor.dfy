/** The self-check registry (MyDoctor): a list of check items, the results
    of the last run, and their JSON report. */
module Doctor {
  import opened Wrappers
  import opened Json

  /** One module to check, where to look and what to expect. */
  datatype CheckItem = CheckItem(moduleName: string, target: string, expected: string)

  /** The outcome of checking one module. */
  datatype CheckResult = CheckResult(moduleName: string, success: bool, message: string, detail: string)

  /** The message ("check passed") and detail ("placeholder, the real check
      is still to be written") every check reports. */
  const PassedMessage := "检查通过"
  const PlaceholderDetail := "占位实现，待补充具体检查逻辑"

  /** RunCheck: every item passes, under its own module name; target and
      expected are not consulted. */
  function RunCheck(item: CheckItem): (r: CheckResult)
    ensures r.moduleName == item.moduleName && r.success && r.message == PassedMessage
  {
    CheckResult(item.moduleName, true, PassedMessage, PlaceholderDetail)
  }

  /** Two items for the same module get the same result. */
  lemma RunCheckIgnoresTarget(a: CheckItem, b: CheckItem)
    requires a.moduleName == b.moduleName
    ensures RunCheck(a) == RunCheck(b)
  {
  }

  /** The results of checking the items, one per item, in item order. */
  function Checked(items: seq<CheckItem>): (rs: seq<CheckResult>)
    ensures |rs| == |items|
    ensures forall i :: 0 <= i < |items| ==> rs[i].moduleName == items[i].moduleName && rs[i].success
  {
    seq(|items|, i requires 0 <= i < |items| => RunCheck(items[i]))
  }

  /** One result as ToJson writes it. */
  function ResultJson(r: CheckResult): Json
  {
    Obj(map["module" := Str(r.moduleName), "success" := Bool(r.success),
            "message" := Str(r.message), "detail" := Str(r.detail)])
  }

  /** The report ToJson writes: nothing pushed leaves the JSON value null;
      otherwise an array with one object per result, in order. */
  function Report(results: seq<CheckResult>): Json
  {
    if results == [] then Null
    else Arr(seq(|results|, i requires 0 <= i < |results| => ResultJson(results[i])))
  }

  /** `push_back` on a JSON value: a null value becomes an array first. */
  function PushBack(j: Json, x: Json): (r: Json)
    requires j.Null? || j.Arr?
    ensures r.Arr? && r.items == (if j.Null? then [] else j.items) + [x]
  {
    if j.Null? then Arr([x]) else Arr(j.items + [x])
  }

  /** Reads one result back from its object. */
  function ReadResult(j: Json): Option<CheckResult>
  {
    if j.Obj? && "module" in j.fields && "success" in j.fields && "message" in j.fields && "detail" in j.fields
       && j.fields["module"].Str? && j.fields["success"].Bool? && j.fields["message"].Str? && j.fields["detail"].Str?
    then Some(CheckResult(j.fields["module"].s, j.fields["success"].b, j.fields["message"].s, j.fields["detail"].s))
    else None
  }

  /** Reads a report back: null is no results, an array is one result per
      element. */
  function ReadReport(j: Json): Option<seq<CheckResult>>
  {
    if j.Null? then Some([])
    else if j.Arr? && forall k :: 0 <= k < |j.items| ==> ReadResult(j.items[k]).Some? then
      Some(seq(|j.items|, k requires 0 <= k < |j.items| && ReadResult(j.items[k]).Some? => ReadResult(j.items[k]).value))
    else None
  }

  /** The report keeps every result, in order, and is null exactly when
      there are none. */
  lemma ReportReadsBack(results: seq<CheckResult>)
    ensures Report(results).Null? <==> results == []
    ensures ReadReport(Report(results)) == Some(results)
  {
    var j := Report(results);
    if results != [] {
      forall k | 0 <= k < |j.items|
        ensures ReadResult(j.items[k]) == Some(results[k])
      {
        assert j.items[k] == ResultJson(results[k]);
      }
      assert ReadReport(j).value == results;
    }
  }

  /** A report names a module when one of its objects has that module. */
  predicate Mentions(j: Json, name: string)
  {
    j.Arr? && exists k :: 0 <= k < |j.items| && j.items[k].Obj? && "module" in j.items[k].fields && j.items[k].fields["module"] == Str(name)
  }

  /** After a run, the report names exactly the items' modules. */
  lemma {:induction false} ReportNamesCheckedModules(items: seq<CheckItem>, name: string)
    ensures Mentions(Report(Checked(items)), name) <==> exists i :: 0 <= i < |items| && items[i].moduleName == name
  {
    var rs := Checked(items);
    var j := Report(rs);
    if exists i :: 0 <= i < |items| && items[i].moduleName == name {
      var i :| 0 <= i < |items| && items[i].moduleName == name;
      assert j.items[i] == ResultJson(RunCheck(items[i]));
    }
    if Mentions(j, name) {
      var k :| 0 <= k < |j.items| && j.items[k].Obj? && "module" in j.items[k].fields && j.items[k].fields["module"] == Str(name);
      assert j.items[k] == ResultJson(RunCheck(items[k]));
    }
  }

  class MyDoctor {
    var items: seq<CheckItem>
    var results: seq<CheckResult>

    constructor ()
      ensures items == [] && results == []
    {
      items := [];
      results := [];
    }

    /** Init: the items are replaced, the results of earlier runs dropped,
        and the answer is always `true`. */
    method Init(newItems: seq<CheckItem>) returns (ok: bool)
      modifies this
      ensures ok && items == newItems && results == []
    {
      items := newItems;
      results := [];
      ok := true;
    }

    /** StartAll: the results are cleared, then each item is checked in
        turn and its result appended. */
    method StartAll()
      modifies this
      ensures items == old(items) && results == Checked(items)
    {
      results := [];
      var i := 0;
      while i < |items|
        invariant 0 <= i <= |items| && items == old(items)
        invariant results == Checked(items[..i])
        decreases |items| - i
      {
        var r := RunCheck(items[i]);
        results := results + [r];
        i := i + 1;
        assert items[..i] == items[..i - 1] + [items[i - 1]];
      }
      assert items[..i] == items;
    }

    /** ToJson: each result is pushed onto an initially null JSON value. */
    method ToJson() returns (j: Json)
      ensures j == Report(results)
    {
      j := Null;
      var i := 0;
      while i < |results|
        invariant 0 <= i <= |results|
        invariant j == Report(results[..i])
        decreases |results| - i
      {
        j := PushBack(j, ResultJson(results[i]));
        i := i + 1;
      }
      assert results[..i] == results;
    }
  }

  /** The doctor run twice with different items: the second report names
      exactly the second items' modules, whatever the first ones were. */
  method MultipleInit(items1: seq<CheckItem>, items2: seq<CheckItem>) returns (report1: Json, report2: Json)
    ensures forall name :: Mentions(report1, name) <==> exists i :: 0 <= i < |items1| && items1[i].moduleName == name
    ensures forall name :: Mentions(report2, name) <==> exists i :: 0 <= i < |items2| && items2[i].moduleName == name
  {
    var doctor := new MyDoctor();
    var ok := doctor.Init(items1);
    doctor.StartAll();
    report1 := doctor.ToJson();
    ok := doctor.Init(items2);
    doctor.StartAll();
    report2 := doctor.ToJson();
    forall name
      ensures Mentions(report1, name) <==> exists i :: 0 <= i < |items1| && items1[i].moduleName == name
      ensures Mentions(report2, name) <==> exists i :: 0 <= i < |items2| && items2[i].moduleName == name
    {
      ReportNamesCheckedModules(items1, name);
      ReportNamesCheckedModules(items2, name);
    }
  }
}
