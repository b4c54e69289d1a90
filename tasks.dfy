/** The task sources of the recorder GUI: the `Task` record, the parse of the HTTP
    backend's `/next_task` answer, and the local list provider that hands out a fixed
    list of prompts one at a time. */
module Tasks {
  import opened Builtins

  /** One unit of work: an identifier and the instruction shown to the operator. */
  datatype Task = Task(taskId: string, text: string)

  /** A value of a decoded JSON object. Floats, arrays and nested objects are not
      interpreted here: `Nested` carries the text Python's `str()` gives for them. */
  datatype FieldValue = Null | Bool(b: bool) | Number(n: int) | Text(s: string) | Nested(rendered: string)

  /** What `_http_get("/next_task")` ends in: a transport or decoding failure (an
      exception), a decoded document that is not a JSON object, or an object. */
  datatype Response = Failed | NotAnObject | Object(fields: map<string, FieldValue>)

  /** Python's `str(v)` for a decoded JSON value. */
  function PyStr(v: FieldValue): (r: string)
    ensures v.Text? ==> r == v.s
    ensures v.Number? ==> r == IntToString(v.n)
    ensures v.Null? ==> r == "None"
  {
    match v
    case Null => "None"
    case Bool(b) => if b then "True" else "False"
    case Number(n) => IntToString(n)
    case Text(s) => s
    case Nested(rendered) => rendered
  }

  /** `HTTPTaskProvider.get_next_task` after the transport: no task unless the answer is
      a non-empty object with a "text" key; the id defaults to the empty string. A
      failed request and a non-object answer (whose `in` or `.get` raises) give no task. */
  function ParseTask(response: Response): (r: Option<Task>)
    ensures r.Some? <==> response.Object? && "text" in response.fields
    ensures r.Some? ==> r.value.text == PyStr(response.fields["text"])
    ensures r.Some? && "task_id" in response.fields ==> r.value.taskId == PyStr(response.fields["task_id"])
    ensures r.Some? && "task_id" !in response.fields ==> r.value.taskId == ""
  {
    match response
    case Failed => None
    case NotAnObject => None
    case Object(data) =>
      if |data| == 0 || "text" !in data then None
      else
        var id := if "task_id" in data then data["task_id"] else Text("");
        Some(Task(PyStr(id), PyStr(data["text"])))
  }

  /** The object a backend sends for task `t`. */
  function TaskObject(t: Task): map<string, FieldValue>
  {
    map["task_id" := Text(t.taskId), "text" := Text(t.text)]
  }

  /** Parsing the object a backend sends for a task gives that task back, and an
      object with only a "text" key gives a task with the empty id. */
  lemma ParseTaskRoundTrip(t: Task)
    ensures ParseTask(Object(TaskObject(t))) == Some(t)
    ensures ParseTask(Object(map["text" := Text(t.text)])) == Some(Task("", t.text))
  {
  }

  /** A numeric id is rendered as its decimal digits and reads back as the number. */
  lemma NumericTaskId(n: nat, text: string)
    ensures var r := ParseTask(Object(map["task_id" := Number(n), "text" := Text(text)]));
      && r.Some? && AllDigits(r.value.taskId) && DigitsValue(r.value.taskId) == n
  {
    NatToStringRoundTrip(n);
  }

  /** The entries `LocalListTaskProvider.__init__` keeps: those whose `strip()` is non-empty. */
  function KeepNonBlank(raw: seq<string>): (kept: seq<string>)
    ensures |kept| <= |raw|
    ensures forall i :: 0 <= i < |kept| ==> !IsBlank(kept[i])
  {
    if raw == [] then []
    else
      var rest := KeepNonBlank(raw[..|raw| - 1]);
      if Strip(raw[|raw| - 1]) != [] then rest + [raw[|raw| - 1]] else rest
  }

  /** The positions of `raw` that `KeepNonBlank` keeps, in increasing order. */
  function KeptPositions(raw: seq<string>): (ps: seq<nat>)
    ensures |ps| <= |raw|
    ensures forall i :: 0 <= i < |ps| ==> ps[i] < |raw|
    ensures forall i, j :: 0 <= i < j < |ps| ==> ps[i] < ps[j]
  {
    if raw == [] then []
    else
      var last: nat := |raw| - 1;
      var rest := KeptPositions(raw[..last]);
      if Strip(raw[last]) != [] then rest + [last] else rest
  }

  /** `KeepNonBlank(raw)` is exactly the non-blank entries of `raw`, unmodified and in
      their original order: it has one entry per kept position, its i-th entry is
      `raw[KeptPositions(raw)[i]]` (positions that increase, by `KeptPositions`' contract),
      and a position is among them exactly when its entry is not blank. */
  lemma {:induction false} KeepNonBlankSpec(raw: seq<string>)
    ensures |KeptPositions(raw)| == |KeepNonBlank(raw)|
    ensures forall i :: 0 <= i < |KeptPositions(raw)| ==> KeepNonBlank(raw)[i] == raw[KeptPositions(raw)[i]]
    ensures forall p :: 0 <= p < |raw| ==> (p in KeptPositions(raw) <==> !IsBlank(raw[p]))
  {
    if raw != [] {
      var init := raw[..|raw| - 1];
      KeepNonBlankSpec(init);
      KeptEntries(raw);
      KeptMembers(raw);
    }
  }

  lemma KeptEntries(raw: seq<string>)
    requires raw != []
    requires var init := raw[..|raw| - 1]; |KeptPositions(init)| == |KeepNonBlank(init)|
    requires var init := raw[..|raw| - 1];
      forall i :: 0 <= i < |KeptPositions(init)| ==> KeepNonBlank(init)[i] == init[KeptPositions(init)[i]]
    ensures |KeptPositions(raw)| == |KeepNonBlank(raw)|
    ensures forall i :: 0 <= i < |KeptPositions(raw)| ==> KeepNonBlank(raw)[i] == raw[KeptPositions(raw)[i]]
  {
    var init := raw[..|raw| - 1];
    var ps, kept := KeptPositions(init), KeepNonBlank(init);
    forall i | 0 <= i < |KeptPositions(raw)|
      ensures KeepNonBlank(raw)[i] == raw[KeptPositions(raw)[i]]
    {
      if i < |ps| {
        assert KeptPositions(raw)[i] == ps[i] && KeepNonBlank(raw)[i] == kept[i];
        assert raw[ps[i]] == init[ps[i]];
      }
    }
  }

  lemma KeptMembers(raw: seq<string>)
    requires raw != []
    requires var init := raw[..|raw| - 1];
      forall p :: 0 <= p < |init| ==> (p in KeptPositions(init) <==> !IsBlank(init[p]))
    ensures forall p :: 0 <= p < |raw| ==> (p in KeptPositions(raw) <==> !IsBlank(raw[p]))
  {
    var init := raw[..|raw| - 1];
    var ps := KeptPositions(init);
    forall p | 0 <= p < |raw|
      ensures p in KeptPositions(raw) <==> !IsBlank(raw[p])
    {
      if p < |raw| - 1 {
        assert raw[p] == init[p];
        assert p in KeptPositions(raw) <==> p in ps;
      } else {
        assert |raw| - 1 !in ps;
      }
    }
  }

  /** A list whose entries are all non-blank is kept whole. */
  lemma {:induction false} KeepNonBlankAllKept(raw: seq<string>)
    requires forall i :: 0 <= i < |raw| ==> !IsBlank(raw[i])
    ensures KeepNonBlank(raw) == raw
  {
    if raw != [] {
      var init, last := raw[..|raw| - 1], raw[|raw| - 1];
      InitLast(raw);
      assert forall i :: 0 <= i < |init| ==> init[i] == raw[i];
      KeepNonBlankAllKept(init);
      assert Strip(last) != [];
    }
  }

  /** The id `LocalListTaskProvider` gives its n-th task (counting from 1). */
  function LocalId(n: nat): (id: string)
    ensures |id| > 6 && id[..6] == "local_"
  {
    "local_" + NatToString(n)
  }

  /** After "local_" an id holds the decimal digits of its position and nothing else. */
  lemma LocalIdDigits(n: nat)
    ensures AllDigits(LocalId(n)[6..]) && DigitsValue(LocalId(n)[6..]) == n
  {
    assert LocalId(n)[6..] == NatToString(n);
    NatToStringRoundTrip(n);
  }

  /** Different positions get different ids. */
  lemma LocalIdInjective(m: nat, n: nat)
    ensures LocalId(m) == LocalId(n) ==> m == n
  {
    LocalIdDigits(m);
    LocalIdDigits(n);
  }

  /** One call of `LocalListTaskProvider.get_next_task` from cursor `idx`: the task
      returned and the new cursor. */
  function LocalStep(tasks: seq<string>, idx: nat): (step: (Option<Task>, nat))
    requires idx <= |tasks|
    ensures step.1 <= |tasks|
    ensures step.0.Some? <==> step.1 == idx + 1
    ensures step.0.None? <==> step.1 == idx
    ensures step.0.None? <==> idx == |tasks|
  {
    if idx >= |tasks| then (None, idx)
    else (Some(Task(LocalId(idx + 1), tasks[idx])), idx + 1)
  }

  /** The results of `n` successive calls from cursor `idx`. */
  function LocalRun(tasks: seq<string>, idx: nat, n: nat): seq<Option<Task>>
    requires idx <= |tasks|
    decreases n
  {
    if n == 0 then []
    else
      var (t, next) := LocalStep(tasks, idx);
      [t] + LocalRun(tasks, next, n - 1)
  }

  /** Successive calls hand out the remaining tasks in order, the k-th with id
      `local_k`, and `None` once the list is used up, forever after. */
  lemma {:induction false} LocalRunSpec(tasks: seq<string>, idx: nat, n: nat)
    requires idx <= |tasks|
    ensures |LocalRun(tasks, idx, n)| == n
    ensures forall i :: 0 <= i < n ==>
      LocalRun(tasks, idx, n)[i] == (if idx + i < |tasks| then Some(Task(LocalId(idx + i + 1), tasks[idx + i])) else None)
    decreases n
  {
    if n > 0 {
      var (t, next) := LocalStep(tasks, idx);
      LocalRunSpec(tasks, next, n - 1);
      var run := LocalRun(tasks, idx, n);
      assert run == [t] + LocalRun(tasks, next, n - 1);
      forall i | 0 <= i < n
        ensures run[i] == if idx + i < |tasks| then Some(Task(LocalId(idx + i + 1), tasks[idx + i])) else None
      {
        if i > 0 {
          assert run[i] == LocalRun(tasks, next, n - 1)[i - 1];
        }
      }
    }
  }

  /** `LocalListTaskProvider`: the kept prompts and a cursor into them. */
  class LocalProvider {
    const tasks: seq<string>
    var idx: nat

    ghost predicate Valid()
      reads this
    {
      idx <= |tasks|
    }

    constructor (raw: seq<string>)
      ensures Valid()
      ensures tasks == KeepNonBlank(raw) && idx == 0
    {
      tasks := KeepNonBlank(raw);
      idx := 0;
    }

    /** Hands out the task under the cursor and advances it, or `None` at the end. */
    method GetNextTask() returns (t: Option<Task>)
      requires Valid()
      modifies this`idx
      ensures Valid()
      ensures (t, idx) == LocalStep(tasks, old(idx))
    {
      if idx >= |tasks| {
        return None;
      }
      var text := tasks[idx];
      idx := idx + 1;
      t := Some(Task(LocalId(idx), text));
    }
  }

  /** Neither "A" nor "B" is blank, so a list of them is kept whole. */
  lemma ExampleKeptWhole()
    ensures KeepNonBlank(["A", "B"]) == ["A", "B"]
  {
    var raw := ["A", "B"];
    assert !IsBlank(raw[0]) by { assert !IsSpace(raw[0][0]); }
    assert !IsBlank(raw[1]) by { assert !IsSpace(raw[1][0]); }
    KeepNonBlankAllKept(raw);
  }

  /** The example of a provider built from `["A", "B"]`: `local_1`/"A", then
      `local_2`/"B", then no task on every later call. */
  method LocalListExample() returns (results: seq<Option<Task>>)
    ensures results == [Some(Task(LocalId(1), "A")), Some(Task(LocalId(2), "B")), None, None]
  {
    var raw := ["A", "B"];
    ExampleKeptWhole();
    var p := new LocalProvider(raw);
    var t1 := p.GetNextTask();
    var t2 := p.GetNextTask();
    var t3 := p.GetNextTask();
    var t4 := p.GetNextTask();
    results := [t1, t2, t3, t4];
  }
}
