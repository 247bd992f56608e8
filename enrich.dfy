/** `get_additional_columns` of util.py: each task object the task list
    returns is flattened in place (the `additional.detail` and
    `additional.transfer` sub-objects are copied to the top level and the
    `additional` wrapper is dropped), and then its timestamps, elapsed time,
    sizes and speeds are converted to text as the flags ask. */
module Enrich {
  import opened Values
  import opened Text
  import opened Format

  /** One decoded task object. */
  type Task = map<string, Json>

  /** The options of `get-tasks` that `get_additional_columns` reads. */
  datatype Flags = Flags(detail: bool, transfer: bool, humanReadable: bool)

  /** The foreign formatting the conversions rely on:
      `datetime.fromtimestamp(t).strftime(...)` and `str(round(x, 2))`. */
  datatype Formatters = Formatters(localTime: int -> string, rounded: real -> string)

  /** The four conversions: `format_date`, `format_time`,
      `readable_storage`, and `readable_storage` followed by "/s". */
  datatype Conversion = Date | Duration | Size | Speed

  // ---------------------------------------------------------------------
  // Specification

  /** `task['additional'][part]` when it is an object, so that `.items()`
      can be called on it; None where Python raises (KeyError, TypeError or
      AttributeError). */
  function Nested(t: Task, part: string): (d: Option<map<string, Json>>)
    ensures d.Some? <==> "additional" in t && Field(t["additional"], part).Some? && Field(t["additional"], part).value.JObj?
    ensures d.Some? ==> d.value == t["additional"].fields[part].fields
  {
    if "additional" in t then
      match Field(t["additional"], part)
      case Some(JObj(fields)) => Some(fields)
      case _ => None
    else None
  }

  /** Copying the items of `task['additional'][part]` to the top level, when
      the flag asks for it. */
  function Merge(t: Task, flag: bool, part: string): Option<Task>
  {
    if !flag then Some(t)
    else
      match Nested(t, part)
      case None => None
      case Some(d) => Some(t + d)
  }

  /** The first half of one pass: detail items first, transfer items second
      (read from the task as the detail copy left it), then the wrapper key
      is dropped. */
  function Flatten(t: Task, flags: Flags): Option<Task>
  {
    match Merge(t, flags.detail, "detail")
    case None => None
    case Some(t1) =>
      match Merge(t1, flags.transfer, "transfer")
      case None => None
      case Some(t2) => Some(t2 - {"additional"})
  }

  /** A JSON value converted to text; None where the formatter would raise
      a TypeError (timestamps, durations and byte counts must be numbers, and
      a boolean counts as 0 or 1). */
  function Convert(c: Conversion, j: Json, fmt: Formatters): (r: Option<Json>)
    ensures r.Some? <==> AsNumber(j).Some?
    ensures r.Some? ==> r.value.JStr?
  {
    match AsNumber(j)
    case None => None
    case Some(n) =>
      Some(JStr(match c
        case Date => FormatDate(n, fmt.localTime)
        case Duration => TimeText(n)
        case Size => StorageText(n, fmt.rounded)
        case Speed => StorageText(n, fmt.rounded) + "/s"))
  }

  /** `task[field] = f(task[field])`; None on a missing field. */
  function Step(t: Task, field: string, c: Conversion, fmt: Formatters): Option<Task>
  {
    if field !in t then None
    else
      match Convert(c, t[field], fmt)
      case None => None
      case Some(v) => Some(t[field := v])
  }

  /** The conversions the flags ask for, in the order the source makes them:
      the three timestamps under `detail`, the elapsed seeding time under
      `detail` and `human_readable`, the sizes and speeds under
      `human_readable` and `transfer`. */
  function Conversions(flags: Flags): seq<(string, Conversion)>
  {
    (if flags.detail then
       [("completed_time", Date), ("create_time", Date), ("started_time", Date)] +
       (if flags.humanReadable then [("seedelapsed", Duration)] else [])
     else []) +
    (if flags.humanReadable && flags.transfer then
       [("size_downloaded", Size), ("size_uploaded", Size), ("speed_download", Speed), ("speed_upload", Speed)]
     else [])
  }

  function ConvertAll(t: Task, cs: seq<(string, Conversion)>, fmt: Formatters): Option<Task>
    decreases |cs|
  {
    if cs == [] then Some(t)
    else
      match Step(t, cs[0].0, cs[0].1, fmt)
      case None => None
      case Some(t1) => ConvertAll(t1, cs[1..], fmt)
  }

  /** One task after its pass of the loop, or None where Python raises. */
  function EnrichTask(t: Task, flags: Flags, fmt: Formatters): Option<Task>
  {
    match Flatten(t, flags)
    case None => None
    case Some(f) => ConvertAll(f, Conversions(flags), fmt)
  }

  /** Every task after its pass, or None when some pass raises. */
  function EnrichAll(ts: seq<Task>, flags: Flags, fmt: Formatters): Option<seq<Task>>
  {
    if ts == [] then Some([])
    else
      match EnrichAll(ts[..|ts| - 1], flags, fmt)
      case None => None
      case Some(done) =>
        match EnrichTask(ts[|ts| - 1], flags, fmt)
        case None => None
        case Some(t) => Some(done + [t])
  }

  // ---------------------------------------------------------------------
  // The loops of get_additional_columns

  /** `for key, value in items.items(): task[key] = value` */
  method CopyItems(task: Task, items: map<string, Json>) returns (t: Task)
    ensures t == task + items
  {
    t := task;
    var todo := items.Keys;
    while todo != {}
      invariant todo <= items.Keys
      invariant t == task + (map k | k in items.Keys - todo :: items[k])
      decreases |todo|
    {
      var key :| key in todo;
      ghost var before := map k | k in items.Keys - todo :: items[k];
      t := t[key := items[key]];
      todo := todo - {key};
      assert (map k | k in items.Keys - todo :: items[k]) == before[key := items[key]];
    }
    assert (map k | k in items.Keys - todo :: items[k]) == items;
  }

  /** `for key in list(task.keys()): if key == 'additional': del task[key]` */
  method DropAdditional(task: Task) returns (t: Task)
    ensures t == task - {"additional"}
  {
    t := task;
    var keys := task.Keys;
    while keys != {}
      invariant keys <= task.Keys
      invariant forall k :: k in t <==> k in task && (k == "additional" ==> k in keys)
      invariant forall k :: k in t ==> t[k] == task[k]
      decreases |keys|
    {
      var key :| key in keys;
      if key == "additional" {
        t := t - {key};
      }
      keys := keys - {key};
    }
    assert t.Keys == (task - {"additional"}).Keys;
  }

  /** One conversion statement, such as
      `task['completed_time'] = format_date(task['completed_time'])`. */
  method ConvertField(task: Task, field: string, c: Conversion, fmt: Formatters) returns (r: Option<Task>)
    ensures r == Step(task, field, c, fmt)
  {
    if field !in task {
      return None;
    }
    var n := AsNumber(task[field]);
    if n.None? {
      return None;
    }
    var text;
    match c {
      case Date =>
        text := FormatDate(n.value, fmt.localTime);
      case Duration =>
        text := FormatTime(n.value);
      case Size =>
        text := ReadableStorage(n.value, fmt.rounded);
      case Speed =>
        var speed := ReadableStorage(n.value, fmt.rounded);
        text := speed + "/s";
    }
    r := Some(task[field := JStr(text)]);
  }

  lemma ConvertAllStep(t: Task, c: (string, Conversion), rest: seq<(string, Conversion)>, fmt: Formatters)
    ensures ConvertAll(t, [c] + rest, fmt) ==
      match Step(t, c.0, c.1, fmt)
      case None => None
      case Some(t1) => ConvertAll(t1, rest, fmt)
  {
    assert ([c] + rest)[1..] == rest;
  }

  /** One conversion applied by the method, and the conversions still to
      come. */
  method Apply(t: Task, field: string, c: Conversion, ghost rest: seq<(string, Conversion)>, fmt: Formatters)
    returns (r: Option<Task>, ghost rest': seq<(string, Conversion)>)
    requires rest != [] && rest[0] == (field, c)
    ensures r == Step(t, field, c, fmt)
    ensures rest' == rest[1..]
    ensures r.None? ==> ConvertAll(t, rest, fmt).None?
    ensures r.Some? ==> ConvertAll(t, rest, fmt) == ConvertAll(r.value, rest', fmt)
  {
    r := ConvertField(t, field, c, fmt);
    rest' := rest[1..];
    ConvertAllStep(t, rest[0], rest', fmt);
    assert rest == [rest[0]] + rest';
  }

  /** The conversion half of one pass: the statements guarded by
      `args.detail`, `args.human_readable` and `args.transfer`, in the
      order the source has them. */
  method ConvertTask(task: Task, flags: Flags, fmt: Formatters) returns (r: Option<Task>)
    ensures r == ConvertAll(task, Conversions(flags), fmt)
  {
    ghost var rest := Conversions(flags);
    var t := task;
    if flags.detail {
      r, rest := Apply(t, "completed_time", Date, rest, fmt);
      if r.None? { return; }
      t := r.value;
      r, rest := Apply(t, "create_time", Date, rest, fmt);
      if r.None? { return; }
      t := r.value;
      r, rest := Apply(t, "started_time", Date, rest, fmt);
      if r.None? { return; }
      t := r.value;
      if flags.humanReadable {
        r, rest := Apply(t, "seedelapsed", Duration, rest, fmt);
        if r.None? { return; }
        t := r.value;
      }
    }
    if flags.humanReadable && flags.transfer {
      r, rest := Apply(t, "size_downloaded", Size, rest, fmt);
      if r.None? { return; }
      t := r.value;
      r, rest := Apply(t, "size_uploaded", Size, rest, fmt);
      if r.None? { return; }
      t := r.value;
      r, rest := Apply(t, "speed_download", Speed, rest, fmt);
      if r.None? { return; }
      t := r.value;
      r, rest := Apply(t, "speed_upload", Speed, rest, fmt);
      if r.None? { return; }
      t := r.value;
    }
    assert rest == [];
    r := Some(t);
  }

  /** One pass of the task loop, on a copy of the task: None where Python
      raises. */
  method ProcessTask(task: Task, flags: Flags, fmt: Formatters) returns (r: Option<Task>)
    ensures r == EnrichTask(task, flags, fmt)
  {
    var t := task;
    if flags.detail {
      var items := Nested(t, "detail");
      if items.None? {
        return None;
      }
      t := CopyItems(t, items.value);
    }
    if flags.transfer {
      var items := Nested(t, "transfer");
      if items.None? {
        return None;
      }
      t := CopyItems(t, items.value);
    }
    t := DropAdditional(t);
    assert Flatten(task, flags) == Some(t);
    r := ConvertTask(t, flags, fmt);
  }

  lemma EnrichAllStep(ts: seq<Task>, i: nat, flags: Flags, fmt: Formatters, done: seq<Task>, t: Task)
    requires i < |ts|
    requires EnrichAll(ts[..i], flags, fmt) == Some(done)
    requires EnrichTask(ts[i], flags, fmt) == Some(t)
    ensures EnrichAll(ts[..i + 1], flags, fmt) == Some(done + [t])
  {
    assert ts[..i + 1][..i] == ts[..i];
  }

  lemma EnrichAllFails(ts: seq<Task>, i: nat, flags: Flags, fmt: Formatters)
    requires i < |ts|
    requires EnrichTask(ts[i], flags, fmt).None?
    ensures EnrichAll(ts, flags, fmt).None?
  {
    EnrichAllShape(ts, flags, fmt);
  }

  /** `get_additional_columns(tasks, args)`: each task object is rewritten
      in place and the same objects are returned, in order.  `processed` is
      None where Python raises. */
  method GetAdditionalColumns(tasks: array<Task>, flags: Flags, fmt: Formatters) returns (processed: Option<seq<Task>>)
    modifies tasks
    ensures processed == EnrichAll(old(tasks[..]), flags, fmt)
    ensures processed.Some? ==> processed.value == tasks[..]
  {
    ghost var ts := tasks[..];
    var done: seq<Task> := [];
    for i := 0 to tasks.Length
      invariant EnrichAll(ts[..i], flags, fmt) == Some(done)
      invariant done == tasks[..i]
      invariant tasks[i..] == ts[i..]
    {
      assert tasks[i] == ts[i];
      var r := ProcessTask(tasks[i], flags, fmt);
      if r.None? {
        EnrichAllFails(ts, i, flags, fmt);
        return None;
      }
      EnrichAllStep(ts, i, flags, fmt, done, r.value);
      tasks[i] := r.value;
      done := done + [tasks[i]];
      assert tasks[i + 1..] == ts[i + 1..];
    }
    assert ts[..tasks.Length] == ts;
    assert tasks[..tasks.Length] == tasks[..];
    processed := Some(done);
  }

  // ---------------------------------------------------------------------
  // Properties

  /** The names of the fields a list of conversions writes. */
  function Fields(cs: seq<(string, Conversion)>): set<string>
    decreases |cs|
  {
    if cs == [] then {} else {cs[0].0} + Fields(cs[1..])
  }

  lemma {:induction false} FieldsAt(cs: seq<(string, Conversion)>)
    ensures forall k :: k in Fields(cs) <==> exists j :: 0 <= j < |cs| && cs[j].0 == k
    decreases |cs|
  {
    if cs != [] {
      FieldsAt(cs[1..]);
      forall k | k in Fields(cs)
        ensures exists j :: 0 <= j < |cs| && cs[j].0 == k
      {
        if k != cs[0].0 {
          assert k in Fields(cs[1..]);
          var j :| 0 <= j < |cs[1..]| && cs[1..][j].0 == k;
          assert cs[j + 1].0 == k;
        }
      }
      forall k | exists j :: 0 <= j < |cs| && cs[j].0 == k
        ensures k in Fields(cs)
      {
        var j :| 0 <= j < |cs| && cs[j].0 == k;
        if j > 0 {
          assert cs[1..][j - 1].0 == k;
        }
      }
    }
  }

  /** No field is converted twice. */
  predicate DistinctFields(cs: seq<(string, Conversion)>)
  {
    forall i, j :: 0 <= i < j < |cs| ==> cs[i].0 != cs[j].0
  }

  /** Conversions succeed only on fields that are there, write text into
      each of them, and leave the keys and every other field alone. */
  lemma {:induction false} ConvertAllFrame(t: Task, cs: seq<(string, Conversion)>, fmt: Formatters)
    ensures var r := ConvertAll(t, cs, fmt);
      r.Some? ==>
        && r.value.Keys == t.Keys
        && Fields(cs) <= t.Keys
        && (forall k :: k in t && k !in Fields(cs) ==> r.value[k] == t[k])
        && (forall k :: k in Fields(cs) ==> r.value[k].JStr?)
    decreases |cs|
  {
    if cs != [] {
      var s := Step(t, cs[0].0, cs[0].1, fmt);
      if s.Some? {
        ConvertAllFrame(s.value, cs[1..], fmt);
      }
    }
  }

  /** When no field is named twice, each named field ends up holding the
      conversion of the value it had. */
  lemma {:induction false} ConvertAllValue(t: Task, cs: seq<(string, Conversion)>, fmt: Formatters, i: nat)
    requires DistinctFields(cs) && i < |cs|
    requires ConvertAll(t, cs, fmt).Some?
    ensures cs[i].0 in t && Convert(cs[i].1, t[cs[i].0], fmt).Some?
    ensures ConvertAll(t, cs, fmt).value.Keys == t.Keys
    ensures ConvertAll(t, cs, fmt).value[cs[i].0] == Convert(cs[i].1, t[cs[i].0], fmt).value
    decreases |cs|
  {
    var t1 := Step(t, cs[0].0, cs[0].1, fmt).value;
    var rest := cs[1..];
    ConvertAllFrame(t1, rest, fmt);
    if i == 0 {
      FieldsAt(rest);
      assert cs[0].0 !in Fields(rest) by {
        forall j | 0 <= j < |rest|
          ensures rest[j].0 != cs[0].0
        {
          assert rest[j] == cs[j + 1];
        }
      }
    } else {
      assert DistinctFields(rest) by {
        forall a, b | 0 <= a < b < |rest|
          ensures rest[a].0 != rest[b].0
        {
          assert rest[a] == cs[a + 1] && rest[b] == cs[b + 1];
        }
      }
      assert rest[i - 1] == cs[i];
      ConvertAllValue(t1, rest, fmt, i - 1);
    }
  }

  /** The conversions the flags ask for never name a field twice. */
  lemma ConversionsDistinct(flags: Flags)
    ensures DistinctFields(Conversions(flags))
  {
  }

  /** The fields each flag combination converts. */
  lemma ConvertedFields(flags: Flags)
    ensures Fields(Conversions(flags)) ==
      (if flags.detail then {"completed_time", "create_time", "started_time"} else {}) +
      (if flags.detail && flags.humanReadable then {"seedelapsed"} else {}) +
      (if flags.humanReadable && flags.transfer then {"size_downloaded", "size_uploaded", "speed_download", "speed_upload"} else {})
  {
    var dates := [("completed_time", Date), ("create_time", Date), ("started_time", Date)];
    var seed := if flags.humanReadable then [("seedelapsed", Duration)] else [];
    var sizes := [("size_downloaded", Size), ("size_uploaded", Size), ("speed_download", Speed), ("speed_upload", Speed)];
    FieldsAppend(dates, seed);
    FieldsAppend(if flags.detail then dates + seed else [], if flags.humanReadable && flags.transfer then sizes else []);
    assert Fields(dates) == {"completed_time", "create_time", "started_time"} by {
      assert dates[1..][1..][1..] == [];
    }
    assert Fields(sizes) == {"size_downloaded", "size_uploaded", "speed_download", "speed_upload"} by {
      assert sizes[1..][1..][1..][1..] == [];
    }
    assert flags.humanReadable ==> Fields(seed) == {"seedelapsed"} by {
      if flags.humanReadable {
        assert seed[1..] == [];
      }
    }
  }

  lemma {:induction false} FieldsAppend(a: seq<(string, Conversion)>, b: seq<(string, Conversion)>)
    ensures Fields(a + b) == Fields(a) + Fields(b)
    decreases |a|
  {
    if a == [] {
      assert a + b == b;
    } else {
      assert (a + b)[1..] == a[1..] + b;
      FieldsAppend(a[1..], b);
    }
  }

  /** No processed task keeps the `additional` wrapper, and apart from it
      the processed task has exactly the keys of the task and of the copied
      sub-objects. */
  lemma NoAdditional(t: Task, flags: Flags, fmt: Formatters)
    ensures var r := EnrichTask(t, flags, fmt);
      r.Some? ==> "additional" !in r.value && r.value.Keys == Flatten(t, flags).value.Keys
  {
    if Flatten(t, flags).Some? {
      ConvertAllFrame(Flatten(t, flags).value, Conversions(flags), fmt);
    }
  }

  /** Detail items are copied before transfer items, so on a key both carry
      the transfer value wins; a key only the detail carries keeps the
      detail value.  (A converted field then holds text instead.) */
  lemma TransferWins(t: Task, flags: Flags, fmt: Formatters, k: string)
    requires flags.detail && flags.transfer
    requires EnrichTask(t, flags, fmt).Some?
    requires Nested(t, "detail").Some? && "additional" !in Nested(t, "detail").value
    requires k != "additional" && k !in Fields(Conversions(flags))
    ensures var detail := Nested(t, "detail").value;
      var transfer := Nested(t, "transfer").value;
      var r := EnrichTask(t, flags, fmt).value;
      && (k in transfer ==> k in r && r[k] == transfer[k])
      && (k in detail && k !in transfer ==> k in r && r[k] == detail[k])
  {
    var f := Flatten(t, flags).value;
    ConvertAllFrame(f, Conversions(flags), fmt);
    var t1 := t + Nested(t, "detail").value;
    assert t1["additional"] == t["additional"];
    assert Nested(t1, "transfer") == Nested(t, "transfer");
  }

  /** Each conversion the flags ask for is made: the field was there, held
      a number, and now holds that number's text. */
  lemma ConvertedValues(t: Task, flags: Flags, fmt: Formatters, i: nat)
    requires EnrichTask(t, flags, fmt).Some?
    requires i < |Conversions(flags)|
    ensures var (field, c) := Conversions(flags)[i];
      var f := Flatten(t, flags).value;
      && field in f && AsNumber(f[field]).Some?
      && field in EnrichTask(t, flags, fmt).value
      && EnrichTask(t, flags, fmt).value[field] == Convert(c, f[field], fmt).value
  {
    ConversionsDistinct(flags);
    ConvertAllValue(Flatten(t, flags).value, Conversions(flags), fmt, i);
  }

  /** Each conversion happens only under its flags: a field the flags do
      not name keeps the value the flattening gave it. */
  lemma ConversionsOnlyUnderFlags(t: Task, flags: Flags, fmt: Formatters, k: string)
    requires EnrichTask(t, flags, fmt).Some?
    ensures EnrichTask(t, flags, fmt).value.Keys == Flatten(t, flags).value.Keys
    ensures var f := Flatten(t, flags).value;
      var r := EnrichTask(t, flags, fmt).value;
      k in f ==>
        && (k in {"completed_time", "create_time", "started_time"} && !flags.detail ==> r[k] == f[k])
        && (k == "seedelapsed" && !(flags.detail && flags.humanReadable) ==> r[k] == f[k])
        && (k in {"size_downloaded", "size_uploaded", "speed_download", "speed_upload"} ==>
              !(flags.humanReadable && flags.transfer) ==> r[k] == f[k])
  {
    ConvertAllFrame(Flatten(t, flags).value, Conversions(flags), fmt);
    ConvertedFields(flags);
  }

  /** The speed fields end in "/s" when both `human_readable` and `transfer`
      are set, as the tiered size followed by "/s"; otherwise they keep the
      flattened value. */
  lemma SpeedSuffix(t: Task, flags: Flags, fmt: Formatters)
    requires EnrichTask(t, flags, fmt).Some?
    ensures var f := Flatten(t, flags).value;
      var r := EnrichTask(t, flags, fmt).value;
      if flags.humanReadable && flags.transfer then
        && "speed_download" in f && AsNumber(f["speed_download"]).Some?
        && "speed_download" in r
        && r["speed_download"] == JStr(StorageText(AsNumber(f["speed_download"]).value, fmt.rounded) + "/s")
      else
        "speed_download" in f ==> "speed_download" in r && r["speed_download"] == f["speed_download"]
  {
    var cs := Conversions(flags);
    if flags.humanReadable && flags.transfer {
      assert cs[|cs| - 2] == ("speed_download", Speed);
      ConvertedValues(t, flags, fmt, |cs| - 2);
    } else {
      ConversionsOnlyUnderFlags(t, flags, fmt, "speed_download");
    }
  }

  /** The processed list has one task per input task, in order, each the
      result of its own pass; it fails exactly when some pass fails. */
  lemma EnrichAllShape(ts: seq<Task>, flags: Flags, fmt: Formatters)
    ensures var r := EnrichAll(ts, flags, fmt);
      && (r.None? <==> exists i :: 0 <= i < |ts| && EnrichTask(ts[i], flags, fmt).None?)
      && (r.Some? ==> |r.value| == |ts|)
      && (r.Some? ==> forall i :: 0 <= i < |ts| ==> Some(r.value[i]) == EnrichTask(ts[i], flags, fmt))
  {
    EnrichAllFailure(ts, flags, fmt);
    if EnrichAll(ts, flags, fmt).Some? {
      EnrichAllElements(ts, flags, fmt);
    }
  }

  lemma {:induction false} EnrichAllFailure(ts: seq<Task>, flags: Flags, fmt: Formatters)
    ensures EnrichAll(ts, flags, fmt).None? <==> exists i :: 0 <= i < |ts| && EnrichTask(ts[i], flags, fmt).None?
  {
    if ts != [] {
      var n := |ts| - 1;
      var init := ts[..n];
      EnrichAllFailure(init, flags, fmt);
      assert EnrichAll(ts, flags, fmt).None? <==>
        EnrichAll(init, flags, fmt).None? || EnrichTask(ts[n], flags, fmt).None?;
      assert forall i :: 0 <= i < n ==> init[i] == ts[i];
    }
  }

  lemma {:induction false} EnrichAllElements(ts: seq<Task>, flags: Flags, fmt: Formatters)
    requires EnrichAll(ts, flags, fmt).Some?
    ensures |EnrichAll(ts, flags, fmt).value| == |ts|
    ensures forall i :: 0 <= i < |ts| ==> Some(EnrichAll(ts, flags, fmt).value[i]) == EnrichTask(ts[i], flags, fmt)
  {
    if ts != [] {
      var init := ts[..|ts| - 1];
      EnrichAllElements(init, flags, fmt);
      var done := EnrichAll(init, flags, fmt).value;
      var r := EnrichAll(ts, flags, fmt).value;
      assert r == done + [EnrichTask(ts[|ts| - 1], flags, fmt).value];
      forall i | 0 <= i < |ts|
        ensures Some(r[i]) == EnrichTask(ts[i], flags, fmt)
      {
        if i < |init| {
          assert init[i] == ts[i];
        }
      }
    }
  }

  /** With neither the detail nor the transfer flag a pass only drops the
      wrapper key. */
  lemma NoFlagsOnlyDrops(t: Task, fmt: Formatters)
    ensures EnrichTask(t, Flags(false, false, false), fmt) == Some(t - {"additional"})
    ensures EnrichTask(t, Flags(false, false, true), fmt) == Some(t - {"additional"})
  {
  }
}
