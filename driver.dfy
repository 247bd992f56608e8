/** The driver of main.py: after argument parsing, `main` bootstraps the API
    registry from the info API, logs in, runs one command and logs out.
    The command line arrives already parsed; the terminal input, the
    network and the two foreign formatters are parameters. */
module Driver {
  import opened Values
  import opened Table
  import opened Api
  import opened Enrich
  import Format

  // ---------------------------------------------------------------------
  // The parsed command line

  /** `--sort <field> [desc|asc]` */
  datatype Sort = Sort(column: string, direction: string)

  /** The sub-command and its own options.  A `BooleanOptionalAction`
      option that was not given is `None`, which Python treats as false, so
      those are plain booleans here. */
  datatype Command =
    | InfoCommand
    | GetConfig
    | GetTasks(id: Option<string>, detail: bool, transfer: bool,
               offset: Option<int>, limit: Option<int>,
               filter: Option<Filter>, sort: Option<Sort>)
    | CreateTask(uri: Option<string>, password: Option<string>,
                 unzipPassword: Option<string>, destination: Option<string>)

  /** The namespace `parse_args` returns.  Both `--username` options (the
      top-level one and the one of create-task) write the same attribute,
      so there is one `username`. */
  datatype Args = Args(address: string, username: Option<string>, verbose: bool,
                       humanReadable: bool, command: Command)

  /** Python truthiness of an optional string: given and not empty. */
  predicate Given(o: Option<string>)
  {
    o.Some? && o.value != ""
  }

  /** Python truthiness of an optional integer: given and not zero. */
  predicate GivenNumber(o: Option<int>)
  {
    o.Some? && o.value != 0
  }

  // ---------------------------------------------------------------------
  // Request parameters

  const InfoQuery := "SYNO.API.Auth,SYNO.DownloadStation.Info,SYNO.DownloadStation.Task"
  const InfoParams := map["query" := PStr(InfoQuery)]
  const AuthName := "SYNO.API.Auth"
  const DsInfoName := "SYNO.DownloadStation.Info"
  const DsTaskName := "SYNO.DownloadStation.Task"

  /** The account used to log in: `--username` when it is given, else what
      was typed at the `Username: ` prompt. */
  function Account(username: Option<string>, typed: string): (a: string)
    ensures Given(username) ==> a == username.value
    ensures !Given(username) ==> a == typed
  {
    if Given(username) then username.value else typed
  }

  function LoginParams(account: string, password: string): map<string, Param>
  {
    map["account" := PStr(account), "passwd" := PStr(password),
        "session" := PStr("DownloadStation"), "format" := PStr("sid")]
  }

  const LogoutParams := map["session" := PStr("DownloadStation")]

  /** The `additional` parameter of a task request: "" followed by
      "detail," when details are asked for and then "transfer," when
      transfer figures are. */
  function Additional(detail: bool, transfer: bool): (s: string)
    ensures s in {"", "detail,", "transfer,", "detail,transfer,"}
    ensures detail <==> |s| >= 7 && s[..7] == "detail,"
    ensures transfer <==> |s| >= 9 && s[|s| - 9..] == "transfer,"
    ensures |s| == (if detail then 7 else 0) + (if transfer then 9 else 0)
  {
    if detail && transfer then "detail,transfer,"
    else if detail then "detail,"
    else if transfer then assert "transfer,"[..7][0] == 't'; "transfer,"
    else ""
  }

  /** Appending "detail," and then "transfer," to "" as the flags say
      gives Additional. */
  lemma AdditionalBuilt(detail: bool, transfer: bool)
    ensures var a := if detail then "" + "detail," else "";
      (if transfer then a + "transfer," else a) == Additional(detail, transfer)
  {
    assert "" + "detail," == "detail,";
    assert "" + "transfer," == "transfer,";
    assert "detail," + "transfer," == "detail,transfer,";
  }

  /** The task API method: one task by id, or the listing. */
  function TaskMethod(c: Command): string
    requires c.GetTasks?
  {
    if Given(c.id) then "getinfo" else "list"
  }

  /** `task_info_params` as sent: the id (Python's `None` when absent), the
      `additional` string, and, for a listing only, the offset and the
      limit when they are non-zero. */
  function TaskParams(c: Command): (p: map<string, Param>)
    requires c.GetTasks?
    ensures forall k :: k in p ==> k in {"id", "additional", "offset", "limit"}
    ensures "id" in p && "additional" in p
    ensures "offset" in p <==> !Given(c.id) && GivenNumber(c.offset)
    ensures "limit" in p <==> !Given(c.id) && GivenNumber(c.limit)
    ensures p["id"] == (if c.id.Some? then PStr(c.id.value) else PNone)
    ensures p["additional"] == PStr(Additional(c.detail, c.transfer))
    ensures "offset" in p ==> p["offset"] == PInt(c.offset.value) && c.offset.value != 0
    ensures "limit" in p ==> p["limit"] == PInt(c.limit.value) && c.limit.value != 0
    ensures Given(c.id) ==> "offset" !in p && "limit" !in p
  {
    var base := map["id" := (if c.id.Some? then PStr(c.id.value) else PNone),
                    "additional" := PStr(Additional(c.detail, c.transfer))];
    var withOffset := if !Given(c.id) && GivenNumber(c.offset) then base["offset" := PInt(c.offset.value)] else base;
    if !Given(c.id) && GivenNumber(c.limit) then withOffset["limit" := PInt(c.limit.value)] else withOffset
  }

  /** main.py builds `task_info_params` in place: the id and an empty
      `additional`, extended flag by flag, then the offset and the limit on
      the listing path. */
  method TaskInfoParams(c: Command) returns (methodName: string, params: map<string, Param>)
    requires c.GetTasks?
    ensures methodName == TaskMethod(c)
    ensures params == TaskParams(c)
  {
    var id := if c.id.Some? then PStr(c.id.value) else PNone;
    params := map["id" := id, "additional" := PStr("")];
    if c.detail {
      params := params["additional" := PStr(params["additional"].s + "detail,")];
    }
    if c.transfer {
      params := params["additional" := PStr(params["additional"].s + "transfer,")];
    }
    AdditionalBuilt(c.detail, c.transfer);
    assert params == map["id" := id, "additional" := PStr(Additional(c.detail, c.transfer))];
    if Given(c.id) {
      methodName := "getinfo";
    } else {
      if GivenNumber(c.offset) {
        params := params["offset" := PInt(c.offset.value)];
      }
      ghost var withOffset := params;
      if GivenNumber(c.limit) {
        params := params["limit" := PInt(c.limit.value)];
      }
      assert params == if GivenNumber(c.limit) then withOffset["limit" := PInt(c.limit.value)] else withOffset;
      methodName := "list";
    }
  }

  /** The options of create-task that are given, under their API names;
      `uri` is always among them. */
  function CreateParams(c: Command, username: Option<string>): (p: map<string, Param>)
    requires c.CreateTask? && Given(c.uri)
    ensures forall k :: k in p ==> k in {"uri", "username", "password", "unzip_password", "destination"}
    ensures "uri" in p
    ensures "username" in p <==> Given(username)
    ensures "password" in p <==> Given(c.password)
    ensures "unzip_password" in p <==> Given(c.unzipPassword)
    ensures "destination" in p <==> Given(c.destination)
    ensures p["uri"] == PStr(c.uri.value)
    ensures "username" in p ==> p["username"] == PStr(username.value)
    ensures "password" in p ==> p["password"] == PStr(c.password.value)
    ensures "unzip_password" in p ==> p["unzip_password"] == PStr(c.unzipPassword.value)
    ensures "destination" in p ==> p["destination"] == PStr(c.destination.value)
    ensures forall k :: k in p ==> p[k].PStr? && p[k].s != ""
  {
    var p0 := map["uri" := PStr(c.uri.value)];
    var p1 := if Given(username) then p0["username" := PStr(username.value)] else p0;
    var p2 := if Given(c.password) then p1["password" := PStr(c.password.value)] else p1;
    var p3 := if Given(c.unzipPassword) then p2["unzip_password" := PStr(c.unzipPassword.value)] else p2;
    if Given(c.destination) then p3["destination" := PStr(c.destination.value)] else p3
  }

  /** main.py:213-229: without a uri it prints "specify uri" and the process
      exits (`proceed` is false); otherwise `params` receives each option
      that is given. */
  method CreateTaskParams(c: Command, username: Option<string>)
    returns (proceed: bool, params: map<string, Param>, printed: seq<string>)
    requires c.CreateTask?
    ensures proceed <==> Given(c.uri)
    ensures proceed ==> params == CreateParams(c, username) && printed == []
    ensures !proceed ==> printed == ["specify uri"]
  {
    params := map[];
    printed := [];
    if Given(c.uri) {
      params := params["uri" := PStr(c.uri.value)];
    } else {
      printed := ["specify uri"];
      proceed := false;
      return;
    }
    if Given(username) {
      params := params["username" := PStr(username.value)];
    }
    if Given(c.password) {
      params := params["password" := PStr(c.password.value)];
    }
    if Given(c.unzipPassword) {
      params := params["unzip_password" := PStr(c.unzipPassword.value)];
    }
    if Given(c.destination) {
      params := params["destination" := PStr(c.destination.value)];
    }
    proceed := true;
  }

  // ---------------------------------------------------------------------
  // Sorting the task listing

  function BadDirection(direction: string): string
  {
    "[" + direction + "] isn't a valid sort option. Specify [desc] or [asc]"
  }

  /** main.py:198-209: what `--sort` does to the listing table, with the
      line it prints.  A direction other than exactly "desc" or "asc" is
      reported and the table is left as it is.  Otherwise `reversesort`
      becomes whether the direction is "desc", and then the column, by its
      display name, becomes `sortby` if the table has it; an unknown column
      is reported and the table keeps its old `sortby`. */
  function SortOutcome(table: Table, s: Sort): (r: Rendering)
    ensures s.direction != "desc" && s.direction != "asc" ==>
      r.table == table && r.printed == [BadDirection(s.direction)]
    ensures s.direction == "desc" || s.direction == "asc" ==>
      && r.table.header == table.header
      && r.table.rows == table.rows
      && r.table.reverseSort == (s.direction == "desc")
    ensures (s.direction == "desc" || s.direction == "asc") && DisplayName(s.column) in table.header ==>
      r.table.sortBy == Some(DisplayName(s.column)) && r.printed == []
    ensures (s.direction == "desc" || s.direction == "asc") && DisplayName(s.column) !in table.header ==>
      r.table.sortBy == table.sortBy && r.printed == [NotAColumn(DisplayName(s.column))]
    ensures r.table.header == table.header && r.table.rows == table.rows && |r.printed| <= 1
  {
    var column := DisplayName(s.column);
    if s.direction != "desc" && s.direction != "asc" then Rendering(table, [BadDirection(s.direction)])
    else
      var reversed := table.(reverseSort := s.direction == "desc");
      if column in table.header then Rendering(reversed.(sortBy := Some(column)), [])
      else Rendering(reversed, [NotAColumn(column)])
  }

  /** The assignments main.py makes to the table's sorting fields. */
  method ApplySort(table: Table, s: Sort) returns (sorted: Table, printed: seq<string>)
    ensures Rendering(sorted, printed) == SortOutcome(table, s)
  {
    var column := DisplayName(s.column);
    var sort := s.direction;
    sorted := table;
    printed := [];
    if sort != "desc" && sort != "asc" {
      printed := [BadDirection(sort)];
    } else {
      sorted := sorted.(reverseSort := sort == "desc");
      if column in sorted.header {
        sorted := sorted.(sortBy := Some(column));
      } else {
        printed := [NotAColumn(column)];
      }
    }
  }

  /** The listing after `--sort`, when one is given: the sorted table, and
      the sort's line after those `tabulate` printed. */
  function SortedBy(r: Rendering, sort: Option<Sort>): Rendering
  {
    if sort.None? then r
    else Rendering(SortOutcome(r.table, sort.value).table, r.printed + SortOutcome(r.table, sort.value).printed)
  }

  // ---------------------------------------------------------------------
  // Tables from decoded JSON

  /** A table and the lines `tabulate` printed while building it. */
  datatype Rendering = Rendering(table: Table, printed: seq<string>)

  /** The objects of a JSON list, when every element is an object. */
  function TasksOf(items: seq<Json>): (ts: Option<seq<Task>>)
    ensures ts.Some? <==> forall i :: 0 <= i < |items| ==> items[i].JObj?
    ensures ts.Some? ==> |ts.value| == |items| && forall i :: 0 <= i < |items| ==> ts.value[i] == items[i].fields
  {
    if forall i :: 0 <= i < |items| ==> items[i].JObj? then
      Some(seq(|items|, i requires 0 <= i < |items| => items[i].fields))
    else None
  }

  /** An object as the renderer holds it: each value by its `str()`, which
      `show` computes. */
  function ToRow(t: Task, show: Json -> string): (r: Row)
    ensures r.Keys == t.Keys
    ensures forall k :: k in r ==> r[k] == Str(show(t[k]))
  {
    map k | k in t :: Str(show(t[k]))
  }

  function ToRows(ts: seq<Task>, show: Json -> string): (rs: seq<Row>)
    ensures |rs| == |ts| && forall i :: 0 <= i < |ts| ==> rs[i] == ToRow(ts[i], show)
  {
    seq(|ts|, i requires 0 <= i < |ts| => ToRow(ts[i], show))
  }

  /** What `tabulate` makes of a list of objects: the multi-row table and
      the diagnostic of its filter; None where `from_json` raises on a
      repeated column name. */
  function DictionaryRendering(rows: seq<Row>, f: Option<Filter>): Option<Rendering>
  {
    if Tabulable(rows) then Some(Rendering(DictionaryTable(rows, f), FilterDiagnostics(rows, f))) else None
  }

  /** What `tabulate(j, f)` renders: a list of objects becomes a multi-row
      table and a single object a one-row table (its filter ignored).  None
      for anything else, and for a list whose keys share a display name, on
      which Python raises. */
  function Rendered(j: Json, f: Option<Filter>, show: Json -> string): (r: Option<Rendering>)
    ensures r.Some? <==> j.JObj? || (j.JArr? && TasksOf(j.items).Some? && Tabulable(ToRows(TasksOf(j.items).value, show)))
    ensures j.JObj? ==> r == Some(Rendering(ListTable(ToRow(j.fields, show)), []))
    ensures r.Some? && j.JArr? ==> r.value.table == DictionaryTable(ToRows(TasksOf(j.items).value, show), f)
  {
    if j.JObj? then Some(Rendering(ListTable(ToRow(j.fields, show)), []))
    else if j.JArr? && TasksOf(j.items).Some? then DictionaryRendering(ToRows(TasksOf(j.items).value, show), f)
    else None
  }

  /** `tabulate` on a list of objects. */
  method TabulateTasks(ts: seq<Task>, f: Option<Filter>, show: Json -> string) returns (r: Option<Rendering>)
    ensures r == DictionaryRendering(ToRows(ts, show), f)
  {
    var rows := ToRows(ts, show);
    var objects := new Row[|rows|](i requires 0 <= i < |rows| => rows[i]);
    assert objects[..] == rows;
    var table, printed := Tabulate(Many(objects), f);
    r := if table.Some? then Some(Rendering(table.value, printed)) else None;
  }

  /** `tabulate` on a decoded JSON value; None where Python raises. */
  method TabulateJson(j: Json, f: Option<Filter>, show: Json -> string) returns (r: Option<Rendering>)
    ensures r == Rendered(j, f, show)
  {
    if j.JObj? {
      var table, printed := Tabulate(One(ToRow(j.fields, show)), f);
      r := Some(Rendering(table.value, printed));
    } else if j.JArr? && TasksOf(j.items).Some? {
      r := TabulateTasks(TasksOf(j.items).value, f, show);
    } else {
      r := None;
    }
  }

  // ---------------------------------------------------------------------
  // The task listing

  /** A task whose `size` `readable_storage` can take: present and a
      number (Python compares a bool as 0 or 1). */
  predicate Sizable(t: Task)
  {
    "size" in t && AsNumber(t["size"]).Some?
  }

  /** `task['size'] = readable_storage(task['size'])` */
  function Sized(t: Task, rounded: real -> string): (r: Task)
    requires Sizable(t)
    ensures r.Keys == t.Keys
    ensures r["size"] == JStr(Format.StorageText(AsNumber(t["size"]).value, rounded))
    ensures forall k :: k in t && k != "size" ==> r[k] == t[k]
  {
    t["size" := JStr(Format.StorageText(AsNumber(t["size"]).value, rounded))]
  }

  /** The tasks after the --human-readable pass over a listing; None when
      one of them has no numeric size. */
  function SizedAll(ts: seq<Task>, rounded: real -> string): (r: Option<seq<Task>>)
    ensures r.Some? <==> forall i :: 0 <= i < |ts| ==> Sizable(ts[i])
    ensures r.Some? ==> |r.value| == |ts| && forall i :: 0 <= i < |ts| ==> r.value[i] == Sized(ts[i], rounded)
  {
    if forall i :: 0 <= i < |ts| ==> Sizable(ts[i]) then
      Some(seq(|ts|, i requires 0 <= i < |ts| && Sizable(ts[i]) => Sized(ts[i], rounded)))
    else None
  }

  /** main.py:185-187: each task's size, in place, in list order. */
  method HumanSizes(tasks: array<Task>, rounded: real -> string) returns (ok: bool)
    modifies tasks
    ensures ok <==> SizedAll(old(tasks[..]), rounded).Some?
    ensures ok ==> tasks[..] == SizedAll(old(tasks[..]), rounded).value
  {
    ghost var ts := tasks[..];
    for i := 0 to tasks.Length
      invariant forall j :: 0 <= j < i ==> Sizable(ts[j]) && tasks[j] == Sized(ts[j], rounded)
      invariant forall j :: i <= j < tasks.Length ==> tasks[j] == ts[j]
    {
      var task := tasks[i];
      if !("size" in task && AsNumber(task["size"]).Some?) {
        assert !Sizable(ts[i]);
        return false;
      }
      var text := Format.ReadableStorage(AsNumber(task["size"]).value, rounded);
      tasks[i] := task["size" := JStr(text)];
    }
    assert tasks[..] == SizedAll(ts, rounded).value;
    ok := true;
  }

  /** Whether the listing path walks the tasks itself before tabulating. */
  predicate Iterated(c: Command, humanReadable: bool)
    requires c.GetTasks?
  {
    humanReadable || c.detail || c.transfer
  }

  /** The tasks as they reach `tabulate` on a walked listing: sized under
      --human-readable, then flattened and converted by
      `get_additional_columns` under --detail or --transfer. */
  function Prepared(ts: seq<Task>, c: Command, humanReadable: bool, fmt: Formatters): Option<seq<Task>>
    requires c.GetTasks?
  {
    var sized := if humanReadable then SizedAll(ts, fmt.rounded) else Some(ts);
    if sized.None? || !(c.detail || c.transfer) then sized
    else EnrichAll(sized.value, Flags(c.detail, c.transfer, humanReadable), fmt)
  }

  /** The listing table before any `--sort`.  A listing walked by the
      client must be a list of objects; otherwise `tabulate` takes
      `data['tasks']` as it came. */
  function ListingRendering(tasks: Json, c: Command, humanReadable: bool, fmt: Formatters,
                            show: Json -> string): Option<Rendering>
    requires c.GetTasks?
  {
    if !Iterated(c, humanReadable) then Rendered(tasks, c.filter, show)
    else if !tasks.JArr? || TasksOf(tasks.items).None? then None
    else
      match Prepared(TasksOf(tasks.items).value, c, humanReadable, fmt)
      case None => None
      case Some(ps) => DictionaryRendering(ToRows(ps, show), c.filter)
  }

  /** main.py:186-192: the tasks of a listing, in a list Python mutates in
      place, sized and then enriched as the flags say. */
  method WalkTasks(ts: seq<Task>, c: Command, humanReadable: bool, fmt: Formatters)
    returns (listed: Option<seq<Task>>)
    requires c.GetTasks?
    ensures listed == Prepared(ts, c, humanReadable, fmt)
  {
    var objects := new Task[|ts|](i requires 0 <= i < |ts| => ts[i]);
    assert objects[..] == ts;
    if humanReadable {
      var ok := HumanSizes(objects, fmt.rounded);
      if !ok {
        return None;
      }
    }
    assert Some(objects[..]) == if humanReadable then SizedAll(ts, fmt.rounded) else Some(ts);
    if c.detail || c.transfer {
      listed := GetAdditionalColumns(objects, Flags(c.detail, c.transfer, humanReadable), fmt);
    } else {
      listed := Some(objects[..]);
    }
  }

  /** main.py:184-197: the listing table, before any `--sort`. */
  method Listing(tasks: Json, c: Command, humanReadable: bool, fmt: Formatters, show: Json -> string)
    returns (r: Option<Rendering>)
    requires c.GetTasks?
    ensures r == ListingRendering(tasks, c, humanReadable, fmt, show)
  {
    if !Iterated(c, humanReadable) {
      r := TabulateJson(tasks, c.filter, show);
    } else if !tasks.JArr? || TasksOf(tasks.items).None? {
      r := None;
    } else {
      var listed := WalkTasks(TasksOf(tasks.items).value, c, humanReadable, fmt);
      if listed.None? {
        return None;
      }
      r := TabulateTasks(listed.value, c.filter, show);
    }
  }

  /** main.py:177-211 after the request: the table of the listing, sorted
      as `--sort` says, and what was printed on the way; None where Python
      raises. */
  method ListTasks(tasks: Json, c: Command, humanReadable: bool, fmt: Formatters, show: Json -> string)
    returns (table: Option<Table>, printed: seq<string>)
    requires c.GetTasks?
    ensures table.None? <==> ListingRendering(tasks, c, humanReadable, fmt, show).None?
    ensures table.Some? ==>
      Rendering(table.value, printed) == SortedBy(ListingRendering(tasks, c, humanReadable, fmt, show).value, c.sort)
  {
    var r := Listing(tasks, c, humanReadable, fmt, show);
    if r.None? {
      return None, [];
    }
    table := Some(r.value.table);
    printed := r.value.printed;
    if c.sort.Some? {
      var sorted, more := ApplySort(r.value.table, c.sort.value);
      table := Some(sorted);
      printed := printed + more;
    }
  }

  /** main.py:166-176 after the request: with --human-readable the size of
      `data['tasks']`, taken as one object, is rewritten before it is
      tabulated without a filter. */
  function ByIdRendering(tasks: Json, humanReadable: bool, rounded: real -> string,
                         show: Json -> string): Option<Rendering>
  {
    if !humanReadable then Rendered(tasks, None, show)
    else if tasks.JObj? && Sizable(tasks.fields) then Rendered(JObj(Sized(tasks.fields, rounded)), None, show)
    else None
  }

  method TaskById(tasks: Json, humanReadable: bool, rounded: real -> string, show: Json -> string)
    returns (r: Option<Rendering>)
    ensures r == ByIdRendering(tasks, humanReadable, rounded, show)
  {
    var shown := tasks;
    if humanReadable {
      if !(tasks.JObj? && "size" in tasks.fields && AsNumber(tasks.fields["size"]).Some?) {
        return None;
      }
      var size := Format.ReadableStorage(AsNumber(tasks.fields["size"]).value, rounded);
      shown := JObj(tasks.fields["size" := JStr(size)]);
    }
    r := TabulateJson(shown, None, show);
  }

  // ---------------------------------------------------------------------
  // One run of `main`

  /** How a run ends: `main` returns; `sys.exit()` ends it after printing;
      or Python raises (a key the response lacks, a value of the wrong
      type, an API name `update` cannot find). */
  datatype Status = Completed | Exited | Crashed

  /** What a run prints, in order: a line, or a rendered table. */
  datatype Event = Line(text: string) | Shown(table: Table)

  function Said(lines: seq<string>): (es: seq<Event>)
    ensures |es| == |lines| && forall i :: 0 <= i < |lines| ==> es[i] == Line(lines[i])
  {
    seq(|lines|, i requires 0 <= i < |lines| => Line(lines[i]))
  }

  function Printed(o: Outcome): seq<string>
  {
    match o
    case UnknownApi => []
    case Returned(_, printed) => printed
    case Terminated(printed) => printed
  }

  /** The GET `request` sends to an API registered with descriptor d. */
  function ApiGet(address: string, d: Descriptor, methodName: string,
                  params: map<string, Param>, cookies: map<string, string>): Get
  {
    Get("http://" + address + "/webapi/" + d.path, BaseQuery(d, methodName) + params, cookies)
  }

  /** The first request: the info API through its bootstrap descriptor,
      without cookies. */
  function InfoGet(address: string): Get
  {
    ApiGet(address, InfoDescriptor, "query", InfoParams, map[])
  }

  /** An info response from which all three APIs can be registered. */
  predicate Catalogued(response: Response)
  {
    && response.Body?
    && CatalogEntry(response.envelope, AuthName).Some?
    && CatalogEntry(response.envelope, DsInfoName).Some?
    && CatalogEntry(response.envelope, DsTaskName).Some?
  }

  /** The registry after the bootstrap: `info` and the three APIs the
      info response describes. */
  function Registered(response: Response): (apis: map<string, Descriptor>)
    requires Catalogued(response)
    ensures apis.Keys == {InfoKey, "auth", "dsInfo", "dsTask"}
    ensures apis["auth"].name == AuthName && apis["dsInfo"].name == DsInfoName && apis["dsTask"].name == DsTaskName
  {
    map[InfoKey := InfoDescriptor,
        "auth" := CatalogEntry(response.envelope, AuthName).value,
        "dsInfo" := CatalogEntry(response.envelope, DsInfoName).value,
        "dsTask" := CatalogEntry(response.envelope, DsTaskName).value]
  }

  /** `login['data']['sid']`, when the login outcome holds a string there. */
  function SessionId(o: Outcome): Option<string>
  {
    if o.Returned? && o.envelope.Succeeded? then
      match Field(o.envelope.data, "sid")
      case Some(JStr(sid)) => Some(sid)
      case _ => None
    else None
  }

  /** One call of `request` for a registered key: its outcome and the GET
      that reached the transport. */
  method Send(r: Registry, address: string, api: string, methodName: string,
              params: map<string, Param>, cookies: map<string, string>,
              transport: Get -> Response) returns (o: Outcome, g: Get)
    requires api in r.apis
    ensures g == ApiGet(address, r.apis[api], methodName, params, cookies)
    ensures o == Classify(api, transport(g))
  {
    o := r.Request(address, api, methodName, params, cookies, transport);
    g := r.Prepare(address, api, methodName, params, cookies).value;
  }

  /** main.py:120-129: the info query through the bootstrap entry, then
      `update` for `auth`, `dsInfo` and `dsTask`, in that order. */
  method Bootstrap(r: Registry, address: string, transport: Get -> Response)
    returns (sent: seq<Get>, printed: seq<string>, status: Status)
    requires r.apis == map[InfoKey := InfoDescriptor]
    modifies r
    ensures sent == [InfoGet(address)]
    ensures status == Exited <==> !transport(InfoGet(address)).Body?
    ensures status == Completed <==> Catalogued(transport(InfoGet(address)))
    ensures status == Completed ==> r.apis == Registered(transport(InfoGet(address))) && printed == []
  {
    var o, g := Send(r, address, InfoKey, "query", InfoParams, map[], transport);
    sent := [g];
    printed := Printed(o);
    if o.Terminated? {
      status := Exited;
      return;
    }
    var ok := r.Update("auth", o.envelope, AuthName);
    if ok {
      ok := r.Update("dsInfo", o.envelope, DsInfoName);
    }
    if ok {
      ok := r.Update("dsTask", o.envelope, DsTaskName);
    }
    status := if ok then Completed else Crashed;
  }

  /** The request a command sends, given the registry after the bootstrap
      and the session cookie; create-task without a uri sends none. */
  function CommandGet(address: string, c: Command, username: Option<string>,
                      apis: map<string, Descriptor>, cookies: map<string, string>): (g: Option<Get>)
    requires "dsInfo" in apis && "dsTask" in apis
    ensures g.None? <==> c.CreateTask? && !Given(c.uri)
  {
    match c
    case InfoCommand => Some(ApiGet(address, apis["dsInfo"], "getinfo", map[], cookies))
    case GetConfig => Some(ApiGet(address, apis["dsInfo"], "getconfig", map[], cookies))
    case GetTasks(_, _, _, _, _, _, _) =>
      Some(ApiGet(address, apis["dsTask"], TaskMethod(c), TaskParams(c), cookies))
    case CreateTask(uri, _, _, _) =>
      if Given(uri) then Some(ApiGet(address, apis["dsTask"], "create", CreateParams(c, username), cookies))
      else None
  }

  /** What get-tasks renders from the `data` of its response, sorted as
      `--sort` says on a listing; None where Python raises. */
  function TasksRendering(args: Args, data: Json, fmt: Formatters, show: Json -> string): Option<Rendering>
    requires args.command.GetTasks?
  {
    match Field(data, "tasks")
    case None => None
    case Some(tasks) =>
      if Given(args.command.id) then ByIdRendering(tasks, args.humanReadable, fmt.rounded, show)
      else
        match ListingRendering(tasks, args.command, args.humanReadable, fmt, show)
        case None => None
        case Some(r) => Some(SortedBy(r, args.command.sort))
  }

  /** What a command that shows a table renders from the `data` of its
      response. */
  function CommandRendering(args: Args, data: Json, fmt: Formatters, show: Json -> string): Option<Rendering>
    requires !args.command.CreateTask?
  {
    if args.command.GetTasks? then TasksRendering(args, data, fmt, show) else Rendered(data, None, show)
  }

  /** main.py:146-153: `getinfo` or `getconfig` of the Download Station
      info API, tabulated. */
  method DsInfoCommand(r: Registry, args: Args, methodName: string, cookies: map<string, string>,
                       transport: Get -> Response, fmt: Formatters, show: Json -> string)
    returns (sent: seq<Get>, out: seq<Event>, status: Status)
    requires args.command.InfoCommand? || args.command.GetConfig?
    requires "dsInfo" in r.apis
    ensures sent == [ApiGet(args.address, r.apis["dsInfo"], methodName, map[], cookies)]
    ensures status == Exited <==> !transport(sent[0]).Body?
    ensures status == Exited ==> out == Said(Printed(Classify("dsInfo", transport(sent[0]))))
    ensures status == Completed <==>
      transport(sent[0]).Body? && transport(sent[0]).envelope.Succeeded? &&
      CommandRendering(args, transport(sent[0]).envelope.data, fmt, show).Some?
    ensures status == Completed ==>
      out == [Shown(CommandRendering(args, transport(sent[0]).envelope.data, fmt, show).value.table)]
  {
    var o, g := Send(r, args.address, "dsInfo", methodName, map[], cookies, transport);
    sent := [g];
    out := Said(Printed(o));
    if o.Terminated? {
      status := Exited;
      return;
    }
    if o.envelope.Failed? {
      status := Crashed;
      return;
    }
    var rendered := TabulateJson(o.envelope.data, None, show);
    if rendered.None? {
      status := Crashed;
      return;
    }
    out := out + Said(rendered.value.printed) + [Shown(rendered.value.table)];
    status := Completed;
  }

  /** `out` is what get-tasks prints from `data`: the lines printed on the
      way, then the table, with its sorting fields as `--sort` set them. */
  predicate ShowsTasks(args: Args, data: Json, fmt: Formatters, show: Json -> string, out: seq<Event>)
    requires args.command.GetTasks?
  {
    && TasksRendering(args, data, fmt, show).Some?
    && var rendering := TasksRendering(args, data, fmt, show).value;
    && out == Said(rendering.printed) + [Shown(rendering.table)]
  }

  /** main.py:166-211 after the request: the table of the tasks in the
      response's `data`; `ok` is false where Python raises, and the lines
      printed before such a raise are not kept. */
  method ShowTasks(args: Args, data: Json, fmt: Formatters, show: Json -> string)
    returns (out: seq<Event>, ok: bool)
    requires args.command.GetTasks?
    ensures ok <==> TasksRendering(args, data, fmt, show).Some?
    ensures ok ==> ShowsTasks(args, data, fmt, show, out)
  {
    var tasks := Field(data, "tasks");
    if tasks.None? {
      return [], false;
    }
    if Given(args.command.id) {
      var rendered := TaskById(tasks.value, args.humanReadable, fmt.rounded, show);
      if rendered.None? {
        return [], false;
      }
      out := Said(rendered.value.printed) + [Shown(rendered.value.table)];
    } else {
      var table, printed := ListTasks(tasks.value, args.command, args.humanReadable, fmt, show);
      if table.None? {
        return [], false;
      }
      out := Said(printed) + [Shown(table.value)];
    }
    ok := true;
  }

  /** main.py:154-211: `getinfo` for the given ids or `list`, then the
      table of the tasks. */
  method GetTasksCommand(r: Registry, args: Args, cookies: map<string, string>,
                         transport: Get -> Response, fmt: Formatters, show: Json -> string)
    returns (sent: seq<Get>, out: seq<Event>, status: Status)
    requires args.command.GetTasks?
    requires "dsTask" in r.apis
    ensures sent == [ApiGet(args.address, r.apis["dsTask"], TaskMethod(args.command), TaskParams(args.command), cookies)]
    ensures status == Exited <==> !(transport(sent[0]).Body? && transport(sent[0]).envelope.Succeeded?)
    ensures status == Exited ==> out == Said(Printed(Classify("dsTask", transport(sent[0]))))
    ensures status == Completed <==>
      transport(sent[0]).Body? && transport(sent[0]).envelope.Succeeded? &&
      TasksRendering(args, transport(sent[0]).envelope.data, fmt, show).Some?
    ensures status == Completed ==> ShowsTasks(args, transport(sent[0]).envelope.data, fmt, show, out)
  {
    var methodName, params := TaskInfoParams(args.command);
    var o, g := Send(r, args.address, "dsTask", methodName, params, cookies, transport);
    sent := [g];
    if o.Terminated? {
      out := Said(Printed(o));
      status := Exited;
      return;
    }
    assert o == Returned(transport(sent[0]).envelope, []);
    var ok;
    out, ok := ShowTasks(args, o.envelope.data, fmt, show);
    status := if ok then Completed else Crashed;
  }

  /** main.py:212-231: the create request, sent only with a uri. */
  method CreateTaskCommand(r: Registry, args: Args, cookies: map<string, string>,
                           transport: Get -> Response)
    returns (sent: seq<Get>, out: seq<Event>, status: Status)
    requires args.command.CreateTask?
    requires "dsTask" in r.apis
    ensures !Given(args.command.uri) ==> sent == [] && out == [Line("specify uri")] && status == Exited
    ensures Given(args.command.uri) ==>
      sent == [ApiGet(args.address, r.apis["dsTask"], "create", CreateParams(args.command, args.username), cookies)]
    ensures status != Crashed
    ensures Given(args.command.uri) ==>
      (status == Completed <==> transport(sent[0]).Body? && transport(sent[0]).envelope.Succeeded?)
    ensures Given(args.command.uri) && status == Exited ==> out == Said(Printed(Classify("dsTask", transport(sent[0]))))
    ensures status == Completed ==>
      |sent| == 1 && transport(sent[0]).Body? && transport(sent[0]).envelope.Succeeded? && out == []
  {
    var proceed, params, printed := CreateTaskParams(args.command, args.username);
    if !proceed {
      sent := [];
      out := Said(printed);
      status := Exited;
      return;
    }
    var o, g := Send(r, args.address, "dsTask", "create", params, cookies, transport);
    sent := [g];
    out := Said(Printed(o));
    status := if o.Terminated? then Exited else Completed;
  }

  /** The login request, through the `auth` descriptor the info response
      registered, without cookies. */
  function LoginGet(args: Args, typed: string, password: string, info: Response): Get
    requires Catalogued(info)
  {
    ApiGet(args.address, Registered(info)["auth"], "login",
           LoginParams(Account(args.username, typed), password), map[])
  }

  /** The logout request: the `DownloadStation` session, without cookies. */
  function LogoutGet(address: string, info: Response): Get
    requires Catalogued(info)
  {
    ApiGet(address, Registered(info)["auth"], "logout", LogoutParams, map[])
  }

  /** A login response that carries a session id. */
  predicate LoggedIn(login: Response)
  {
    SessionId(Classify("auth", login)).Some?
  }

  /** `{'id': sid}` */
  function SessionCookies(login: Response): map<string, string>
    requires LoggedIn(login)
  {
    map["id" := SessionId(Classify("auth", login)).value]
  }

  /** What a completed command printed, given the GET it sent: the table
      it renders from the response, or nothing for create-task. */
  predicate CompletedOutput(args: Args, transport: Get -> Response, fmt: Formatters,
                            show: Json -> string, command: Get, out: seq<Event>)
  {
    var response := transport(command);
    && response.Body? && response.envelope.Succeeded?
    && (args.command.CreateTask? ==> out == [])
    && (args.command.InfoCommand? || args.command.GetConfig? ==>
          && CommandRendering(args, response.envelope.data, fmt, show).Some?
          && out == [Shown(CommandRendering(args, response.envelope.data, fmt, show).value.table)])
    && (args.command.GetTasks? ==> ShowsTasks(args, response.envelope.data, fmt, show, out))
  }

  /** A response that `request` hands back as a success: a decoded
      envelope with `success` true. */
  predicate Succeeds(response: Response)
  {
    response.Body? && response.envelope.Succeeded?
  }

  /** The API a command's request goes to. */
  function CommandApi(c: Command): string
  {
    if c.InfoCommand? || c.GetConfig? then "dsInfo" else "dsTask"
  }

  /** Whether the command completes on the response to its request g: the
      response is a success and, for a command that shows a table, the
      table can be rendered from its data. */
  predicate CommandDone(args: Args, transport: Get -> Response, fmt: Formatters, show: Json -> string, g: Get)
  {
    && Succeeds(transport(g))
    && (args.command.CreateTask? || CommandRendering(args, transport(g).envelope.data, fmt, show).Some?)
  }

  /** Whether `request` ends the process on the response to the command's
      request g: a transport fault or an undecodable body, or a failure of
      the task API (a failure of the info API is handed back, and main.py
      then raises on its missing `data`). */
  predicate CommandExits(args: Args, transport: Get -> Response, g: Get)
  {
    !transport(g).Body? || (transport(g).envelope.Failed? && CommandApi(args.command) == "dsTask")
  }

  /** The requests from the command on: the command's request, and the
      logout once the command completed. */
  function CommandRequests(args: Args, transport: Get -> Response, fmt: Formatters, show: Json -> string,
                           info: Response, cookies: map<string, string>): seq<Get>
    requires Catalogued(info)
  {
    var g := CommandGet(args.address, args.command, args.username, Registered(info), cookies);
    if g.None? then []
    else if CommandDone(args, transport, fmt, show, g.value) then [g.value, LogoutGet(args.address, info)]
    else [g.value]
  }

  /** How the run ends from the command on. */
  function CommandStatus(args: Args, transport: Get -> Response, fmt: Formatters, show: Json -> string,
                         info: Response, cookies: map<string, string>): Status
    requires Catalogued(info)
  {
    var g := CommandGet(args.address, args.command, args.username, Registered(info), cookies);
    if g.None? || CommandExits(args, transport, g.value) then Exited
    else if !CommandDone(args, transport, fmt, show, g.value) then Crashed
    else if Succeeds(transport(LogoutGet(args.address, info))) then Completed
    else Exited
  }

  /** The requests from the login on: the login, then, once a session id
      came back, those of the command. */
  function SessionRequests(args: Args, typed: string, password: string, transport: Get -> Response,
                           fmt: Formatters, show: Json -> string, info: Response): seq<Get>
    requires Catalogued(info)
  {
    var login := LoginGet(args, typed, password, info);
    [login] + if LoggedIn(transport(login))
              then CommandRequests(args, transport, fmt, show, info, SessionCookies(transport(login)))
              else []
  }

  /** How the run ends from the login on: a failed login exits, a reply
      without a string `sid` raises. */
  function SessionStatus(args: Args, typed: string, password: string, transport: Get -> Response,
                         fmt: Formatters, show: Json -> string, info: Response): Status
    requires Catalogued(info)
  {
    var login := transport(LoginGet(args, typed, password, info));
    if !Succeeds(login) then Exited
    else if !LoggedIn(login) then Crashed
    else CommandStatus(args, transport, fmt, show, info, SessionCookies(login))
  }

  /** Every request of a run, in order: the info query, then, once all three
      APIs could be registered, those from the login on. */
  function RunRequests(args: Args, typed: string, password: string, transport: Get -> Response,
                       fmt: Formatters, show: Json -> string): seq<Get>
  {
    var info := transport(InfoGet(args.address));
    [InfoGet(args.address)] + if Catalogued(info) then SessionRequests(args, typed, password, transport, fmt, show, info) else []
  }

  /** How a run ends: the info query exits on a transport or decoding fault
      and raises when an API cannot be registered. */
  function RunStatus(args: Args, typed: string, password: string, transport: Get -> Response,
                     fmt: Formatters, show: Json -> string): Status
  {
    var info := transport(InfoGet(args.address));
    if !info.Body? then Exited
    else if !Catalogued(info) then Crashed
    else SessionStatus(args, typed, password, transport, fmt, show, info)
  }

  /** The requests of a run, in order: the info query first; the login
      only once its response let all three APIs be registered; the
      command's request once a session id came back; the logout last. */
  predicate Trace(args: Args, typed: string, password: string, transport: Get -> Response, sent: seq<Get>)
  {
    && 1 <= |sent| <= 4
    && sent[0] == InfoGet(args.address)
    && (|sent| >= 2 ==>
          && Catalogued(transport(sent[0]))
          && sent[1] == LoginGet(args, typed, password, transport(sent[0])))
    && (|sent| >= 3 ==>
          && LoggedIn(transport(sent[1]))
          && Some(sent[2]) == CommandGet(args.address, args.command, args.username,
                                         Registered(transport(sent[0])), SessionCookies(transport(sent[1]))))
    && (|sent| == 4 ==> sent[3] == LogoutGet(args.address, transport(sent[0])))
  }

  /** The requests a run sends follow the trace. */
  lemma RunRequestsFollowTrace(args: Args, typed: string, password: string, transport: Get -> Response,
                               fmt: Formatters, show: Json -> string)
    ensures Trace(args, typed, password, transport, RunRequests(args, typed, password, transport, fmt, show))
  {
    var sent := RunRequests(args, typed, password, transport, fmt, show);
    var info := transport(InfoGet(args.address));
    if Catalogued(info) {
      var login := LoginGet(args, typed, password, info);
      assert sent[1] == login;
      if LoggedIn(transport(login)) {
        var rest := CommandRequests(args, transport, fmt, show, info, SessionCookies(transport(login)));
        assert sent == [InfoGet(args.address), login] + rest;
      }
    }
  }

  /** The command's part of main.py:146-231: at most one request. */
  method Dispatch(r: Registry, args: Args, cookies: map<string, string>,
                  transport: Get -> Response, fmt: Formatters, show: Json -> string)
    returns (sent: seq<Get>, out: seq<Event>, status: Status)
    requires "dsInfo" in r.apis && "dsTask" in r.apis
    ensures var g := CommandGet(args.address, args.command, args.username, r.apis, cookies);
      sent == if g.Some? then [g.value] else []
    ensures var g := CommandGet(args.address, args.command, args.username, r.apis, cookies);
      && (status == Completed <==> g.Some? && CommandDone(args, transport, fmt, show, g.value))
      && (status == Exited <==> g.None? || CommandExits(args, transport, g.value))
      && (g.Some? && status == Exited ==> out == Said(Printed(Classify(CommandApi(args.command), transport(g.value)))))
    ensures status == Completed ==> |sent| == 1 && CompletedOutput(args, transport, fmt, show, sent[0], out)
    ensures args.command.CreateTask? && !Given(args.command.uri) ==>
      status == Exited && out == [Line("specify uri")]
  {
    match args.command {
      case InfoCommand =>
        sent, out, status := DsInfoCommand(r, args, "getinfo", cookies, transport, fmt, show);
      case GetConfig =>
        sent, out, status := DsInfoCommand(r, args, "getconfig", cookies, transport, fmt, show);
      case GetTasks(_, _, _, _, _, _, _) =>
        sent, out, status := GetTasksCommand(r, args, cookies, transport, fmt, show);
      case CreateTask(_, _, _, _) =>
        sent, out, status := CreateTaskCommand(r, args, cookies, transport);
    }
  }

  /** main.py:131-144: the login, and `{'id': sid}` when its response
      carries a session id. */
  method Login(r: Registry, args: Args, typed: string, password: string, transport: Get -> Response,
               ghost info: Response)
    returns (login: Get, out: seq<Event>, cookies: Option<map<string, string>>, status: Status)
    requires Catalogued(info) && r.apis == Registered(info)
    ensures login == LoginGet(args, typed, password, info)
    ensures cookies.Some? <==> LoggedIn(transport(login))
    ensures cookies.Some? ==> cookies.value == SessionCookies(transport(login)) && out == []
    ensures cookies.None? ==> status == if Succeeds(transport(login)) then Crashed else Exited
  {
    var account := Account(args.username, typed);
    var o;
    o, login := Send(r, args.address, "auth", "login", LoginParams(account, password), map[], transport);
    out := Said(Printed(o));
    if o.Terminated? {
      return login, out, None, Exited;
    }
    var sid := SessionId(o);
    if sid.None? {
      return login, out, None, Crashed;
    }
    assert Printed(o) == [];
    cookies := Some(map["id" := sid.value]);
    status := Completed;
  }

  /** main.py:146-233: the command, and the logout once it completed. */
  method AfterLogin(r: Registry, args: Args, cookies: map<string, string>, transport: Get -> Response,
                    fmt: Formatters, show: Json -> string, ghost info: Response)
    returns (sent: seq<Get>, out: seq<Event>, status: Status)
    requires Catalogued(info) && r.apis == Registered(info)
    ensures sent == CommandRequests(args, transport, fmt, show, info, cookies)
    ensures status == CommandStatus(args, transport, fmt, show, info, cookies)
    ensures status == Completed ==> |sent| == 2 && CompletedOutput(args, transport, fmt, show, sent[0], out)
    ensures args.command.CreateTask? && !Given(args.command.uri) ==>
      status == Exited && out == [Line("specify uri")]
  {
    var commandSent;
    commandSent, out, status := Dispatch(r, args, cookies, transport, fmt, show);
    if status != Completed {
      sent := commandSent;
      return;
    }
    var command := commandSent[0];
    var o, logout := Send(r, args.address, "auth", "logout", LogoutParams, map[], transport);
    sent := [command, logout];
    if o.Terminated? {
      out := out + Said(Printed(o));
      status := Exited;
      return;
    }
    // a logout that is not terminated succeeded and printed nothing
    assert Printed(o) == [];
  }

  /** main.py:131-233 once the APIs are registered: the login, the
      command, and the logout. */
  method Session(r: Registry, args: Args, typed: string, password: string, transport: Get -> Response,
                 fmt: Formatters, show: Json -> string, ghost info: Response)
    returns (sent: seq<Get>, out: seq<Event>, status: Status)
    requires Catalogued(info) && r.apis == Registered(info)
    ensures sent == SessionRequests(args, typed, password, transport, fmt, show, info)
    ensures status == SessionStatus(args, typed, password, transport, fmt, show, info)
    ensures status == Completed ==> |sent| == 3 && CompletedOutput(args, transport, fmt, show, sent[1], out)
    ensures args.command.CreateTask? && !Given(args.command.uri) ==>
      && |sent| == 1
      && status != Completed
      && (LoggedIn(transport(sent[0])) ==> status == Exited && |out| > 0 && out[|out| - 1] == Line("specify uri"))
  {
    var login, cookies;
    login, out, cookies, status := Login(r, args, typed, password, transport, info);
    if cookies.None? {
      sent := [login];
      assert !LoggedIn(transport(login));
      return;
    }
    var rest, more;
    rest, more, status := AfterLogin(r, args, cookies.value, transport, fmt, show, info);
    sent := [login] + rest;
    assert sent[0] == login && sent[1..] == rest;
    assert Succeeds(transport(login)) && LoggedIn(transport(login));
    assert status == CommandStatus(args, transport, fmt, show, info, SessionCookies(transport(login)));
    out := out + more;
  }

  /** `main()`: the info query, the three registrations, then the session.
      `typed` is what is entered at the `Username: ` prompt, `password`
      what `getpass` returns, and `transport` answers each GET. */
  method Run(args: Args, typed: string, password: string, transport: Get -> Response,
             fmt: Formatters, show: Json -> string)
    returns (sent: seq<Get>, out: seq<Event>, status: Status)
    ensures sent == RunRequests(args, typed, password, transport, fmt, show)
    ensures status == RunStatus(args, typed, password, transport, fmt, show)
    ensures Trace(args, typed, password, transport, sent)
    ensures status == Completed ==> |sent| == 4 && CompletedOutput(args, transport, fmt, show, sent[2], out)
    ensures args.command.CreateTask? && !Given(args.command.uri) ==>
      && |sent| <= 2
      && status != Completed
      && (|sent| == 2 && LoggedIn(transport(sent[1])) ==>
            status == Exited && |out| > 0 && out[|out| - 1] == Line("specify uri"))
  {
    var r := new Registry();
    var printed;
    sent, printed, status := Bootstrap(r, args.address, transport);
    out := Said(printed);
    if status != Completed {
      return;
    }
    var sessionSent, sessionOut;
    sessionSent, sessionOut, status := Session(r, args, typed, password, transport, fmt, show, transport(sent[0]));
    sent := sent + sessionSent;
    assert sent[1] == sessionSent[0];
    assert |sent| >= 3 ==> sent[2] == sessionSent[1];
    assert |sent| == 4 ==> sent[3] == sessionSent[2];
    out := out + sessionOut;
    RunRequestsFollowTrace(args, typed, password, transport, fmt, show);
  }

  // ---------------------------------------------------------------------
  // Properties of a run's requests

  /** The API a GET addresses, by the name in its query. */
  function ApiOf(g: Get): Option<Param>
  {
    if "api" in g.query then Some(g.query["api"]) else None
  }

  /** The method a GET calls. */
  function MethodOf(g: Get): Option<Param>
  {
    if "method" in g.query then Some(g.query["method"]) else None
  }

  /** A request whose own parameters leave `api` and `method` alone
      names the descriptor's API and the method it was given. */
  lemma ApiGetNames(address: string, d: Descriptor, methodName: string,
                    params: map<string, Param>, cookies: map<string, string>)
    requires "api" !in params && "method" !in params
    ensures ApiOf(ApiGet(address, d, methodName, params, cookies)) == Some(PStr(d.name))
    ensures MethodOf(ApiGet(address, d, methodName, params, cookies)) == Some(PStr(methodName))
  {
  }

  /** A request carries each of its own parameters as given and nothing
      but those and the reserved three. */
  lemma ApiGetParam(address: string, d: Descriptor, methodName: string,
                    params: map<string, Param>, cookies: map<string, string>, k: string)
    ensures k in params ==> k in ApiGet(address, d, methodName, params, cookies).query &&
                            ApiGet(address, d, methodName, params, cookies).query[k] == params[k]
    ensures k !in params && k !in {"api", "version", "method"} ==>
                            k !in ApiGet(address, d, methodName, params, cookies).query
  {
  }

  /** The method a command calls. */
  function CommandMethod(c: Command): string
  {
    match c
    case InfoCommand => "getinfo"
    case GetConfig => "getconfig"
    case GetTasks(_, _, _, _, _, _, _) => TaskMethod(c)
    case CreateTask(_, _, _, _) => "create"
  }

  /** A command's request names the Download Station API it is sent to
      and the method the command calls, and carries the session cookie. */
  lemma CommandGetNames(address: string, c: Command, username: Option<string>, info: Response,
                        cookies: map<string, string>)
    requires Catalogued(info)
    requires CommandGet(address, c, username, Registered(info), cookies).Some?
    ensures var g := CommandGet(address, c, username, Registered(info), cookies).value;
      && ApiOf(g) == Some(PStr(if c.InfoCommand? || c.GetConfig? then DsInfoName else DsTaskName))
      && MethodOf(g) == Some(PStr(CommandMethod(c)))
      && g.cookies == cookies
  {
    var apis := Registered(info);
    match c {
      case InfoCommand =>
        ApiGetNames(address, apis["dsInfo"], "getinfo", map[], cookies);
      case GetConfig =>
        ApiGetNames(address, apis["dsInfo"], "getconfig", map[], cookies);
      case GetTasks(_, _, _, _, _, _, _) =>
        ApiGetNames(address, apis["dsTask"], TaskMethod(c), TaskParams(c), cookies);
      case CreateTask(_, _, _, _) =>
        ApiGetNames(address, apis["dsTask"], "create", CreateParams(c, username), cookies);
    }
  }

  /** The names in the login and logout requests. */
  lemma SessionGetNames(args: Args, typed: string, password: string, info: Response)
    requires Catalogued(info)
    ensures ApiOf(LoginGet(args, typed, password, info)) == Some(PStr(AuthName))
    ensures MethodOf(LoginGet(args, typed, password, info)) == Some(PStr("login"))
    ensures ApiOf(LogoutGet(args.address, info)) == Some(PStr(AuthName))
    ensures MethodOf(LogoutGet(args.address, info)) == Some(PStr("logout"))
    ensures "session" in LogoutGet(args.address, info).query
    ensures LogoutGet(args.address, info).query["session"] == PStr("DownloadStation")
    ensures LoginGet(args, typed, password, info).cookies == map[] && LogoutGet(args.address, info).cookies == map[]
  {
    var auth := Registered(info)["auth"];
    ApiGetNames(args.address, auth, "login", LoginParams(Account(args.username, typed), password), map[]);
    ApiGetNames(args.address, auth, "logout", LogoutParams, map[]);
    ApiGetParam(args.address, auth, "logout", LogoutParams, map[], "session");
  }

  /** Bootstrap ordering: the first request goes to the info API, and
      every later one to one of the three APIs its response registered,
      so no request uses a key that was never registered. */
  lemma RegisteredBeforeUse(args: Args, typed: string, password: string, transport: Get -> Response,
                            sent: seq<Get>)
    requires Trace(args, typed, password, transport, sent)
    ensures ApiOf(sent[0]) == Some(PStr("SYNO.API.Info")) && MethodOf(sent[0]) == Some(PStr("query"))
    ensures forall i :: 1 <= i < |sent| ==>
      ApiOf(sent[i]) in {Some(PStr(AuthName)), Some(PStr(DsInfoName)), Some(PStr(DsTaskName))}
  {
    ApiGetNames(args.address, InfoDescriptor, "query", InfoParams, map[]);
    if |sent| >= 2 {
      var info := transport(sent[0]);
      SessionGetNames(args, typed, password, info);
      if |sent| >= 3 {
        CommandGetNames(args.address, args.command, args.username, info, SessionCookies(transport(sent[1])));
      }
      forall i | 1 <= i < |sent|
        ensures ApiOf(sent[i]) in {Some(PStr(AuthName)), Some(PStr(DsInfoName)), Some(PStr(DsTaskName))}
      {
        assert i == 1 || i == 2 || i == 3;
      }
    }
  }

  /** The logout is the last request, and only the last: it ends the
      `DownloadStation` session and carries no cookies. */
  lemma LogoutLast(args: Args, typed: string, password: string, transport: Get -> Response,
                   sent: seq<Get>)
    requires Trace(args, typed, password, transport, sent)
    ensures forall i :: 0 <= i < |sent| && MethodOf(sent[i]) == Some(PStr("logout")) ==> i == 3
  {
    ApiGetNames(args.address, InfoDescriptor, "query", InfoParams, map[]);
    if |sent| >= 2 {
      var info := transport(sent[0]);
      SessionGetNames(args, typed, password, info);
      if |sent| >= 3 {
        CommandGetNames(args.address, args.command, args.username, info, SessionCookies(transport(sent[1])));
        CommandNotLogout(args.command);
      }
    }
    OnlyFourth(sent, PStr("logout"));
  }

  /** The logout is sent exactly when the run gets past the command: the
      info reply registered all three APIs, the login returned a session id,
      and the command completed.  It is then the fourth and last request. */
  lemma LogoutSentIff(args: Args, typed: string, password: string, transport: Get -> Response,
                      fmt: Formatters, show: Json -> string)
    ensures var sent := RunRequests(args, typed, password, transport, fmt, show);
      var info := transport(InfoGet(args.address));
      && (|sent| == 4 <==>
            && Catalogued(info)
            && LoggedIn(transport(LoginGet(args, typed, password, info)))
            && var g := CommandGet(args.address, args.command, args.username, Registered(info),
                                   SessionCookies(transport(LoginGet(args, typed, password, info))));
               g.Some? && CommandDone(args, transport, fmt, show, g.value))
      && (|sent| == 4 ==> sent[3] == LogoutGet(args.address, info))
  {
    var info := transport(InfoGet(args.address));
    if Catalogued(info) {
      var login := LoginGet(args, typed, password, info);
      if LoggedIn(transport(login)) {
        var rest := CommandRequests(args, transport, fmt, show, info, SessionCookies(transport(login)));
        assert RunRequests(args, typed, password, transport, fmt, show) == [InfoGet(args.address), login] + rest;
      }
    }
  }

  /** A run completes exactly when it sent all four requests and the
      logout succeeded. */
  lemma RunCompletesIff(args: Args, typed: string, password: string, transport: Get -> Response,
                        fmt: Formatters, show: Json -> string)
    ensures var sent := RunRequests(args, typed, password, transport, fmt, show);
      RunStatus(args, typed, password, transport, fmt, show) == Completed <==>
        |sent| == 4 && Succeeds(transport(sent[3]))
  {
    LogoutSentIff(args, typed, password, transport, fmt, show);
  }

  /** A method name that none of the first three requests of at most four
      carries can only be carried by the fourth. */
  lemma OnlyFourth(sent: seq<Get>, m: Param)
    requires |sent| <= 4
    requires |sent| >= 1 ==> MethodOf(sent[0]) != Some(m)
    requires |sent| >= 2 ==> MethodOf(sent[1]) != Some(m)
    requires |sent| >= 3 ==> MethodOf(sent[2]) != Some(m)
    ensures forall i :: 0 <= i < |sent| && MethodOf(sent[i]) == Some(m) ==> i == 3
  {
  }

  /** No command calls the logout method. */
  lemma CommandNotLogout(c: Command)
    ensures CommandMethod(c) != "logout"
  {
    assert "logout"[1] == 'o';
  }

  /** The fourth request is the logout of the DownloadStation session, sent
      without cookies. */
  lemma LogoutRequest(args: Args, typed: string, password: string, transport: Get -> Response,
                      sent: seq<Get>)
    requires Trace(args, typed, password, transport, sent)
    requires |sent| == 4
    ensures ApiOf(sent[3]) == Some(PStr(AuthName))
    ensures MethodOf(sent[3]) == Some(PStr("logout"))
    ensures "session" in sent[3].query && sent[3].query["session"] == PStr("DownloadStation")
    ensures sent[3].cookies == map[]
  {
    SessionGetNames(args, typed, password, transport(sent[0]));
  }

  /** create-task without a uri never sends a `create` request. */
  lemma CreateNeedsUri(args: Args, typed: string, password: string, transport: Get -> Response,
                       sent: seq<Get>)
    requires Trace(args, typed, password, transport, sent)
    requires args.command.CreateTask? && !Given(args.command.uri)
    ensures |sent| <= 2
    ensures forall i :: 0 <= i < |sent| ==> MethodOf(sent[i]) != Some(PStr("create"))
  {
    ApiGetNames(args.address, InfoDescriptor, "query", InfoParams, map[]);
    if |sent| >= 2 {
      SessionGetNames(args, typed, password, transport(sent[0]));
    }
    forall i | 0 <= i < |sent|
      ensures MethodOf(sent[i]) != Some(PStr("create"))
    {
      assert i == 0 || i == 1;
    }
  }

  /** The task request of get-tasks: `getinfo` with an id, `list`
      without; the `additional` string; offset and limit only on a
      listing and only when non-zero; the session cookie. */
  lemma TaskRequest(args: Args, typed: string, password: string, transport: Get -> Response,
                    sent: seq<Get>)
    requires Trace(args, typed, password, transport, sent)
    requires args.command.GetTasks? && |sent| >= 3
    ensures var c := args.command;
      && MethodOf(sent[2]) == Some(PStr(if Given(c.id) then "getinfo" else "list"))
      && sent[2].query["additional"] == PStr(Additional(c.detail, c.transfer))
      && sent[2].query["id"] == (if c.id.Some? then PStr(c.id.value) else PNone)
      && ("offset" in sent[2].query <==> !Given(c.id) && GivenNumber(c.offset))
      && ("limit" in sent[2].query <==> !Given(c.id) && GivenNumber(c.limit))
      && sent[2].cookies == SessionCookies(transport(sent[1]))
  {
    var c := args.command;
    var info := transport(sent[0]);
    var d := Registered(info)["dsTask"];
    var cookies := SessionCookies(transport(sent[1]));
    CommandGetNames(args.address, c, args.username, info, cookies);
    var p := TaskParams(c);
    assert sent[2] == ApiGet(args.address, d, TaskMethod(c), p, cookies);
    ApiGetParam(args.address, d, TaskMethod(c), p, cookies, "additional");
    ApiGetParam(args.address, d, TaskMethod(c), p, cookies, "id");
    ApiGetParam(args.address, d, TaskMethod(c), p, cookies, "offset");
    ApiGetParam(args.address, d, TaskMethod(c), p, cookies, "limit");
  }
}
