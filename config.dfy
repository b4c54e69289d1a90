/** Start-up configuration read from the environment: which task source the GUI uses
    (`make_provider_from_env`) and the operator name passed to the recorder
    (`App._detect_operator`). */
module Config {
  import opened Builtins
  import opened Tasks

  /** What reading the file named by `TASKS_JSON` gives: a JSON list, some other JSON
      document, or an exception (the path is a directory, the text is not UTF-8 or not JSON). */
  datatype TasksDoc = ListDoc(items: seq<FieldValue>) | OtherDoc | Unreadable

  /** The task source chosen at start-up: the HTTP backend at a base URL, or a local list
      of prompts (before blank ones are dropped). */
  datatype ProviderConfig = HttpSource(baseUrl: string) | LocalSource(tasks: seq<string>)

  /** The exception `make_provider_from_env` lets escape, with the path that caused it. */
  datatype ConfigError = TasksFileUnreadable(path: string)

  const API_VAR := "TASK_API_BASE"
  const TASKS_VAR := "TASKS_JSON"
  const OPERATOR_VAR := "OPERATOR_NAME"

  /** The three built-in demo prompts. */
  const DEMO_TASKS: seq<string> := [
    "Откройте браузер и найдите погоду в Амстердаме",
    "Создайте документ и сохраните его на рабочий стол",
    "Откройте почту и подготовьте черновик письма другу"
  ]

  /** `[str(t) for t in tasks]`. */
  function Rendered(items: seq<FieldValue>): (r: seq<string>)
    ensures |r| == |items|
    ensures forall i :: 0 <= i < |items| ==> r[i] == PyStr(items[i])
  {
    seq(|items|, i requires 0 <= i < |items| => PyStr(items[i]))
  }

  /** The stripped TASK_API_BASE; it is empty exactly when the variable is unset or blank. */
  function ApiBase(env: map<string, string>): string
  {
    Strip(EnvGet(env, API_VAR))
  }

  /** The stripped TASKS_JSON path. */
  function TasksPath(env: map<string, string>): string
  {
    Strip(EnvGet(env, TASKS_VAR))
  }

  /** What reading TASKS_JSON gives, when the variable names a path that exists. */
  function TasksFile(env: map<string, string>, files: map<string, TasksDoc>): (f: Option<TasksDoc>)
    ensures f.Some? <==> TasksPath(env) != "" && TasksPath(env) in files
  {
    var path := TasksPath(env);
    if path != "" && path in files then Some(files[path]) else None
  }

  /** The precedence of `make_provider_from_env`, given the stripped TASK_API_BASE, what
      reading TASKS_JSON gives (`None` when it names no existing path) and that path. */
  function SelectProvider(base: string, file: Option<TasksDoc>, path: string): (r: Result<ProviderConfig, ConfigError>)
    // A non-blank TASK_API_BASE wins, whatever TASKS_JSON says.
    ensures base != "" <==> r.Ok? && r.value.HttpSource?
    // Next, an existing TASKS_JSON file holding a list gives its entries as strings.
    ensures base == "" && file.Some? && file.value.ListDoc? ==> r == Ok(LocalSource(Rendered(file.value.items)))
    // A TASKS_JSON file that cannot be read or parsed is the only failure.
    ensures r.Err? <==> base == "" && file == Some(Unreadable)
    ensures r.Err? ==> r.error.path == path
    // Otherwise: the demo prompts.
    ensures base == "" && (file.None? || file == Some(OtherDoc)) ==> r == Ok(LocalSource(DEMO_TASKS))
  {
    if base != "" then Ok(HttpSource(TrimEndChar(base, '/')))
    else
      match file
      case Some(ListDoc(items)) => Ok(LocalSource(Rendered(items)))
      case Some(Unreadable) => Err(TasksFileUnreadable(path))
      case Some(OtherDoc) => Ok(LocalSource(DEMO_TASKS))
      case None => Ok(LocalSource(DEMO_TASKS))
  }

  /** `make_provider_from_env`. The environment is a map and the file system the map from
      each existing path to what reading it as JSON gives. */
  function MakeProvider(env: map<string, string>, files: map<string, TasksDoc>): Result<ProviderConfig, ConfigError>
  {
    SelectProvider(ApiBase(env), TasksFile(env, files), TasksPath(env))
  }

  /** The backend URL is TASK_API_BASE, stripped, without its trailing slashes. */
  lemma BaseUrlTrimmed(env: map<string, string>, files: map<string, TasksDoc>)
    requires ApiBase(env) != ""
    ensures var url := MakeProvider(env, files).value.baseUrl;
      && |url| <= |ApiBase(env)| && url == ApiBase(env)[..|url|]
      && (forall i :: |url| <= i < |ApiBase(env)| ==> ApiBase(env)[i] == '/')
      && (url == [] || url[|url| - 1] != '/')
  {
  }

  /** The URL of an endpoint: the base without trailing slashes, then the path. A
      request path starting with "/" is therefore never preceded by a second "/". */
  lemma EndpointJoin(env: map<string, string>, files: map<string, TasksDoc>, path: string)
    requires MakeProvider(env, files).Ok? && MakeProvider(env, files).value.HttpSource?
    requires path != [] && path[0] == '/'
    ensures var base := MakeProvider(env, files).value.baseUrl;
      var url := base + path;
      base != [] ==> url[|base| - 1] != '/' && url[|base|] == '/'
  {
  }

  /** A TASKS_JSON list whose entries are all non-blank strings becomes exactly that
      list of prompts. */
  lemma {:induction false} TasksFileOfStrings(env: map<string, string>, files: map<string, TasksDoc>, prompts: seq<string>)
    requires IsBlank(EnvGet(env, API_VAR)) && !IsBlank(EnvGet(env, TASKS_VAR))
    requires TasksPath(env) in files
    requires files[TasksPath(env)] == ListDoc(seq(|prompts|, i requires 0 <= i < |prompts| => Text(prompts[i])))
    requires forall i :: 0 <= i < |prompts| ==> !IsBlank(prompts[i])
    ensures MakeProvider(env, files) == Ok(LocalSource(prompts))
    ensures KeepNonBlank(MakeProvider(env, files).value.tasks) == prompts
  {
    RenderedTexts(prompts);
    KeepNonBlankAllKept(prompts);
  }

  /** Rendering a list of JSON strings gives back those strings. */
  lemma RenderedTexts(prompts: seq<string>)
    ensures Rendered(seq(|prompts|, i requires 0 <= i < |prompts| => Text(prompts[i]))) == prompts
  {
  }

  /** The stripped OPERATOR_NAME; it is empty exactly when the variable is unset or blank. */
  function OperatorName(env: map<string, string>): string
  {
    Strip(EnvGet(env, OPERATOR_VAR))
  }

  /** An OPERATOR_NAME that is unset or blank gives no name; any other gives a name
      with no whitespace at either end. */
  lemma OperatorNameBlank(env: map<string, string>)
    ensures OperatorName(env) == "" <==> IsBlank(EnvGet(env, OPERATOR_VAR))
    ensures var name := OperatorName(env); name != "" ==> !IsSpace(name[0]) && !IsSpace(name[|name| - 1])
  {
    var name := Strip(EnvGet(env, OPERATOR_VAR));
    assert OperatorName(env) == name;
  }

  /** `_detect_operator`: the stripped OPERATOR_NAME if it is non-empty, else the login
      name, else the empty string when the login name cannot be determined. */
  function DetectOperator(env: map<string, string>, login: Option<string>): (op: string)
    ensures OperatorName(env) != "" ==> op == OperatorName(env)
    ensures OperatorName(env) == "" ==> op == if login.Some? then login.value else ""
    ensures op == "" <==> OperatorName(env) == "" && (login.None? || login.value == "")
  {
    var name := OperatorName(env);
    if name != "" then name
    else
      match login
      case Some(user) => user
      case None => ""
  }
}
