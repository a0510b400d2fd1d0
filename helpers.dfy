/**
 * The global helper functions of the foundation package: the install
 * paths, `cookie`, `cache`, `app` and the argument defaulting of `dispatch`.
 * The container, the cache repository and the queue drivers are outside
 * the model; each helper yields a description of the call it makes on them.
 */
module Helpers {
  import opened Wrappers
  import opened PhpValues

  // ---------------------------------------------------------------------
  // Paths
  // ---------------------------------------------------------------------

  /** `base_path($path)`: a truthy path is joined with '/', a falsy one ("" or "0") is appended as it is. */
  function BasePath(basePath: string, path: string): string {
    basePath + (if TruthyString(path) then "/" + path else path)
  }

  /** `app_path($path)` */
  function AppPath(basePath: string, path: string): string {
    BasePath(basePath, "app/" + path)
  }

  /** `database_path($path)` */
  function DatabasePath(basePath: string, path: string): string {
    BasePath(basePath, "database/" + path)
  }

  /** The path relative to the base that a full path was built from. */
  function RelativePath(basePath: string, full: string): string
    requires |basePath| <= |full|
  {
    if |full| > |basePath| && full[|basePath|] == '/' then full[|basePath| + 1..] else full[|basePath|..]
  }

  /** base_path('') is the base itself; base_path('0') appends "0" without a slash. */
  lemma BasePathFalsy(basePath: string)
    ensures BasePath(basePath, "") == basePath
    ensures BasePath(basePath, "0") == basePath + "0"
  {
  }

  /** Every path can be read back from the full path: `base_path` loses nothing. */
  lemma BasePathRoundTrip(basePath: string, path: string)
    ensures |basePath| <= |BasePath(basePath, path)|
    ensures RelativePath(basePath, BasePath(basePath, path)) == path
  {
    var full := BasePath(basePath, path);
    if TruthyString(path) {
      assert full[|basePath|] == '/';
      assert full[|basePath| + 1..] == path;
    } else if path == "0" {
      assert full[|basePath|] == '0';
      assert full[|basePath|..] == path;
    } else {
      assert full == basePath;
    }
  }

  /** Hence two different paths never give the same full path. */
  lemma BasePathInjective(basePath: string, p: string, q: string)
    requires BasePath(basePath, p) == BasePath(basePath, q)
    ensures p == q
  {
    BasePathRoundTrip(basePath, p);
    BasePathRoundTrip(basePath, q);
  }

  /** The application folder always sits under "/app/", even for the empty path. */
  lemma AppPathUnderApp(basePath: string, path: string)
    ensures AppPath(basePath, path) == basePath + "/app/" + path
    ensures AppPath(basePath, "") == basePath + "/app/"
  {
    assert ("app/" + path)[0] == 'a';
    assert TruthyString("app/" + path);
    assert TruthyString("app/");
  }

  /** The database folder always sits under "/database/". */
  lemma DatabasePathUnderDatabase(basePath: string, path: string)
    ensures DatabasePath(basePath, path) == basePath + "/database/" + path
  {
    assert ("database/" + path)[0] == 'd';
    assert TruthyString("database/" + path);
  }

  // ---------------------------------------------------------------------
  // cookie()
  // ---------------------------------------------------------------------

  datatype Cookie = Cookie(
    name: string, value: Option<string>, lifetime: int, path: Option<string>, domain: Option<string>,
    secure: bool, httpOnly: bool, raw: bool, sameSite: Option<string>)

  /** What `cookie()` returns: the cookie jar from the container, or a new cookie. */
  datatype CookieResult = CookieJar | NewCookie(cookie: Cookie)

  /** The cookie's lifetime in seconds for a lifetime in minutes. */
  function CookieSeconds(minutes: int): (seconds: int)
    ensures seconds == minutes * 60
    ensures minutes == 0 ==> seconds == 0
  {
    if minutes == 0 then 0 else minutes * 60
  }

  function MakeCookie(name: Option<string>, value: Option<string>, minutes: int, path: Option<string>,
                      domain: Option<string>, secure: bool, httpOnly: bool, raw: bool,
                      sameSite: Option<string>): (r: CookieResult)
    ensures r.CookieJar? <==> name.None?
    ensures r.NewCookie? ==>
      r.cookie == Cookie(name.value, value, minutes * 60, path, domain, secure, httpOnly, raw, sameSite)
  {
    if name.None? then CookieJar
    else NewCookie(Cookie(name.value, value, CookieSeconds(minutes), path, domain, secure, httpOnly, raw, sameSite))
  }

  // ---------------------------------------------------------------------
  // cache()
  // ---------------------------------------------------------------------

  /** The call `cache()` makes on the cache repository, or the exception it throws. */
  datatype CacheCall =
    | ReturnRepository
    | CacheGet(readKey: string, default: Value)
    | CachePut(key: Value, value: Value, ttl: Value)
    | CacheError(message: string)

  const CacheArrayMessage := "When setting a value in the cache, you must pass an array of key / value pairs."

  /**
   * `cache(...$arguments)`: no arguments give the repository, a string
   * reads (the second argument is the default), an array puts its first pair (with `$arguments[1] ?? null` as
   * the lifetime), anything else is an error. The first key and value of an
   * empty array are PHP's `key()` and `reset()` results, null and false.
   */
  function Cache(args: seq<Value>): (r: CacheCall)
    ensures r.ReturnRepository? <==> args == []
    ensures r.CacheGet? <==> args != [] && args[0].Str?
    ensures r.CacheGet? ==> r.readKey == args[0].s && r.default == (if |args| >= 2 then args[1] else Null)
    ensures r.CacheError? <==> args != [] && !args[0].Str? && !args[0].Arr?
    ensures r.CacheError? ==> r.message == CacheArrayMessage
    ensures r.CachePut? ==> args[0].Arr? && (|args| >= 2 ==> r.ttl == args[1]) && (|args| < 2 ==> r.ttl == Null)
    ensures r.CachePut? && args[0].entries != [] ==> r.key == Str(args[0].entries[0].0) && r.value == args[0].entries[0].1
    ensures r.CachePut? && args[0].entries == [] ==> r.key == Null && r.value == Bool(false)
  {
    if args == [] then ReturnRepository
    else if args[0].Str? then CacheGet(args[0].s, Coalesce(args, 1).GetOr(Null))
    else if !args[0].Arr? then CacheError(CacheArrayMessage)
    else
      var e := args[0].entries;
      CachePut(if e == [] then Null else Str(e[0].0),
               if e == [] then Bool(false) else e[0].1,
               Coalesce(args, 1).GetOr(Null))
  }

  /**
   * The repository seen as a map from keys to values: what a call returns
   * and the map afterwards. A put under a key that is not a string leaves
   * the map as it is; expiry is not part of this view.
   */
  datatype StoreStep = StoreStep(returned: Option<Value>, store: map<string, Value>)

  function RunCache(call: CacheCall, store: map<string, Value>): StoreStep {
    match call
    case ReturnRepository => StoreStep(None, store)
    case CacheGet(k, default) =>
      StoreStep(Some(if k in store then store[k] else default), store)
    case CachePut(key, value, _) =>
      StoreStep(Some(Bool(true)), if key.Str? then store[key.s := value] else store)
    case CacheError(_) => StoreStep(None, store)
  }

  /** `cache([k => v, ...])` followed by `cache(k)` reads `v` back. */
  lemma CachePutThenGet(k: string, v: Value, rest: seq<(string, Value)>, ttl: seq<Value>,
                        default: seq<Value>, store: map<string, Value>)
    requires |ttl| <= 1 && |default| <= 1
    ensures var put := RunCache(Cache([Arr([(k, v)] + rest)] + ttl), store);
            RunCache(Cache([Str(k)] + default), put.store).returned == Some(v)
  {
    var args := [Arr([(k, v)] + rest)] + ttl;
    assert args[0] == Arr([(k, v)] + rest);
    assert Cache(args).key == Str(k) && Cache(args).value == v;
    var gets := [Str(k)] + default;
    assert gets[0] == Str(k);
  }

  /** A put leaves every other key as it was. */
  lemma CachePutFrame(args: seq<Value>, store: map<string, Value>, other: string)
    requires Cache(args).CachePut?
    requires Cache(args).key != Str(other)
    ensures other in RunCache(Cache(args), store).store <==> other in store
    ensures other in store ==> RunCache(Cache(args), store).store[other] == store[other]
  {
  }

  // ---------------------------------------------------------------------
  // app()
  // ---------------------------------------------------------------------

  /** What `app()` does. */
  datatype AppCall =
    | ReturnContainer
    | ContainerGet(service: string)
    | ContainerMake(service: string, parameters: seq<(string, Value)>)
    | Construct(service: string, arguments: seq<Value>)
    | AppError(message: string)

  function Values(parameters: seq<(string, Value)>): (r: seq<Value>)
    ensures |r| == |parameters|
    ensures forall i :: 0 <= i < |r| ==> r[i] == parameters[i].1
  {
    seq(|parameters|, i requires 0 <= i < |parameters| => parameters[i].1)
  }

  /**
   * `app($abstract, $parameters)`. `hasContainer` tells whether the
   * application container is set and `has` which bindings it has.
   */
  function App(hasContainer: bool, has: string -> bool, service: Option<string>,
               parameters: seq<(string, Value)>): (r: AppCall)
    ensures r.AppError? <==> !hasContainer && service.None?
    ensures r.AppError? ==> r.message == "Invalid argument $abstract"
    ensures r.ReturnContainer? <==> hasContainer && service.None?
    ensures r.ContainerGet? <==> hasContainer && service.Some? && parameters == [] && has(service.value)
    ensures r.ContainerGet? ==> r.service == service.value
    ensures r.ContainerMake? <==> hasContainer && service.Some? && (parameters != [] || !has(service.value))
    ensures r.ContainerMake? ==> r.service == service.value && r.parameters == parameters
    ensures r.Construct? <==> !hasContainer && service.Some?
    ensures r.Construct? ==> r.service == service.value && r.arguments == Values(parameters)
  {
    if hasContainer then
      if service.None? then ReturnContainer
      else if |parameters| == 0 && has(service.value) then ContainerGet(service.value)
      else ContainerMake(service.value, parameters)
    else if service.None? then AppError("Invalid argument $abstract")
    else Construct(service.value, Values(parameters))
  }

  /**
   * The container's bindings matter only for a named service asked for with
   * no parameters: otherwise two containers with different bindings give
   * the same call.
   */
  lemma AppIgnoresBindings(hasContainer: bool, has1: string -> bool, has2: string -> bool,
                           service: Option<string>, parameters: seq<(string, Value)>)
    requires !hasContainer || service.None? || parameters != []
    ensures App(hasContainer, has1, service, parameters) == App(hasContainer, has2, service, parameters)
  {
  }

  // ---------------------------------------------------------------------
  // dispatch()
  // ---------------------------------------------------------------------

  /**
   * The jobs `dispatch` sees. A queue job exposes its own `queue` and
   * `delay` properties when it has them; the closure wrapper has neither.
   */
  datatype Job =
    | Closure(body: string)
    | ClosureJob(body: string, maxAttempts: int)
    | QueueJob(name: string, queue: Option<string>, delay: Option<int>)
    | AsyncTask(name: string)
    | Unsupported(name: string)

  /** What `dispatch` does: push onto a queue with a delay, hand to the async-task runner, or throw. */
  datatype Dispatched =
    | Pushed(queue: string, job: Job, delay: int)
    | Delivered(task: Job, arguments: seq<Value>)
    | DispatchError(message: string)

  /** A closure becomes a closure job whose attempts come from `$arguments[2] ?? 0`. */
  function Wrap(job: Job, args: seq<Value>): (r: Job)
    ensures !job.Closure? ==> r == job
    ensures job.Closure? ==> r == ClosureJob(job.body, if |args| > 2 && args[2] != Null then CastInt(args[2]) else 0)
  {
    if job.Closure? then ClosureJob(job.body, CastInt(Coalesce(args, 2).GetOr(Int(0)))) else job
  }

  function JobQueue(job: Job): Option<string> {
    if job.QueueJob? then job.queue else None
  }

  function JobDelay(job: Job): Option<int> {
    if job.QueueJob? then job.delay else None
  }

  /** `(string) ($arguments[0] ?? $job->queue ?? 'default')` */
  function QueueName(job: Job, args: seq<Value>): string {
    match Coalesce(args, 0)
    case Some(v) => CastString(v)
    case None => JobQueue(job).GetOr("default")
  }

  /** `(int) ($arguments[1] ?? $job->delay ?? 0)` */
  function Delay(job: Job, args: seq<Value>): int {
    match Coalesce(args, 1)
    case Some(v) => CastInt(v)
    case None => JobDelay(job).GetOr(0)
  }

  function Dispatch(job: Job, args: seq<Value>): (r: Dispatched)
    ensures r.Pushed? <==> job.Closure? || job.ClosureJob? || job.QueueJob?
    ensures r.Pushed? ==> r.job == Wrap(job, args)
    ensures r.Delivered? <==> job.AsyncTask?
    ensures r.Delivered? ==> r.task == job && r.arguments == args
    ensures r.DispatchError? ==> r.message == "Not Support job type."
  {
    var j := Wrap(job, args);
    if j.ClosureJob? || j.QueueJob? then Pushed(QueueName(j, args), j, Delay(j, args))
    else if j.AsyncTask? then Delivered(j, args)
    else DispatchError("Not Support job type.")
  }

  /** The queue name: the explicit argument, else the job's own queue, else "default". */
  lemma DispatchQueuePrecedence(job: Job, args: seq<Value>)
    requires Dispatch(job, args).Pushed?
    ensures |args| > 0 && args[0].Str? ==> Dispatch(job, args).queue == args[0].s
    ensures (|args| == 0 || args[0] == Null) && job.QueueJob? && job.queue.Some? ==>
      Dispatch(job, args).queue == job.queue.value
    ensures (|args| == 0 || args[0] == Null) && (job.QueueJob? ==> job.queue.None?) ==>
      Dispatch(job, args).queue == "default"
  {
  }

  /** The delay: the explicit argument, else the job's own delay, else 0. */
  lemma DispatchDelayPrecedence(job: Job, args: seq<Value>)
    requires Dispatch(job, args).Pushed?
    ensures |args| > 1 && args[1].Int? ==> Dispatch(job, args).delay == args[1].i
    ensures (|args| <= 1 || args[1] == Null) && job.QueueJob? && job.delay.Some? ==>
      Dispatch(job, args).delay == job.delay.value
    ensures (|args| <= 1 || args[1] == Null) && (job.QueueJob? ==> job.delay.None?) ==>
      Dispatch(job, args).delay == 0
  {
  }

  /** An integer delay given as a numeric string is the same delay. */
  lemma DispatchDelayFromString(job: Job, q: Value, d: int)
    requires Dispatch(job, [q, Int(d)]).Pushed?
    ensures Dispatch(job, [q, Str(IntToString(d))]).delay == d
  {
    CastIntString(d);
    assert CastString(Int(d)) == IntToString(d);
  }
}
