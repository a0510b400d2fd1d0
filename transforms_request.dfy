/**
 * The request-transforming middleware: it rewrites every string of the
 * request's parsed body and query parameters with the subclass's
 * `processString`, except under the keys it is told to leave alone, unless
 * one of the registered skip callbacks says to let the request through.
 */
module TransformsRequest {
  import opened Wrappers
  import opened PhpValues

  /** A PHP array as an ordered list of key/value pairs. */
  type Entries = seq<(string, Value)>

  /** The parts of a server request the middleware reads or writes. */
  datatype Request = Request(httpMethod: string, uri: string, parsedBody: Value, query: Entries)

  // ---------------------------------------------------------------------
  // Specification of the rewrite
  // ---------------------------------------------------------------------

  /**
   * The value stored under `key` after the rewrite: a string under a key
   * outside `except` is processed, an array is rewritten entry by entry
   * whatever its key, anything else stays.
   */
  function Transformed(key: string, v: Value, except: seq<string>, process: string -> Value): Value
    decreases v
  {
    match v
    case Str(s) => if key in except then v else process(s)
    case Arr(es) => Arr(seq(|es|, i requires 0 <= i < |es| => (es[i].0, Transformed(es[i].0, es[i].1, except, process))))
    case _ => v
  }

  /** `processArray` on a whole array. */
  function TransformEntries(es: Entries, except: seq<string>, process: string -> Value): (r: Entries)
    ensures |r| == |es|
    ensures forall i :: 0 <= i < |es| ==> r[i] == (es[i].0, Transformed(es[i].0, es[i].1, except, process))
  {
    seq(|es|, i requires 0 <= i < |es| => (es[i].0, Transformed(es[i].0, es[i].1, except, process)))
  }

  /** `processInput`: the body when it is an array, and always the query parameters. */
  function Processed(request: Request, except: seq<string>, process: string -> Value): Request {
    request.(
      parsedBody := if request.parsedBody.Arr? then Arr(TransformEntries(request.parsedBody.entries, except, process))
                    else request.parsedBody,
      query := TransformEntries(request.query, except, process))
  }

  /**
   * What happens to one entry: a string is processed exactly when its key is
   * outside `except`; an array is rewritten whatever its key, so `except` is
   * consulted again, by key name, at every depth; anything else is kept.
   */
  lemma TransformedCases(key: string, v: Value, except: seq<string>, process: string -> Value)
    ensures v.Str? && key in except ==> Transformed(key, v, except, process) == v
    ensures v.Str? && key !in except ==> Transformed(key, v, except, process) == process(v.s)
    ensures v.Arr? ==> Transformed(key, v, except, process) == Arr(TransformEntries(v.entries, except, process))
    ensures !v.Str? && !v.Arr? ==> Transformed(key, v, except, process) == v
  {
  }

  /**
   * `w` has the keys of `v` at every depth and differs from it only where
   * `v` holds a string; `processString` has no declared return type, so a
   * string may be replaced by any value.
   */
  predicate SameShape(v: Value, w: Value)
    decreases v
  {
    match v
    case Str(_) => true
    case Arr(es) =>
      w.Arr? && |w.entries| == |es|
      && forall i :: 0 <= i < |es| ==> w.entries[i].0 == es[i].0 && SameShape(es[i].1, w.entries[i].1)
    case _ => w == v
  }

  /** The rewrite keeps every key, at every depth, and replaces nothing but strings. */
  lemma {:induction false} TransformedSameShape(key: string, v: Value, except: seq<string>, process: string -> Value)
    ensures SameShape(v, Transformed(key, v, except, process))
    decreases v
  {
    if v.Arr? {
      var es := v.entries;
      var w := Transformed(key, v, except, process);
      forall i | 0 <= i < |es|
        ensures w.entries[i].0 == es[i].0 && SameShape(es[i].1, w.entries[i].1)
      {
        TransformedSameShape(es[i].0, es[i].1, except, process);
      }
    }
  }

  /**
   * A `processString` whose result, when it is a string, is a fixpoint, and
   * which never returns an array (a second pass would descend into it).
   */
  ghost predicate Idempotent(process: string -> Value) {
    forall s :: !process(s).Arr? && (process(s).Str? ==> process(process(s).s) == process(s))
  }

  /**
   * With an idempotent `processString` (trimming, or turning `''` into null),
   * rewriting twice is rewriting once.
   */
  lemma {:induction false} TransformedIdempotent(key: string, v: Value, except: seq<string>, process: string -> Value)
    requires Idempotent(process)
    ensures Transformed(key, Transformed(key, v, except, process), except, process) == Transformed(key, v, except, process)
    decreases v
  {
    match v
    case Arr(es) =>
      var w := Transformed(key, v, except, process);
      var ws := w.entries;
      var ww := Transformed(key, w, except, process);
      forall i | 0 <= i < |es| ensures ww.entries[i] == ws[i] {
        TransformedIdempotent(es[i].0, es[i].1, except, process);
      }
      assert ww.entries == ws;
    case Str(s) =>
      assert !process(s).Arr?;
    case _ =>
  }

  /** With the identity as `processString` the rewrite changes nothing. */
  lemma {:induction false} TransformedIdentity(key: string, v: Value, except: seq<string>)
    ensures Transformed(key, v, except, s => Str(s)) == v
    decreases v
  {
    if v.Arr? {
      var es := v.entries;
      var w := Transformed(key, v, except, s => Str(s));
      forall i | 0 <= i < |es| ensures w.entries[i] == es[i] {
        TransformedIdentity(es[i].0, es[i].1, except);
      }
      assert w.entries == es;
    }
  }

  // ---------------------------------------------------------------------
  // The middleware
  // ---------------------------------------------------------------------

  /** The class-wide list of skip callbacks that `skipWhen` registers. */
  class SkipCallbacks {
    var callbacks: seq<Request -> bool>

    constructor ()
      ensures callbacks == []
    {
      callbacks := [];
    }

    /** `skipWhen($callback)`: register one more callback after the others. */
    method SkipWhen(callback: Request -> bool)
      modifies this
      ensures callbacks == old(callbacks) + [callback]
    {
      callbacks := callbacks + [callback];
    }
  }

  /** The request context slot the middleware writes the processed request into. */
  class RequestContext {
    var serverRequest: Option<Request>

    constructor ()
      ensures serverRequest == None
    {
      serverRequest := None;
    }
  }

  /**
   * A concrete middleware: the keys it leaves alone, its `processString`,
   * and the skip callbacks shared by every instance.
   */
  class Transformer {
    const except: seq<string>
    const process: string -> Value
    const skips: SkipCallbacks

    constructor (except: seq<string>, process: string -> Value, skips: SkipCallbacks)
      ensures this.except == except && this.process == process && this.skips == skips
    {
      this.except := except;
      this.process := process;
      this.skips := skips;
    }

    /**
     * `shouldSkip($request)`: true when some callback says so. The callbacks
     * are asked in order and the first that says yes ends the search;
     * `calls` is the number of callbacks asked.
     */
    method ShouldSkip(request: Request) returns (skip: bool, calls: nat)
      ensures skip <==> exists j :: 0 <= j < |skips.callbacks| && skips.callbacks[j](request)
      ensures calls <= |skips.callbacks|
      ensures skip ==> calls >= 1 && skips.callbacks[calls - 1](request)
      ensures forall j :: 0 <= j < calls - 1 ==> !skips.callbacks[j](request)
      ensures !skip ==> calls == |skips.callbacks|
    {
      var callbacks := skips.callbacks;
      calls := 0;
      while calls < |callbacks|
        invariant calls <= |callbacks|
        invariant forall j :: 0 <= j < calls ==> !callbacks[j](request)
      {
        calls := calls + 1;
        if callbacks[calls - 1](request) {
          return true, calls;
        }
      }
      skip := false;
    }

    /** `processArray($array)`: each entry rewritten in place, in order. */
    method ProcessArray(items: Entries) returns (r: Entries)
      ensures r == TransformEntries(items, except, process)
      decreases Arr(items)
    {
      r := items;
      var i := 0;
      while i < |items|
        invariant 0 <= i <= |items| && |r| == |items|
        invariant forall j :: 0 <= j < i ==> r[j] == (items[j].0, Transformed(items[j].0, items[j].1, except, process))
        invariant forall j :: i <= j < |items| ==> r[j] == items[j]
      {
        var key := items[i].0;
        var value := items[i].1;
        if value.Str? && key !in except {
          r := r[i := (key, process(value.s))];
        } else if value.Arr? {
          assert Arr(value.entries) == value && value < Arr(items);
          var inner := ProcessArray(value.entries);
          r := r[i := (key, Arr(inner))];
        }
        i := i + 1;
      }
    }

    /** `processInput($request)` */
    method ProcessInput(request: Request) returns (r: Request)
      ensures r == Processed(request, except, process)
      ensures r.httpMethod == request.httpMethod && r.uri == request.uri
      ensures request.parsedBody.Arr? ==> r.parsedBody.Arr?
      ensures !request.parsedBody.Arr? ==> r.parsedBody == request.parsedBody
    {
      r := request;
      if request.parsedBody.Arr? {
        var body := ProcessArray(request.parsedBody.entries);
        r := r.(parsedBody := Arr(body));
      }
      var query := ProcessArray(r.query);
      r := r.(query := query);
    }

    /**
     * `handle($request, $next)`: a skipped request goes on as it is and the
     * context is left alone; otherwise the processed request is stored in
     * the context and goes on.
     */
    method Handle<R>(request: Request, next: Request -> R, context: RequestContext) returns (response: R)
      modifies context
      ensures (exists j :: 0 <= j < |skips.callbacks| && skips.callbacks[j](request)) ==>
        response == next(request) && context.serverRequest == old(context.serverRequest)
      ensures !(exists j :: 0 <= j < |skips.callbacks| && skips.callbacks[j](request)) ==>
        context.serverRequest == Some(Processed(request, except, process))
        && response == next(Processed(request, except, process))
    {
      var skip, _ := ShouldSkip(request);
      if skip {
        return next(request);
      }
      var processed := ProcessInput(request);
      context.serverRequest := Some(processed);
      response := next(processed);
    }
  }
}
