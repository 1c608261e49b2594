/**
 * Middleware composition (valar/src/routing/middleware.rs). A handler maps
 * a request to an outcome; a middleware receives the request and the next
 * handler. `wrap` folds the middleware list, reversed, around the handler,
 * so the first middleware of the list ends up outermost.
 *
 * The middleware implementations themselves are not part of this model;
 * three shapes stand for them, and each records when it is entered and
 * left so that the order of execution can be stated:
 *   - `Pass(tag)` calls the next handler and returns its result;
 *   - `Stamp(tag, key, value)` calls the next handler and adds a header to
 *     the response it gets back;
 *   - `Halt(tag, response)` answers with `response` without calling the
 *     next handler.
 */
module Middleware {
  import opened Wrappers
  import opened HttpResponse
  import opened HttpError
  import opened HttpRequest

  datatype Event = Enter(tag: string) | Leave(tag: string) | Handled(note: string)

  /** What running a handler produced: what happened, in order, and the result. */
  datatype Outcome = Outcome(trace: seq<Event>, result: Result<Response, AppError>)

  type Handler = Request -> Outcome

  datatype Mw =
    | Pass(tag: string)
    | Stamp(tag: string, key: string, value: string)
    | Halt(tag: string, response: Response)

  /** The result a `Stamp` passes outwards. */
  function Stamped(r: Result<Response, AppError>, key: string, value: string): Result<Response, AppError> {
    match r
    case Ok(response) => Ok(response.(headers := response.headers[key := value]))
    case Err(e) => Err(e)
  }

  /** `Middleware::handle(next, request)` */
  function Run(m: Mw, next: Handler, request: Request): (o: Outcome)
    ensures |o.trace| >= 2 && o.trace[0] == Enter(m.tag) && o.trace[|o.trace| - 1] == Leave(m.tag)
    ensures m.Halt? ==> o == Outcome([Enter(m.tag), Leave(m.tag)], Ok(m.response))
  {
    match m
    case Pass(t) =>
      var o := next(request);
      Outcome([Enter(t)] + o.trace + [Leave(t)], o.result)
    case Stamp(t, k, v) =>
      var o := next(request);
      Outcome([Enter(t)] + o.trace + [Leave(t)], Stamped(o.result, k, v))
    case Halt(t, r) =>
      Outcome([Enter(t), Leave(t)], Ok(r))
  }

  /** The handler that runs `m` with `next` as its next handler. */
  function Chain(m: Mw, next: Handler): Handler {
    request => Run(m, next, request)
  }

  function Reverse<T>(s: seq<T>): (r: seq<T>)
    ensures |r| == |s|
    ensures forall i :: 0 <= i < |s| ==> r[i] == s[|s| - 1 - i]
  {
    if |s| == 0 then [] else Reverse(s[1..]) + [s[0]]
  }

  /** `fold(handler, |next, middleware| ...)` over the given order. */
  function Fold(ms: seq<Mw>, handler: Handler): Handler {
    if |ms| == 0 then handler else Fold(ms[1..], Chain(ms[0], handler))
  }

  /** `Middlewares::wrap`: the fold over the reversed list. */
  function Wrap(ms: seq<Mw>, handler: Handler): Handler {
    Fold(Reverse(ms), handler)
  }

  lemma {:induction false} FoldSnoc(ms: seq<Mw>, m: Mw, handler: Handler)
    ensures Fold(ms + [m], handler) == Chain(m, Fold(ms, handler))
    decreases |ms|
  {
    if |ms| > 0 {
      assert (ms + [m])[1..] == ms[1..] + [m];
      FoldSnoc(ms[1..], m, Chain(ms[0], handler));
    }
  }

  /** Wrapping with no middleware is the bare handler. */
  lemma WrapEmpty(handler: Handler, request: Request)
    ensures Wrap([], handler)(request) == handler(request)
  {
  }

  /** The first middleware of the list is outermost: it gets the request first. */
  lemma WrapOutermost(m: Mw, ms: seq<Mw>, handler: Handler, request: Request)
    ensures Wrap([m] + ms, handler)(request) == Run(m, Wrap(ms, handler), request)
  {
    assert ([m] + ms)[1..] == ms;
    assert Reverse([m] + ms) == Reverse(ms) + [m];
    FoldSnoc(Reverse(ms), m, handler);
  }

  function Enters(ms: seq<Mw>): seq<Event> {
    if |ms| == 0 then [] else [Enter(ms[0].tag)] + Enters(ms[1..])
  }

  /** The `Leave` events of `ms`, innermost (last) first. */
  function Leaves(ms: seq<Mw>): seq<Event> {
    if |ms| == 0 then [] else Leaves(ms[1..]) + [Leave(ms[0].tag)]
  }

  /** The result after the stamps of `ms` are applied from the innermost outwards. */
  function StampAll(ms: seq<Mw>, r: Result<Response, AppError>): Result<Response, AppError> {
    if |ms| == 0 then r
    else
      var inner := StampAll(ms[1..], r);
      if ms[0].Stamp? then Stamped(inner, ms[0].key, ms[0].value) else inner
  }

  /**
   * With no middleware that halts, the chain is an onion: every middleware
   * is entered in list order, then the handler runs, then they are left in
   * the reverse order; the stamps reach the result innermost first.
   */
  lemma {:induction false} WrapOnion(ms: seq<Mw>, handler: Handler, request: Request)
    requires forall i :: 0 <= i < |ms| ==> !ms[i].Halt?
    ensures Wrap(ms, handler)(request).trace == Enters(ms) + handler(request).trace + Leaves(ms)
    ensures Wrap(ms, handler)(request).result == StampAll(ms, handler(request).result)
    decreases |ms|
  {
    if |ms| > 0 {
      var rest := ms[1..];
      assert ms == [ms[0]] + rest;
      WrapOutermost(ms[0], rest, handler, request);
      WrapOnion(rest, handler, request);
      RunAround(ms[0], Wrap(rest, handler), request);
      Nested(Enter(ms[0].tag), Enters(rest), handler(request).trace, Leaves(rest), Leave(ms[0].tag));
    }
  }

  /** A middleware that does not halt runs around its next handler. */
  lemma RunAround(m: Mw, next: Handler, request: Request)
    requires !m.Halt?
    ensures Run(m, next, request).trace == [Enter(m.tag)] + next(request).trace + [Leave(m.tag)]
    ensures Run(m, next, request).result == if m.Stamp? then Stamped(next(request).result, m.key, m.value) else next(request).result
  {
  }

  /** One more layer around an onion trace is again an onion trace. */
  lemma Nested(enter: Event, enters: seq<Event>, middle: seq<Event>, leaves: seq<Event>, leave: Event)
    ensures [enter] + (enters + middle + leaves) + [leave] == ([enter] + enters) + middle + (leaves + [leave])
  {
  }

  /**
   * A middleware that halts keeps the handler and every middleware inside
   * it from running; the ones outside it still run around it and still see
   * (and stamp) its response.
   */
  lemma {:induction false} WrapHalt(ms: seq<Mw>, i: nat, handler: Handler, request: Request)
    requires i < |ms| && ms[i].Halt?
    requires forall j :: 0 <= j < i ==> !ms[j].Halt?
    ensures Wrap(ms, handler)(request).trace == Enters(ms[..i + 1]) + Leaves(ms[..i + 1])
    ensures Wrap(ms, handler)(request).result == StampAll(ms[..i], Ok(ms[i].response))
    decreases i
  {
    var rest := ms[1..];
    assert ms == [ms[0]] + rest;
    WrapOutermost(ms[0], rest, handler, request);
    if i > 0 {
      WrapHalt(rest, i - 1, handler, request);
      assert ms[..i + 1][1..] == rest[..i];
      assert ms[..i][1..] == rest[..i - 1];
      assert !ms[0].Halt?;
      RunAround(ms[0], Wrap(rest, handler), request);
      Nested(Enter(ms[0].tag), Enters(rest[..i]), [], Leaves(rest[..i]), Leave(ms[0].tag));
      assert Enters(rest[..i]) + [] == Enters(rest[..i]);
    } else {
      assert ms[..1] == [ms[0]];
    }
  }

  /** `Middlewares`: the list that routes and groups push onto. */
  class Middlewares {
    var items: seq<Mw>

    /** `Middlewares::new()` */
    constructor ()
      ensures items == []
    {
      items := [];
    }

    /** `push`: at the end, earlier entries untouched. */
    method Push(m: Mw)
      modifies this
      ensures items == old(items) + [m]
    {
      items := items + [m];
    }

    /** `extend`: appended in order at the end. */
    method Extend(ms: seq<Mw>)
      modifies this
      ensures items == old(items) + ms
    {
      items := items + ms;
    }
  }

  /** `from_iter` over several lists: their concatenation, in order. */
  function Concat(lists: seq<seq<Mw>>): (r: seq<Mw>)
    ensures |lists| == 1 ==> r == lists[0]
  {
    if |lists| == 0 then [] else lists[0] + Concat(lists[1..])
  }

  /** Concatenating `[a, b]` puts every middleware of `a` before those of `b`. */
  lemma ConcatTwo(a: seq<Mw>, b: seq<Mw>)
    ensures Concat([a, b]) == a + b
  {
    assert [a, b][1..] == [b];
  }
}
