/** Transport middleware: chaining wrappers around a base transport, and the
    logging wrapper's pass-through and choice of log level. */
module Middlewares {
  import opened Wrappers
  import Responses

  /** A round-tripper: the base transport, or a middleware layer around an
      inner one. */
  datatype Transport = Base(name: string) | Wrap(tag: string, inner: Transport)

  /** A middleware, identified by the layer it puts around a transport. */
  datatype Middleware = Middleware(tag: string)

  function Apply(m: Middleware, t: Transport): Transport {
    Wrap(m.tag, t)
  }

  /** The first middleware around the result of chaining the rest. */
  function Nest(ms: seq<Middleware>, t: Transport): Transport {
    if ms == [] then t else Apply(ms[0], Nest(ms[1..], t))
  }

  /** The layer tags of a transport, outermost first. */
  function Layers(t: Transport): seq<string> {
    match t
    case Base(_) => []
    case Wrap(tag, inner) => [tag] + Layers(inner)
  }

  /** The base transport under all the layers. */
  function Core(t: Transport): Transport {
    match t
    case Base(_) => t
    case Wrap(_, inner) => Core(inner)
  }

  function Tags(ms: seq<Middleware>): seq<string> {
    seq(|ms|, i requires 0 <= i < |ms| => ms[i].tag)
  }

  /** `ChainMiddleware`: applies the middlewares from the last to the first,
      so that the first one listed ends up outermost. */
  method ChainMiddleware(transport: Transport, middlewares: seq<Middleware>) returns (chained: Transport)
    ensures chained == Nest(middlewares, transport)
  {
    chained := transport;
    var i := |middlewares|;
    while i > 0
      invariant 0 <= i <= |middlewares|
      invariant chained == Nest(middlewares[i..], transport)
    {
      i := i - 1;
      assert middlewares[i..][1..] == middlewares[i + 1..];
      chained := Apply(middlewares[i], chained);
    }
  }

  /** Chaining puts exactly one layer per middleware, in the listed order with
      the first outermost, around the layers already there. */
  lemma {:induction false} NestLayers(ms: seq<Middleware>, t: Transport)
    ensures Layers(Nest(ms, t)) == Tags(ms) + Layers(t)
    ensures Core(Nest(ms, t)) == Core(t)
  {
    if ms != [] {
      NestLayers(ms[1..], t);
      assert Tags(ms) == [ms[0].tag] + Tags(ms[1..]);
    }
  }

  /** Chaining a concatenation is chaining the second list, then the first. */
  lemma {:induction false} NestAppend(ms: seq<Middleware>, ns: seq<Middleware>, t: Transport)
    ensures Nest(ms + ns, t) == Nest(ms, Nest(ns, t))
  {
    if ms == [] {
      assert ms + ns == ns;
    } else {
      assert (ms + ns)[1..] == ms[1..] + ns;
      NestAppend(ms[1..], ns, t);
    }
  }

  /** With no middleware the transport comes back unchanged. */
  lemma NestEmpty(t: Transport)
    ensures Nest([], t) == t
  {
  }

  datatype Level = Debug | Warn | Error

  /** One log record of the logging wrapper; the method, URL and duration
      fields are not modelled. */
  datatype LogEntry = LogEntry(level: Level, message: string, status: Option<int>)

  /** What a round trip returns (a response or an error) and what it logged. */
  datatype Exchange = Exchange(response: Option<Responses.Response>, err: Option<string>, log: Option<LogEntry>)

  /** The level of the record for a response with this status. */
  function StatusLevel(statusCode: int): (level: Level)
    ensures level != Debug <==> Responses.IsErrorStatus(statusCode)
    ensures level == Error <==> statusCode >= 500
  {
    if statusCode >= 500 then Error else if statusCode >= 400 then Warn else Debug
  }

  /** Warn is left for the client errors. */
  lemma StatusLevelClassifies(statusCode: int)
    ensures StatusLevel(statusCode) == Warn <==> 400 <= statusCode < 500
  {
  }

  function Rank(l: Level): nat {
    match l
    case Debug => 0
    case Warn => 1
    case Error => 2
  }

  /** A higher status never gets a lower level. */
  lemma StatusLevelMonotone(s: int, t: int)
    requires s <= t
    ensures Rank(StatusLevel(s)) <= Rank(StatusLevel(t))
  {
  }

  /** `loggingTransport.RoundTrip`, given what the wrapped transport returned:
      an error is passed on with no response and logged at Error; a response
      is passed on unchanged and logged at the level its status calls for. */
  function RoundTrip(innerResponse: Option<Responses.Response>, innerErr: Option<string>): (r: Exchange)
    ensures innerErr.Some? ==> r.response.None? && r.err == innerErr
    ensures innerErr.Some? ==> r.log == Some(LogEntry(Error, "API request failed", None))
    ensures innerErr.None? ==> r.response == innerResponse && r.err.None?
    ensures innerErr.None? && innerResponse.Some? ==>
      r.log.Some? && r.log.value.level == StatusLevel(innerResponse.value.statusCode)
      && r.log.value.status == Some(innerResponse.value.statusCode)
    ensures innerErr.None? && innerResponse.None? ==> r.log.None?
  {
    if innerErr.Some? then
      Exchange(None, innerErr, Some(LogEntry(Error, "API request failed", None)))
    else if innerResponse.Some? then
      var status := innerResponse.value.statusCode;
      var message :=
        if status >= 500 then "API server error"
        else if status >= 400 then "API client error"
        else "API request completed";
      Exchange(innerResponse, None, Some(LogEntry(StatusLevel(status), message, Some(status))))
    else
      Exchange(None, None, None)
  }
}
