/**
 * The request sequence of `MathService.compute_power`, `compute_fibonacci` and
 * `compute_factorial`: derive the key, probe the cache, on a hit return the stored result marked
 * as cached, on a miss compute, store and return a fresh result; both paths save the computation to
 * the history and publish an event. The cache is a map held by the service; the calls to the cache,
 * the history and the message broker are recorded in a ghost trace.
 */
module Orchestrator {
  import opened Values
  import opened CacheKey
  import Powers
  import Fibonacci
  import Factorial
  import Decimal

  /** The three operations and their parameters. */
  datatype Request =
    | PowerRequest(base: real, exponent: int)
    | FibonacciRequest(n: int)
    | FactorialRequest(n: int)

  /** `ComputationResult`: the id, the result text, the timing and whether it came from the cache. */
  datatype ComputationResult = ComputationResult(requestId: string, result: string, computationTimeMs: real, cached: bool)

  /** One call from the service to a collaborator. */
  datatype Interaction =
    | CacheGet(key: string)
    | CacheSet(key: string, ttl: int, payload: ComputationResult)
    | HistorySaved(operation: string, params: seq<Param>, result: string, cached: bool)
    | EventPublished(topic: string, operation: string, params: seq<Param>, cached: bool)

  const Topic := "computation.completed"

  function OperationName(req: Request): string
  {
    match req
    case PowerRequest(_, _) => "power"
    case FibonacciRequest(_) => "fibonacci"
    case FactorialRequest(_) => "factorial"
  }

  /** The keyword arguments, in the order the service passes them. */
  function Params(req: Request): (ps: seq<Param>)
    ensures DistinctNames(ps)
  {
    match req
    case PowerRequest(b, e) => [Param("base", Float(b)), Param("exponent", Int(e))]
    case FibonacciRequest(n) => [Param("n", Int(n))]
    case FactorialRequest(n) => [Param("n", Int(n))]
  }

  /**
   * The key of a request. The service passes `base` before `exponent`, which is already name
   * order, so the key is the digest of the parameters as passed (KeyOfIsGenerated).
   */
  function KeyOf(digest: KeyData -> string, req: Request): string
  {
    Prefix + digest(KeyData(OperationName(req), Params(req)))
  }

  /** `KeyOf` is the key `_generate_cache_key` derives for the request. */
  lemma KeyOfIsGenerated(digest: KeyData -> string, req: Request)
    ensures KeyOf(digest, req) == GenerateCacheKey(digest, OperationName(req), Params(req))
  {
    var ps := Params(req);
    assert SortedByName(ps) by {
      if req.PowerRequest? {
        assert Below("base", "exponent");
      }
    }
    SortedUnique(SortByName(ps), ps);
  }

  /**
   * No other request shares this request's key. This is all the cache needs of the digest, and it
   * can hold for any finite set of requests.
   */
  ghost predicate Unambiguous(digest: KeyData -> string, req: Request)
  {
    forall r :: KeyOf(digest, r) == KeyOf(digest, req) ==> r == req
  }

  /** A digest with no collision at the serialised form of a request makes that request's key unambiguous. */
  lemma UnambiguousFromDigest(digest: KeyData -> string, req: Request)
    requires forall x :: digest(x) == digest(KeyData(OperationName(req), Params(req))) ==>
      x == KeyData(OperationName(req), Params(req))
    ensures Unambiguous(digest, req)
  {
    forall r | KeyOf(digest, r) == KeyOf(digest, req)
      ensures r == req
    {
      var k1, k2 := KeyOf(digest, r), KeyOf(digest, req);
      assert k1[|Prefix|..] == k2[|Prefix|..];
      assert Params(r) == Params(req);
    }
  }

  /** `str(result)`: integers in decimal up to 4300 digits, floats through Python's float formatting. */
  function Render(v: Number, showReal: real -> string): (r: Result<string>)
    ensures v.Float? ==> r == Ok(showReal(v.x))
    ensures v.Int? && r.Ok? ==> Decimal.IsIntegerText(r.value) && Decimal.ParseInteger(r.value) == v.i
    ensures r.Err? <==> v.Int? && !(-(Decimal.Pow10(Decimal.MaxStrDigits) as int) < v.i < Decimal.Pow10(Decimal.MaxStrDigits))
    ensures r.Err? ==> r.error == TooManyDigits
  {
    match v
    case Int(i) =>
      Decimal.StrIntBound(i);
      Decimal.StrInt(i)
    case Float(x) => Ok(showReal(x))
  }

  /** The text a request must answer, or the error it must raise, from the reference definitions. */
  function Expected(req: Request, showReal: real -> string): Result<string>
  {
    match req
    case PowerRequest(b, e) =>
      if e == 0 then Ok("1")
      else if e > 0 then Ok(showReal(Powers.Pow(b, e)))
      else if b == 0.0 then Err(DivisionByZero)
      else Ok(showReal(Powers.IntPow(b, e)))
    case FibonacciRequest(n) =>
      Decimal.StrInt(if n <= 1 then n else Fibonacci.Fib(n))
    case FactorialRequest(n) =>
      if n > Factorial.MaxInput then Err(InputTooLarge)
      else Decimal.StrInt(if n <= 1 then 1 else Factorial.Fact(n))
  }

  /** From 25801 on, every Fibonacci request fails in `str`: F(n) >= 10^4300. */
  lemma LargeFibonacciFails(n: int, showReal: real -> string)
    requires n >= 6 * Decimal.MaxStrDigits + 1
    ensures Expected(FibonacciRequest(n), showReal) == Err(TooManyDigits)
  {
    Fibonacci.FibAtLeastFrom(n, Decimal.MaxStrDigits);
    Decimal.StrIntBound(Fibonacci.Fib(n));
  }

  /**
   * The ceiling of 50000 is not what bounds `compute_factorial`: every factorial from 4309 up to it
   * is admitted and then fails in `str`, because n! >= 10^(n-9).
   */
  lemma CeilingUnreachable(n: int, showReal: real -> string)
    requires Decimal.MaxStrDigits + 9 <= n <= Factorial.MaxInput
    ensures Admitted(FactorialRequest(n))
    ensures Expected(FactorialRequest(n), showReal) == Err(TooManyDigits)
  {
    Factorial.FactAtLeastFrom(n, Decimal.MaxStrDigits);
    Decimal.StrIntBound(Factorial.Fact(n));
  }

  /** A factorial ceiling that `str` never defeats. */
  const AnswerableCeiling := 1000

  /** Every factorial up to that ceiling is answered: n! <= 10^(3n) < 10^4300. */
  lemma AnswerableFactorials(n: int, showReal: real -> string)
    requires n <= AnswerableCeiling
    ensures Admitted(FactorialRequest(n))
    ensures Expected(FactorialRequest(n), showReal).Ok?
  {
    if n > 1 {
      Factorial.FactAtMost(n);
      Decimal.Pow10Monotone(3 * n + 1, Decimal.MaxStrDigits);
      Decimal.StrIntBound(Factorial.Fact(n));
    }
  }

  /** The text of an answer, or its error. */
  function Answer(r: Result<ComputationResult>): Result<string>
  {
    match r
    case Ok(cr) => Ok(cr.result)
    case Err(e) => Err(e)
  }

  /** `_log_computation`: a history record, then an event on the completion topic. */
  function Logged(req: Request, text: string, cached: bool): seq<Interaction>
  {
    [HistorySaved(OperationName(req), Params(req), text, cached),
     EventPublished(Topic, OperationName(req), Params(req), cached)]
  }

  /** Whether the request passes the factorial ceiling, the one check made before the cache. */
  predicate Admitted(req: Request)
  {
    !(req.FactorialRequest? && req.n > Factorial.MaxInput)
  }

  /**
   * One request, from cache `c0` and trace `t0` to cache `c1` and trace `t1`, answering `r`.
   * An oversized factorial is refused before anything else; otherwise the key is probed; a hit
   * answers the stored payload marked as cached and only logs; a miss that fails answers the error
   * and touches nothing else; a miss that succeeds stores a fresh uncached result, logs it and
   * answers it.
   */
  ghost predicate Served(digest: KeyData -> string, showReal: real -> string,
                         c0: map<string, ComputationResult>, t0: seq<Interaction>,
                         c1: map<string, ComputationResult>, t1: seq<Interaction>,
                         req: Request, ttl: int, requestId: string, elapsedMs: real,
                         r: Result<ComputationResult>)
  {
    if !Admitted(req) then
      r == Err(InputTooLarge) && c1 == c0 && t1 == t0
    else
      var key := KeyOf(digest, req);
      if key in c0 then
        r == Ok(c0[key].(cached := true)) && c1 == c0 &&
        t1 == t0 + [CacheGet(key)] + Logged(req, c0[key].result, true)
      else
        match Expected(req, showReal)
        case Err(e) =>
          r == Err(e) && c1 == c0 && t1 == t0 + [CacheGet(key)]
        case Ok(text) =>
          var made := ComputationResult(requestId, text, elapsedMs, false);
          r == Ok(made) && c1 == c0[key := made] &&
          t1 == t0 + [CacheGet(key), CacheSet(key, ttl, made)] + Logged(req, text, false)
  }

  /** Every cached payload is the uncached answer to the request it was stored for. */
  ghost predicate Consistent(digest: KeyData -> string, showReal: real -> string,
                             cache: map<string, ComputationResult>, origin: map<string, Request>)
  {
    cache.Keys == origin.Keys &&
    forall k :: k in cache ==>
      KeyOf(digest, origin[k]) == k && !cache[k].cached && Expected(origin[k], showReal) == Ok(cache[k].result)
  }

  /** A cache hit holds exactly the text that computing the request afresh would give. */
  lemma HitIsExpected(digest: KeyData -> string, showReal: real -> string,
                      cache: map<string, ComputationResult>, origin: map<string, Request>, req: Request)
    requires Unambiguous(digest, req) && Consistent(digest, showReal, cache, origin)
    requires KeyOf(digest, req) in cache
    ensures origin[KeyOf(digest, req)] == req
    ensures Expected(req, showReal) == Ok(cache[KeyOf(digest, req)].result)
  {
  }

  /** Whether it hits or misses, a request answers its expected text, and the cache stays consistent. */
  lemma ServedIsExpected(digest: KeyData -> string, showReal: real -> string,
                         c0: map<string, ComputationResult>, t0: seq<Interaction>,
                         c1: map<string, ComputationResult>, t1: seq<Interaction>,
                         origin: map<string, Request>,
                         req: Request, ttl: int, requestId: string, elapsedMs: real,
                         r: Result<ComputationResult>)
    requires Unambiguous(digest, req) && Consistent(digest, showReal, c0, origin)
    requires Served(digest, showReal, c0, t0, c1, t1, req, ttl, requestId, elapsedMs, r)
    ensures Answer(r) == Expected(req, showReal)
    ensures var key := KeyOf(digest, req);
      Consistent(digest, showReal, c1, if key in c1 then origin[key := req] else origin)
  {
    var key := KeyOf(digest, req);
    if key in c0 {
      HitIsExpected(digest, showReal, c0, origin, req);
      assert origin[key := req] == origin;
    } else if !Admitted(req) {
      assert Expected(req, showReal).Err?;
    } else if Expected(req, showReal).Ok? {
      StoreKeepsConsistent(digest, showReal, c0, origin, req, Expected(req, showReal).value, requestId, elapsedMs);
    }
  }

  /** The same request served twice in a row: the second answer is cached and has the same text. */
  lemma RepeatIsCached(digest: KeyData -> string, showReal: real -> string,
                       c0: map<string, ComputationResult>, t0: seq<Interaction>,
                       c1: map<string, ComputationResult>, t1: seq<Interaction>,
                       c2: map<string, ComputationResult>, t2: seq<Interaction>,
                       req: Request, ttl: int, id1: string, ms1: real, id2: string, ms2: real,
                       r1: Result<ComputationResult>, r2: Result<ComputationResult>)
    requires Served(digest, showReal, c0, t0, c1, t1, req, ttl, id1, ms1, r1)
    requires Served(digest, showReal, c1, t1, c2, t2, req, ttl, id2, ms2, r2)
    requires r1.Ok?
    ensures r2.Ok? && r2.value.cached && r2.value.result == r1.value.result
    ensures c2 == c1
  {
  }

  /** The hit branch of `Served`, in the order the service makes its calls. */
  lemma ServedByHit(digest: KeyData -> string, showReal: real -> string,
                    c0: map<string, ComputationResult>, t0: seq<Interaction>,
                    req: Request, ttl: int, requestId: string, elapsedMs: real)
    requires Admitted(req) && KeyOf(digest, req) in c0
    ensures var key := KeyOf(digest, req);
      Served(digest, showReal, c0, t0, c0, t0 + [CacheGet(key)] + Logged(req, c0[key].result, true),
             req, ttl, requestId, elapsedMs, Ok(c0[key].(cached := true)))
  {
  }

  /** The failing miss branch of `Served`: only the probe is made. */
  lemma ServedByFailure(digest: KeyData -> string, showReal: real -> string,
                        c0: map<string, ComputationResult>, t0: seq<Interaction>,
                        req: Request, ttl: int, requestId: string, elapsedMs: real, e: MathError)
    requires Admitted(req) && KeyOf(digest, req) !in c0 && Expected(req, showReal) == Err(e)
    ensures Served(digest, showReal, c0, t0, c0, t0 + [CacheGet(KeyOf(digest, req))],
                   req, ttl, requestId, elapsedMs, Err(e))
  {
  }

  /** The succeeding miss branch of `Served`: probe, store, then log. */
  lemma ServedByMiss(digest: KeyData -> string, showReal: real -> string,
                     c0: map<string, ComputationResult>, t0: seq<Interaction>,
                     req: Request, ttl: int, requestId: string, elapsedMs: real, text: string)
    requires Admitted(req) && KeyOf(digest, req) !in c0 && Expected(req, showReal) == Ok(text)
    ensures var key := KeyOf(digest, req);
      var made := ComputationResult(requestId, text, elapsedMs, false);
      Served(digest, showReal, c0, t0, c0[key := made],
             t0 + [CacheGet(key)] + [CacheSet(key, ttl, made)] + Logged(req, text, false),
             req, ttl, requestId, elapsedMs, Ok(made))
  {
    var key := KeyOf(digest, req);
    var made := ComputationResult(requestId, text, elapsedMs, false);
    assert t0 + [CacheGet(key)] + [CacheSet(key, ttl, made)] == t0 + [CacheGet(key), CacheSet(key, ttl, made)];
  }

  /** Storing the expected answer of a request under its key keeps the cache consistent. */
  lemma StoreKeepsConsistent(digest: KeyData -> string, showReal: real -> string,
                             cache: map<string, ComputationResult>, origin: map<string, Request>,
                             req: Request, text: string, requestId: string, elapsedMs: real)
    requires Consistent(digest, showReal, cache, origin) && Expected(req, showReal) == Ok(text)
    ensures Consistent(digest, showReal,
                       cache[KeyOf(digest, req) := ComputationResult(requestId, text, elapsedMs, false)],
                       origin[KeyOf(digest, req) := req])
  {
  }

  class MathService {
    /** The digest of the serialised key data (SHA-256 in hexadecimal). */
    const digest: KeyData -> string
    /** Python's `str` on a float. */
    const showReal: real -> string

    /** The external cache, as the map from key to payload it currently holds. */
    var cache: map<string, ComputationResult>
    /** Every call made to the cache, the history and the message broker, in order. */
    ghost var trace: seq<Interaction>
    /** For every cached key, the request whose result was stored under it. */
    ghost var origin: map<string, Request>

    ghost predicate Valid()
      reads this
    {
      Consistent(digest, showReal, cache, origin)
    }

    /**
     * `__init__` keeps only the repository; the cache is a store shared by every service and
     * outlives them, so a new service starts from whatever it holds, provided every entry was
     * written by this code with this digest (`origin` says for which request).
     */
    constructor (digest: KeyData -> string, showReal: real -> string,
                 cache: map<string, ComputationResult>, ghost origin: map<string, Request>)
      requires Consistent(digest, showReal, cache, origin)
      ensures Valid()
      ensures this.digest == digest && this.showReal == showReal
      ensures this.cache == cache && trace == []
    {
      this.digest := digest;
      this.showReal := showReal;
      this.cache := cache;
      trace := [];
      this.origin := origin;
    }

    /** `cache_client.get(key)`. */
    method Probe(key: string) returns (hit: Option<ComputationResult>)
      modifies this`trace
      ensures hit == if key in cache then Some(cache[key]) else None
      ensures trace == old(trace) + [CacheGet(key)]
    {
      hit := if key in cache then Some(cache[key]) else None;
      trace := trace + [CacheGet(key)];
    }

    /** `cache_client.setex(key, ttl, payload)`. */
    method Store(key: string, ttl: int, payload: ComputationResult)
      modifies this`cache, this`trace
      ensures cache == old(cache)[key := payload]
      ensures trace == old(trace) + [CacheSet(key, ttl, payload)]
    {
      cache := cache[key := payload];
      trace := trace + [CacheSet(key, ttl, payload)];
    }

    /** The cache dropping an entry whose time to live has run out. */
    method Expire(key: string)
      requires Valid()
      modifies this`cache, this`origin
      ensures Valid()
      ensures cache == old(cache) - {key}
    {
      cache := cache - {key};
      origin := origin - {key};
    }

    /** `_log_computation`: `repo.save_computation`, then `publish_event`. */
    method LogComputation(req: Request, text: string, cached: bool)
      modifies this`trace
      ensures trace == old(trace) + Logged(req, text, cached)
    {
      trace := trace + [HistorySaved(OperationName(req), Params(req), text, cached)];
      trace := trace + [EventPublished(Topic, OperationName(req), Params(req), cached)];
    }

    /**
     * The numeric engine call of the miss branch: `_fast_power`, the Fibonacci method chosen at
     * 1000, or `_optimized_factorial`, followed by `str(result)`.
     */
    method Evaluate(req: Request) returns (r: Result<string>)
      requires Admitted(req)
      ensures r == Expected(req, showReal)
    {
      match req
      case PowerRequest(base, exponent) =>
        var value := Powers.FastPower(base, exponent);
        if value.Err? {
          return Err(value.error);
        }
        return Render(value.value, showReal);
      case FibonacciRequest(n) =>
        var value := Fibonacci.FibonacciValue(n);
        return Render(Int(value), showReal);
      case FactorialRequest(n) =>
        var value := Factorial.OptimizedFactorial(n);
        return Render(Int(value), showReal);
    }

    /**
     * The sequence the three `compute_*` methods share once the request is admitted: derive the
     * key, probe the cache; on a hit mark the payload as cached, log it and answer it; on a miss
     * compute, and unless that raised, store a fresh result, log it and answer it.
     */
    method Serve(req: Request, key: string, cacheTtl: int, requestId: string, elapsedMs: real)
      returns (r: Result<ComputationResult>)
      requires Valid() && Unambiguous(digest, req) && key == KeyOf(digest, req) && Admitted(req)
      modifies this`cache, this`trace, this`origin
      ensures Valid()
      ensures Served(digest, showReal, old(cache), old(trace), cache, trace,
                     req, cacheTtl, requestId, elapsedMs, r)
    {
      ghost var c0, t0, o0 := cache, trace, origin;
      var hit := Probe(key);
      if hit.Some? {
        ServedByHit(digest, showReal, c0, t0, req, cacheTtl, requestId, elapsedMs);
        var res := hit.value.(cached := true);
        LogComputation(req, res.result, true);
        return Ok(res);
      }
      var text := Evaluate(req);
      if text.Err? {
        ServedByFailure(digest, showReal, c0, t0, req, cacheTtl, requestId, elapsedMs, text.error);
        return Err(text.error);
      }
      ServedByMiss(digest, showReal, c0, t0, req, cacheTtl, requestId, elapsedMs, text.value);
      StoreKeepsConsistent(digest, showReal, c0, o0, req, text.value, requestId, elapsedMs);
      var made := ComputationResult(requestId, text.value, elapsedMs, false);
      Store(key, cacheTtl, made);
      origin := origin[key := req];
      LogComputation(req, text.value, false);
      return Ok(made);
    }

    /** `compute_power(base, exponent, cache_ttl)`; the id and the timing are supplied by the caller. */
    method ComputePower(base: real, exponent: int, cacheTtl: int, requestId: string, elapsedMs: real)
      returns (r: Result<ComputationResult>)
      requires Valid() && Unambiguous(digest, PowerRequest(base, exponent))
      modifies this`cache, this`trace, this`origin
      ensures Valid()
      ensures Served(digest, showReal, old(cache), old(trace), cache, trace,
                     PowerRequest(base, exponent), cacheTtl, requestId, elapsedMs, r)
      ensures Answer(r) == Expected(PowerRequest(base, exponent), showReal)
    {
      var req := PowerRequest(base, exponent);
      var key := GenerateCacheKey(digest, "power", [Param("base", Float(base)), Param("exponent", Int(exponent))]);
      KeyOfIsGenerated(digest, req);
      ghost var c0, t0, o0 := cache, trace, origin;
      r := Serve(req, key, cacheTtl, requestId, elapsedMs);
      ServedIsExpected(digest, showReal, c0, t0, cache, trace, o0, req, cacheTtl, requestId, elapsedMs, r);
    }

    /** `compute_fibonacci(n, cache_ttl)`. */
    method ComputeFibonacci(n: int, cacheTtl: int, requestId: string, elapsedMs: real)
      returns (r: Result<ComputationResult>)
      requires Valid() && Unambiguous(digest, FibonacciRequest(n))
      modifies this`cache, this`trace, this`origin
      ensures Valid()
      ensures Served(digest, showReal, old(cache), old(trace), cache, trace,
                     FibonacciRequest(n), cacheTtl, requestId, elapsedMs, r)
      ensures Answer(r) == Expected(FibonacciRequest(n), showReal)
    {
      var req := FibonacciRequest(n);
      var key := GenerateCacheKey(digest, "fibonacci", [Param("n", Int(n))]);
      KeyOfIsGenerated(digest, req);
      ghost var c0, t0, o0 := cache, trace, origin;
      r := Serve(req, key, cacheTtl, requestId, elapsedMs);
      ServedIsExpected(digest, showReal, c0, t0, cache, trace, o0, req, cacheTtl, requestId, elapsedMs, r);
    }

    /** `compute_factorial(n, cache_ttl)`: inputs above 50000 are refused before the key is derived. */
    method ComputeFactorial(n: int, cacheTtl: int, requestId: string, elapsedMs: real)
      returns (r: Result<ComputationResult>)
      requires Valid() && Unambiguous(digest, FactorialRequest(n))
      modifies this`cache, this`trace, this`origin
      ensures Valid()
      ensures Served(digest, showReal, old(cache), old(trace), cache, trace,
                     FactorialRequest(n), cacheTtl, requestId, elapsedMs, r)
      ensures Answer(r) == Expected(FactorialRequest(n), showReal)
    {
      if n > Factorial.MaxInput {
        return Err(InputTooLarge);
      }
      var req := FactorialRequest(n);
      var key := GenerateCacheKey(digest, "factorial", [Param("n", Int(n))]);
      KeyOfIsGenerated(digest, req);
      ghost var c0, t0, o0 := cache, trace, origin;
      r := Serve(req, key, cacheTtl, requestId, elapsedMs);
      ServedIsExpected(digest, showReal, c0, t0, cache, trace, o0, req, cacheTtl, requestId, elapsedMs, r);
    }
  }

  /**
   * A client: asking twice for a factorial up to the answerable ceiling gives the same text, the
   * second time from the cache.
   */
  method RepeatedFactorial(s: MathService, n: int, ttl: int)
    returns (first: Result<ComputationResult>, second: Result<ComputationResult>)
    requires s.Valid() && Unambiguous(s.digest, FactorialRequest(n)) && n <= AnswerableCeiling
    modifies s
    ensures first.Ok? && second.Ok?
    ensures second.value.cached && second.value.result == first.value.result
  {
    AnswerableFactorials(n, s.showReal);
    first := s.ComputeFactorial(n, ttl, "first", 0.0);
    ghost var c1, t1 := s.cache, s.trace;
    second := s.ComputeFactorial(n, ttl, "second", 0.0);
    assert first.Ok?;
    assert KeyOf(s.digest, FactorialRequest(n)) in c1;
  }
}
