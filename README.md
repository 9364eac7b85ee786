# Math service: numeric engine and cache-or-compute sequence

This project models the core of `MathService` in `repository.py`: the three numeric algorithms
behind the service (binary exponentiation, Fibonacci by a linear loop or by powers of the matrix
[[1, 1], [1, 0]], and factorial by a loop or by divide and conquer over balanced range products),
the derivation of the cache key from the operation name and the parameters sorted by name, and the
sequence each `compute_*` method runs around them: refuse an oversized factorial, derive the key,
probe the cache, answer a hit marked as cached, or compute, store and answer a fresh result, and in
both cases save the computation to the history and publish a `computation.completed` event.

Each algorithm is proved against a plain reference definition: `Pow` by repeated multiplication,
`Fib` by the recurrence, `Fact` by n! = n * (n-1)!, `Prod` as the product of s..e, and `MatPow` as
repeated matrix multiplication. The service is a class whose `cache` field is a map from key to the
stored `ComputationResult`; the calls it makes to the cache, the history and the message broker
are recorded, in order, in a ghost trace. The ghost predicate `Served` states what one request
does to the cache and the trace and what it answers; the class invariant `Valid` says that every
cached payload is the uncached answer to the request stored under that key, from which every
answer, hit or miss, equals the reference answer `Expected` for a request whose key no other
request shares (`Unambiguous`). Integer results go through `str`, which refuses an integer of more
than 4300 digits, so large Fibonacci numbers and factorials fail after the cache probe.

Files, one module each:

- `values.dfy`: `Number` (a Python `int` or `float`), `MathError`, `Option` and `Result`.
- `powers.dfy`: `_fast_power`.
- `fibonacci.dfy`: `_iterative_fibonacci`, `_matrix_fibonacci` with `matrix_mult` and `matrix_power`, and the switch at 1000.
- `factorial.dfy`: `_optimized_factorial` and `_product_range`.
- `decimal.dfy`: `str(int)`, the text every integer result is cached, logged and returned as, with CPython's limit of 4300 digits.
- `cache_key.dfy`: `_generate_cache_key`.
- `orchestrator.dfy`: `compute_power`, `compute_fibonacci`, `compute_factorial`, `_log_computation`.

The code departs from the textbook form of these algorithms, and from what its interface suggests,
in these ways, and the model follows the code:

- The factorial above 100 is `(n // 2)! * _product_range(n // 2 + 1, n)`, a recursive factorial
  times one balanced range product, not two balanced halves of 2..n.
- Only the factorial ceiling is checked before the cache is touched. A zero base with a negative
  exponent raises only after the cache has been probed, so the trace of that request holds the
  probe and nothing else.
- A power with a non-zero exponent is a Python `float` (its text is `str` of a float, `"1024.0"`
  for 2.0 and 10), and only the zero exponent gives the `int` 1 and the text `"1"`.
- Failures of the cache, the history or the broker are not caught by the code; the model has them
  succeed (see "Left out").
- Negative `n` is not rejected: Fibonacci answers `n` and factorial answers 1.
- `str(result)` raises `ValueError` for an integer of more than 4300 digits (CPython 3.11 and later,
  and the 3.7.14, 3.8.14, 3.9.14 and 3.10.7 security releases). The failure comes after the cache
  probe and before the store and the log, as a raising computation does. It hits every factorial
  from 1559 and every Fibonacci number from 20578; the model proves it from 4309 and from 25801.
- The cache is a module-level store shared by every `MathService` and outliving them; `__init__`
  only keeps the repository, so a new service starts from whatever the cache holds.

## Model

| member | source | states |
|---|---|---|
| Powers.FastPower | repository.py:121-135 | 1 (an `int`) for exponent 0 whatever the base, including 0; `Pow(base, exp)` for a positive exponent; the reciprocal `IntPow(base, exp)` for a negative one; DivisionByZero exactly when the base is 0 and the exponent negative. The loop keeps `result * base_power^exp == base^exp0` |
| Powers.PowSquare | repository.py:133-134 | squaring the running base and halving the exponent keeps the power: `(b*b)^k == b^(2k)` |
| Powers.PowAdd | repository.py:130-135 | exponents add: `b^(i+j) == b^i * b^j` |
| Powers.PowZero | repository.py:125-126 | a power is 0 exactly when the base is 0 and the exponent positive, which is when `1 / ...` divides by zero |
| Powers.IntPow | repository.py:125-126 | the power with an integer exponent of a non-zero base is never zero |
| Powers.ReciprocalExponents | repository.py:125-126 | for a non-zero base the powers with exponents `e` and `-e` multiply to 1 |
| Fibonacci.IterativeFibonacci | repository.py:137-144 | returns `n` for n <= 1 (negatives included) and `Fib(n)` for every n >= 0; the loop keeps `(a, b) == (Fib(i-2), Fib(i-1))` |
| Fibonacci.Mult | repository.py:148-152 | `matrix_mult` is the matrix product: on every vector it acts as applying `y`, then `x` |
| Fibonacci.MultAssociative | repository.py:148-152 | the 2x2 product is associative |
| Fibonacci.MatPowAdd | repository.py:154-160 | `M^(i+j) == M^i * M^j`, which makes halving sound |
| Fibonacci.MatrixPower | repository.py:154-160 | recursive halving computes exactly `M^k` for every k >= 1 |
| Fibonacci.StepPower | repository.py:164-165 | `[[1,1],[1,0]]^k == [[Fib(k+1), Fib(k)], [Fib(k), Fib(k-1)]]` for k >= 1 |
| Fibonacci.MatrixFibonacci | repository.py:146-166 | returns `n` for n <= 1 and `Fib(n)` for every n >= 0, the same as the loop |
| Fibonacci.FibonacciValue | repository.py:73 | the matrix method above 1000 and the loop otherwise give `Fib(n)` either way, so the threshold is invisible |
| Factorial.ProdSplit | repository.py:188-189 | a range product splits at any midpoint: `Prod(s, e) == Prod(s, m) * Prod(m+1, e)` |
| Factorial.FactIsProd | repository.py:172-176 | `n! == Prod(1, n)` |
| Factorial.FactSplit | repository.py:178-180 | `n! == m! * Prod(m+1, n)` for m <= n |
| Factorial.ProductRange | repository.py:182-189 | the balanced recursion equals the product of all integers from start to end: 1 when empty, `start` when a single element |
| Factorial.OptimizedFactorial | repository.py:168-180 | returns 1 for n <= 1 and `n!` for every n >= 0, in the loop branch and in the divide-and-conquer branch |
| Decimal.Digits | repository.py:45 | the digits of a natural number are non-empty decimal digits without a leading zero |
| Decimal.DecimalString | repository.py:78 | the decimal text of an integer is an optional minus sign followed by decimal digits |
| Decimal.DigitCount | repository.py:78 | a natural number has more than `k` digits exactly when it is at least 10^k |
| Decimal.StrInt | repository.py:78 | `str(int)`: the text, which parses back to the integer, or `TooManyDigits` (the ValueError) |
| Decimal.StrIntBound | repository.py:78 | `str` succeeds exactly on the integers strictly between -10^4300 and 10^4300 |
| Decimal.DecimalRoundTrip | repository.py:111 | reading back the text of an integer gives the integer: the result text is exact |
| Decimal.DecimalInjective | repository.py:78 | distinct integers have distinct texts |
| CacheKey.SortByName | repository.py:193 | `sort_keys=True`: the parameters sorted by name, same elements |
| CacheKey.SortedUnique | repository.py:193 | two name-sorted lists with the same elements are equal |
| CacheKey.Canonical | repository.py:193 | the serialised form keeps the operation and holds the parameters sorted by name |
| CacheKey.GenerateCacheKey | repository.py:191-194 | the key is `math:` followed by the digest of the serialised form |
| CacheKey.KeyOrderIndependent | repository.py:191-194 | the order in which the parameters are passed does not change the key |
| CacheKey.KeyDeterminesRequest | repository.py:191-194 | when the digest does not collide on the two serialised forms, equal keys mean the same operation and the same parameters |
| Orchestrator.Params | repository.py:27 | the keyword arguments of a request have distinct names |
| Orchestrator.KeyOfIsGenerated | repository.py:27 | the key of a request is the one `_generate_cache_key` derives from its operation and parameters |
| Orchestrator.UnambiguousFromDigest | repository.py:27 | a digest with no collision at a request's serialised form gives that request a key no other request has |
| Orchestrator.Render | repository.py:45 | `str(result)`: a float through Python's float formatting; an int as text that parses back to it, failing with `TooManyDigits` exactly outside (-10^4300, 10^4300) |
| Orchestrator.LargeFibonacciFails | repository.py:72-78 | every Fibonacci request from 25801 fails in `str` with `TooManyDigits` |
| Orchestrator.CeilingUnreachable | repository.py:93-111 | every factorial from 4309 up to the 50000 ceiling is admitted and then fails in `str` with `TooManyDigits` |
| Orchestrator.AnswerableFactorials | repository.py:93-111 | every factorial up to 1000 is admitted and answered |
| Orchestrator.HitIsExpected | repository.py:30-35 | under the cache invariant, a hit for a request whose key no other request has holds exactly the text that computing the request afresh gives |
| Orchestrator.ServedIsExpected | repository.py:20-56 | whether it hits or misses, a request whose key no other request has answers its expected text or error, and the cache stays consistent |
| Orchestrator.RepeatIsCached | repository.py:96-103 | the same request served twice: the second answer is cached, has the same text, and leaves the cache as it was |
| Orchestrator.MathService.constructor | repository.py:9-18 | a new service starts from the shared cache as it is, with an empty trace, and needs every cached entry to be the answer to the request stored under its key |
| Orchestrator.MathService.Probe | repository.py:30 | a probe returns the stored payload exactly when the key is cached and records the get |
| Orchestrator.MathService.Store | repository.py:51 | a store writes the payload under the key and records the set with its time to live |
| Orchestrator.MathService.Expire | repository.py:51 | dropping an expired entry removes only that key and keeps the invariant |
| Orchestrator.MathService.LogComputation | repository.py:196-204 | a history record, then an event on `computation.completed`, with the operation, the parameters and the cached flag |
| Orchestrator.MathService.Evaluate | repository.py:37-45 | the numeric engine followed by `str` answers the reference text of the request, or DivisionByZero, or `TooManyDigits` |
| Orchestrator.MathService.Serve | repository.py:63-86 | hit: the stored payload with `cached = true`, cache unchanged, get then log; miss: compute, store a fresh uncached result under the key, log, answer it; a raising computation stores and logs nothing |
| Orchestrator.MathService.ComputePower | repository.py:20-56 | one `compute_power` request follows `Served` and answers `Expected` |
| Orchestrator.MathService.ComputeFibonacci | repository.py:58-86 | one `compute_fibonacci` request follows `Served` and answers `Expected` |
| Orchestrator.MathService.ComputeFactorial | repository.py:88-119 | above 50000 the request fails with InputTooLarge and leaves cache and trace untouched; otherwise it follows `Served` and answers `Expected` |
| Orchestrator.RepeatedFactorial | repository.py:88-119 | asking twice for a factorial up to 1000 gives the same text, the second time from the cache |

## Left out

- Floating point: `base` is an exact rational (`real`), so the powers and the division are exact; `str` of a float is a function `showReal` the service is given, not modelled.
- Powers.FastPower: states the exact rational power, not the IEEE double the code computes (no rounding, overflow or underflow to 0).
- The JSON text of the key (`json.dumps`) and SHA-256: the serialised form is kept as a value (operation and name-sorted parameters) and the digest is a function the service is given. The code assumes SHA-256 has no collisions; the model assumes only that no other request shares the key of the request being served (`Unambiguous`), since no function from all serialised forms, with their real bases, into strings is collision-free.
- The JSON round trip of the cached payload: the cache holds the `ComputationResult` value itself.
- Time: `time.time()` and `uuid4()` become the `elapsedMs` and `requestId` parameters; the event timestamp is not recorded.
- The time to live is recorded in each cache write, and expiry is the `Expire` method; the clock that drives it is not modelled.
- Orchestrator.RepeatedFactorial: promises two answers for n up to 1000, not up to 1558, the last factorial `str` can write, because 1558! < 10^4300 is not proved.
- `str(int)` on an interpreter without the digit limit (before CPython 3.11) answers every integer; the model follows the limited interpreters.
- Failures of the cache, the history or the broker: the code does not catch them, and the model has every such call succeed.
- Concurrency and `async`: requests are served one at a time, so two concurrent misses on the same key are not modelled.
- Tracing spans and their attributes (`tracer`), which do not affect results.
- The truncation of the saved result to 1000 characters happens in the repository's `save_computation`, which is not part of this model; the trace records the text passed to it.
- The application bootstrap, middleware and routers in `main.py`, and the database access in `service.py`.

## Findings

| source | as written | input that shows it | evidently intended | confidence | as-written member | corrected member |
|---|---|---|---|---|---|---|
| repository.py:93-111 | `compute_factorial` admits every n up to 50000, but `str(result)` at line 111 raises ValueError for a factorial of more than 4300 digits, after the cache probe and before the store and the log, so the ceiling is never the limit that applies | n = 5000: line 93 admits it, and 5000! >= 10^4991 has more than 4300 digits (the first such n is 1559) | every admitted factorial is answered: a ceiling of at most 1558, or `str` allowed more digits | not executed; holds on CPython 3.11 and later, not before | Orchestrator.CeilingUnreachable | Orchestrator.AnswerableFactorials |

`MathService` itself keeps the ceiling of 50000, so that it describes what the code does; the
corrected ceiling `AnswerableCeiling` (1000) is the one `RepeatedFactorial` relies on for its two
answers.
