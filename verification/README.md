# notsoproxy: statistics registry and backend pool

notsoproxy is a small HTTP/1.1 reverse proxy. It forwards every client request to one
fixed backend address and reuses backend connections through a bounded pool. For each
request path, it records how many response bytes it has relayed and returns that running
total in an `X-Bytes` header. This project models the two pieces of in-memory state in
`main.go` and proves properties about them:

- **Statistics registry** (`stats.dfy`, module `Stats`). The class `Registry` holds the
  map `requestBytes` from request path to cumulative byte total. `UpdateStats` is
  `updateStats`: one atomic step, because the source performs it under `requestLock`. A
  ghost log `served` records the updates applied so far. The class invariant says that
  the map is exactly what replaying that log over an empty map gives (`Replay`).
- **Backend pool** (`pool.dfy`, module `Pool`). The class `BackendPool` holds `queue`,
  the contents of the buffered channel `backendQueue` (capacity 10, head first).
  `GetBackend` models `getBackend` and `QueueBackend` models `queueBackend`. The class
  `Backend` stands for a `*Backend` connection. Its `closed` field records that
  `be.Close()` was called. The pure functions `Acquire`, `Release`, `Step` and `Run`
  describe the same steps as a state machine, so lemmas can reason about any sequence of
  acquires and releases.

A reader might expect the `X-Bytes` total to stay unchanged when a response's length is
unknown. The code resets it instead. With `ContentLength == -1`, the local `bytes` keeps
its initial 0 and that 0 is stored (main.go:170-174), so the path's total becomes 0. `Record` and
`UpdateStats` state this reset, and `ReplayTotal` describes its effect on any sequence of
responses. The guard is `!= -1`, so any other negative length is added to the total.

Timeouts become branches. `getBackend` dials only when the pool is still empty after its
100 ms wait; the model takes the dial branch exactly when the queue is empty. Whether
`net.Dial` succeeds is the parameter `dial` (`DialOk` or `DialError(reason)`). On success,
`GetBackend` allocates a new, open `Backend`, as `getBackend` does at main.go:148-152.
In the pure state machine, `Acquire` instead receives the dial branch's result as
`Connected(conn)` or `Refused(reason)`.
`queueBackend` closes the backend only when the pool is still full after its 1 s wait;
the model closes it exactly when the queue holds 10 backends.

## Model

| member | source | states |
|---|---|---|
| `Stats.Record` | main.go:170-174 | The path is always present afterwards. A length other than -1 (negative values included) is added to the previous total, with 0 for a missing path. The length -1 stores 0. Every other path keeps its key and total. |
| `Stats.ReplayTotal` | main.go:167-176 | After any interleaving of updates, a path's total depends only on that path's own lengths. If one of them was -1, the total is the sum of the lengths after the last -1. Otherwise it is the starting total plus the sum of all of them. No update is lost or double-counted. |
| `Stats.ReplayKeys` | main.go:174 | After a sequence of updates, a path is in the map exactly when it was there before or some update used it. |
| `Stats.KnownLengthsAccumulate` | main.go:170-175 | For a path not seen before whose lengths L1..Ln are all known (not -1), the total after the n-th response is L1+...+Ln, whatever updates for other paths are interleaved. |
| `Stats.Registry.constructor` | main.go:40-42 | The registry starts as the empty map, with an empty update log. |
| `Stats.Registry.UpdateStats` | main.go:167-176 | The new map is `Record` of the old one. The value returned (the `X-Bytes` value) is the value stored for the path. That value is the expected total of the path's lengths over the whole update log. |
| `Pool.Acquire` | main.go:139-154 | A non-empty pool hands out its head backend and keeps the rest in FIFO order. An empty pool stays empty. The result is then the dialed connection with no error, or the dial's error with no backend. |
| `Pool.Release` | main.go:158-165 | The backend is closed exactly when the pool already holds 10 backends. Otherwise it is appended at the back. A closed backend is not queued, and a queued one is not closed. The pool never grows beyond 10. |
| `Pool.Step` | main.go:139-165 | One acquire or release outputs at most one backend of each kind and keeps the pool within its capacity. |
| `Pool.StepConserves` | main.go:139-165 | One step neither loses nor duplicates a backend: idle + released + dialed before equals idle + handed out + closed after. |
| `Pool.RunWithinCapacity` | main.go:38 | Whatever sequence of acquires and releases is applied, the pool never holds more than 10 backends. |
| `Pool.RunConserves` | main.go:139-165 | Over any sequence of steps, the initial idle backends plus the released and dialed ones are, as a multiset, exactly the final idle ones plus those handed out and those closed. |
| `Pool.ReleaseInOrder` | main.go:156-165 | Releasing a sequence of backends queues them in release order until the pool is full, then closes the rest in order. |
| `Pool.DrainInOrder` | main.go:137-142 | As many acquires as there are idle backends hand them all out in queue order, dial nothing and leave the pool empty. |
| `Pool.FirstInFirstOut` | main.go:35-38 | Backends released into an empty pool with room for all of them are handed out by the next acquires in release order. |
| `Pool.Backend.Close` | main.go:163 | Closing a backend marks it closed. |
| `Pool.BackendPool.constructor` | main.go:38 | The pool starts empty. |
| `Pool.BackendPool.GetBackend` | main.go:139-154 | The new queue and the result are exactly what `Acquire` gives for the old queue and the dial branch's result. On an empty pool, a successful dial returns a freshly allocated, open backend. A failed dial returns its error and no backend. The capacity invariant is kept. |
| `Pool.BackendPool.QueueBackend` | main.go:158-165 | The new queue is what `Release` gives. The backend is closed when `Release` discards it and left as it was when it is queued. The capacity invariant is kept. |

## Left out

- `main` (main.go:44-72): listener creation, the accept loop and RPC registration are I/O bootstrap.
- `handleConnection` (main.go:74-135): HTTP parsing and writing, logging and formatting of the `X-Bytes` header are I/O through `net/http` and `bufio`. The calls it makes into the pool and the registry are modelled; the loop around them is not. It calls `getBackend` once per request. It calls `queueBackend` only when writing the request to the backend succeeded. It calls `updateStats` once per relayed response.
- When `req.Write(be)` fails (main.go:104-107), the handler returns without calling `queueBackend` or `be.Close()`. That backend is neither put back in the pool nor closed: it leaks. This third outcome lies outside the queued-or-closed account of `Release`. It is not modelled, because the relay loop is left out.
- The asynchronous `go queueBackend(be)` (main.go:113) lets a backend be reused while its previous response is still being read. That race needs concurrency, which a sequential model cannot express. Acquire and release are modelled as atomic steps.
- Timers (`time.After`, 100 ms and 1 s) are not modelled. The timeout branches are taken exactly when the pool is empty (acquire) or full (release), so a backend released during the wait is not captured.
- The `requestLock` mutex is not modelled as a lock. Its effect is that each `UpdateStats` call is one atomic step.
- `net.Dial` and `net.Conn.Close` are foreign network calls. Whether the dial succeeds is an input, and closing only sets the `closed` marker. The buffered reader and writer built around the connection (main.go:148-152) are not modelled.
- `Pool.Run`: the pure state machine takes the backend produced by each dial as part of its input (`Get(Connected(conn))`). It therefore does not require dialed backends to be fresh, so a sequence that reuses one `conn` for two dials is accepted. Freshness is stated only by `Pool.BackendPool.GetBackend`, which allocates the backend itself.
- `RpcServer` and `GetStats` are not part of this model. They are referenced at main.go:48, but their definition is not among the source files.
- cmd/notsoproxy-client/main.go only dials the RPC server and logs the map, so it is I/O only.
- `Stats.Record`: totals are unbounded integers, so the `int64` wrap-around of the addition at main.go:172 is not modelled.
