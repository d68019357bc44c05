# vox application core, modelled in Dafny

This project models `application.go` of vox (the `gibson` repository), a minimal
HTTP middleware pipeline:

- the **Application** container: an append-only, ordered list of middlewares and a
  string-to-string configuration map (`New`, `Use`, `SetConfig`, `GetConfig`);
- **compose**: the loop that folds the middleware list right to left into a chain
  of wrappers, where wrapper *i* stores the continuation for *i + 1* (or the no-op
  after the last middleware) in the shared field `req.Next` and then calls
  middleware *i*;
- **ServeHTTP**: run the composed chain, then call `respond` unless a middleware
  left `res.DontRespond` set;
- **respond**: resolve the implicit status, write the header, then write the body:
  a `[]byte` verbatim, a `string` as its bytes, anything else through the JSON
  encoder, panicking when the encoder fails.

Middlewares are abstracted as finite scripts of actions (`CallNext`, `SetStatus`,
`SetBody`, `SetDontRespond`, and direct header and body writes to the transport's
writer). The writer is a trace of `WriteHeader(status)` and `Write(bytes)` events.

Modules:

- `Http` (`http.dfy`): bytes, bodies, writer events, middleware actions, the
  continuation datatype `Cont`, and the `Request`, `Response` and `Writer` objects.
- `Chain` (`chain.dfy`): compose. The specification functions `Call`, `Wrapper` and
  `RunScript` describe one invocation on a value `Ctx`, with `req.Next` as the index
  of the wrapper it designates. The methods `Compose`, `Invoke`, `RunHandler`, `Act` and
  `Handle` run on the objects, with `req.Next` holding real continuation values, and
  are proved equal to the functions. The lemmas state execution order, exactly-once
  and early-stop properties.
- `Responder` (`responder.dfy`): respond, as the function `Finalize` and the method
  `Respond`.
- `Config` (`config.dfy`): the configuration map's lookup, and last-write-wins over
  any sequence of `SetConfig` calls.
- `Vox` (`vox.dfy`): the `Application` class and `Serve`, the value-level
  description of one dispatch that `ServeHTTP` is proved against.

Behaviour of the code that the model makes explicit:

- **A second `req.Next()` from the same middleware resumes the chain; it does not restart it.** Every
  wrapper overwrites `req.Next` before calling its middleware. So after a nested
  `req.Next()` returns, the field holds whatever the deepest wrapper reached stored
  there. A second call resumes from that point. It is the no-op when the chain ran
  to the end (`Chain.SecondCallAfterEndIsNoop`). It runs a later middleware that was
  skipped when an intermediate middleware did not call `req.Next()`
  (`Chain.SecondCallResumesPastQuietHandler`). Whatever actions the middlewares'
  scripts take, one dispatch enters each middleware at most once, in increasing index
  order (`Chain.Call`, `Chain.EnteredAtMostOnce`).
- **A nil body is handed to the JSON encoder.** A nil body matches
  neither `[]byte` nor `string` in respond's type switch, so it goes to the JSON
  encoder, and whatever the encoder returns is written. The model has no separate
  "no body" case: a nil body is one of the values `Other(v)` carries.
- **The status written is whatever `setImplicit` leaves.** Its rule is not in
  application.go, and `setImplicit` is not part of this model.

## Model

| member | source | states |
|---|---|---|
| `Vox.Application.constructor` | application.go:15-20 | A new application has no middlewares and an empty configuration. |
| `Vox.Application.Use` | application.go:24-26 | The handler becomes the last middleware. Earlier middlewares and the configuration are unchanged. |
| `Vox.Application.SetConfig` | application.go:29-31 | Only `key` is rebound, to `value`, and `GetConfig(key)` then returns `value`. The middleware list is unchanged. |
| `Vox.Application.GetConfig` | application.go:34-36 | Returns the bound value, or `""` for a key never set. |
| `Config.Lookup` | application.go:35 | Go's map read: the stored value, or the zero string for a missing key. |
| `Config.LastWriteWins` | application.go:29-36 | After any sequence of `SetConfig` calls, `GetConfig(k)` is the value of the most recent call for `k`, or the earlier value if there was none. |
| `Vox.Application.ServeHTTP` | application.go:38-47 | The writer's events and the panic outcome are exactly those of `Serve` on the application's middlewares, starting from a fresh request and response. |
| `Vox.Serve` | application.go:38-47 | After the chain, the dispatcher adds nothing when `DontRespond` is set. Otherwise it adds exactly one header, carrying the resolved status, then the body's bytes; if encoding failed it adds the header alone and panics. What the chain wrote is kept as a prefix. |
| `Vox.SuppressedDispatchWritesNothing` | application.go:44-46 | When the chain leaves `DontRespond` set, the writer holds exactly what the middlewares wrote, and there is no panic. |
| `Chain.Compose` | application.go:56-64 | The right-to-left loop yields the first link of the chain: wrapper 0, whose `nenext` is wrapper 1, and so on, ending in the no-op. |
| `Chain.ChainFromDepth` | application.go:56-64 | The link for index `j` passes through exactly `n - j` wrappers, so each link is identified by its index. |
| `Chain.ChainLink` | application.go:57-63 | Link `j < n` is wrapper `j` with `nenext` link `j + 1`. Link `n`, and only it, is the no-op. |
| `Chain.Call` | application.go:55-65 | Invoking continuation `j` enters middlewares at indices `j..n-1` only, in strictly increasing order, none twice. Wrapper `j`'s middleware comes first. `req.Next` is left one past the last middleware entered, or untouched when none was. |
| `Chain.Wrapper` | application.go:59-62 | Wrapper `i` enters middleware `i` first, and then only higher indices, once each. |
| `Chain.RunScript` | application.go:59-61 | A middleware's actions, with `req.Next` read at call time, only enter middlewares at or beyond the current cursor, and never move the cursor back. |
| `Chain.Invoke` | application.go:59-62 | On the objects: invoking a link stores its `nenext` in `req.Next`, then runs the middleware. The resulting state equals `Call`'s, and `req.Next` stays a link of the chain. |
| `Chain.RunHandler` | application.go:61 | On the objects: running middleware `i`'s script gives `RunScript`'s state. |
| `Chain.Act` | application.go:61 | On the objects: one action of middleware `i`. A `req.Next()` invokes the continuation the field holds at that moment. |
| `Chain.Handle` | application.go:55-66 | On the objects: the composed handler builds the chain, then invokes its first link, giving `Call(hs, 0, ·)`. |
| `Chain.EmptyChainIsNoop` | application.go:54-66 | Composing no middlewares gives a handler that runs nothing and changes neither request nor response. |
| `Chain.EnteredAtMostOnce` | application.go:59-61 | Whatever actions the middlewares' scripts take, one dispatch enters them in index order, none twice. |
| `Chain.NextBoundToSuccessor` | application.go:59-60 | Before middleware `i` runs, `req.Next` is continuation `i + 1`: a `req.Next()` as its first action enters middleware `i + 1`. |
| `Chain.LastNextIsNoop` | application.go:56-60 | The last wrapper binds `req.Next` to the no-op. The last middleware's `req.Next()` calls run nothing. |
| `Chain.ChainRunsAll` | application.go:59-65 | If every middleware calls `req.Next()` (once, or more), each runs exactly once, in order `0..n-1`. |
| `Chain.ScriptReachesEnd` | application.go:59-61 | Within middleware `i`, the first `req.Next()` runs `i+1..n-1` in order. Later calls find the no-op. |
| `Chain.StopsAt` | application.go:59-61 | If middleware `k` never calls `req.Next()` and those before it call it at most once, no middleware after `k` runs. |
| `Chain.ScriptStopsAt` | application.go:59-61 | The same bound, from any point inside a middleware at or before `k`. |
| `Chain.QuietScript` | application.go:59-61 | Actions without `req.Next()` neither enter middlewares nor move `req.Next`. |
| `Chain.SecondCallResumesPastQuietHandler` | application.go:59-61 | With scripts `[Next, Next]`, `[]`, `[]`, middlewares 0, 1 and 2 all run. The second `req.Next()` resumes at wrapper 2, even though middleware 1 never called `req.Next()`. |
| `Chain.SecondCallAfterEndIsNoop` | application.go:59-61 | With scripts `[Next, Next]`, `[Next]`, middleware 1 runs once, not twice. The second `req.Next()` finds the no-op. |
| `Responder.Payload` | application.go:74-86 | The bytes written for a body: `[]byte` verbatim, a string's bytes, else exactly the encoder's result. Only a failed encoding gives none. |
| `Responder.Finalize` | application.go:69-87 | respond sets the resolved status and appends `WriteHeader(status)`. It then appends exactly one `Write` of the payload, or, when encoding fails, panics with no body write. Earlier events are kept. |
| `Responder.Respond` | application.go:69-87 | On the objects: the status, the writer's events and the panic outcome equal `Finalize`'s. Body, flag and request link are unchanged. |
| `Responder.BytesVerbatim` | application.go:75-76 | A `[]byte` body is written verbatim after the header, whatever the encoder does. |

## Left out

- `Run` (application.go:50-52): it only starts `http.ListenAndServe`, which is network I/O.
- The JSON encoder (application.go:81) implements RFC 8259 and is not modelled. It is the parameter `marshal`, an arbitrary partial function. Its error becomes the `panicked` outcome; what net/http does with the panic is not modelled.
- `setImplicit`, `createRequest` and `createResponse` are not part of this model. `setImplicit` is the parameter `resolve`, which is assumed to change only the status. The initial status, body and `DontRespond` of a response are parameters of `ServeHTTP`. A fresh request's unset `Next` is represented by the no-op; nothing invokes it before wrapper 0 overwrites it.
- The `Request`, `Response` and `Handler` definitions are not part of this model. The stand-ins carry only the fields application.go uses. The incoming `*http.Request` is not modelled, because no modelled action reads it.
- Middlewares continue the chain only through `req.Next()`, read at the moment of the call. The model does not capture a middleware that copies `req.Next` into a variable and calls the copy later (which can run the next middleware twice), or that assigns `req.Next` itself. The at-most-once and in-order results hold only for the modelled actions.
- Real middleware bodies are finite action scripts. The model has no branching on state, no panics inside middlewares, and no middleware that runs forever.
- The `http.ResponseWriter` API is reduced to the `WriteHeader` and `Write` events. Header maps are not modelled, and `Write`'s results are ignored, as the source ignores them.
- Concurrent `ServeHTTP` calls are not modelled: there is no locking in the source to model.
- `io.Reader` bodies are only a TODO comment in the source (application.go:79).
- `Request.entered`, the log of middlewares entered, is instrumentation: a ghost field that the source does not have.
- Chain.StopsAt: assumes that the middlewares before `k` call `req.Next()` at most once. Without that hypothesis the property does not hold, as Chain.SecondCallResumesPastQuietHandler shows.
