# daimon, modelled in Dafny

daimon is a daemon that forms one node in a chain of machines. Each node transforms
a vector of samples and forwards the result. A node holds its current output vector.
When an `Output(v)` event arrives on an inbound connection, the node applies its
configured function to `v`, stores the result, and sends `Output(result)` to every
downstream address in order. When a `RequestOutput` event arrives, the node writes
its current output back on the same connection. The function is either `Echo`, which
passes the input through, or a routine exported by a dynamically loaded library.

This project models the two pieces of logic that remain once I/O is abstracted:

- `outcomes.dfy` (module `Outcomes`): `Option`, the `Panic` kinds, and `Result`.
  The daemon recovers from no error. Every `unwrap`, `expect` and `todo!` that fails
  ends the process. Each one is an explicit `Abort`/`Aborted` outcome, except the two
  `expect`s on serializing an event (see "Left out").
- `function.dfy` (module `FunctionDispatch`): `FunctionSpec`, the `Function` sum type,
  the selection rule `FromConfig`, and dispatch `Call` (plus `CallOnce` and `CallMut`).
  The dynamic loader and the foreign routine form the `Native` record. Its fields are
  uninterpreted functions: `loads(path)`, `exports(path, symbol)` and
  `run(path, symbol, input)`.
- `daemon.dfy` (module `Daemon`): `Event`, `Dest` (`Downstream(addr)` or `Requester`),
  the `SendRecipients` fan-out, `Startup`, the per-connection `Step`, `Run` over a
  sequence of connections, and `Launch`, which composes everything.
  Each step returns the new state plus the messages it sent, or the panic plus the
  messages sent before it.

Samples are a type parameter `S`. Network conditions are parameters:
- a `Link` says, for each entry of the downstream list, whether connecting and
  writing succeed. Every entry is a fresh connection, so an address listed twice
  can succeed once and fail the next time;
- a `Reply` says whether the answer to a query is written and flushed;
- an `Inbound` says whether a connection is accepted and decodes to an event;
- `bound` says whether the listening socket binds.

Every failure panics, and the node recovers from none of them. The failures are:
- a library spec without a path, a library that does not load, or a library spec
  without a symbol (`function.rs:48-52`), checked in that order;
- the executable strategy, which has no implementation (`todo!()` at
  `function.rs:56`), so an `Exec` spec panics with `NotImplemented`;
- a listening socket that cannot be bound (`main.rs:59`);
- a connection that cannot be accepted or decoded (`main.rs:65-66`);
- a failed connect or write to a downstream peer (`main.rs:41-44`), after which
  later peers are not attempted;
- a library that does not export the configured symbol (`function.rs:85`);
- a reply that cannot be written or flushed (`main.rs:75-78`).

Serializing an event is taken to succeed (see "Left out").

## Model

| member | source | states |
|---|---|---|
| FunctionDispatch.FromConfig | src/function.rs:41-61 | No spec gives `Echo`, and only no spec does: a library spec never falls back to `Echo`. A library spec succeeds iff the path is present, the module loads and the symbol is present. On success it carries exactly the configured path and symbol. On failure it panics at the first check that fails, in the order path, then load, then symbol. An `Exec` spec panics as not implemented. |
| FunctionDispatch.Call | src/function.rs:79-98 | `Echo` returns its input unchanged. A library function succeeds iff its module exports the symbol, and then returns the foreign routine's result for that symbol and input. The only failure is a symbol-not-found panic. |
| FunctionDispatch.CallFormsAgree | src/function.rs:66-77 | The by-value, mutable-borrow and shared-borrow calling forms give the same result for the same input. |
| FunctionDispatch.DefaultEchoes | src/function.rs:29-33 | The default function is `Echo`, and it returns every input unchanged. |
| FunctionDispatch.ConfiguredLibraryCallsSymbol | src/function.rs:47-53 | A library spec whose module loads builds the function for exactly that path and symbol. Calling it runs that routine when the symbol is exported and panics otherwise. |
| Daemon.SendRecipients | src/main.rs:37-46 | The messages sent are a prefix of the complete in-order fan-out of `Output(outputs)`. Every attempt in that prefix succeeded. The fan-out panics iff it stopped short, and the panic names the failure of the first attempt that failed. |
| Daemon.BroadcastShape | src/main.rs:38-45 | The complete fan-out has one message per recipient: the i-th goes to the i-th address and carries `Output(v)`. |
| Daemon.BroadcastCounts | src/main.rs:37-46 | In a complete fan-out, each address receives as many messages as it occurs in the recipient list. |
| Daemon.BroadcastSkipsRequester | src/main.rs:37-46 | A fan-out sends nothing to the requester. |
| Daemon.FanoutStopsAtFirstFailure | src/main.rs:40-45 | If the attempt at list entry i is the first whose connect or write fails, exactly entries 0..i-1 get the output, in order. Nobody after i gets anything, even if its address was listed earlier, and the fan-out panics with the failure at i. |
| Daemon.RepeatedAddressCanFailLater | src/main.rs:40-44 | With downstream `[a, b, a]`, the first two deliveries can succeed and the second connect to `a` fail. The fan-out then panics, having reached `a` and `b` once each. |
| Daemon.FanoutComplete | src/main.rs:37-46 | When every delivery succeeds, the fan-out sends the complete broadcast and does not panic. |
| Daemon.Startup | src/main.rs:59-62 | A failed bind panics before anything is sent. An empty initial state sends nothing. Whatever is sent is a prefix of the fan-out of the initial state. A running node holds the initial state, and if that state is non-empty it reached every downstream address. With a bound socket and a non-empty state, startup keeps running iff every delivery attempt succeeds. Otherwise it panics with the failure of the first attempt not delivered, and every earlier attempt succeeded. |
| Daemon.StartupStopsAtFirstFailure | src/main.rs:60-62 | If the attempt at list entry i is the first to fail, startup panics with that failure after sending the initial state to exactly entries 0..i-1. |
| Daemon.StartupReachesEveryPeer | src/main.rs:60-62 | With every delivery succeeding, a non-empty initial state goes to each downstream address once per listing. An empty initial state goes to nobody. |
| Daemon.Step | src/main.rs:64-80 | An accept failure panics with `AcceptFailed` and a decode failure with `DecodeFailed`, and neither sends anything. `RequestOutput` keeps running iff the reply is written and flushed, and then leaves the state unchanged. The reply is exactly one `Output(state)` to the requester. On `Output(v)`, a failed call panics with nothing sent. Otherwise the sent messages are a prefix of the fan-out of `f(v)`, and none goes to the requester. The node keeps running iff the call succeeded and every delivery attempt succeeded, and then its state is `f(v)`. Otherwise it panics with the failure of the first attempt not delivered, and every earlier attempt succeeded. |
| Daemon.OutputStopsAtFirstFailure | src/main.rs:68-71 | After `Output(v)`, when the call yields `w` and the attempt at list entry i is the first to fail, the step panics with that failure after sending `Output(w)` to exactly entries 0..i-1. |
| Daemon.OutputReachesEveryPeer | src/main.rs:68-71 | After `Output(v)`, when the call succeeds with `w` and no delivery fails, the new state is `w`. Each downstream address receives `Output(w)` once per listing, in list order. The requester receives nothing. |
| Daemon.QueryLeavesStateUnchanged | src/main.rs:72-79 | An answered query sends exactly one `Output(state)` to the requester and keeps the state. A second query therefore returns the same vector. |
| Daemon.Run | src/main.rs:64-81 | The node keeps running through a sequence of connections only if every one of them was accepted and decoded. |
| Daemon.RunSnoc | src/main.rs:64-81 | Serving one more connection: a running node handles it with the state it holds, and a panicked node ignores it. So the node keeps running iff each step does, and the loop goes on after every step that keeps running. |
| Daemon.QueriesLeaveStateUnchanged | src/main.rs:72-79 | Any number of answered queries leave the state unchanged. Each is answered with the starting state, and nothing goes downstream. |
| Daemon.StateIsLatestOutput | src/main.rs:64-81 | While the node runs, its state is the function applied to the last `Output` payload received. If no `Output` arrived, it is the starting state. |
| Daemon.AbortIsFinal | src/main.rs:64-66 | After a panic, later connections change neither the outcome nor the messages sent. |
| Daemon.Launch | src/main.rs:48-62 | An `Exec` spec panics before anything is bound or sent. A node without a spec whose socket fails to bind panics before sending anything. |
| Daemon.EchoNodeHoldsLatestInput | src/main.rs:57-70 | A node launched without a function spec that keeps running holds the last `Output` payload it received. If no `Output` arrived, it holds its initial state. |

## Left out

- The body of the foreign call (`function.rs:84-95`): raw pointers, the length
  conversion and the reconstruction of the returned vector are foreign code.
  `Native.run` stands for whatever the routine returns. As written, the call passes
  null out-pointers by value, so the routine cannot report a result through them.
  The model does not try to describe that behaviour.
- The library handle is identified by the path it was loaded from. Unloading and
  the handle's lifetime are not modelled.
- TCP listener, streams and connection closing (`main.rs:41-44, 59, 64-65, 75-78`):
  only the outcome of each operation is kept, as a parameter.
- The `bincode` encoding of events (`main.rs:39, 66, 74`): events are a datatype.
  Serializing a sample vector is taken to succeed, so the two `expect`s on
  serialization are not modelled as panics.
- `src/config.rs`: argument parsing, locating and reading the configuration file, and
  its parsing. The port is not modelled beyond whether binding succeeds.
- `f32` arithmetic: samples are an opaque type parameter.
- The executable strategy and the `Format` enum (`function.rs:17-22`). `Exec` ends in
  `todo!()`, and nothing reads `Format`.
- The mismatch between `main.rs:57`, which builds the function from a `FunctionSpec`,
  and the `From` conversion, which reads `spec`, `path` and `symbol` fields that the
  configuration type does not have. `FromConfig` takes those three optional values directly.
- Blocking I/O: the source sets no timeout on accept, on reading an event, on connecting
  or writing to a downstream peer, or on writing the reply (`main.rs:41-44, 64-66, 75-78`).
  A peer that accepts but never reads stalls the node forever. The model only describes
  steps that finish: every attempt has an outcome, and a blocked connect, write, accept
  or read is not modelled.
- The flush of the reply (`main.rs:78`) cannot fail on a TCP stream, whose flush does
  nothing. `ReplyFlushError` is kept as an outcome, but it cannot occur in practice.
- Daemon.Launch: its own contract states only the early panics. What a launched node
  holds and sends follows from the lemmas about `Startup`, `Step` and `Run`.
