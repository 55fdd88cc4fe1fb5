# fx stopper and key-value handler, modelled in Dafny

This project models two small stateful pieces of the fx service framework.

**The stopper** (`fx.dfy`, module `Fx`) holds two optional channels. `trigger` is the
one-slot `Reason` channel that the service's main loop waits on. `signalTrigger`
is the channel the operating system delivers SIGINT and SIGTERM to.

- `start` makes both channels, registers the signal channel and spawns a forwarding goroutine. It does nothing if `trigger` already exists.
- `TakeOver` makes only `trigger` and hands it to the caller. It fails with "stopper already started" if `trigger` already exists.
- `stop` unregisters the signal channel if there is one.
- `stopped` returns `trigger`.

The class `Fx.Stopper` has the Go struct's two fields as nullable references to
channel objects, so `make` becomes `new`. Two ghost fields stand for effects outside
the struct:

- `relayed` is the set of signals the operating system relays to `signalTrigger`.
- `forwarders` counts the goroutines `start` has spawned.

Each method is tied to `Fx.Step`, a pure transition on a `Fields` value. `Fx.Run` and
`Fx.Replies` fold `Step` over a sequence of calls. The properties that span several
calls are lemmas about those folds. Calls on one stopper are taken one at a time (see
"## Left out"):

- `trigger` is assigned at most once.
- At most one `TakeOver` succeeds.
- `stopped` returns the channel a successful `TakeOver` handed out.
- After a `TakeOver` no signal is ever registered.

**The key-value handler** (`keyvalue.dfy`, module `KeyValue`) keeps a
`map<string, string>`. `GetValue` returns the stored value, or `ResourceDoesNotExist`
naming the key. `SetValue` inserts or overwrites. `GetValue` is tied to `KeyValue.Lookup`. `SetValue` is tied to `KeyValue.Apply`, which folds
its update over a sequence of writes and is what `KeyValue.LastWriteWins` is about.

`wrappers.dfy` holds the `Option` type that stands for Go's nil-able results.

Only `TakeOver` rejects an existing `trigger` (`stopper.go:76-78`). `start` returns nil
and makes nothing whenever `trigger` exists, including after `TakeOver`
(`stopper.go:46-48`). `Fx.TakeOverAndStartAsymmetry` proves both orders. `stop` only
unregisters the signal channel, and only when there is one (`stopper.go:65-67`).

## Model

| member | source | states |
|---|---|---|
| `Fx.Stopper.constructor` | stopper.go:41-43 | a new stopper has no `trigger`, no `signalTrigger`, no registered signals and no forwarder |
| `Fx.Stopper.Start` | stopper.go:45-62 | returns nil; if `trigger` existed, nothing changes; otherwise it makes two fresh capacity-1 channels, registers exactly SIGINT and SIGTERM, and spawns one forwarder, as `Step` says |
| `Fx.Stopper.Stop` | stopper.go:64-69 | returns nil; leaves both channels alone; clears the registration only when `signalTrigger` exists, as `Step` says |
| `Fx.Stopper.Stopped` | stopper.go:71-73 | returns exactly the current `trigger` (null before any `start` or `TakeOver`) |
| `Fx.Stopper.TakeOver` | stopper.go:75-81 | if `trigger` existed: returns null and AlreadyStarted, and `trigger` is unchanged; otherwise it makes a fresh capacity-1 `trigger`, returns that same channel with no error, and leaves `signalTrigger` and the registration alone |
| `Fx.UnstartedIsEmpty` | stopper.go:41-43 | the state of a new stopper is reachable and holds no channel and no registration |
| `Fx.StepKeepsInv` | stopper.go:45-81 | every call keeps the invariant: a signal channel only alongside `trigger`; only SIGINT/SIGTERM registered, and only while a signal channel exists; one forwarder exactly when a signal channel exists |
| `Fx.StartOutcome` | stopper.go:45-61 | `start` always returns nil; with `trigger` present it changes no field; otherwise it sets both channels, registers {SIGINT, SIGTERM} and has one forwarder |
| `Fx.TakeOverOutcome` | stopper.go:75-81 | `TakeOver` errs exactly when `trigger` exists, and then returns no channel and changes nothing; otherwise it returns the channel it installs as `trigger` and touches no signal state |
| `Fx.StopOutcome` | stopper.go:64-69 | `stop` returns nil, keeps `trigger`, `signalTrigger` and the forwarder count, unregisters only when `signalTrigger` exists, and repeating it changes nothing |
| `Fx.StoppedOutcome` | stopper.go:71-73 | `stopped` returns the current `trigger` and changes nothing |
| `Fx.TakeOverAndStartAsymmetry` | stopper.go:45-81 | `TakeOver` then `start` makes both calls succeed and no signal channel is made; `start` then `TakeOver` makes `TakeOver` fail and keeps `start`'s channel |
| `Fx.RunKeepsInv` | stopper.go:45-81 | every sequence of calls keeps the invariant, so at most one forwarding goroutine ever exists |
| `Fx.TriggerNeverReassigned` | stopper.go:45-81 | once `trigger` exists, no sequence of calls changes it |
| `Fx.TriggerAssignedAtMostOnce` | stopper.go:45-81 | over any sequence of calls `trigger` is assigned at most once, never when already present, and exactly once iff it goes from absent to present |
| `Fx.AtMostOneTakeOverWins` | stopper.go:75-81 | over any sequence of calls at most one `TakeOver` succeeds, and none does when `trigger` already exists |
| `Fx.OnlyMakersAssign` | stopper.go:64-73 | a sequence of only `stop` and `stopped` calls never changes `trigger` |
| `Fx.TakenOverNeverRelays` | stopper.go:45-62 | after a `TakeOver` on an unstarted stopper, no later call makes a signal channel, registers a signal or spawns a forwarder |
| `Fx.StoppedBeforeMaking` | stopper.go:71-73 | from a new stopper, `stopped` returns nil while no `start` or `TakeOver` has been called |
| `Fx.StoppedAfterTakeOver` | stopper.go:71-81 | every `stopped` after a successful `TakeOver` returns the very channel that `TakeOver` returned |
| `KeyValue.YarpcHandler.constructor` | examples/keyvalue/handers.go:17-19 | a new handler has an empty item map |
| `KeyValue.YarpcHandler.GetValue` | examples/keyvalue/handers.go:21-30 | a present key yields its stored value and no error; an absent key yields "" and ResourceDoesNotExist carrying that key; no state changes |
| `KeyValue.YarpcHandler.SetValue` | examples/keyvalue/handers.go:32-38 | returns no error; afterwards the key maps to the new value, and every other key's presence and value are as before; the new map is `Apply` of the old one and this one write |
| `KeyValue.GetAfterSet` | examples/keyvalue/handers.go:21-37 | a lookup right after `SetValue(k, v)` returns `v` with no error, whether or not `k` was present |
| `KeyValue.SetLeavesOthers` | examples/keyvalue/handers.go:32-37 | `SetValue(k, v)` leaves the lookup of any other key unchanged |
| `KeyValue.LastWriteWins` | examples/keyvalue/handers.go:21-37 | after any sequence of `SetValue` calls, a lookup returns the value last written to the key, or the earlier lookup's reply if no write touched it |

## Left out

- OS signal delivery (`signal.Notify`, `signal.Stop`, `stopper.go:51` and `:66`) is a process-wide facility. It becomes the ghost set `relayed`, so delivery itself is not modelled.
- The forwarding goroutine (`stopper.go:52-60`) is counted by `forwarders` but not executed. Its blocking send into `trigger` is concurrency and has no sequential meaning. Its `sig == nil` exit never fires, because `signal.Stop` does not close the channel. `sig.String()` is a foreign call.
- Channel buffering and receive semantics are not modelled. Channels are identity tokens with a capacity, so what `stopped`'s receiver eventually reads is out of scope.
- The error text of `fmt.Errorf("stopper already started")` is the single value `AlreadyStarted`.
- The `Stopper` interface (`stopper.go:30-32`) only exposes `TakeOver`, and `Reason` (`stopper.go:34`) is only transported. Neither needs a model of its own.
- Fx.Stopper.Start, Fx.Stopper.Stop and Fx.Stopper.TakeOver require `Valid()`: the invariant that every reachable stopper satisfies. Unreachable states, such as a signal channel without `trigger`, are not covered.
- Registration failure during `start` cannot happen in the code, because `signal.Notify` returns nothing, so no failure path is modelled.
- The `sync.RWMutex` in the handler (`handers.go:12`, `22-23`, `33`, `36`) provides mutual exclusion only, which has no meaning in a sequential model.
- The RPC framework types and calls are not modelled: `thrift.ReqMeta`, `thrift.ResMeta`, `kv.New`, `core.Service` and the returned `thrift.Service`. Only the `ResourceDoesNotExist{Key}` exception has a stand-in, `KeyValue.Error`. The constructor models `&YarpcHandler{items: map[string]string{}}` alone.
- Fx.TriggerAssignedAtMostOnce and Fx.AtMostOneTakeOverWins hold only when callers do not race, because calls on one stopper are modelled one at a time. The Go `stopper` has no lock, so two goroutines calling `start` or `TakeOver` at once can both pass the nil test (`stopper.go:46`, `:76`) and both assign `trigger` (`stopper.go:49`, `:79`).
- KeyValue.YarpcHandler.GetValue and KeyValue.YarpcHandler.SetValue take the dereferenced strings. A nil `key` or `value` pointer panics in the source (`handers.go:25`, `:29`, `:35`), and that path is not modelled.
