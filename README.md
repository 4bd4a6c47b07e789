# Notification hub — a Dafny model

This project models the in-memory core of a small Go notification service, which lives in `main.go`. Producers POST notifications. The service stamps each one with the next id from a counter, appends it to a list, and pushes it to every connected WebSocket subscriber. A subscriber whose write fails is closed and removed. A timer submits a canned notification every five seconds. Stored notifications can be listed, and can be deleted by id through the path `/notifications/<id>`.

The service keeps its state in three globals: the `notifications` slice, the `nextID` counter (which starts at 1) and the `clients` set. The model turns them into the fields of one class, `NotificationHub.Hub`. Each handler's effect on those fields becomes a method of that class. Each method assumes `Valid()` and re-establishes it. `Valid()` is the class invariant:

- ids in the list strictly increase;
- the ids are positive and below `nextID`;
- a ghost field `issued` holds exactly the ids `1 .. nextID-1` handed out so far, including those of deleted notifications. This field makes "a deleted id is never issued again" something a contract can state.

Files:

- `option.dfy` (module `Options`): the `Option` type used for a payload that may have failed to decode and for a parse that may fail.
- `goint.dfy` (module `GoInt`): Go's 64-bit `int` and its wrapping `++`.
- `strconv.dfy` (module `Strconv`): `strconv.Atoi` as used to parse the id to delete, with `Itoa` as its inverse.
- `notification.dfy` (module `Notifications`): the `Notification` record, the predicates on the stored list, and the splice used by delete.
- `hub.dfy` (module `NotificationHub`): the `Hub` class. Two scenario methods at the end show what a caller can derive from the contracts alone.

`main.go` takes no locks on the shared state. It hands each notification to the broadcaster over an unbuffered channel, and it encodes the live slice when listing. The model follows the code: operations are taken to be atomic, and a broadcast happens right after its append.

## Model

| member | source | states |
|---|---|---|
| `NotificationHub.Hub.constructor` | main.go:20-24 | The process starts with no notifications, `nextID == 1`, no subscribers and no ids issued; the invariant holds. |
| `NotificationHub.Hub.Submit` | main.go:79-81 | The stored record is the payload with its id replaced by the old counter. That id was never issued before and is now. The counter goes up by exactly one. The list becomes the old list plus that one record at the end. Subscribers are unchanged, and the increasing-ids invariant is kept. |
| `NotificationHub.Hub.HandleNotify` | main.go:72-83 | A payload that failed to decode changes nothing and reports invalid JSON. Otherwise the notification is appended with the old counter as its id, and the counter advances. The notification then reaches exactly the subscribers whose send succeeds; those subscribers are also exactly the ones that stay registered. |
| `NotificationHub.Hub.PeriodicTick` | main.go:44-51 | The canned "Periodic Notification" record gets the old counter as its id and is appended; the counter advances. It is delivered to exactly the subscribers whose send succeeds, and only they remain registered. |
| `NotificationHub.Hub.Delete` | main.go:118-125 | Reports found if and only if the old list held the id. If found, the new list is the old one with the first record carrying that id spliced out; the id is then absent, and it stays in the issued set. If not found, the list is unchanged. The counter, the issued ids and the subscribers never change, so a deleted id is never reissued. |
| `NotificationHub.Hub.HandleDelete` | main.go:111-125 | The suffix after `/notifications/` is parsed with `Atoi`. An unparsable suffix gives `InvalidId` and leaves the list unchanged. A parsed id gives `Deleted` exactly when it was stored, in which case the first record carrying it is spliced out, and `NotFound` otherwise, with the list unchanged. The counter and the subscribers are never touched. |
| `NotificationHub.Hub.List` | main.go:99 | Returns the stored notifications in submission order. Their ids are strictly increasing, positive and below the counter. |
| `NotificationHub.Hub.Subscribe` | main.go:139 | The subscriber set gains exactly the new connection; adding one twice is harmless. The store is unchanged. |
| `NotificationHub.Hub.Unsubscribe` | main.go:142-146 | The subscriber set loses exactly that connection, and removing an absent one is a no-op. The store is unchanged. |
| `NotificationHub.Hub.Broadcast` | main.go:151-162 | The notification reaches a client if and only if the client was registered and its send succeeds. Afterwards the registered set is the old set minus exactly the clients whose send failed. No client is added, one failure does not stop delivery to the others, and the store is unchanged. |
| `Notifications.RemoveAt` | main.go:120 | The splice `append(ns[:k], ns[k+1:]...)` is one shorter. It keeps every record before `k` in place and shifts every record after `k` down by one. |
| `Notifications.RemoveAtKeepsOrder` | main.go:118-120 | Splicing one record out of a list with increasing ids keeps the ids increasing and within their bounds. It removes exactly that record's id, and every other id is still present. |
| `Notifications.FirstMatchIsOnlyMatch` | main.go:118-122 | With increasing ids, the first record that matches the id is the only one, so stopping the scan at the first match loses nothing; `Delete` uses it when it splices. |
| `Notifications.AppendKeepsOrder` | main.go:79-81 | Appending a record whose id is greater than every stored id keeps the ids increasing. All ids then lie below that id plus one. |
| `Strconv.Atoi` | main.go:112-115 | The result, when there is one, fits a 64-bit `int`. The empty string and a lone sign are rejected. So is any string with a character other than a digit or a leading sign. |
| `Strconv.AtoiItoa` | main.go:112 | `Atoi` inverts decimal formatting on every 64-bit value, and rejects the spelling of every integer outside that range. |
| `Strconv.AtoiLeadingZeros` | main.go:112 | After no sign, `+` or `-`, any number of leading zeros in front of the digits of `n` parse to `n` (or `-n` after `-`) when that fits a 64-bit `int`, and are rejected otherwise. |
| `GoInt.Increment` | main.go:80 | Go's `nextID++` adds one, except at the largest `int`, where it wraps to the smallest. The result stays in range. |
| `GoInt.CounterAfter` | main.go:22 | The counter as Go keeps it starts at 1 and is incremented once per submission; it always holds a 64-bit value. |
| `GoInt.CounterAfterClosedForm` | main.go:22 | After `k` submissions the Go counter is `1 + k` while that fits, and `1 + k - 2^64` after it wraps. |
| `GoInt.CounterWrapsAndRepeats` | main.go:79-80 | Under Go's arithmetic the submission that follows 2^63 - 1 earlier ones gets id -2^63. After 2^64 submissions, id 1 is handed out again. |

## Left out

- HTTP routing, the request-method checks, status codes and response texts (main.go:33-37, main.go:59-100) are left out. Only the effect on the state is modelled, as `DeleteOutcome` and `NotifyOutcome`. The ping handler (main.go:59-61) has no state.
- JSON decoding and encoding are library calls. A submission arrives as an already-decoded `Option<Notification>`, where `None` means "Invalid json". Listing returns the sequence. The encoder prints `null` for the initial nil slice and `[]` for a slice emptied by deletes; the model does not capture that difference.
- The WebSocket upgrade, the `ReadMessage` loop and `Close` are network I/O. A subscriber is an opaque `ClientId`, and closing is folded into removal.
- Goroutines, the unbuffered `broadcast` channel, the 5-second timer and the unsynchronised access to the globals are left out. Operations are atomic in the model, so the source's data races cannot be stated.
- `NotificationHub.Hub.Broadcast`: each send's outcome is an oracle `sendOk` fixed for the call. The order in which clients are visited is left unspecified, as Go's map iteration order is.
- `NotificationHub.Hub.Submit`: the counter is an unbounded integer. The 64-bit wrap of `nextID++` is modelled separately in `GoInt` (see Findings).
- `Strconv.Atoi` models a 64-bit `int`. On a 32-bit platform Go's range would be narrower.
- Logging, `fmt` output and `ListenAndServe` are side effects only.

## Findings

| source | as written | input that shows it | evidently intended | confidence | as-written member | corrected member |
|---|---|---|---|---|---|---|
| main.go:22 | `nextID` is a 64-bit `int` incremented with `nextID++` and no bound (main.go:49, main.go:80) | the submission after 2^63 - 1 earlier ones is stamped -2^63; after 2^64 submissions id 1 is issued again | ids stay positive, increase, and are never reused | not executed; needs 2^63 submissions, so it cannot happen in practice | `GoInt.CounterWrapsAndRepeats` | `NotificationHub.Hub.Submit` |
