# wazero-stream-demo: the host's file registry and shard dispatch

The host program streams a payload per task to a WebAssembly guest through a
virtual filesystem. It has two pieces of sequential logic, and this project
models both and proves properties about them.

- **Strings** (`strings.dfy`) models Go's `strings.Split` with a one-character
  separator, together with its inverse `Join`. Empty segments are kept, so a
  string with `n` separators splits into `n + 1` segments. `""` gives `[""]`,
  `"/x"` gives `["", "x"]` and `"in/"` gives `["in", ""]`.
- **Fs** (`fs.dfy`) models fs.go.
  - `PluginFile` is a class. Its fields never change after construction, and
    its metadata is synthetic: size 0, mode 0444, never a directory.
  - `Close` closes the pipe of a write-mode file and always returns nil.
  - `PluginFS` is the registry. It is a class with two maps, `inFiles` and
    `outFiles`, both keyed by task id.
  - `Open` is a function that reads the registry and cannot change it. It
    splits the name on `/`, requires exactly two segments, and dispatches on
    `in` or `out`. The result has three cases: the file, a permission error
    for a malformed name, or a not-found error for an unknown id.
  - `Register` is a check-then-insert. It either adds both files or changes
    nothing and returns `ErrExist`.
  - The source holds a mutex around each registry call. Here each call is one
    atomic step.
  - One `io.Pipe` is one `Pipe` object with a `closed` flag. A write-mode file
    holds the pipe, and the host keeps the same object as its read end.
  - A `bytes.Buffer` reader is its payload, an `Option<seq<byte>>`.
- **Host** (`host.dfy`) models main.go's setup loop and worker loop.
  - `Prepare` creates the registry and `workers` empty queues. It then deals
    the `i`-th generated id onto queue `i % workers`, builds and registers the
    id's file pair, and records the host's pipe end in `ids` and the payload
    in `seed`.
    Each id gets a pipe of its own, newly made, so closing one task's stream
    leaves every other open (`CloseStream`).
  - `RunWorker` gives the ids that worker `k` passes to `Do`, in order.
  - The queues are specified by `RoundRobin`, a function over the generated
    ids. They are related to an independent reference, `Strided` (positions
    `k`, `k + workers`, …).
  - `seed` is specified by `SeedPayloads`, where every assignment overwrites.
    The registered read-mode files are specified by `RegisteredPayloads`.
    Register's error is ignored, so there the first payload for an id wins.
  - The two maps agree when the ids are distinct. With a repeated id they
    disagree: the id is queued twice, registered once with its first payload,
    and seeded with its last (`FirstWins`, `LastWins`,
    `DuplicateIdDiverges`). The pipes diverge too: `ids` keeps the read end of
    the last occurrence's pipe, while the registered write-mode file writes to
    the first occurrence's pipe, so the host would wait on a pipe no registered
    file writes. `Prepare` therefore states the wiring between `ids` and the
    write-mode files only for distinct ids. Ids are random 63-bit integers in
    hex, so such a collision is unlikely. Every property that
    needs unique ids requires `Distinct`.

The generated ids and payloads are inputs to `Prepare`. The worker count and
the task count (25 and 100000 in the source) are parameters: the worker count
is passed in, and the task count is the length of the id sequence.

## Model

| member | source | states |
|---|---|---|
| Strings.SplitSpec | fs.go:71 | `strings.Split` on `/` yields one more segment than the name has `/`s, no segment contains `/`, and joining the segments back with `/` gives the name |
| Strings.SplitJoin | fs.go:71 | Split inverts Join: segments without the separator come back exactly |
| Strings.SplitTwo | fs.go:71-72 | `a/b` with `a` and `b` free of `/` splits into exactly `[a, b]`, the two-segment shape Open accepts |
| Fs.PluginFS.Open | fs.go:68-92 | reads the registry only, so it never changes either map; a name whose `/` count is not one is `ErrPermission`; a returned file is one the registry holds |
| Fs.OpenSpec | fs.go:71-91 | Open is `ErrPermission` exactly when the name is neither `in/<id>` nor `out/<id>` (with `id` free of `/`); otherwise it is the lookup of `id` in the map of that direction |
| Fs.OpenIn | fs.go:77-82 | `Open("in/" + id)` is `inFiles[id]` when the key is present, `ErrNotExist` when it is absent, and `ErrPermission` when `id` holds a `/` |
| Fs.OpenOut | fs.go:83-88 | the same for `Open("out/" + id)` and `outFiles` |
| Fs.OpenUnknownDirection | fs.go:76-91 | two segments with a first segment other than `in` and `out` give `ErrPermission`, never `ErrNotExist` |
| Fs.OpenMalformedExamples | fs.go:71-91 | examples of each malformed shape: `"in"` (one segment), `"in/a/b"` (three) and `""` fail the segment count of fs.go:72-73, and `"x/t"` falls to the default branch of fs.go:89-90; all are permission errors |
| Fs.PluginFS.Register | fs.go:94-106 | returns `ErrExist` and leaves both maps unchanged when the id is a key of either map; otherwise returns nil and sets both entries with every other key unchanged; keeps the two maps' key sets equal |
| Fs.RegisterTwice | fs.go:97-105 | a second registration of an id fails, and Open still resolves the id to the first registration's files |
| Fs.PluginFS.constructor | main.go:103-106 | the registry starts with two empty maps, which have equal key sets |
| Fs.PluginFile.constructor | main.go:125-134 | a file value holds the name, reader, writer and mode it was built with |
| Fs.PluginFile.Close | fs.go:37-44 | closes the pipe exactly for a write-mode file and leaves a read-mode file's writer alone; always returns nil |
| Fs.Pipe.constructor | main.go:122 | a new pipe is open |
| Fs.Pipe.CloseWrite | fs.go:41 | after closing the write end, the pipe is closed |
| Fs.MetadataIsSynthetic | fs.go:27-34 | size 0, not a directory, a regular file (no type bits), permission bits 0444 with no write bit, `Info` is the file itself with a nil error, and `Name` is the stored name |
| Fs.StatIsSelf | fs.go:47-49 | `Stat` returns the file itself with a nil error, so it reports the same size and mode |
| Host.RoundRobinIsStrided | main.go:113-116 | queue `k` after dealing holds exactly the ids at positions `k`, `k + workers`, `k + 2·workers`, … |
| Host.PositionLands | main.go:115 | the id generated at position `i` is element `i / workers` of queue `i % workers` |
| Host.SlotOrigin | main.go:113-116 | every slot `t` of queue `k` holds the id generated at position `k + t·workers`, and that position maps back to queue `k`, slot `t` |
| Host.ShardKeepsOrder | main.go:115 | within a queue, an earlier slot holds an id generated earlier |
| Host.ShardsBalanced | main.go:113-116 | any two queues differ in length by at most one, and the lower-numbered queue is the longer one |
| Host.RoundRobinPartitions | main.go:113-116 | the queues together hold the generated ids as a multiset, so their total length is the number of tasks |
| Host.PayloadKeys | main.go:123-138 | the seed map and the registered ids both have exactly the generated ids as keys |
| Host.DistinctPayloads | main.go:118-138 | for distinct ids, each id's seed and its registered read-mode file both hold the payload generated with it |
| Host.DistinctSeedIsRegistered | main.go:123-138 | for distinct ids the seed map equals the map of registered payloads |
| Host.FirstWins | main.go:123-135 | for any generated ids, an id's registered payload is the one generated at its first occurrence |
| Host.LastWins | main.go:138 | for any generated ids, an id's seed is the payload generated at its last occurrence |
| Host.DuplicateIdDiverges | main.go:123-138 | for an id whose first occurrence is at `i` and last at `j > i`, the seed holds payload `j` and the registry payload `i`, which differ whenever those payloads do |
| Host.DuplicatePairDiverges | main.go:123-138 | the input `[id, id]`: the seed keeps the second payload and the registry the first |
| Host.RecordedStep | main.go:123-138 | one iteration overwrites the seed, adds the id to the registered ids only when it is new (always, for distinct ids), and records the pipe |
| Host.MakeQueues | main.go:108-111 | a new array of `workers` queues, each empty, which is the round-robin dealing of no ids |
| Host.Deal | main.go:115-116 | appending the id at position `qID` to queue `qID % workers` turns the queues for the first `qID` ids into the queues for the first `qID + 1` |
| Host.RegisterStream | main.go:122-135 | a fresh open pipe; a new id gains a file pair over its payload and the pipe, while a repeated id leaves both maps exactly as they were; the registry stays paired, seeded and wired, and no recorded pipe is closed |
| Host.SetupStep | main.go:114-138 | one iteration preserves the setup invariant: round-robin queues, the recorded seed, registered payloads and pipes, the registry's file pairs, and all pipes open; the id is recorded with a newly made pipe, and no two ids share a pipe if none did before |
| Host.SetupLoop | main.go:113-139 | from the empty queues and registry, the setup invariant holds after all generated ids; every recorded pipe was made by the loop, and no two ids share a pipe |
| Host.Prepare | main.go:103-139 | `workers` queues holding the ids dealt round-robin; `seed` is the last-wins payload map and `ids` has the same keys; the registry is paired and holds for each id a read-mode file over its first payload and a write-mode file; for distinct ids the registry is seeded exactly by `seed` and each write-mode file writes to the pipe recorded in `ids`; every pipe in `ids` is newly made, and no two ids share one |
| Host.RunWorker | main.go:147-149 | worker `k` passes exactly `queues[k]` to `Do`, front to back |
| Host.DispatchedIdsResolve | main.go:113-149 | for distinct hex ids, every id a worker dispatches is in `seed`; `in/<id>` opens the read-mode file over `seed[id]`, and `out/<id>` opens a write-mode file |
| Host.CloseStream | fs.go:37-44 | closing the file that `out/<id>` resolves to returns nil and closes that id's pipe while every other recorded pipe stays open |
| Host.DispatchedPosition | main.go:147 | every dispatched id is the id of some generated position |

## Left out

- `New` (main.go:32-69) and `Runtime.Do` (main.go:71-90) are left out. They build the wazero runtime, instantiate the guest and call its exports, which are foreign library calls. `Do` appears only as the sequence of ids passed to it. `Do` panics on a failed guest call (main.go:77, 82, 88), and a panic in a worker goroutine ends the whole process partway through its queue. `RunWorker`'s trace `queues[k]` therefore assumes every call to `Do` returns.
- The goroutines, the two `sync.WaitGroup`s and the timing (main.go:95, 141-173) are left out, because they are about concurrency. Each worker's loop is modelled on its own.
- The `sync.Mutex` of `PluginFS` (fs.go:62, 69-70, 95-96) is not modelled. Each `Open` and `Register` call is one atomic step instead.
- Byte streams are opaque:
  - `PluginFile.Read`/`Write` (fs.go:52-59) only delegate and are not modelled;
  - the bytes in flight through an `io.Pipe` are not modelled;
  - a `bytes.Buffer` is represented by its payload.
- The host's read-back check with `io.ReadAll` and `bytes.Equal` (main.go:156-168) is left out because it is stream I/O.
- Random generation (`rand.Int63`, `rand.Read`, main.go:114, 118-119) is left out. Ids and payloads are inputs.
  - The 4096-byte payload length is not enforced.
  - `IsHexId` states what `%x` of a non-negative `rand.Int63` gives: one or more lower-case hex digits. Open relies only on the id holding no `/`.
- `ModTime` and `Sys` (fs.go:29, 31) return zero values of foreign types and are not modelled.
- The guest, plugin/plugin.go, is not part of this model.
- Logging with `fmt.Println` is not modelled.
- Fs.PluginFile.Close: requires a writer for a write-mode file, because closing a nil writer would be a nil dereference in the source. The host always supplies one.
- Host.SetupLoop: the counter `qID` equals the iteration index only as a loop invariant, not as an ensures, because it is a local variable.
- Go strings are byte strings; names and ids here are `seq<char>`. Nothing is lost: `/` (0x2F) never occurs inside a multi-byte UTF-8 sequence, so splitting on it and comparing keys behave the same on either representation.
