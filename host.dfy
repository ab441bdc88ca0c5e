/** The host program of main.go: the setup loop that deals the generated
    task ids round-robin onto one queue per worker and registers a file pair
    per id, and the worker loop that hands each id of its queue to the
    guest in order.

    The generated ids and payloads are inputs; the worker count and the
    number of tasks (25 and 100000 in the source) are parameters.
 */
module Host {
  import opened Fs

  // ---------------------------------------------------------------
  // Round-robin shards
  // ---------------------------------------------------------------

  /** The queues after dealing `gen` in order: `workers` queues, the id
      generated at position `i` appended to queue `i % workers`. */
  function RoundRobin(gen: seq<string>, workers: nat): (queues: seq<seq<string>>)
    requires workers > 0
    ensures |queues| == workers
    decreases |gen|
  {
    if gen == [] then seq(workers, _ => [])
    else
      var i := |gen| - 1;
      var queues := RoundRobin(gen[..i], workers);
      queues[i % workers := queues[i % workers] + [gen[i]]]
  }

  /** The ids at positions `k`, `k + workers`, `k + 2 * workers`, ... of `gen`. */
  function Strided(gen: seq<string>, workers: nat, k: nat): seq<string>
    requires workers > 0
    decreases |gen| - k
  {
    if k < |gen| then [gen[k]] + Strided(gen, workers, k + workers) else []
  }

  /** All queues one after the other. */
  function Flatten(queues: seq<seq<string>>): seq<string>
  {
    if queues == [] then [] else queues[0] + Flatten(queues[1..])
  }

  /** Element `t` of a stride is the id at position `k + t * workers`, and
      `t` is an index of the stride exactly when that position exists. */
  lemma {:induction false} StridedAt(gen: seq<string>, workers: nat, k: nat, t: nat)
    requires workers > 0
    ensures t < |Strided(gen, workers, k)| <==> k + t * workers < |gen|
    ensures t < |Strided(gen, workers, k)| ==> Strided(gen, workers, k)[t] == gen[k + t * workers]
    decreases t
  {
    if t > 0 && k < |gen| {
      StridedAt(gen, workers, k + workers, t - 1);
      assert k + workers + (t - 1) * workers == k + t * workers;
    }
  }

  /** Appending an id at position `n` extends the stride that `n` belongs to. */
  lemma {:induction false} StridedSnoc(gen: seq<string>, x: string, workers: nat, k: nat)
    requires workers > 0
    ensures Strided(gen + [x], workers, k) ==
      if k <= |gen| && (|gen| - k) % workers == 0 then Strided(gen, workers, k) + [x]
      else Strided(gen, workers, k)
    decreases |gen| - k
  {
    var g := gen + [x];
    if k == |gen| {
      assert Strided(g, workers, k) == [x] + Strided(g, workers, k + workers);
      DivModUnique(0, workers, 0, 0);
    } else if k + workers <= |gen| {
      StridedSnoc(gen, x, workers, k + workers);
      ModAddDivisor(|gen| - (k + workers), workers);
      assert g[k] == gen[k];
    } else if k < |gen| {
      assert Strided(g, workers, k + workers) == [];
      assert Strided(gen, workers, k + workers) == [];
      DivModUnique(|gen| - k, workers, 0, |gen| - k);
    }
  }

  /** Dealing round-robin gives each queue exactly one stride of the input. */
  lemma {:induction false} RoundRobinIsStrided(gen: seq<string>, workers: nat, k: nat)
    requires workers > 0 && k < workers
    ensures RoundRobin(gen, workers)[k] == Strided(gen, workers, k)
    decreases |gen|
  {
    if gen == [] {
    } else {
      var i := |gen| - 1;
      var prefix := gen[..i];
      assert gen == prefix + [gen[i]];
      RoundRobinIsStrided(prefix, workers, k);
      StridedSnoc(prefix, gen[i], workers, k);
      ModMatch(i, workers, k);
    }
  }

  /** `k <= i` and `workers` divides `i - k` exactly when `i % workers == k`. */
  lemma ModMatch(i: nat, workers: nat, k: nat)
    requires workers > 0 && k < workers
    ensures (k <= i && (i - k) % workers == 0) <==> i % workers == k
  {
    if k <= i && (i - k) % workers == 0 {
      assert i - k == (i - k) / workers * workers;
      DivModUnique(i, workers, (i - k) / workers, k);
    }
    if i % workers == k {
      assert i == i / workers * workers + k;
      DivModUnique(i - k, workers, i / workers, 0);
    }
  }

  /** Adding the divisor leaves the remainder alone. */
  lemma ModAddDivisor(x: nat, w: nat)
    requires w > 0
    ensures (x + w) % w == x % w
  {
    assert x == x / w * w + x % w;
    assert x + w == (x / w + 1) * w + x % w;
    DivModUnique(x + w, w, x / w + 1, x % w);
  }

  /** Quotient and remainder are the only ones: `x == q * w + r` with
      `0 <= r < w` fixes `x / w` and `x % w`. */
  lemma DivModUnique(x: int, w: int, q: int, r: int)
    requires w > 0 && 0 <= r < w && x == q * w + r
    ensures x / w == q && x % w == r
  {
    var q', r' := x / w, x % w;
    assert x == q' * w + r';
    assert (q - q') * w == r' - r;
    if q - q' >= 1 {
      MulAtLeast(q - q', w);
    } else if q' - q >= 1 {
      MulAtLeast(q' - q, w);
    }
  }

  /** A positive multiple of `w` is at least `w`. */
  lemma MulAtLeast(a: int, w: int)
    requires a >= 1 && w > 0
    ensures a * w >= w
  {
  }

  /** Every generated position `i` lands in queue `i % workers`, at index
      `i / workers`. */
  lemma PositionLands(gen: seq<string>, workers: nat, i: nat)
    requires workers > 0 && i < |gen|
    ensures i / workers < |RoundRobin(gen, workers)[i % workers]|
    ensures RoundRobin(gen, workers)[i % workers][i / workers] == gen[i]
  {
    RoundRobinIsStrided(gen, workers, i % workers);
    StridedLands(gen, workers, i);
  }

  /** The same for the strides: position `i` is element `i / workers` of
      stride `i % workers`. */
  lemma StridedLands(gen: seq<string>, workers: nat, i: nat)
    requires workers > 0 && i < |gen|
    ensures i / workers < |Strided(gen, workers, i % workers)|
    ensures Strided(gen, workers, i % workers)[i / workers] == gen[i]
  {
    var q, r := i / workers, i % workers;
    assert r + q * workers == i;
    StridedAt(gen, workers, r, q);
  }

  /** Every queue slot holds the id of exactly one position: slot `t` of
      queue `k` comes from position `k + t * workers`. */
  lemma SlotOrigin(gen: seq<string>, workers: nat, k: nat, t: nat)
    requires workers > 0 && k < workers && t < |RoundRobin(gen, workers)[k]|
    ensures k + t * workers < |gen| && RoundRobin(gen, workers)[k][t] == gen[k + t * workers]
    ensures (k + t * workers) % workers == k && (k + t * workers) / workers == t
  {
    RoundRobinIsStrided(gen, workers, k);
    StridedOrigin(gen, workers, k, t);
  }

  /** The same for the strides. */
  lemma StridedOrigin(gen: seq<string>, workers: nat, k: nat, t: nat)
    requires workers > 0 && k < workers && t < |Strided(gen, workers, k)|
    ensures k + t * workers < |gen| && Strided(gen, workers, k)[t] == gen[k + t * workers]
    ensures (k + t * workers) % workers == k && (k + t * workers) / workers == t
  {
    StridedAt(gen, workers, k, t);
    DivModUnique(k + t * workers, workers, t, k);
  }

  /** Within a queue the ids keep the order in which they were generated:
      a later slot comes from a later position. */
  lemma ShardKeepsOrder(gen: seq<string>, workers: nat, k: nat, t1: nat, t2: nat)
    requires workers > 0 && k < workers
    requires t1 < t2 < |RoundRobin(gen, workers)[k]|
    ensures k + t1 * workers < k + t2 * workers < |gen|
    ensures RoundRobin(gen, workers)[k][t1] == gen[k + t1 * workers]
    ensures RoundRobin(gen, workers)[k][t2] == gen[k + t2 * workers]
  {
    RoundRobinIsStrided(gen, workers, k);
    StridedOrder(gen, workers, k, t1, t2);
  }

  /** The same for the strides. */
  lemma StridedOrder(gen: seq<string>, workers: nat, k: nat, t1: nat, t2: nat)
    requires workers > 0 && t1 < t2 < |Strided(gen, workers, k)|
    ensures k + t1 * workers < k + t2 * workers < |gen|
    ensures Strided(gen, workers, k)[t1] == gen[k + t1 * workers]
    ensures Strided(gen, workers, k)[t2] == gen[k + t2 * workers]
  {
    StridedAt(gen, workers, k, t1);
    StridedAt(gen, workers, k, t2);
    assert t2 * workers == t1 * workers + (t2 - t1) * workers;
  }

  /** Any two queues differ in length by at most one, the lower-numbered
      queue being the longer. */
  lemma ShardsBalanced(gen: seq<string>, workers: nat, k1: nat, k2: nat)
    requires workers > 0 && k1 < k2 < workers
    ensures |RoundRobin(gen, workers)[k2]| <= |RoundRobin(gen, workers)[k1]| <= |RoundRobin(gen, workers)[k2]| + 1
  {
    RoundRobinIsStrided(gen, workers, k1);
    RoundRobinIsStrided(gen, workers, k2);
    StridesBalanced(gen, workers, k1, k2);
  }

  /** The same for the strides. */
  lemma StridesBalanced(gen: seq<string>, workers: nat, k1: nat, k2: nat)
    requires workers > 0 && k1 < k2 < workers
    ensures |Strided(gen, workers, k2)| <= |Strided(gen, workers, k1)| <= |Strided(gen, workers, k2)| + 1
  {
    var n1, n2 := |Strided(gen, workers, k1)|, |Strided(gen, workers, k2)|;
    if n2 > 0 {
      StridedAt(gen, workers, k2, n2 - 1);
      StridedAt(gen, workers, k1, n2 - 1);
    }
    if n1 > 1 {
      StridedAt(gen, workers, k1, n1 - 1);
      StridedAt(gen, workers, k2, n1 - 2);
      assert k2 + (n1 - 2) * workers < k1 + (n1 - 1) * workers;
    }
  }

  /** Appending an id to one queue adds exactly that id to the flattened queues. */
  lemma {:induction false} FlattenAppend(queues: seq<seq<string>>, k: nat, x: string)
    requires k < |queues|
    ensures multiset(Flatten(queues[k := queues[k] + [x]])) == multiset(Flatten(queues)) + multiset{x}
    decreases |queues|
  {
    var updated := queues[k := queues[k] + [x]];
    assert multiset(Flatten(queues)) == multiset(queues[0]) + multiset(Flatten(queues[1..]));
    assert multiset(Flatten(updated)) == multiset(updated[0]) + multiset(Flatten(updated[1..]));
    if k == 0 {
      assert updated[1..] == queues[1..];
      assert multiset(updated[0]) == multiset(queues[0]) + multiset{x};
    } else {
      assert updated[0] == queues[0];
      assert multiset(Flatten(updated[1..])) == multiset(Flatten(queues[1..])) + multiset{x} by {
        assert updated[1..] == queues[1..][k - 1 := queues[1..][k - 1] + [x]];
        FlattenAppend(queues[1..], k - 1, x);
      }
    }
  }


  /** All queues filled with no ids. */
  lemma {:induction false} FlattenEmpty(queues: seq<seq<string>>)
    requires forall k :: 0 <= k < |queues| ==> queues[k] == []
    ensures Flatten(queues) == []
    decreases |queues|
  {
    if queues != [] {
      FlattenEmpty(queues[1..]);
    }
  }

  /** The queues together hold every generated id exactly as often as it was
      generated, so their lengths add up to the number of tasks. */
  lemma {:induction false} RoundRobinPartitions(gen: seq<string>, workers: nat)
    requires workers > 0
    ensures multiset(Flatten(RoundRobin(gen, workers))) == multiset(gen)
    ensures |Flatten(RoundRobin(gen, workers))| == |gen|
    decreases |gen|
  {
    if gen == [] {
      FlattenEmpty(RoundRobin(gen, workers));
    } else {
      var i := |gen| - 1;
      var prefix, x := gen[..i], gen[i];
      var queues := RoundRobin(prefix, workers);
      var k := i % workers;
      assert RoundRobin(gen, workers) == queues[k := queues[k] + [x]];
      assert multiset(Flatten(queues[k := queues[k] + [x]])) == multiset(prefix) + multiset{x} by {
        RoundRobinPartitions(prefix, workers);
        FlattenAppend(queues, k, x);
      }
      assert gen == prefix + [x];
    }
    ghost var flat := Flatten(RoundRobin(gen, workers));
    assert |multiset(flat)| == |flat|;
  }

  // ---------------------------------------------------------------
  // Registration and seed bookkeeping
  // ---------------------------------------------------------------

  /** Ids pairwise different. */
  predicate Distinct(gen: seq<string>) {
    forall i, j :: 0 <= i < j < |gen| ==> gen[i] != gen[j]
  }

  /** `%x` of a non-negative integer: one or more lower-case hex digits. */
  predicate IsHexId(id: string) {
    |id| > 0 && forall c :: c in id ==> c in "0123456789abcdef"
  }

  /** The `seed` map: every assignment overwrites, so the last payload
      generated for an id wins. */
  function SeedPayloads(gen: seq<string>, payloads: seq<seq<byte>>): map<string, seq<byte>>
    requires |gen| == |payloads|
    decreases |gen|
  {
    if gen == [] then map[]
    else
      var i := |gen| - 1;
      SeedPayloads(gen[..i], payloads[..i])[gen[i] := payloads[i]]
  }

  /** The payloads behind the registered read-mode files: Register refuses a
      repeated id and its error is ignored, so the first payload wins. */
  function RegisteredPayloads(gen: seq<string>, payloads: seq<seq<byte>>): map<string, seq<byte>>
    requires |gen| == |payloads|
    decreases |gen|
  {
    if gen == [] then map[]
    else
      var i := |gen| - 1;
      var m := RegisteredPayloads(gen[..i], payloads[..i]);
      if gen[i] in m then m else m[gen[i] := payloads[i]]
  }

  /** Both maps have exactly the generated ids as keys. */
  lemma {:induction false} PayloadKeys(gen: seq<string>, payloads: seq<seq<byte>>)
    requires |gen| == |payloads|
    ensures SeedPayloads(gen, payloads).Keys == set id | id in gen
    ensures RegisteredPayloads(gen, payloads).Keys == set id | id in gen
    decreases |gen|
  {
    if gen != [] {
      var i := |gen| - 1;
      PayloadKeys(gen[..i], payloads[..i]);
      assert gen == gen[..i] + [gen[i]];
    }
  }

  /** For distinct ids the seed and the registered file agree: both hold the
      payload generated with the id. */
  lemma {:induction false} DistinctPayloads(gen: seq<string>, payloads: seq<seq<byte>>, j: nat)
    requires |gen| == |payloads| && Distinct(gen) && j < |gen|
    ensures gen[j] in SeedPayloads(gen, payloads) && SeedPayloads(gen, payloads)[gen[j]] == payloads[j]
    ensures gen[j] in RegisteredPayloads(gen, payloads) && RegisteredPayloads(gen, payloads)[gen[j]] == payloads[j]
    decreases |gen|
  {
    var i := |gen| - 1;
    var prefix := gen[..i];
    PayloadKeys(prefix, payloads[..i]);
    assert forall k :: 0 <= k < i ==> prefix[k] != gen[i];
    assert gen[i] !in prefix;
    if j < i {
      assert Distinct(prefix);
      DistinctPayloads(prefix, payloads[..i], j);
      assert prefix[j] == gen[j];
    }
  }

  /** For distinct ids the seed map is exactly the map of registered
      payloads: same keys, and each id's seed is its read-mode file's payload. */
  lemma {:induction false} DistinctSeedIsRegistered(gen: seq<string>, payloads: seq<seq<byte>>)
    requires |gen| == |payloads| && Distinct(gen)
    ensures SeedPayloads(gen, payloads) == RegisteredPayloads(gen, payloads)
    decreases |gen|
  {
    if gen != [] {
      var i := |gen| - 1;
      var prefix := gen[..i];
      assert Distinct(prefix);
      DistinctSeedIsRegistered(prefix, payloads[..i]);
      PayloadKeys(prefix, payloads[..i]);
      DistinctFresh(gen, i);
    }
  }

  /** The registered payload of an id is the one generated at its first
      occurrence: later registrations of the id are refused. */
  lemma {:induction false} FirstWins(gen: seq<string>, payloads: seq<seq<byte>>, i: nat)
    requires |gen| == |payloads| && i < |gen| && gen[i] !in gen[..i]
    ensures gen[i] in RegisteredPayloads(gen, payloads)
    ensures RegisteredPayloads(gen, payloads)[gen[i]] == payloads[i]
    decreases |gen|
  {
    var last := |gen| - 1;
    var prefix := gen[..last];
    PayloadKeys(prefix, payloads[..last]);
    if i == last {
      assert gen[..i] == prefix;
    } else {
      assert prefix[i] == gen[i] && prefix[..i] == gen[..i];
      FirstWins(prefix, payloads[..last], i);
    }
  }

  /** The seed of an id is the payload generated at its last occurrence:
      every assignment overwrites the one before. */
  lemma {:induction false} LastWins(gen: seq<string>, payloads: seq<seq<byte>>, j: nat)
    requires |gen| == |payloads| && j < |gen| && gen[j] !in gen[j + 1..]
    ensures gen[j] in SeedPayloads(gen, payloads)
    ensures SeedPayloads(gen, payloads)[gen[j]] == payloads[j]
    decreases |gen|
  {
    var last := |gen| - 1;
    var prefix := gen[..last];
    if j < last {
      assert gen[last] in gen[j + 1..] by { assert gen[j + 1..][last - j - 1] == gen[last]; }
      assert prefix[j] == gen[j];
      assert prefix[j + 1..] == gen[j + 1..][..last - j - 1];
      LastWins(prefix, payloads[..last], j);
    }
  }

  /** With a repeated id the two disagree: the seed keeps the payload of the
      last occurrence, the registered file that of the first, so the host
      would compare against a payload the guest never reads. */
  lemma DuplicateIdDiverges(gen: seq<string>, payloads: seq<seq<byte>>, i: nat, j: nat)
    requires |gen| == |payloads| && i < j < |gen| && gen[i] == gen[j]
    requires gen[i] !in gen[..i] && gen[j] !in gen[j + 1..]
    ensures gen[i] in SeedPayloads(gen, payloads) && gen[i] in RegisteredPayloads(gen, payloads)
    ensures SeedPayloads(gen, payloads)[gen[i]] == payloads[j]
    ensures RegisteredPayloads(gen, payloads)[gen[i]] == payloads[i]
    ensures payloads[i] != payloads[j] ==>
      SeedPayloads(gen, payloads)[gen[i]] != RegisteredPayloads(gen, payloads)[gen[i]]
  {
    FirstWins(gen, payloads, i);
    LastWins(gen, payloads, j);
  }

  /** The smallest case: one id generated twice. */
  lemma DuplicatePairDiverges(id: string, first: seq<byte>, second: seq<byte>)
    ensures SeedPayloads([id, id], [first, second])[id] == second
    ensures RegisteredPayloads([id, id], [first, second])[id] == first
  {
    assert [id, id][..0] == [] && [id, id][2..] == [];
    DuplicateIdDiverges([id, id], [first, second], 0, 1);
  }

  /** The registry maps hold, for every generated id, a read-mode file
      named `in` over its registered payload and a write-mode file named
      `out` with a pipe. */
  ghost predicate Seeded(inFiles: map<string, PluginFile>, outFiles: map<string, PluginFile>,
                         registered: map<string, seq<byte>>)
  {
    && inFiles.Keys == outFiles.Keys == registered.Keys
    && (forall id :: id in inFiles ==> InFile(inFiles[id], registered[id]))
    && (forall id :: id in outFiles ==> OutFile(outFiles[id]))
  }

  /** A read-mode file as the setup loop builds it. */
  ghost predicate InFile(f: PluginFile, payload: seq<byte>) {
    f.name == "in" && !f.mode && f.reader == Some(payload) && f.writer == null
  }

  /** A write-mode file as the setup loop builds it. */
  ghost predicate OutFile(f: PluginFile) {
    f.name == "out" && f.mode && f.reader == None && f.writer != null
  }

  /** One more generated id: the queue it is dealt to grows by it. */
  lemma RoundRobinStep(gen: seq<string>, workers: nat, i: nat)
    requires workers > 0 && i < |gen|
    ensures RoundRobin(gen[..i + 1], workers) ==
      RoundRobin(gen[..i], workers)[i % workers := RoundRobin(gen[..i], workers)[i % workers] + [gen[i]]]
  {
    assert gen[..i + 1][..i] == gen[..i];
  }

  /** One more generated id: the seed maps it to its payload. */
  lemma SeedStep(gen: seq<string>, payloads: seq<seq<byte>>, i: nat)
    requires |gen| == |payloads| && i < |gen|
    ensures SeedPayloads(gen[..i + 1], payloads[..i + 1]) == SeedPayloads(gen[..i], payloads[..i])[gen[i] := payloads[i]]
  {
    assert gen[..i + 1][..i] == gen[..i] && payloads[..i + 1][..i] == payloads[..i];
  }

  /** One more generated id: the registered ids gain it. */
  lemma RegisteredStep(gen: seq<string>, payloads: seq<seq<byte>>, i: nat)
    requires |gen| == |payloads| && i < |gen|
    ensures var m := RegisteredPayloads(gen[..i], payloads[..i]);
      RegisteredPayloads(gen[..i + 1], payloads[..i + 1]) == if gen[i] in m then m else m[gen[i] := payloads[i]]
  {
    assert gen[..i + 1][..i] == gen[..i] && payloads[..i + 1][..i] == payloads[..i];
  }

  /** In distinct ids, the id at position `i` does not occur before it. */
  lemma DistinctFresh(gen: seq<string>, i: nat)
    requires Distinct(gen) && i < |gen|
    ensures gen[i] !in gen[..i]
  {
    assert forall k :: 0 <= k < i ==> gen[..i][k] == gen[k];
  }

  /** The prefix of full length is the sequence itself. */
  lemma WholePrefix<T>(s: seq<T>)
    ensures s[..|s|] == s
  {
  }

  /** What the setup loop has recorded after the first `i` ids: the seed
      map, the payloads behind the registered files, and the ids of the
      host's pipe ends, all over the same keys. */
  ghost predicate Recorded(gen: seq<string>, payloads: seq<seq<byte>>, i: nat,
                           seed: map<string, seq<byte>>, registered: map<string, seq<byte>>, ids: map<string, Pipe>)
    requires |gen| == |payloads| && i <= |gen|
  {
    && seed == SeedPayloads(gen[..i], payloads[..i])
    && registered == RegisteredPayloads(gen[..i], payloads[..i])
    && ids.Keys == seed.Keys == registered.Keys
  }

  /** One more id: the seed is overwritten, the registered payloads gain the
      id only when it is new, which it always is when the ids are distinct. */
  lemma RecordedStep(gen: seq<string>, payloads: seq<seq<byte>>, i: nat,
                     seed: map<string, seq<byte>>, registered: map<string, seq<byte>>,
                     ids: map<string, Pipe>, pipe: Pipe)
    requires |gen| == |payloads| && i < |gen|
    requires Recorded(gen, payloads, i, seed, registered, ids)
    ensures Distinct(gen) ==> gen[i] !in registered
    ensures Recorded(gen, payloads, i + 1, seed[gen[i] := payloads[i]],
                     if gen[i] in registered then registered else registered[gen[i] := payloads[i]],
                     ids[gen[i] := pipe])
  {
    SeedStep(gen, payloads, i);
    RegisteredStep(gen, payloads, i);
    if Distinct(gen) {
      PayloadKeys(gen[..i], payloads[..i]);
      DistinctFresh(gen, i);
    }
  }

  /** Inserting a new id's file pair keeps the registry seeded. */
  lemma SeededInsert(inFiles: map<string, PluginFile>, outFiles: map<string, PluginFile>,
                     registered: map<string, seq<byte>>, id: string,
                     fIn: PluginFile, fOut: PluginFile, payload: seq<byte>)
    requires Seeded(inFiles, outFiles, registered) && id !in registered
    requires InFile(fIn, payload) && OutFile(fOut)
    ensures Seeded(inFiles[id := fIn], outFiles[id := fOut], registered[id := payload])
  {
  }

  /** None of the pipes in `ids` has been closed. */
  ghost predicate AllOpen(ids: map<string, Pipe>)
    reads ids.Values
  {
    forall id :: id in ids ==> !ids[id].closed
  }

  /** No two ids share a pipe. */
  ghost predicate Injective(ids: map<string, Pipe>) {
    forall a, b :: a in ids && b in ids && a != b ==> ids[a] != ids[b]
  }

  /** Recording a pipe no id holds yet keeps the pipes unshared. */
  lemma InjectiveInsert(ids: map<string, Pipe>, id: string, pipe: Pipe)
    requires Injective(ids) && pipe !in ids.Values
    ensures Injective(ids[id := pipe])
  {
  }

  /** Each write-mode file is wired to the pipe recorded for its id. */
  ghost predicate Wired(outFiles: map<string, PluginFile>, pipes: map<string, Pipe>) {
    && outFiles.Keys == pipes.Keys
    && forall id :: id in outFiles ==> outFiles[id].writer == pipes[id]
  }

  /** Inserting a write-mode file over `pipe` keeps the files wired. */
  lemma WiredInsert(outFiles: map<string, PluginFile>, pipes: map<string, Pipe>, id: string,
                    fOut: PluginFile, pipe: Pipe)
    requires Wired(outFiles, pipes) && fOut.writer == pipe
    ensures Wired(outFiles[id := fOut], pipes[id := pipe])
  {
  }

  /** Recording an open pipe keeps every recorded pipe open. */
  lemma AllOpenInsert(ids: map<string, Pipe>, id: string, pipe: Pipe)
    requires AllOpen(ids) && !pipe.closed
    ensures AllOpen(ids[id := pipe])
  {
  }

  /** The registry as the setup loop keeps it: paired, seeded with the
      registered payloads and wired to the recorded pipes. */
  ghost predicate Registry(fs: PluginFS, registered: map<string, seq<byte>>, writers: map<string, Pipe>)
    reads fs
  {
    fs.Paired() && Seeded(fs.inFiles, fs.outFiles, registered) && Wired(fs.outFiles, writers)
  }

  /** One registration of the setup loop (main.go:122-135): a fresh pipe,
      and the file pair over the payload and the pipe's writing end handed
      to Register, whose error is ignored. A repeated id leaves the
      registry alone; a new one gains both files. */
  method RegisterStream(fs: PluginFS, id: string, randBytes: seq<byte>,
                        ghost registered: map<string, seq<byte>>, ghost writers: map<string, Pipe>,
                        ghost ids: map<string, Pipe>)
      returns (pipe: Pipe)
    requires Registry(fs, registered, writers)
    requires AllOpen(ids)
    modifies fs
    ensures fresh(pipe)
    ensures AllOpen(ids[id := pipe])
    ensures Registry(fs, if id in registered then registered else registered[id := randBytes],
                     if id in registered then writers else writers[id := pipe])
    ensures id in registered ==> fs.inFiles == old(fs.inFiles) && fs.outFiles == old(fs.outFiles)
  {
    pipe := new Pipe();
    var fIn := new PluginFile("in", Some(randBytes), null, false);
    var fOut := new PluginFile("out", None, pipe, true);
    ghost var inFiles, outFiles := fs.inFiles, fs.outFiles;
    var _ := fs.Register(id, fIn, fOut);
    if id !in registered {
      SeededInsert(inFiles, outFiles, registered, id, fIn, fOut, randBytes);
      WiredInsert(outFiles, writers, id, fOut, pipe);
    }
    AllOpenInsert(ids, id, pipe);
  }

  /** What holds after the setup loop has handled the first `i` ids: the
      queues hold those ids dealt round-robin, the seed, the registered
      payloads and the host's pipe ends are recorded over the same keys,
      the registry holds each registered id's file pair, no pipe is closed,
      and with distinct ids the registry's pipes are exactly `ids`. */
  ghost predicate SetupState(gen: seq<string>, payloads: seq<seq<byte>>, workers: nat, i: nat,
                             fs: PluginFS, queues: array<seq<string>>,
                             ids: map<string, Pipe>, seed: map<string, seq<byte>>,
                             registered: map<string, seq<byte>>, writers: map<string, Pipe>)
    reads fs, queues, ids.Values
  {
    && workers > 0 && |payloads| == |gen| && i <= |gen|
    && queues[..] == RoundRobin(gen[..i], workers)
    && Recorded(gen, payloads, i, seed, registered, ids)
    && Registry(fs, registered, writers)
    && AllOpen(ids)
    && (Distinct(gen) ==> writers == ids)
  }

  /** The queues before any id is dealt (main.go:108-111): `workers` of
      them, each empty. */
  method MakeQueues(workers: nat) returns (queues: array<seq<string>>)
    requires workers > 0
    ensures fresh(queues)
    ensures queues[..] == RoundRobin([], workers)
  {
    queues := new seq<string>[workers];
    for i := 0 to workers
      invariant forall k :: 0 <= k < i ==> queues[k] == []
    {
      queues[i] := [];
    }
  }

  /** The id generated at position `qID` is appended to queue
      `qID % workers` (main.go:115). */
  method Deal(gen: seq<string>, workers: nat, qID: nat, queues: array<seq<string>>)
    requires workers > 0 && qID < |gen|
    requires queues[..] == RoundRobin(gen[..qID], workers)
    modifies queues
    ensures queues[..] == RoundRobin(gen[..qID + 1], workers)
  {
    ghost var before := queues[..];
    queues[qID % workers] := queues[qID % workers] + [gen[qID]];
    assert queues[..] == before[qID % workers := before[qID % workers] + [gen[qID]]];
    RoundRobinStep(gen, workers, qID);
  }

  /** One iteration of the setup loop (main.go:114-138): deal the id
      generated at position `qID` to queue `qID % workers`, register its
      file pair, and record its host pipe end and payload. */
  method SetupStep(gen: seq<string>, payloads: seq<seq<byte>>, workers: nat, qID: nat,
                   pluginFS: PluginFS, queues: array<seq<string>>,
                   ids: map<string, Pipe>, seed: map<string, seq<byte>>,
                   ghost registered: map<string, seq<byte>>, ghost writers: map<string, Pipe>)
      returns (pipe: Pipe, ids': map<string, Pipe>, seed': map<string, seq<byte>>,
               ghost registered': map<string, seq<byte>>, ghost writers': map<string, Pipe>)
    requires qID < |gen|
    requires SetupState(gen, payloads, workers, qID, pluginFS, queues, ids, seed, registered, writers)
    modifies pluginFS, queues
    ensures SetupState(gen, payloads, workers, qID + 1, pluginFS, queues, ids', seed', registered', writers')
    ensures fresh(pipe) && ids' == ids[gen[qID] := pipe]
    ensures Injective(ids) ==> Injective(ids')
  {
    var id := gen[qID];
    Deal(gen, workers, qID, queues);

    var randBytes := payloads[qID];
    ghost var dealt := queues[..];
    pipe := RegisterStream(pluginFS, id, randBytes, registered, writers, ids);
    assert queues[..] == dealt;
    RecordedStep(gen, payloads, qID, seed, registered, ids, pipe);
    if Injective(ids) {
      InjectiveInsert(ids, id, pipe);
    }
    writers' := if id in registered then writers else writers[id := pipe];
    registered' := if id in registered then registered else registered[id := randBytes];
    ids' := ids[id := pipe];
    seed' := seed[id := randBytes];
  }

  /** The loop of main.go:113-139 over all generated ids, from the empty
      queues and the empty registry: every pipe it records is new and no
      two ids share one. */
  method SetupLoop(gen: seq<string>, payloads: seq<seq<byte>>, workers: nat,
                   pluginFS: PluginFS, queues: array<seq<string>>)
      returns (ids: map<string, Pipe>, seed: map<string, seq<byte>>,
               ghost registered: map<string, seq<byte>>, ghost writers: map<string, Pipe>)
    requires SetupState(gen, payloads, workers, 0, pluginFS, queues, map[], map[], map[], map[])
    modifies pluginFS, queues
    ensures SetupState(gen, payloads, workers, |gen|, pluginFS, queues, ids, seed, registered, writers)
    ensures forall id :: id in ids ==> !old(allocated(ids[id]))
    ensures Injective(ids)
  {
    ids, seed, registered, writers := map[], map[], map[], map[];
    var qID := 0;
    for i := 0 to |gen|
      invariant qID == i
      invariant SetupState(gen, payloads, workers, qID, pluginFS, queues, ids, seed, registered, writers)
      invariant forall id :: id in ids ==> !old(allocated(ids[id]))
      invariant Injective(ids)
    {
      var pipe;
      pipe, ids, seed, registered, writers :=
        SetupStep(gen, payloads, workers, qID, pluginFS, queues, ids, seed, registered, writers);
      qID := qID + 1;
    }
  }

  /** The setup of main.go:103-139: make the registry and the queues, then
      for each generated id deal it to a queue, register its file pair
      (ignoring Register's error) and record its own new pipe and payload. */
  method Prepare(gen: seq<string>, payloads: seq<seq<byte>>, workers: nat)
      returns (pluginFS: PluginFS, queues: array<seq<string>>,
               ids: map<string, Pipe>, seed: map<string, seq<byte>>)
    requires workers > 0
    requires |payloads| == |gen|
    ensures fresh(pluginFS) && fresh(queues)
    ensures queues[..] == RoundRobin(gen, workers)
    ensures seed == SeedPayloads(gen, payloads)
    ensures ids.Keys == seed.Keys
    ensures pluginFS.Paired() && Seeded(pluginFS.inFiles, pluginFS.outFiles, RegisteredPayloads(gen, payloads))
    ensures AllOpen(ids)
    ensures Distinct(gen) ==> Seeded(pluginFS.inFiles, pluginFS.outFiles, seed)
    ensures Distinct(gen) ==> forall id :: id in pluginFS.outFiles ==>
      id in ids && pluginFS.outFiles[id].writer == ids[id]
    ensures forall id :: id in ids ==> fresh(ids[id])
    ensures Injective(ids)
  {
    pluginFS := new PluginFS();
    queues := MakeQueues(workers);
    assert gen[..0] == [] && payloads[..0] == [];
    ghost var registered, writers;
    ids, seed, registered, writers := SetupLoop(gen, payloads, workers, pluginFS, queues);
    WholePrefix(gen);
    WholePrefix(payloads);
    if Distinct(gen) {
      DistinctSeedIsRegistered(gen, payloads);
    }
  }

  // ---------------------------------------------------------------
  // Dispatch
  // ---------------------------------------------------------------

  /** Worker `k` (main.go:147-149): the ids it passes to `Do`, one call per
      queue entry, front to back. */
  method RunWorker(queues: array<seq<string>>, k: nat) returns (calls: seq<string>)
    requires k < queues.Length
    ensures calls == queues[k]
  {
    calls := [];
    var queue := queues[k];
    for t := 0 to |queue|
      invariant calls == queue[..t]
    {
      var streamID := queue[t];
      calls := calls + [streamID];
    }
  }

  /** Every id a worker dispatches resolves in the registry built by the
      setup loop: `in/<id>` opens the read-mode file over exactly the
      payload the seed map holds for the id, and `out/<id>` opens a
      write-mode file. */
  lemma DispatchedIdsResolve(fs: PluginFS, gen: seq<string>, payloads: seq<seq<byte>>, workers: nat, k: nat, t: nat)
    requires workers > 0 && |payloads| == |gen|
    requires Distinct(gen) && forall j :: 0 <= j < |gen| ==> IsHexId(gen[j])
    requires Seeded(fs.inFiles, fs.outFiles, RegisteredPayloads(gen, payloads))
    requires k < workers && t < |RoundRobin(gen, workers)[k]|
    ensures var id, seed := RoundRobin(gen, workers)[k][t], SeedPayloads(gen, payloads);
      && id in seed
      && fs.Open("in/" + id).Ok? && InFile(fs.Open("in/" + id).value, seed[id])
      && fs.Open("out/" + id).Ok? && OutFile(fs.Open("out/" + id).value)
  {
    var p := DispatchedPosition(gen, workers, k, t);
    var id := gen[p];
    assert '/' !in id by {
      assert IsHexId(id);
      assert '/' !in "0123456789abcdef";
    }
    DistinctPayloads(gen, payloads, p);
    OpenIn(fs, id);
    OpenOut(fs, id);
  }

  /** Closing the file that `out/<id>` resolves to (fs.go:37-44), as the
      guest does when its task is done, ends exactly that id's stream: its
      pipe is closed and every other recorded pipe stays open. */
  method CloseStream(fs: PluginFS, ids: map<string, Pipe>, id: string) returns (err: Status)
    requires '/' !in id && id in fs.outFiles && OutFile(fs.outFiles[id])
    requires forall x :: x in fs.outFiles ==> x in ids && fs.outFiles[x].writer == ids[x]
    requires Injective(ids) && AllOpen(ids)
    modifies ids.Values
    ensures err == Nil && ids[id].closed
    ensures forall x :: x in ids && x != id ==> !ids[x].closed
  {
    OpenOut(fs, id);
    var f := fs.Open("out/" + id).value;
    err := f.Close();
  }

  /** Some generated position holds the id in slot `t` of queue `k`. */
  lemma DispatchedPosition(gen: seq<string>, workers: nat, k: nat, t: nat) returns (p: nat)
    requires workers > 0 && k < workers && t < |RoundRobin(gen, workers)[k]|
    ensures p < |gen| && gen[p] == RoundRobin(gen, workers)[k][t]
  {
    SlotOrigin(gen, workers, k, t);
    p := k + t * workers;
  }

}
