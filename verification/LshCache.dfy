/** The body index of the duplicate check and its bounded cache of built indexes. */
module LshCache {
  import opened Wrappers
  import opened Text
  import Seqs
  import Ratios

  datatype IndexEntry = IndexEntry(jobId: string, title: string, body: string)

  datatype Index = Index(entries: seq<IndexEntry>, siteIndexAvailable: bool)

  /** A MinHash, represented by what determines it: the shingle set and the permutation count. */
  datatype Sig = Sig(shingles: set<string>, numPerm: int)

  datatype Lsh = Lsh(threshold: real, numPerm: int, inserted: map<string, Sig>)

  datatype SigTable = SigTable(byId: map<string, Sig>)

  datatype Built = Built(lsh: Lsh, signatures: SigTable)

  // --- shingles ---

  /** Whitespace-separated words once the characters outside words are blanked out. */
  function Words(a: Alphabet, s: string, word: string): seq<string> {
    if s == [] then (if word == [] then [] else [word])
    else if a.isWord(s[0]) then Words(a, s[1..], word + [s[0]])
    else (if word == [] then [] else [word]) + Words(a, s[1..], [])
  }

  function Tokens(a: Alphabet, text: string): seq<string> { Words(a, Lower(a, text), []) }

  function Shingle(tokens: seq<string>, i: nat, k: nat): string
    requires i + k <= |tokens|
  {
    Join(" ", tokens[i..i + k])
  }

  function Shingles(a: Alphabet, text: string, k: nat): set<string> {
    var tokens := Tokens(a, text);
    if |tokens| < k then (if tokens == [] then {} else {Join(" ", tokens)})
    else set i | 0 <= i <= |tokens| - k :: Shingle(tokens, i, k)
  }

  function ExactJaccard(a: Alphabet, x: string, y: string, k: nat): real {
    var sx, sy := Shingles(a, x, k), Shingles(a, y, k);
    if sx == {} && sy == {} then 1.0
    else if sx == {} || sy == {} then 0.0
    else |sx * sy| as real / |sx + sy| as real
  }

  /** Two shingle sets share at least this much of all they have together; two empty ones everything,
      one empty one nothing. */
  ghost predicate Alike(p: set<string>, q: set<string>, t: real) {
    if p == {} && q == {} then t <= 1.0
    else if p == {} || q == {} then t <= 0.0
    else EnoughOf(|p * q|, |p| + |q| - |p * q|, t)
  }

  ghost predicate EnoughOf(common: int, all: int, t: real) { common as real >= t * all as real }

  lemma AlikeExactlyWhen(p: set<string>, q: set<string>, t: real)
    requires p != {} && q != {}
    ensures |p + q| > 0 && (|p * q| as real / |p + q| as real >= t <==> Alike(p, q, t))
    ensures 0.0 <= |p * q| as real / |p + q| as real <= 1.0
  {
    var x :| x in p;
    assert x in p + q;
    Ratios.UnionSize(p, q);
    Ratios.RatioAtLeast(|p * q|, |p + q|, t);
    Ratios.RatioRange(|p * q|, |p + q|);
  }

  /** The exact similarity of two bodies is a symmetric score in [0, 1]; it reaches a threshold exactly
      when their common shingles are that share of all their shingles. */
  lemma JaccardLaw(a: Alphabet, x: string, y: string, k: nat, t: real)
    ensures ExactJaccard(a, x, y, k) >= t <==> Alike(Shingles(a, x, k), Shingles(a, y, k), t)
    ensures 0.0 <= ExactJaccard(a, x, y, k) <= 1.0
    ensures ExactJaccard(a, x, y, k) == ExactJaccard(a, y, x, k)
  {
    var p, q := Shingles(a, x, k), Shingles(a, y, k);
    assert p * q == q * p && p + q == q + p;
    if p != {} && q != {} {
      AlikeExactlyWhen(p, q, t);
    }
  }

  // --- a fresh build ---

  /** The first nonblank body of an id is inserted, the last one is its signature. */
  function Fresh(a: Alphabet, es: seq<IndexEntry>, threshold: real, numPerm: int, k: nat): Built {
    if es == [] then Built(Lsh(threshold, numPerm, map[]), SigTable(map[]))
    else
      var b := Fresh(a, es[..|es| - 1], threshold, numPerm, k);
      AddEntry(a, b, es[|es| - 1], numPerm, k)
  }

  function AddEntry(a: Alphabet, b: Built, e: IndexEntry, numPerm: int, k: nat): Built {
    if IsBlank(e.body) then b
    else
      var sig := Sig(Shingles(a, e.body, k), numPerm);
      Built(if e.jobId in b.lsh.inserted then b.lsh
            else b.lsh.(inserted := b.lsh.inserted[e.jobId := sig]),
            SigTable(b.signatures.byId[e.jobId := sig]))
  }

  /** What the fingerprint hashes: ids and bodies run together. */
  function Flat(es: seq<IndexEntry>): string {
    if es == [] then [] else Flat(es[..|es| - 1]) + es[|es| - 1].jobId + es[|es| - 1].body
  }

  // --- the cache ---

  datatype Key = Key(fingerprint: string, threshold: real, numPerm: int)

  const CAPACITY := 32

  datatype Call = Call(index: Index, threshold: real, numPerm: int, k: nat)

  function KeyOf(fp: string -> string, c: Call): Key {
    Key(fp(Flat(c.index.entries)), c.threshold, c.numPerm)
  }

  function FreshFor(a: Alphabet, c: Call): Built {
    Fresh(a, c.index.entries, c.threshold, c.numPerm, c.k)
  }

  /** Keys from the least to the most recently used one. */
  datatype Queue = Empty | Oldest(key: Key, later: Queue)

  datatype Lru = Lru(queue: Queue, stored: map<Key, Built>)

  function Without(q: Queue, key: Key): Queue {
    match q
    case Empty => Empty
    case Oldest(k, later) => if k == key then Without(later, key) else Oldest(k, Without(later, key))
  }

  function Append(q: Queue, key: Key): Queue {
    match q
    case Empty => Oldest(key, Empty)
    case Oldest(k, later) => Oldest(k, Append(later, key))
  }

  /** Move a key to the recently used end. */
  function Touch(q: Queue, key: Key): Queue { Append(Without(q, key), key) }

  /** The reference lookup: a hit answers what is stored, a miss builds, drops the least
      recently used key of a full cache, and stores. */
  function Lookup(a: Alphabet, fp: string -> string, c: Lru, call: Call): (Lru, Built) {
    var key := KeyOf(fp, call);
    if key in c.stored then (c.(queue := Touch(c.queue, key)), c.stored[key])
    else
      var built := FreshFor(a, call);
      var full := c.queue.Oldest? && |c.stored| >= CAPACITY;
      var kept := if full then c.queue.later else c.queue;
      var dropped := if full then c.stored - {c.queue.key} else c.stored;
      (Lru(Touch(kept, key), dropped[key := built]), built)
  }

  // --- how the stamps follow the queue ---

  ghost function SetOf(q: Queue): set<Key> {
    match q
    case Empty => {}
    case Oldest(k, later) => {k} + SetOf(later)
  }

  /** Every stamp is smaller than all the stamps later in the queue. */
  ghost predicate Rising(q: Queue, order: map<Key, nat>) {
    match q
    case Empty => true
    case Oldest(k, later) =>
      && k in order
      && (forall key :: key in SetOf(later) ==> key in order && order[k] < order[key])
      && Rising(later, order)
  }

  lemma {:induction false} RisingFrame(q: Queue, order: map<Key, nat>, other: map<Key, nat>)
    requires Rising(q, order)
    requires forall key :: key in SetOf(q) ==> key in other && key in order && other[key] == order[key]
    ensures Rising(q, other)
  {
    if q.Oldest? { RisingFrame(q.later, order, other); }
  }

  lemma {:induction false} WithoutKeeps(q: Queue, order: map<Key, nat>, key: Key)
    requires Rising(q, order)
    ensures SetOf(Without(q, key)) == SetOf(q) - {key}
    ensures Rising(Without(q, key), order)
  {
    if q.Oldest? { WithoutKeeps(q.later, order, key); }
  }

  lemma {:induction false} AppendNewest(q: Queue, order: map<Key, nat>, key: Key)
    requires Rising(q, order) && key !in SetOf(q)
    requires key in order && forall k :: k in SetOf(q) ==> k in order && order[k] < order[key]
    ensures Rising(Append(q, key), order) && SetOf(Append(q, key)) == SetOf(q) + {key}
  {
    if q.Oldest? { AppendNewest(q.later, order, key); }
  }

  /** The three dictionaries have one key set of at most 32 keys, and the stamps, all below
      the counter, rise along the queue. */
  ghost predicate Consistent(lsh: map<Key, Lsh>, sigs: map<Key, SigTable>, order: map<Key, nat>,
                             counter: nat, queue: Queue) {
    && lsh.Keys == sigs.Keys == order.Keys == SetOf(queue)
    && |lsh.Keys| <= CAPACITY
    && (forall key :: key in order ==> order[key] < counter)
    && Rising(queue, order)
  }

  ghost function Together(lsh: map<Key, Lsh>, sigs: map<Key, SigTable>): map<Key, Built> {
    map key | key in lsh && key in sigs :: Built(lsh[key], sigs[key])
  }

  lemma {:induction false} StampsDistinct(q: Queue, order: map<Key, nat>, x: Key, y: Key)
    requires Rising(q, order) && x in SetOf(q) && y in SetOf(q)
    ensures x in order && y in order
    ensures order[x] == order[y] ==> x == y
  {
    if x != q.key && y != q.key { StampsDistinct(q.later, order, x, y); }
  }

  /** The head of the queue has the smallest stamp, and it alone. */
  lemma OldestIsHead(q: Queue, order: map<Key, nat>)
    requires Rising(q, order) && q.Oldest? && order.Keys == SetOf(q)
    ensures q.key in order && forall key :: key in order && key != q.key ==> order[q.key] < order[key]
  {
  }

  /** min over the stamps: it finds the least recently used key. */
  method LeastStamp(order: map<Key, nat>, ghost queue: Queue) returns (oldest: Key)
    requires Rising(queue, order) && queue.Oldest? && order.Keys == SetOf(queue)
    ensures oldest == queue.key
  {
    OldestIsHead(queue, order);
    oldest :| oldest in order && forall key :: key in order ==> order[oldest] <= order[key];
  }

  lemma TogetherKeys(lsh: map<Key, Lsh>, sigs: map<Key, SigTable>)
    requires lsh.Keys == sigs.Keys
    ensures Together(lsh, sigs).Keys == lsh.Keys
    ensures |Together(lsh, sigs)| == |lsh| == |lsh.Keys|
  {
    assert |Together(lsh, sigs)| == |Together(lsh, sigs).Keys|;
  }

  lemma TogetherEvict(lsh: map<Key, Lsh>, sigs: map<Key, SigTable>, key: Key)
    ensures Together(lsh - {key}, sigs - {key}) == Together(lsh, sigs) - {key}
  {
  }

  lemma TogetherStore(lsh: map<Key, Lsh>, sigs: map<Key, SigTable>, key: Key, b: Built)
    ensures Together(lsh[key := b.lsh], sigs[key := b.signatures]) == Together(lsh, sigs)[key := b]
  {
  }

  lemma EvictTables(lsh: map<Key, Lsh>, sigs: map<Key, SigTable>, order: map<Key, nat>,
                    counter: nat, queue: Queue, oldest: Key)
    requires Consistent(lsh, sigs, order, counter, queue) && queue.Oldest? && oldest == queue.key
    ensures Consistent(lsh - {oldest}, sigs - {oldest}, order - {oldest}, counter, queue.later)
    ensures oldest in lsh && |(lsh - {oldest}).Keys| == |lsh.Keys| - 1
  {
    RisingFrame(queue.later, order, order - {oldest});
    assert (lsh - {oldest}).Keys == lsh.Keys - {oldest} == SetOf(queue.later);
    assert (sigs - {oldest}).Keys == sigs.Keys - {oldest};
    assert (order - {oldest}).Keys == order.Keys - {oldest};
  }

  lemma TouchTables(order: map<Key, nat>, counter: nat, queue: Queue, key: Key)
    requires order.Keys == SetOf(queue) && Rising(queue, order)
    requires forall k :: k in order ==> order[k] < counter
    ensures Rising(Touch(queue, key), order[key := counter])
    ensures SetOf(Touch(queue, key)) == SetOf(queue) + {key}
  {
    WithoutKeeps(queue, order, key);
    var order' := order[key := counter];
    RisingFrame(Without(queue, key), order, order');
    AppendNewest(Without(queue, key), order', key);
  }

  lemma StoreTables(lsh: map<Key, Lsh>, sigs: map<Key, SigTable>, order: map<Key, nat>,
                    counter: nat, queue: Queue, key: Key, b: Built)
    requires Consistent(lsh, sigs, order, counter, queue)
    requires key in lsh || |lsh.Keys| < CAPACITY
    ensures Consistent(lsh[key := b.lsh], sigs[key := b.signatures], order[key := counter], counter + 1,
            Touch(queue, key))
  {
    TouchTables(order, counter, queue, key);
    assert lsh[key := b.lsh].Keys == lsh.Keys + {key};
    assert sigs[key := b.signatures].Keys == sigs.Keys + {key};
    assert order[key := counter].Keys == order.Keys + {key};
  }

  class Cache {
    var lshCache: map<Key, Lsh>
    var sigsCache: map<Key, SigTable>
    var order: map<Key, nat>
    var counter: nat
    ghost var queue: Queue
    const alphabet: Alphabet
    const fingerprint: string -> string

    ghost predicate Valid()
      reads this
    {
      Consistent(lshCache, sigsCache, order, counter, queue)
    }

    ghost function Model(): Lru
      reads this
    {
      Lru(queue, Together(lshCache, sigsCache))
    }

    constructor (alphabet: Alphabet, fingerprint: string -> string)
      ensures Valid() && Model() == Lru(Empty, map[])
    {
      this.alphabet, this.fingerprint := alphabet, fingerprint;
      lshCache, sigsCache, order, counter, queue := map[], map[], map[], 0, Empty;
    }

    method Build(call: Call) returns (b: Built)
      ensures b == FreshFor(alphabet, call)
    {
      var es := call.index.entries;
      b := Built(Lsh(call.threshold, call.numPerm, map[]), SigTable(map[]));
      for i := 0 to |es|
        invariant b == Fresh(alphabet, es[..i], call.threshold, call.numPerm, call.k)
      {
        assert es[..i + 1][..i] == es[..i];
        b := AddEntry(alphabet, b, es[i], call.numPerm, call.k);
      }
      assert es[..|es|] == es;
    }

    /** Replace the tables by consistent ones. */
    method Set(lsh: map<Key, Lsh>, sigs: map<Key, SigTable>, stamps: map<Key, nat>, next: nat, ghost later: Queue)
      requires Consistent(lsh, sigs, stamps, next, later)
      modifies this
      ensures Valid() && lshCache == lsh && sigsCache == sigs && counter == next && queue == later
    {
      lshCache, sigsCache, order, counter, queue := lsh, sigs, stamps, next, later;
    }

    /** Evict the key with the smallest stamp: the least recently used one. */
    method Evict()
      requires Valid() && queue.Oldest?
      modifies this
      ensures Valid() && counter == old(counter)
      ensures queue == old(queue).later
      ensures lshCache == old(lshCache) - {old(queue).key} && sigsCache == old(sigsCache) - {old(queue).key}
      ensures |old(lshCache).Keys| == |lshCache.Keys| + 1
    {
      var oldest := LeastStamp(order, queue);
      EvictTables(lshCache, sigsCache, order, counter, queue, oldest);
      Set(lshCache - {oldest}, sigsCache - {oldest}, order - {oldest}, counter, queue.later);
    }

    /** Stamp a key as just used, storing its build. */
    method Use(key: Key, b: Built)
      requires Valid() && (key in lshCache || |lshCache.Keys| < CAPACITY)
      modifies this
      ensures Valid() && queue == Touch(old(queue), key)
      ensures lshCache == old(lshCache)[key := b.lsh] && sigsCache == old(sigsCache)[key := b.signatures]
    {
      StoreTables(lshCache, sigsCache, order, counter, queue, key, b);
      Set(lshCache[key := b.lsh], sigsCache[key := b.signatures], order[key := counter], counter + 1,
        Touch(queue, key));
    }

    method GetOrBuild(call: Call) returns (b: Built)
      requires Valid()
      modifies this
      ensures Valid()
      ensures Model() == Lookup(alphabet, fingerprint, old(Model()), call).0
      ensures b == Lookup(alphabet, fingerprint, old(Model()), call).1
    {
      var key := KeyOf(fingerprint, call);
      TogetherKeys(lshCache, sigsCache);
      if key in lshCache {
        b := Built(lshCache[key], sigsCache[key]);
        HitChangesNothing(lshCache, sigsCache, key);
        Use(key, b);
        return;
      }
      b := Build(call);
      if |lshCache| >= CAPACITY {
        assert SetOf(Empty) == {};
        TogetherEvict(lshCache, sigsCache, queue.key);
        Evict();
      }
      TogetherStore(lshCache, sigsCache, key, b);
      Use(key, b);
    }
  }

  lemma HitChangesNothing(lsh: map<Key, Lsh>, sigs: map<Key, SigTable>, key: Key)
    requires key in lsh && key in sigs
    ensures lsh[key := lsh[key]] == lsh && sigs[key := sigs[key]] == sigs
  {
  }

  // --- when the cache cannot be told from fresh builds ---

  function RunState(a: Alphabet, fp: string -> string, c: Lru, calls: seq<Call>): Lru {
    if calls == [] then c else Lookup(a, fp, RunState(a, fp, c, calls[..|calls| - 1]), calls[|calls| - 1]).0
  }

  /** The answer to the last of a run of calls on an empty cache. */
  function LastAnswer(a: Alphabet, fp: string -> string, calls: seq<Call>): Built
    requires calls != []
  {
    Lookup(a, fp, RunState(a, fp, Lru(Empty, map[]), calls[..|calls| - 1]), calls[|calls| - 1]).1
  }

  ghost predicate Within(calls: seq<Call>, used: Call -> bool) {
    forall i :: 0 <= i < |calls| ==> used(calls[i])
  }

  /** Every run over the calls in use answers like fresh builds. */
  ghost predicate Transparent(a: Alphabet, fp: string -> string, used: Call -> bool) {
    forall calls :: calls != [] && Within(calls, used) ==>
      LastAnswer(a, fp, calls) == FreshFor(a, calls[|calls| - 1])
  }

  /** Calls in use with the same key want the same build. */
  ghost predicate KeysIdentify(a: Alphabet, fp: string -> string, used: Call -> bool) {
    forall c, d :: used(c) && used(d) && KeyOf(fp, c) == KeyOf(fp, d) ==> FreshFor(a, c) == FreshFor(a, d)
  }

  ghost predicate StoredFresh(a: Alphabet, fp: string -> string, used: Call -> bool, c: Lru) {
    forall key :: key in c.stored ==> exists d :: used(d) && KeyOf(fp, d) == key && FreshFor(a, d) == c.stored[key]
  }

  lemma {:induction false} RunStoresFresh(a: Alphabet, fp: string -> string, used: Call -> bool, calls: seq<Call>)
    requires KeysIdentify(a, fp, used) && Within(calls, used)
    ensures StoredFresh(a, fp, used, RunState(a, fp, Lru(Empty, map[]), calls))
  {
    if calls != [] {
      var n := |calls| - 1;
      RunStoresFresh(a, fp, used, calls[..n]);
      assert used(calls[n]);
    }
  }

  /** The cache is transparent exactly when equal keys mean equal builds. */
  lemma TransparentIffKeysIdentify(a: Alphabet, fp: string -> string, used: Call -> bool)
    ensures Transparent(a, fp, used) <==> KeysIdentify(a, fp, used)
  {
    if KeysIdentify(a, fp, used) {
      forall calls | calls != [] && Within(calls, used)
        ensures LastAnswer(a, fp, calls) == FreshFor(a, calls[|calls| - 1])
      {
        LastIsFresh(a, fp, used, calls);
      }
    }
    if Transparent(a, fp, used) {
      forall c, d | used(c) && used(d) && KeyOf(fp, c) == KeyOf(fp, d)
        ensures FreshFor(a, c) == FreshFor(a, d)
      {
        OneBuildPerKey(a, fp, used, c, d);
      }
    }
  }

  lemma LastIsFresh(a: Alphabet, fp: string -> string, used: Call -> bool, calls: seq<Call>)
    requires KeysIdentify(a, fp, used) && calls != [] && Within(calls, used)
    ensures LastAnswer(a, fp, calls) == FreshFor(a, calls[|calls| - 1])
  {
    var n := |calls| - 1;
    RunStoresFresh(a, fp, used, calls[..n]);
    assert used(calls[n]);
  }

  lemma OneBuildPerKey(a: Alphabet, fp: string -> string, used: Call -> bool, c: Call, d: Call)
    requires Transparent(a, fp, used) && used(c) && used(d) && KeyOf(fp, c) == KeyOf(fp, d)
    ensures FreshFor(a, c) == FreshFor(a, d)
  {
    var calls := [c, d];
    assert Within(calls, used);
    SecondAnswer(a, fp, c, d);
    assert LastAnswer(a, fp, calls) == FreshFor(a, calls[|calls| - 1]);
  }

  lemma SecondAnswer(a: Alphabet, fp: string -> string, c: Call, d: Call)
    requires KeyOf(fp, c) == KeyOf(fp, d)
    ensures LastAnswer(a, fp, [c, d]) == FreshFor(a, c)
  {
    var empty: Lru := Lru(Empty, map[]);
    assert [c, d][..1] == [c] && [c][..0] == [];
    assert RunState(a, fp, empty, []) == empty;
    assert RunState(a, fp, empty, [c]) == Lookup(a, fp, empty, c).0;
  }

  /** With one shingle size and fingerprints that identify the index content, it is. */
  lemma FixedSizeIsTransparent(a: Alphabet, fp: string -> string, used: Call -> bool, k: nat)
    requires forall c :: used(c) ==> c.k == k
    requires forall c, d :: used(c) && used(d) && fp(Flat(c.index.entries)) == fp(Flat(d.index.entries)) ==>
               c.index.entries == d.index.entries
    ensures Transparent(a, fp, used)
  {
    TransparentIffKeysIdentify(a, fp, used);
  }

  // --- how many words a shingle has ---

  function Spaces(s: string): nat {
    if s == [] then 0 else Spaces(s[1..]) + if s[0] == ' ' then 1 else 0
  }

  lemma {:induction false} SpacesConcat(s: string, t: string)
    ensures Spaces(s + t) == Spaces(s) + Spaces(t)
    decreases |s|
  {
    if s == [] {
      assert s + t == t;
    } else {
      Seqs.CutConcat(s, t, 0);
      SpacesConcat(s[1..], t);
    }
  }

  /** Words without a space in them. */
  ghost predicate Solid(tokens: seq<string>) {
    forall i :: 0 <= i < |tokens| ==> Spaces(tokens[i]) == 0
  }

  lemma {:induction false} WordsAreSolid(a: Alphabet, s: string, word: string)
    requires !a.isWord(' ') && Spaces(word) == 0
    ensures Solid(Words(a, s, word))
    decreases |s|
  {
    if s != [] {
      if a.isWord(s[0]) {
        SpacesConcat(word, [s[0]]);
        assert [s[0]][1..] == [];
        WordsAreSolid(a, s[1..], word + [s[0]]);
      } else {
        WordsAreSolid(a, s[1..], []);
      }
    }
  }

  /** Joined by spaces, n words have n - 1 of them. */
  lemma {:induction false} JoinedSpaces(tokens: seq<string>)
    requires Solid(tokens) && tokens != []
    ensures Spaces(Join(" ", tokens)) == |tokens| - 1
    decreases |tokens|
  {
    if |tokens| > 1 {
      JoinedSpaces(tokens[1..]);
      SpacesConcat(tokens[0] + " ", Join(" ", tokens[1..]));
      SpacesConcat(tokens[0], " ");
      assert " "[1..] == [];
      assert Spaces(" ") == 1;
    }
  }

  lemma ShingleSpaces(tokens: seq<string>, i: nat, k: nat)
    requires Solid(tokens) && 1 <= k && i + k <= |tokens|
    ensures Spaces(Shingle(tokens, i, k)) == k - 1
  {
    JoinedSpaces(tokens[i..i + k]);
  }

  /** Two shingle sizes give one text the same shingles exactly when it has no more words than
      the smaller one. */
  lemma SameShinglesExactlyWhen(a: Alphabet, text: string, k: nat, m: nat)
    requires !a.isWord(' ') && 1 <= k < m
    ensures Shingles(a, text, k) == Shingles(a, text, m) <==> |Tokens(a, text)| <= k
  {
    var tokens := Tokens(a, text);
    WordsAreSolid(a, Lower(a, text), []);
    if |tokens| == k {
      OneShingle(a, text, k);
    } else if |tokens| > k {
      ShingleSpaces(tokens, 0, k);
      assert Shingle(tokens, 0, k) in Shingles(a, text, k);
      forall x | x in Shingles(a, text, m) ensures Spaces(x) >= k {
        ManyWords(a, text, m, x);
      }
    }
  }

  lemma OneShingle(a: Alphabet, text: string, k: nat)
    requires |Tokens(a, text)| == k >= 1
    ensures Shingles(a, text, k) == {Join(" ", Tokens(a, text))}
  {
    var tokens := Tokens(a, text);
    assert tokens[0..0 + k] == tokens;
    assert Shingle(tokens, 0, k) in Shingles(a, text, k);
  }

  lemma ManyWords(a: Alphabet, text: string, m: nat, x: string)
    requires !a.isWord(' ') && 1 <= m && x in Shingles(a, text, m)
    ensures Spaces(x) + 1 >= if |Tokens(a, text)| < m then |Tokens(a, text)| else m
  {
    var tokens := Tokens(a, text);
    WordsAreSolid(a, Lower(a, text), []);
    if |tokens| < m {
      JoinedSpaces(tokens);
    } else {
      var i :| 0 <= i <= |tokens| - m && Shingle(tokens, i, m) == x;
      ShingleSpaces(tokens, i, m);
    }
  }

  // --- what a build holds ---

  /** The nonblank bodies of an id that count: the first one is inserted, the last one signed. */
  function LastBody(es: seq<IndexEntry>, id: string): Option<string> {
    if es == [] then None
    else
      var e := es[|es| - 1];
      if e.jobId == id && !IsBlank(e.body) then Some(e.body) else LastBody(es[..|es| - 1], id)
  }

  function FirstBody(es: seq<IndexEntry>, id: string): Option<string> {
    if es == [] then None
    else
      var before, e := FirstBody(es[..|es| - 1], id), es[|es| - 1];
      if before.None? && e.jobId == id && !IsBlank(e.body) then Some(e.body) else before
  }

  /** The table holds one signature for every id with a body, of the body that counts. */
  ghost predicate Signs(a: Alphabet, table: map<string, Sig>, of: string -> Option<string>, numPerm: int, k: nat) {
    forall id :: (id in table <==> of(id).Some?)
      && (id in table ==> table[id] == Sig(Shingles(a, of(id).value, k), numPerm))
  }

  function Lasts(es: seq<IndexEntry>): string -> Option<string> { id => LastBody(es, id) }

  function Firsts(es: seq<IndexEntry>): string -> Option<string> { id => FirstBody(es, id) }

  lemma {:induction false} FreshSigns(a: Alphabet, es: seq<IndexEntry>, threshold: real, numPerm: int, k: nat)
    ensures var b := Fresh(a, es, threshold, numPerm, k);
            && Signs(a, b.signatures.byId, Lasts(es), numPerm, k)
            && Signs(a, b.lsh.inserted, Firsts(es), numPerm, k)
            && b.lsh.threshold == threshold && b.lsh.numPerm == numPerm
    decreases |es|
  {
    if es != [] {
      var before, e := es[..|es| - 1], es[|es| - 1];
      FreshSigns(a, before, threshold, numPerm, k);
      var b := Fresh(a, before, threshold, numPerm, k);
      SignsLast(a, b.signatures.byId, Lasts(before), e, Lasts(es), numPerm, k);
      SignsFirst(a, b.lsh.inserted, Firsts(before), e, Firsts(es), numPerm, k);
    }
  }

  lemma SignsLast(a: Alphabet, t: map<string, Sig>, of: string -> Option<string>, e: IndexEntry,
                  next: string -> Option<string>, numPerm: int, k: nat)
    requires Signs(a, t, of, numPerm, k)
    requires forall id :: next(id) == if e.jobId == id && !IsBlank(e.body) then Some(e.body) else of(id)
    ensures Signs(a, if IsBlank(e.body) then t else t[e.jobId := Sig(Shingles(a, e.body, k), numPerm)], next, numPerm,
                  k)
  {
  }

  lemma SignsFirst(a: Alphabet, t: map<string, Sig>, of: string -> Option<string>, e: IndexEntry,
                   next: string -> Option<string>, numPerm: int, k: nat)
    requires Signs(a, t, of, numPerm, k)
    requires forall id :: next(id) == if of(id).None? && e.jobId == id && !IsBlank(e.body) then Some(e.body) else of(id)
    ensures Signs(a, if IsBlank(e.body) || e.jobId in t then t
                     else t[e.jobId := Sig(Shingles(a, e.body, k), numPerm)], next, numPerm, k)
  {
  }

  /** The bodies that count have at most k words. */
  ghost predicate Short(a: Alphabet, of: string -> Option<string>, k: nat) {
    forall id :: of(id).Some? ==> |Tokens(a, of(id).value)| <= k
  }

  lemma SameTablesExactlyWhen(a: Alphabet, t: map<string, Sig>, u: map<string, Sig>, of: string -> Option<string>,
                              numPerm: int, k: nat, m: nat)
    requires !a.isWord(' ') && 1 <= k < m && Signs(a, t, of, numPerm, k) && Signs(a, u, of, numPerm, m)
    ensures t == u <==> Short(a, of, k)
  {
    forall id | of(id).Some? ensures id in t && id in u && (t[id] == u[id] <==> |Tokens(a, of(id).value)| <= k) {
      SameShinglesExactlyWhen(a, of(id).value, k, m);
    }
    assert forall id :: id in t <==> of(id).Some?;
    assert forall id :: id in u <==> of(id).Some?;
    if Short(a, of, k) {
      assert forall id :: id in t ==> t[id] == u[id];
    }
  }

  // --- two calls the key cannot tell apart ---

  /** The key omits the shingle size: the calls of two sizes for one index share it, and mean the
      same exactly when every body that counts has at most as many words as the smaller one. */
  lemma SizesAgreeExactlyWhen(a: Alphabet, fp: string -> string, index: Index, threshold: real, numPerm: int, k: nat,
                              m: nat)
    requires !a.isWord(' ') && 1 <= k < m
    ensures var c, d := Call(index, threshold, numPerm, k), Call(index, threshold, numPerm, m);
            && KeyOf(fp, c) == KeyOf(fp, d)
            && (FreshFor(a, c) == FreshFor(a, d) <==>
                  Short(a, Lasts(index.entries), k) && Short(a, Firsts(index.entries), k))
  {
    var es := index.entries;
    FreshSigns(a, es, threshold, numPerm, k);
    FreshSigns(a, es, threshold, numPerm, m);
    var b, c := Fresh(a, es, threshold, numPerm, k), Fresh(a, es, threshold, numPerm, m);
    SameTablesExactlyWhen(a, b.signatures.byId, c.signatures.byId, Lasts(es), numPerm, k, m);
    SameTablesExactlyWhen(a, b.lsh.inserted, c.lsh.inserted, Firsts(es), numPerm, k, m);
  }

  /** So asking one index for two sizes is never transparent once a body that counts is longer. */
  lemma MixedSizesCollide(a: Alphabet, fp: string -> string, used: Call -> bool, index: Index, threshold: real,
                          numPerm: int, k: nat, m: nat)
    requires !a.isWord(' ') && 1 <= k < m
    requires used(Call(index, threshold, numPerm, k)) && used(Call(index, threshold, numPerm, m))
    requires !(Short(a, Lasts(index.entries), k) && Short(a, Firsts(index.entries), k))
    ensures !Transparent(a, fp, used)
  {
    SizesAgreeExactlyWhen(a, fp, index, threshold, numPerm, k, m);
    TransparentIffKeysIdentify(a, fp, used);
  }

  /** Any two indexes whose ids and bodies run together to the same text share a key, whatever the
      hash: where their builds differ the cache is not transparent. */
  lemma SameFlatCollides(a: Alphabet, fp: string -> string, used: Call -> bool, c: Call, d: Call)
    requires used(c) && used(d) && c.threshold == d.threshold && c.numPerm == d.numPerm
    requires Flat(c.index.entries) == Flat(d.index.entries) && FreshFor(a, c) != FreshFor(a, d)
    ensures !Transparent(a, fp, used)
  {
    assert KeyOf(fp, c) == KeyOf(fp, d);
    TransparentIffKeysIdentify(a, fp, used);
  }

  lemma {:induction false} FlatConcat(es: seq<IndexEntry>, fs: seq<IndexEntry>)
    ensures Flat(es + fs) == Flat(es) + Flat(fs)
    decreases |fs|
  {
    if fs == [] {
      assert es + fs == es;
    } else {
      var n := |fs| - 1;
      FlatConcat(es, fs[..n]);
      assert (es + fs)[..|es| + n] == es + fs[..n] && (es + fs)[|es| + n] == fs[n];
      FlatNext(es, fs[..n], fs[n]);
    }
  }

  lemma FlatNext(es: seq<IndexEntry>, fs: seq<IndexEntry>, e: IndexEntry)
    ensures Flat(es) + Flat(fs) + e.jobId + e.body == Flat(es) + (Flat(fs) + e.jobId + e.body)
  {
  }

  lemma FlatOne(e: IndexEntry)
    ensures Flat([e]) == e.jobId + e.body
  {
    assert [e][..0] == [];
    assert Flat([e]) == [] + e.jobId + e.body;
  }

  lemma {:induction false} LastBodyConcat(es: seq<IndexEntry>, fs: seq<IndexEntry>, id: string)
    ensures LastBody(es + fs, id) == if LastBody(fs, id).Some? then LastBody(fs, id) else LastBody(es, id)
    decreases |fs|
  {
    if fs == [] {
      assert es + fs == es;
    } else {
      var n := |fs| - 1;
      LastBodyConcat(es, fs[..n], id);
      assert (es + fs)[..|es| + n] == es + fs[..n] && (es + fs)[|es| + n] == fs[n];
    }
  }

  lemma LastBodyOne(e: IndexEntry, id: string)
    ensures LastBody([e], id) == if e.jobId == id && !IsBlank(e.body) then Some(e.body) else None
  {
    assert [e][..0] == [];
  }

  lemma LastBodyAmong(before: seq<IndexEntry>, e: IndexEntry, after: seq<IndexEntry>, id: string)
    requires LastBody(before, id).None? && LastBody(after, id).None?
    ensures LastBody(before + [e] + after, id) == if e.jobId == id && !IsBlank(e.body) then Some(e.body) else None
  {
    LastBodyConcat(before + [e], after, id);
    LastBodyConcat(before, [e], id);
    LastBodyOne(e, id);
  }

  lemma FlatAmong(before: seq<IndexEntry>, e: IndexEntry, f: IndexEntry, after: seq<IndexEntry>)
    requires e.jobId + e.body == f.jobId + f.body
    ensures Flat(before + [e] + after) == Flat(before + [f] + after)
  {
    FlatConcat(before + [e], after);
    FlatConcat(before + [f], after);
    FlatConcat(before, [e]);
    FlatConcat(before, [f]);
    FlatOne(e);
    FlatOne(f);
  }

  /** And there are such pairs around every index: move the boundary between the id and the body of
      one entry, and the two builds differ as soon as the longer id is not signed already. */
  lemma RunTogetherIndexesCollide(a: Alphabet, fp: string -> string, used: Call -> bool,
                                  before: seq<IndexEntry>, e: IndexEntry, f: IndexEntry, after: seq<IndexEntry>,
                                  moved: string, threshold: real, numPerm: int, k: nat)
    requires moved != [] && f.jobId == e.jobId + moved && e.body == moved + f.body && !IsBlank(f.body)
    requires LastBody(before, f.jobId).None? && LastBody(after, f.jobId).None?
    requires used(Call(Index(before + [e] + after, true), threshold, numPerm, k))
    requires used(Call(Index(before + [f] + after, true), threshold, numPerm, k))
    ensures !Transparent(a, fp, used)
  {
    var es, fs := before + [e] + after, before + [f] + after;
    Seqs.ConcatAssoc(e.jobId, moved, f.body);
    FlatAmong(before, e, f, after);
    LastBodyAmong(before, e, after, f.jobId);
    LastBodyAmong(before, f, after, f.jobId);
    FreshSigns(a, es, threshold, numPerm, k);
    FreshSigns(a, fs, threshold, numPerm, k);
    assert Lasts(es)(f.jobId).None? && Lasts(fs)(f.jobId).Some?;
    SameFlatCollides(a, fp, used, Call(Index(es, true), threshold, numPerm, k),
                     Call(Index(fs, true), threshold, numPerm, k));
  }
}
