/** Which builds the bounded cache holds after any run of calls. */
module LruLaws {
  import opened Text
  import opened LshCache
  import Seqs

  /** The keys asked for, one after another. */
  function KeysOf(fp: string -> string, calls: seq<Call>): seq<Key> {
    seq(|calls|, i requires 0 <= i < |calls| => KeyOf(fp, calls[i]))
  }

  /** The other keys asked for since this one was last asked for. */
  function Since(keys: seq<Key>, key: Key): set<Key> {
    if keys == [] || keys[|keys| - 1] == key then {} else Since(keys[..|keys| - 1], key) + {keys[|keys| - 1]}
  }

  lemma {:induction false} SinceMeans(keys: seq<Key>, key: Key, k: Key)
    ensures k in Since(keys, key) <==>
            exists j :: 0 <= j < |keys| && keys[j] == k && forall i :: j <= i < |keys| ==> keys[i] != key
  {
    if keys != [] {
      var n := |keys| - 1;
      SinceMeans(keys[..n], key, k);
      if keys[n] != key {
        if j :| 0 <= j < n && keys[..n][j] == k && forall i :: j <= i < n ==> keys[..n][i] != key {
          assert keys[j] == k && forall i :: j <= i < |keys| ==> keys[i] != key;
        }
        if j :| 0 <= j < n && keys[j] == k && forall i :: j <= i < |keys| ==> keys[i] != key {
          assert keys[..n][j] == k && forall i :: j <= i < n ==> keys[..n][i] != key;
        }
      }
    }
  }

  // --- the queue ---

  ghost predicate NoRepeat(q: Queue) {
    match q case Empty => true case Oldest(k, later) => k !in SetOf(later) && NoRepeat(later)
  }

  /** The keys used more recently than this one. */
  ghost function Behind(q: Queue, key: Key): set<Key> {
    match q case Empty => {} case Oldest(k, later) => if k == key then SetOf(later) else Behind(later, key)
  }

  lemma {:induction false} BehindIsLess(q: Queue, key: Key)
    requires NoRepeat(q) && key in SetOf(q)
    ensures Behind(q, key) <= SetOf(q) - {key}
  {
    if q.key != key { BehindIsLess(q.later, key); }
  }

  lemma {:induction false} WithoutIs(q: Queue, gone: Key)
    requires NoRepeat(q)
    ensures NoRepeat(Without(q, gone)) && SetOf(Without(q, gone)) == SetOf(q) - {gone}
    ensures forall key :: key != gone ==> Behind(Without(q, gone), key) == Behind(q, key) - {gone}
  {
    if q.Oldest? { WithoutIs(q.later, gone); }
  }

  lemma {:induction false} AppendIs(q: Queue, newest: Key)
    requires NoRepeat(q) && newest !in SetOf(q)
    ensures NoRepeat(Append(q, newest)) && SetOf(Append(q, newest)) == SetOf(q) + {newest}
    ensures Behind(Append(q, newest), newest) == {}
    ensures forall key :: key in SetOf(q) ==> Behind(Append(q, newest), key) == Behind(q, key) + {newest}
  {
    if q.Oldest? { AppendIs(q.later, newest); }
  }

  lemma TouchIs(q: Queue, key: Key)
    requires NoRepeat(q)
    ensures NoRepeat(Touch(q, key)) && SetOf(Touch(q, key)) == SetOf(q) + {key} && Behind(Touch(q, key), key) == {}
    ensures forall k :: k in SetOf(q) && k != key ==> Behind(Touch(q, key), k) == Behind(q, k) + {key}
  {
    WithoutIs(q, key);
    AppendIs(Without(q, key), key);
  }

  // --- what it keeps ---

  /** A key in the queue has behind it what was used since; a key is gone only when 32 others were. */
  ghost predicate Placed(q: Queue, keys: seq<Key>, k: Key) {
    && (k in SetOf(q) ==> k in keys && Behind(q, k) == Since(keys, k))
    && (k in keys && k !in SetOf(q) ==> |Since(keys, k)| >= 32)
  }

  ghost predicate Tracks(q: Queue, keys: seq<Key>) {
    NoRepeat(q) && |SetOf(q)| <= 32 && forall k :: Placed(q, keys, k)
  }

  lemma SinceGrows(keys: seq<Key>, key: Key, k: Key)
    ensures Since(keys + [key], k) == if k == key then {} else Since(keys, k) + {key}
    ensures |Since(keys + [key], k)| >= |Since(keys, k)| || k == key
  {
    assert (keys + [key])[..|keys|] == keys;
    if k != key { Seqs.SubsetSize(Since(keys, k), Since(keys, k) + {key}); }
  }

  /** A key that is there, or for which there is room. */
  lemma TouchTracks(q: Queue, keys: seq<Key>, key: Key)
    requires Tracks(q, keys) && (key in SetOf(q) || |SetOf(q)| < 32)
    ensures Tracks(Touch(q, key), keys + [key])
  {
    TouchIs(q, key);
    if key in SetOf(q) { assert SetOf(q) + {key} == SetOf(q); }
    forall k ensures Placed(Touch(q, key), keys + [key], k) {
      assert Placed(q, keys, k);
      TouchPlaces(q, keys, key, k);
    }
  }

  lemma TouchPlaces(q: Queue, keys: seq<Key>, key: Key, k: Key)
    requires NoRepeat(q) && Placed(q, keys, k)
    ensures Placed(Touch(q, key), keys + [key], k)
  {
    TouchIs(q, key);
    SinceGrows(keys, key, k);
  }

  lemma OldestIsBehindAll(q: Queue)
    requires NoRepeat(q) && q.Oldest?
    ensures SetOf(q.later) == SetOf(q) - {q.key} == Behind(q, q.key)
    ensures |SetOf(q.later)| == |SetOf(q)| - 1
    ensures forall k :: k != q.key ==> Behind(q, k) == Behind(q.later, k)
  {
    assert SetOf(q) == {q.key} + SetOf(q.later);
  }

  /** The oldest key makes room for a new one: 32 others were used since. */
  lemma EvictTracks(q: Queue, keys: seq<Key>, key: Key)
    requires Tracks(q, keys) && key !in SetOf(q) && |SetOf(q)| == 32 && q.Oldest?
    ensures Tracks(Touch(q.later, key), keys + [key])
  {
    OldestIsBehindAll(q);
    TouchIs(q.later, key);
    OneMore(SetOf(q.later), key);
    forall k ensures Placed(Touch(q.later, key), keys + [key], k) {
      EvictPlaces(q, keys, key, k);
    }
  }

  lemma EvictPlaces(q: Queue, keys: seq<Key>, key: Key, k: Key)
    requires NoRepeat(q) && Placed(q, keys, k) && key !in SetOf(q) && |SetOf(q)| == 32 && q.Oldest?
    ensures Placed(Touch(q.later, key), keys + [key], k)
  {
    OldestIsBehindAll(q);
    TouchIs(q.later, key);
    SinceGrows(keys, key, k);
    if k == q.key { OneMore(SetOf(q.later), key); }
  }

  lemma OneMore(s: set<Key>, key: Key)
    requires key !in s
    ensures |s + {key}| == |s| + 1
  {
  }

  /** What is stored is what the queue tracks. */
  ghost predicate Holds(c: Lru, keys: seq<Key>) { c.stored.Keys == SetOf(c.queue) && Tracks(c.queue, keys) }

  lemma {:induction false} RunTracks(a: Alphabet, fp: string -> string, calls: seq<Call>)
    ensures Holds(RunState(a, fp, Lru(Empty, map[]), calls), KeysOf(fp, calls))
  {
    if calls != [] {
      var n := |calls| - 1;
      RunTracks(a, fp, calls[..n]);
      LookupTracks(a, fp, RunState(a, fp, Lru(Empty, map[]), calls[..n]), KeysOf(fp, calls[..n]), calls[n]);
      KeysNext(fp, calls, n);
    }
  }

  lemma KeysNext(fp: string -> string, calls: seq<Call>, n: nat)
    requires |calls| == n + 1
    ensures KeysOf(fp, calls) == KeysOf(fp, calls[..n]) + [KeyOf(fp, calls[n])]
  {
  }

  lemma LookupTracks(a: Alphabet, fp: string -> string, c: Lru, keys: seq<Key>, call: Call)
    requires Holds(c, keys)
    ensures Holds(Lookup(a, fp, c, call).0, keys + [KeyOf(fp, call)])
  {
    var key := KeyOf(fp, call);
    assert |c.stored| == |c.stored.Keys|;
    if key in c.stored {
      HitHolds(c, keys, key);
    } else if |c.stored| < 32 {
      RoomHolds(c, keys, key, FreshFor(a, call));
    } else {
      assert c.queue.Oldest?;
      FullHolds(c, keys, key, FreshFor(a, call));
    }
  }

  lemma HitHolds(c: Lru, keys: seq<Key>, key: Key)
    requires Holds(c, keys) && key in c.stored
    ensures Holds(c.(queue := Touch(c.queue, key)), keys + [key])
  {
    TouchTracks(c.queue, keys, key);
    TouchIs(c.queue, key);
  }

  lemma RoomHolds(c: Lru, keys: seq<Key>, key: Key, b: Built)
    requires Holds(c, keys) && |SetOf(c.queue)| < 32
    ensures Holds(Lru(Touch(c.queue, key), c.stored[key := b]), keys + [key])
  {
    TouchTracks(c.queue, keys, key);
    TouchIs(c.queue, key);
  }

  lemma FullHolds(c: Lru, keys: seq<Key>, key: Key, b: Built)
    requires Holds(c, keys) && key !in c.stored && |SetOf(c.queue)| == 32 && c.queue.Oldest?
    ensures Holds(Lru(Touch(c.queue.later, key), (c.stored - {c.queue.key})[key := b]), keys + [key])
  {
    EvictTracks(c.queue, keys, key);
    TouchIs(c.queue.later, key);
    OldestIsBehindAll(c.queue);
  }

  /** After any run of calls on an empty cache a build is held exactly when its key was asked for and
      fewer than 32 other keys were asked for since. */
  lemma HeldExactlyWhen(a: Alphabet, fp: string -> string, calls: seq<Call>, key: Key)
    ensures key in RunState(a, fp, Lru(Empty, map[]), calls).stored <==>
            key in KeysOf(fp, calls) && |Since(KeysOf(fp, calls), key)| < 32
  {
    RunTracks(a, fp, calls);
    var c := RunState(a, fp, Lru(Empty, map[]), calls);
    assert Placed(c.queue, KeysOf(fp, calls), key);
    if key in c.stored {
      BehindIsLess(c.queue, key);
      Seqs.SubsetSize(Behind(c.queue, key), SetOf(c.queue) - {key});
    }
  }
}
