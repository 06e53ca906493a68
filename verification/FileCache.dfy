/**
 * The cache of mapped files: a map, the order its keys were last used in, and the bytes it pins. What it
 * keeps is told here from the history alone: the keys ever used, latest first, and the file last inserted
 * under each.
 */
module FileCache {
  import opened Bytes

  datatype File = File(content: int, size: nat)

  const MAX_ENTRIES: nat := 256
  const MAX_BYTES: nat := 0x400_0000

  // --- Orders of keys ---

  function Without(keys: seq<string>, key: string): seq<string>
  {
    if keys == [] then []
    else (if keys[0] == key then [] else [keys[0]]) + Without(keys[1..], key)
  }

  predicate Distinct(keys: seq<string>) { keys == [] || (keys[0] !in keys[1..] && Distinct(keys[1..])) }

  function Front(keys: seq<string>, key: string): seq<string> { [key] + Without(keys, key) }

  /** The keys of a history of uses, the one used last in front. */
  function Recency(uses: seq<string>): seq<string>
  {
    if uses == [] then [] else Front(Recency(uses[..|uses| - 1]), uses[|uses| - 1])
  }

  lemma {:induction false} WithoutHas(keys: seq<string>, key: string)
    ensures forall k :: k in Without(keys, key) <==> k in keys && k != key
  {
    if keys != [] {
      WithoutHas(keys[1..], key);
      assert keys == [keys[0]] + keys[1..];
    }
  }

  lemma {:induction false} WithoutDistinct(keys: seq<string>, key: string)
    requires Distinct(keys)
    ensures Distinct(Without(keys, key)) && Distinct(Front(keys, key))
  {
    WithoutHas(keys, key);
    if keys != [] {
      WithoutDistinct(keys[1..], key);
      WithoutHas(keys[1..], key);
      var w := Without(keys[1..], key);
      if keys[0] != key {
        assert Without(keys, key)[1..] == w;
      } else {
        assert Without(keys, key) == w;
      }
    }
    assert Front(keys, key)[1..] == Without(keys, key);
  }

  /** Taking a key out of an order takes it out of every beginning of it. */
  lemma {:induction false} WithoutPrefix(keys: seq<string>, all: seq<string>, key: string)
    requires keys <= all
    ensures Without(keys, key) <= Without(all, key)
  {
    if keys != [] {
      WithoutPrefix(keys[1..], all[1..], key);
    }
  }

  lemma {:induction false} DistinctPrefix(keys: seq<string>, n: nat)
    requires Distinct(keys) && n <= |keys|
    ensures Distinct(keys[..n])
    ensures n < |keys| ==> keys[n] !in keys[..n]
  {
    if n > 0 {
      DistinctPrefix(keys[1..], n - 1);
      assert keys[..n][1..] == keys[1..][..n - 1];
      assert keys[..n] == [keys[0]] + keys[1..][..n - 1];
    }
  }

  // --- Sizes ---

  function Size(entries: map<string, File>, key: string): nat
  {
    if key in entries then entries[key].size else 0
  }

  function Total(entries: map<string, File>, keys: seq<string>): nat
  {
    if keys == [] then 0 else Total(entries, keys[..|keys| - 1]) + Size(entries, keys[|keys| - 1])
  }

  lemma {:induction false} TotalFront(entries: map<string, File>, keys: seq<string>)
    requires keys != []
    ensures Total(entries, keys) == Size(entries, keys[0]) + Total(entries, keys[1..])
  {
    var n := |keys| - 1;
    if n > 0 {
      TotalFront(entries, keys[..n]);
      assert keys[..n][1..] == keys[1..][..n - 1];
    } else {
      assert keys[1..] == [] && keys[..0] == [];
    }
  }

  lemma {:induction false} TotalWithout(entries: map<string, File>, keys: seq<string>, key: string)
    requires Distinct(keys)
    ensures Total(entries, Without(keys, key)) == Total(entries, keys) - if key in keys then Size(entries, key) else 0
  {
    if keys != [] {
      TotalFront(entries, keys);
      TotalWithout(entries, keys[1..], key);
      assert keys == [keys[0]] + keys[1..];
      var w := Without(keys, key);
      if keys[0] != key {
        assert w[1..] == Without(keys[1..], key);
        TotalFront(entries, w);
      } else {
        assert w == Without(keys[1..], key);
      }
    }
  }

  lemma {:induction false} TotalSame(a: map<string, File>, b: map<string, File>, keys: seq<string>)
    requires forall k :: k in keys ==> Size(a, k) == Size(b, k)
    ensures Total(a, keys) == Total(b, keys)
  {
    if keys != [] {
      var n := |keys| - 1;
      assert keys[n] in keys;
      assert forall k :: k in keys[..n] ==> k in keys;
      TotalSame(a, b, keys[..n]);
    }
  }

  lemma {:induction false} TotalPrefix(entries: map<string, File>, keys: seq<string>, n: nat)
    requires n <= |keys|
    ensures Total(entries, keys[..n]) <= Total(entries, keys)
  {
    if n < |keys| {
      TotalPrefix(entries, keys[..|keys| - 1], n);
      assert keys[..|keys| - 1][..n] == keys[..n];
    } else {
      assert keys[..n] == keys;
    }
  }

  predicate Fits(entries: map<string, File>, keys: seq<string>)
  {
    |keys| <= 1 || (|keys| <= MAX_ENTRIES && Total(entries, keys) <= MAX_BYTES)
  }

  /** `kept` is all of `keys` from the front that fits: one more would not, nor any number more. */
  predicate Longest(entries: map<string, File>, kept: seq<string>, keys: seq<string>)
  {
    && kept <= keys && Fits(entries, kept) && (keys != [] ==> kept != [])
    && forall n :: |kept| < n <= |keys| ==> !Fits(entries, keys[..n])
  }

  lemma LongestFromNext(entries: map<string, File>, kept: seq<string>, keys: seq<string>)
    requires Narrowed(entries, kept, keys) && Fits(entries, kept)
    ensures Longest(entries, kept, keys)
  {
    forall n | |kept| < n <= |keys| ensures !Fits(entries, keys[..n]) {
      TotalPrefix(entries, keys[..n], |kept| + 1);
      assert keys[..n][..|kept| + 1] == keys[..|kept| + 1];
    }
  }

  // --- The cache ---

  /** What a client of the cache sees: entries in order of use. */
  datatype View = View(entries: map<string, File>, lru: seq<string>)

  /** The order holds each key of the map once, and nothing else. */
  ghost predicate Keyed(entries: map<string, File>, lru: seq<string>)
  {
    Distinct(lru) && forall k :: k in lru <==> k in entries
  }

  ghost predicate Consistent(v: View) { Keyed(v.entries, v.lru) && Fits(v.entries, v.lru) }

  function Only(entries: map<string, File>, keys: seq<string>): map<string, File>
  {
    map k | k in entries && k in keys :: entries[k]
  }

  lemma OnlyShorter(entries: map<string, File>, keys: seq<string>)
    requires Distinct(keys) && keys != []
    ensures var n := |keys| - 1; Only(entries, keys[..n]) == Only(entries, keys) - {keys[n]}
  {
    var n := |keys| - 1;
    DistinctPrefix(keys, n);
    assert keys == keys[..n] + [keys[n]];
  }

  lemma UpdateRemoved(entries: map<string, File>, key: string, file: File)
    ensures (entries - {key})[key := file] == entries[key := file]
  {
  }

  lemma OnlyTotal(entries: map<string, File>, keys: seq<string>)
    ensures Total(Only(entries, keys), keys) == Total(entries, keys)
    ensures Fits(Only(entries, keys), keys) == Fits(entries, keys)
  {
    TotalSame(Only(entries, keys), entries, keys);
  }

  /** On the way there: a beginning of the order, and all that is longer is too much. */
  predicate Narrowed(entries: map<string, File>, kept: seq<string>, keys: seq<string>)
  {
    kept != [] && kept <= keys && (|kept| < |keys| ==> !Fits(entries, keys[..|kept| + 1]))
  }

  lemma Narrower(entries: map<string, File>, kept: seq<string>, keys: seq<string>)
    requires Narrowed(entries, kept, keys) && !Fits(entries, kept)
    ensures Narrowed(entries, kept[..|kept| - 1], keys)
  {
    assert keys[..|kept|] == kept;
  }

  /** What the cache holds after a file is inserted: the longest run of the new order that fits. */
  predicate Inserted(before: View, key: string, file: File, after: View)
  {
    var all := before.entries[key := file];
    && Longest(all, after.lru, Front(before.lru, key))
    && after.entries == Only(all, after.lru)
  }

  /** Every entry is the file last inserted under its key. */
  ghost predicate Agrees(entries: map<string, File>, latest: map<string, File>)
  {
    forall k :: k in entries ==> k in latest && latest[k] == entries[k]
  }

  /** The map, its order and the bytes it pins agree with each other and with the history. */
  ghost predicate Good(v: View, bytes: nat, uses: seq<string>, latest: map<string, File>)
  {
    && Consistent(v) && bytes == Total(v.entries, v.lru)
    && v.lru <= Recency(uses)
    && Agrees(v.entries, latest)
  }

  lemma GoodTouched(v: View, bytes: nat, uses: seq<string>, latest: map<string, File>, key: string)
    requires Good(v, bytes, uses, latest) && key in v.entries
    ensures Good(v.(lru := Front(v.lru, key)), bytes, uses + [key], latest)
  {
    RecencyFront(v.lru, uses, key);
    FrontKeyed(v.entries, v.lru, key);
  }

  lemma AgreesKept(entries: map<string, File>, latest: map<string, File>, key: string, file: File, keys: seq<string>)
    requires Agrees(entries, latest)
    ensures Agrees(Only(entries[key := file], keys), latest[key := file])
  {
  }

  lemma PrefixTransitive(a: seq<string>, b: seq<string>, c: seq<string>)
    requires a <= b && b <= c
    ensures a <= c
  {
  }

  class Cache {
    var entries: map<string, File>
    var lru: seq<string>
    var bytes: nat
    ghost var uses: seq<string>
    ghost var latest: map<string, File>

    ghost function Held(): View
      reads this
    {
      View(entries, lru)
    }

    ghost predicate Valid()
      reads this
    {
      Good(Held(), bytes, uses, latest)
    }

    constructor ()
      ensures Valid() && Held() == View(map[], []) && uses == [] && latest == map[]
    {
      entries, lru, bytes := map[], [], 0;
      uses, latest := [], map[];
    }

    /** A hit is the file last inserted under the key, and now the most recently used. */
    method Lookup(key: string) returns (hit: Option<File>)
      requires Valid()
      modifies this
      ensures Valid() && entries == old(entries) && bytes == old(bytes) && latest == old(latest)
      ensures hit.Some? <==> key in old(entries)
      ensures hit.Some? ==> key in latest && hit.value == latest[key]
      ensures hit.Some? ==> lru == Front(old(lru), key) && uses == old(uses) + [key]
      ensures hit.None? ==> lru == old(lru) && uses == old(uses)
    {
      if key !in entries {
        return None;
      }
      GoodTouched(Held(), bytes, uses, latest, key);
      lru := Front(lru, key);
      uses := uses + [key];
      hit := Some(entries[key]);
    }

    /** An entry that is replaced goes first, with its place in the order and its bytes. */
    method Remove(key: string)
      requires Consistent(Held()) && bytes == Total(entries, lru)
      modifies this`entries, this`lru, this`bytes
      ensures entries == old(entries) - {key} && lru == Without(old(lru), key)
      ensures bytes == Total(entries, lru)
      ensures Keyed(entries, lru)
    {
      if key in entries {
        WithoutKeyed(entries, lru, key);
        bytes := bytes - entries[key].size;
        lru := Without(lru, key);
        entries := entries - {key};
      } else {
        WithoutAbsent(lru, key);
      }
    }

    /** The new entry comes first, whatever else is still there. */
    method Add(key: string, file: File)
      requires Keyed(entries, lru) && bytes == Total(entries, lru) && key !in entries
      modifies this`entries, this`lru, this`bytes
      ensures entries == old(entries)[key := file] && lru == [key] + old(lru) && bytes == Total(entries, lru)
      ensures Keyed(entries, lru)
    {
      bytes := bytes + file.size;
      lru := [key] + lru;
      entries := entries[key := file];
      assert lru[1..] == old(lru);
      TotalFront(entries, lru);
      TotalSame(old(entries), entries, old(lru));
    }

    method Replace(key: string, file: File)
      requires Consistent(Held()) && bytes == Total(entries, lru)
      modifies this`entries, this`lru, this`bytes
      ensures entries == old(entries)[key := file] && lru == Front(old(lru), key) && bytes == Total(entries, lru)
      ensures Keyed(entries, lru)
    {
      UpdateRemoved(entries, key, file);
      Remove(key);
      Add(key, file);
    }

    /** Drops the least recently used entry. */
    method EvictOne()
      requires Keyed(entries, lru) && lru != [] && bytes == Total(entries, lru)
      modifies this`entries, this`lru, this`bytes
      ensures lru == old(lru)[..|old(lru)| - 1] && bytes == Total(entries, lru)
      ensures entries == old(entries) - {old(lru)[|old(lru)| - 1]}
      ensures Keyed(entries, lru)
    {
      var n := |lru| - 1;
      var victim := lru[n];
      DistinctPrefix(lru, n);
      assert lru == lru[..n] + [victim];
      bytes := bytes - entries[victim].size;
      entries := entries - {victim};
      lru := lru[..n];
      TotalSame(old(entries), entries, lru);
    }

    /** Evicts from the back until the rest fits, and no further. */
    method Shrink()
      requires Keyed(entries, lru) && lru != [] && bytes == Total(entries, lru)
      modifies this`entries, this`lru, this`bytes
      ensures Consistent(Held()) && bytes == Total(entries, lru)
      ensures Longest(old(entries), lru, old(lru))
      ensures entries == Only(old(entries), lru)
    {
      ghost var all, keys := entries, lru;
      assert entries == Only(all, lru);
      while OverBudget()
        invariant Keyed(entries, lru) && bytes == Total(entries, lru)
        invariant entries == Only(all, lru) && Narrowed(all, lru, keys)
        decreases |lru|
      {
        OnlyShorter(all, lru);
        OnlyTotal(all, lru);
        Narrower(all, lru, keys);
        EvictOne();
      }
      OnlyTotal(all, lru);
      LongestFromNext(all, lru, keys);
    }

    predicate OverBudget()
      reads this
      requires Keyed(entries, lru) && bytes == Total(entries, lru)
      ensures OverBudget() == !Fits(entries, lru)
    {
      SameSize(lru, entries);
      |entries| > 1 && (|entries| > MAX_ENTRIES || bytes > MAX_BYTES)
    }

    /** The new entry is kept, in front; as much of the rest follows as fits, in the order of its last use. */
    method Insert(key: string, file: File)
      requires Valid()
      modifies this
      ensures Valid() && Inserted(old(Held()), key, file, Held())
      ensures key in entries && lru[0] == key
      ensures uses == old(uses) + [key] && latest == old(latest)[key := file]
    {
      RecencyFront(lru, uses, key);
      Store(key, file);
      PrefixTransitive(lru, Front(old(lru), key), Recency(uses + [key]));
      AgreesKept(old(entries), latest, key, file, lru);
      uses := uses + [key];
      latest := latest[key := file];
    }

    method Store(key: string, file: File)
      requires Consistent(Held()) && bytes == Total(entries, lru)
      modifies this`entries, this`lru, this`bytes
      ensures Consistent(Held()) && bytes == Total(entries, lru)
      ensures Inserted(old(Held()), key, file, Held())
      ensures key in entries && lru != [] && lru[0] == key
    {
      Replace(key, file);
      Shrink();
      assert lru[0] == key && lru[0] in lru;
    }
  }

  /** Bringing a key to the front changes neither what is there nor what it adds up to. */
  lemma FrontKeyed(entries: map<string, File>, lru: seq<string>, key: string)
    requires Consistent(View(entries, lru)) && key in entries
    ensures Consistent(View(entries, Front(lru, key))) && Total(entries, Front(lru, key)) == Total(entries, lru)
  {
    WithoutHas(lru, key);
    WithoutDistinct(lru, key);
    WithoutLength(lru, key);
    TotalWithout(entries, lru, key);
    var f := Front(lru, key);
    assert f[1..] == Without(lru, key);
    TotalFront(entries, f);
  }

  lemma WithoutKeyed(entries: map<string, File>, lru: seq<string>, key: string)
    requires Keyed(entries, lru) && key in entries
    ensures Keyed(entries - {key}, Without(lru, key))
    ensures Total(entries - {key}, Without(lru, key)) == Total(entries, lru) - entries[key].size
  {
    WithoutHas(lru, key);
    WithoutDistinct(lru, key);
    TotalWithout(entries, lru, key);
    TotalSame(entries - {key}, entries, Without(lru, key));
  }

  /** The order of the cache stays a beginning of the order of the whole history. */
  lemma RecencyFront(lru: seq<string>, uses: seq<string>, key: string)
    requires lru <= Recency(uses)
    ensures Front(lru, key) <= Recency(uses + [key])
  {
    assert (uses + [key])[..|uses|] == uses;
    WithoutPrefix(lru, Recency(uses), key);
  }

  lemma {:induction false} WithoutLength(keys: seq<string>, key: string)
    requires Distinct(keys)
    ensures |Without(keys, key)| == |keys| - if key in keys then 1 else 0
  {
    if keys != [] {
      WithoutLength(keys[1..], key);
      assert keys == [keys[0]] + keys[1..];
    }
  }

  lemma {:induction false} WithoutAbsent(keys: seq<string>, key: string)
    requires key !in keys
    ensures Without(keys, key) == keys
  {
    if keys != [] {
      WithoutAbsent(keys[1..], key);
    }
  }

  lemma {:induction false} SameSize(keys: seq<string>, entries: map<string, File>)
    requires Keyed(entries, keys)
    ensures |entries| == |keys|
  {
    if keys != [] {
      var less := entries - {keys[0]};
      assert keys == [keys[0]] + keys[1..];
      SameSize(keys[1..], less);
      assert entries == less[keys[0] := entries[keys[0]]];
    } else {
      assert entries == map[];
    }
  }

  // --- What the specification says ---

  /** An insertion leaves no choice about what is kept. */
  lemma InsertedUnique(before: View, key: string, file: File, a: View, b: View)
    requires Inserted(before, key, file, a) && Inserted(before, key, file, b)
    ensures a == b
  {
    var keys := Front(before.lru, key);
    assert keys[..|a.lru|] == a.lru && keys[..|b.lru|] == b.lru;
  }

  /** It keeps within 256 files and 64 MiB, or the new one alone; and one more of the others would be over either. */
  lemma InsertedBudgets(before: View, key: string, file: File, after: View)
    requires Inserted(before, key, file, after)
    ensures var all := before.entries[key := file];
      var keys := Front(before.lru, key);
      && after.lru != [] && after.lru[0] == key && after.lru <= keys
      && (|after.lru| == 1 || (|after.lru| <= 256 && Total(all, after.lru) <= 64 * 1024 * 1024))
      && (after.lru != keys ==>
            var more := keys[..|after.lru| + 1]; |more| > 256 || Total(all, more) > 64 * 1024 * 1024)
      && forall k :: k in after.entries <==> k in all && k in after.lru
  {
    var keys := Front(before.lru, key);
    assert after.lru[0] == keys[0];
    if after.lru != keys {
      assert !Fits(before.entries[key := file], keys[..|after.lru| + 1]);
    }
  }

  function LastUse(uses: seq<string>, key: string): int
  {
    if uses == [] then -1
    else if uses[|uses| - 1] == key then |uses| - 1
    else LastUse(uses[..|uses| - 1], key)
  }

  /** From the front, each key was last used after all the keys behind it. */
  ghost predicate Descending(uses: seq<string>, keys: seq<string>)
  {
    keys == [] ||
    (Descending(uses, keys[1..]) && forall k :: k in keys[1..] ==> LastUse(uses, keys[0]) > LastUse(uses, k))
  }

  lemma LastUseBelow(uses: seq<string>, key: string)
    ensures -1 <= LastUse(uses, key) < |uses| && (LastUse(uses, key) >= 0 <==> key in uses)
  {
    if uses != [] {
      LastUseBelow(uses[..|uses| - 1], key);
      assert uses == uses[..|uses| - 1] + [uses[|uses| - 1]];
    }
  }

  lemma LastUseSnoc(uses: seq<string>, x: string, k: string)
    ensures LastUse(uses + [x], k) == if k == x then |uses| else LastUse(uses, k)
  {
    assert (uses + [x])[..|uses|] == uses;
  }

  lemma {:induction false} DescendingWithout(uses: seq<string>, keys: seq<string>, x: string)
    requires Descending(uses, keys)
    ensures Descending(uses + [x], Without(keys, x))
  {
    if keys != [] {
      DescendingWithout(uses, keys[1..], x);
      var w, rest := Without(keys, x), Without(keys[1..], x);
      WithoutHas(keys[1..], x);
      if keys[0] == x {
        assert w == rest;
      } else {
        assert w[1..] == rest && w[0] == keys[0];
        LastUseSnoc(uses, x, keys[0]);
        forall k | k in rest ensures LastUse(uses + [x], keys[0]) > LastUse(uses + [x], k) {
          LastUseSnoc(uses, x, k);
        }
      }
    }
  }

  /** The reference order is the order of last use, each key once, and no key that was never used. */
  lemma {:induction false} RecencyIsByLastUse(uses: seq<string>)
    ensures Descending(uses, Recency(uses)) && Distinct(Recency(uses))
    ensures forall k :: k in Recency(uses) <==> k in uses
  {
    if uses != [] {
      var n := |uses| - 1;
      var was, x := uses[..n], uses[n];
      assert uses == was + [x];
      RecencyIsByLastUse(was);
      WithoutHas(Recency(was), x);
      WithoutDistinct(Recency(was), x);
      DescendingWithout(was, Recency(was), x);
      var r := Recency(uses);
      assert r[0] == x && r[1..] == Without(Recency(was), x);
      LastUseSnoc(was, x, x);
      forall k | k in r[1..] ensures LastUse(uses, k) < n {
        LastUseSnoc(was, x, k);
        LastUseBelow(was, k);
      }
    }
  }
}
