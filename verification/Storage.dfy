/** Listing, deleting and hashing objects a page, a batch, a chunk at a time
    (src/storage/storage.service.ts). */
module Storage {
  import opened Common
  import opened Sorting

  const DELETE_BATCH: nat := 1_000
  const MAX_LIST: nat := 10_000

  predicate Under(key: string, prefix: string) { |prefix| <= |key| && key[..|prefix|] == prefix }

  /** The keys under a prefix, in the bucket's order. */
  function KeysUnder(objects: seq<string>, prefix: string): (r: seq<string>)
    ensures forall k :: k in r <==> k in objects && Under(k, prefix)
  {
    if objects == [] then []
    else
      var rest := KeysUnder(objects[1..], prefix);
      if Under(objects[0], prefix) then [objects[0]] + rest else rest
  }

  /** The bucket without some keys. */
  function Without(objects: seq<string>, keys: set<string>): (r: seq<string>)
    ensures forall k :: k in r <==> k in objects && k !in keys
    ensures |r| <= |objects|
  {
    if objects == [] then []
    else if objects[0] in keys then Without(objects[1..], keys)
    else [objects[0]] + Without(objects[1..], keys)
  }

  lemma {:induction false} WithoutNothing(objects: seq<string>)
    ensures Without(objects, {}) == objects
  {
    if objects != [] {
      WithoutNothing(objects[1..]);
    }
  }

  lemma {:induction false} WithoutMore(objects: seq<string>, a: set<string>, b: set<string>)
    ensures Without(Without(objects, a), b) == Without(objects, a + b)
  {
    if objects != [] {
      WithoutMore(objects[1..], a, b);
    }
  }

  /** Taking a key of the bucket away makes it smaller. */
  lemma {:induction false} WithoutShrinks(objects: seq<string>, keys: set<string>, k: string)
    requires k in objects && k in keys
    ensures |Without(objects, keys)| < |objects|
  {
    if objects[0] !in keys {
      WithoutShrinks(objects[1..], keys, k);
    }
  }

  function Clamp(maxKeys: int): nat { if maxKeys < 1 then 1 else if maxKeys > MAX_LIST then MAX_LIST else maxKeys }

  function FirstKeys(keys: seq<string>, n: nat): seq<string> { if |keys| <= n then keys else keys[..n] }

  /** The prefix as a directory. */
  function Slashed(prefix: string): string { if prefix != "" && prefix[|prefix| - 1] == '/' then prefix else prefix + "/" }

  function Elements(keys: seq<string>): set<string> { set k | k in keys }

  // ------------------------------------------------------------------ what these mean

  /** `sub` is what is left of `all` when elements are crossed out. */
  ghost predicate Subsequence(sub: seq<string>, all: seq<string>) {
    sub == [] || (all != [] && ((sub[0] == all[0] && Subsequence(sub[1..], all[1..])) || Subsequence(sub, all[1..])))
  }

  /** The keys under a prefix are those that begin with it, in their order; a listing gives the first of them, one at
      least and ten thousand at most. */
  lemma {:induction false} ListingExactly(objects: seq<string>, prefix: string, maxKeys: int)
    ensures var all := KeysUnder(objects, prefix); var r := FirstKeys(all, Clamp(maxKeys));
            && (forall k :: k in all <==> k in objects && exists rest :: k == prefix + rest)
            && Subsequence(all, objects) && (forall k :: multiset(all)[k] == if k in all then multiset(objects)[k] else 0)
            && r == all[..|r|]
            && |r| == Lesser(|all|, if maxKeys < 1 then 1 else Lesser(maxKeys, 10000))
  {
    StartsExactly(prefix);
    UnderIsSub(objects, prefix);
    hide KeysUnder, Under, Subsequence;
  }

  function Lesser(m: nat, n: nat): nat { if m < n then m else n }

  lemma StartsExactly(prefix: string)
    ensures forall k :: Under(k, prefix) <==> exists rest :: k == prefix + rest
  {
    forall k | Under(k, prefix) ensures exists rest :: k == prefix + rest {
      assert k == prefix + k[|prefix|..];
    }
  }

  lemma {:induction false} UnderIsSub(objects: seq<string>, prefix: string)
    ensures Subsequence(KeysUnder(objects, prefix), objects)
    ensures forall k :: multiset(KeysUnder(objects, prefix))[k] == if k in KeysUnder(objects, prefix) then multiset(objects)[k] else 0
  {
    if objects != [] {
      var rest := KeysUnder(objects[1..], prefix);
      UnderIsSub(objects[1..], prefix);
      assert objects == [objects[0]] + objects[1..];
      assert ([objects[0]] + rest)[1..] == rest;
      hide Under;
    }
  }

  /** A directory ends with a slash, and one that does already stays. */
  lemma SlashedExactly(prefix: string)
    ensures var d := Slashed(prefix); d != "" && d[|d| - 1] == '/' && (d == prefix || d == prefix + "/") && Slashed(d) == d
    ensures prefix != "" && prefix[|prefix| - 1] == '/' ==> Slashed(prefix) == prefix
  {
  }

  // ------------------------------------------------------------------ hashing

  datatype Digest = Unavailable | Missing | TooLarge | Digest(sizeBytes: nat, sha256: int)

  /** The chunks of a response body. */
  type Body = seq<seq<int>>

  function Concat(chunks: seq<seq<int>>): seq<int> { if chunks == [] then [] else chunks[0] + Concat(chunks[1..]) }

  lemma {:induction false} ConcatAppend(chunks: seq<seq<int>>, last: seq<int>)
    ensures Concat(chunks + [last]) == Concat(chunks) + last
  {
    if chunks == [] {
      assert chunks + [last] == [last];
    } else {
      assert (chunks + [last])[1..] == chunks[1..] + [last];
      ConcatAppend(chunks[1..], last);
    }
  }

  lemma {:induction false} PrefixNoLonger(chunks: seq<seq<int>>, n: nat)
    requires n <= |chunks|
    ensures |Concat(chunks[..n])| <= |Concat(chunks)|
  {
    if n > 0 {
      assert chunks[..n][1..] == chunks[1..][..n - 1];
      PrefixNoLonger(chunks[1..], n - 1);
    }
  }

  // ------------------------------------------------------------------ the bucket

  class ObjectStorage {
    /** The bucket's keys, in order. */
    var objects: seq<string>
    /** Keys the provider refuses to delete at the moment. */
    const stuck: set<string>
    /** How many keys, beyond one, the provider puts in a page that starts at an offset. */
    const pageSize: nat -> nat
    var available: bool

    constructor (objects: seq<string>, stuck: set<string>, pageSize: nat -> nat)
      ensures this.objects == objects && this.stuck == stuck && this.pageSize == pageSize && available
    {
      this.objects := objects;
      this.stuck := stuck;
      this.pageSize := pageSize;
      available := true;
    }

    /** ListObjectsV2: at most `max` keys from the offset of the continuation token on, and at least
        one if there are any. */
    method ListPage(prefix: string, offset: nat, max: nat) returns (page: seq<string>, truncated: bool)
      requires offset <= |KeysUnder(objects, prefix)| && max > 0
      ensures |page| <= max && offset + |page| <= |KeysUnder(objects, prefix)|
      ensures page == KeysUnder(objects, prefix)[offset..offset + |page|]
      ensures truncated <==> offset + |page| < |KeysUnder(objects, prefix)|
      ensures truncated ==> page != []
    {
      var all := KeysUnder(objects, prefix);
      var n := 1 + pageSize(offset);
      if n > max { n := max; }
      if n > |all| - offset { n := |all| - offset; }
      return all[offset..offset + n], offset + n < |all|;
    }

    /** listObjectKeys: exactly the first keys, up to the bound, whatever pages the provider makes;
        nothing while storage is unavailable. */
    method ListObjectKeys(prefix: string, maxKeys: int) returns (r: Option<seq<string>>)
      ensures r == if available then Some(FirstKeys(KeysUnder(objects, prefix), Clamp(maxKeys))) else None
    {
      if !available { return None; }
      var boundedMax := Clamp(maxKeys);
      ghost var all := KeysUnder(objects, prefix);
      var keys: seq<string> := [];
      var more := true;
      while more
        invariant |keys| <= |all| && keys == all[..|keys|] && |keys| <= boundedMax
        invariant more ==> |keys| < boundedMax
        invariant !more ==> |keys| == boundedMax || |keys| == |all|
        decreases |all| - |keys|, more
      {
        var remaining := boundedMax - |keys|;
        var page, truncated := ListPage(prefix, |keys|, if remaining < 1_000 then remaining else 1_000);
        assert all[..|keys|] + page == all[..|keys| + |page|];
        keys := keys + page;
        more := |keys| < boundedMax && truncated;
      }
      assert all[..|all|] == all;
      return Some(keys);
    }

    /** DeleteObjects: the keys that are not stuck go; an error is reported if one was. */
    method DeleteBatch(batch: seq<string>) returns (ok: bool)
      requires |batch| <= DELETE_BATCH
      modifies this`objects
      ensures objects == Without(old(objects), Elements(batch) - stuck)
      ensures ok <==> Elements(batch) !! stuck
    {
      objects := Without(objects, Elements(batch) - stuck);
      ok := forall k :: k in batch ==> k !in stuck;
    }

    /** deleteObjects: batches of a thousand, until one reports an error, after which storage counts as
        unavailable; nothing while it does. */
    method DeleteObjects(keys: seq<string>) returns (ok: bool)
      modifies this`objects, this`available
      ensures ok <==> old(available) && Elements(keys) !! stuck
      ensures ok ==> objects == Without(old(objects), Elements(keys)) && available
      ensures !ok ==> !available && forall k :: k in objects ==> k in old(objects)
      ensures !old(available) ==> objects == old(objects)
      ensures forall k :: k in old(objects) && k !in keys ==> k in objects
    {
      if !available { return false; }
      ghost var start := objects;
      WithoutNothing(start);
      var offset := 0;
      assert Elements(keys[..0]) == {};
      while offset < |keys|
        invariant objects == Without(start, Elements(keys[..if offset < |keys| then offset else |keys|]))
        invariant Elements(keys[..if offset < |keys| then offset else |keys|]) !! stuck
        invariant available
        decreases |keys| - offset
      {
        var end := if offset + DELETE_BATCH < |keys| then offset + DELETE_BATCH else |keys|;
        assert keys[..end] == keys[..offset] + keys[offset..end];
        assert Elements(keys[..end]) == Elements(keys[..offset]) + Elements(keys[offset..end]);
        WithoutMore(start, Elements(keys[..offset]), Elements(keys[offset..end]) - stuck);
        ok := DeleteBatch(keys[offset..end]);
        if !ok {
          available := false;
          assert forall k :: k in Elements(keys[offset..end]) ==> k in Elements(keys);
          return;
        }
        assert Elements(keys[offset..end]) - stuck == Elements(keys[offset..end]);
        offset := offset + DELETE_BATCH;
      }
      assert keys[..|keys|] == keys;
      return true;
    }

    /** deleteObjectPrefix: it ends, and it ends well exactly when storage is available and nothing under
        the prefix is stuck; then the prefix is empty, and the rest of the bucket as before. */
    method DeleteObjectPrefix(objectPrefix: string) returns (ok: bool)
      modifies this`objects, this`available
      ensures ok ==> KeysUnder(objects, Slashed(objectPrefix)) == []
      ensures ok <==> old(available) && forall k :: k in old(objects) && Under(k, Slashed(objectPrefix)) ==> k !in stuck
      ensures available == ok
      ensures forall k :: k in objects ==> k in old(objects)
      ensures forall k :: k in old(objects) && !Under(k, Slashed(objectPrefix)) ==> k in objects
    {
      ghost var start := objects;
      var prefix := Slashed(objectPrefix);
      while true
        invariant forall k :: k in objects ==> k in start
        invariant forall k :: k in start && !Under(k, prefix) ==> k in objects
        invariant forall k :: k in start && k !in objects ==> k !in stuck
        invariant available == old(available)
        decreases |objects|
      {
        var found := ListObjectKeys(prefix, 1_000);
        if found.None? { return false; }
        var keys := found.value;
        if |keys| == 0 { break; }
        assert keys[0] in KeysUnder(objects, prefix);
        WithoutShrinks(objects, Elements(keys), keys[0]);
        ghost var before := objects;
        assert forall k :: k in keys ==> k in KeysUnder(before, prefix);
        ok := DeleteObjects(keys);
        if !ok {
          ghost var k :| k in Elements(keys) && k in stuck;
          assert k in start && Under(k, prefix);
          return;
        }
      }
      var remaining := ListObjectKeys(prefix, 1);
      ok := remaining.Some? && |remaining.value| == 0;
    }

    /** inspectObjectSha256: the digest of the whole body of an object that is there, unless it is larger
        than allowed, which is found out without hashing more than is allowed. */
    method InspectObject(found: Option<Body>, maxBytes: nat, digest: seq<int> -> int) returns (r: Digest, ghost hashed: seq<int>)
      ensures r ==
        if !available then Unavailable
        else if found.None? then Missing
        else if |Concat(found.value)| > maxBytes then TooLarge
        else Digest(|Concat(found.value)|, digest(Concat(found.value)))
      ensures |hashed| <= maxBytes
    {
      if !available { return Unavailable, []; }
      if found.None? { return Missing, []; }
      var chunks := found.value;
      var body: seq<int> := [];
      var sizeBytes := 0;
      for i := 0 to |chunks|
        invariant body == Concat(chunks[..i]) && sizeBytes == |body| <= maxBytes
      {
        assert chunks[..i + 1] == chunks[..i] + [chunks[i]];
        ConcatAppend(chunks[..i], chunks[i]);
        sizeBytes := sizeBytes + |chunks[i]|;
        if sizeBytes > maxBytes {
          PrefixNoLonger(chunks, i + 1);
          return TooLarge, body;
        }
        body := body + chunks[i];
      }
      assert chunks[..|chunks|] == chunks;
      return Digest.Digest(sizeBytes, digest(body)), body;
    }
  }
}
