/** The loops of the planner, with the sets and lists they update, tied to the functions that specify them. */
module PlannerLoops {
  import opened CanonicalJson
  import opened CanonicalBytes
  import opened Utf8
  import opened JsonPointer
  import opened Sampling
  import opened CartesianExpansion
  import opened Planner

  /** The seed loop of `validateSeeds`. */
  method CollectSeeds(items: seq<Json>) returns (r: Result<seq<int>>)
    ensures r == SeedList(items, [])
  {
    var seen: seq<int> := [];
    var i := 0;
    assert items[0..] == items;
    while i < |items|
      invariant i <= |items|
      invariant SeedList(items, []) == SeedList(items[i..], seen)
    {
      assert items[i..][1..] == items[i + 1..];
      if !IsSafeNumber(items[i]) {
        return Fail(InvalidSamplePlan);
      }
      if items[i].n in seen {
        return Fail(DuplicateSampleSeed);
      }
      seen := seen + [items[i].n];
      i := i + 1;
    }
    return Ok(seen);
  }

  /** The value loop of `normalizeSampling`: values are compared by the bytes of their encoding. */
  method CollectValues(items: seq<Json>) returns (r: Result<seq<Json>>)
    ensures r == AxisValues(items, [])
  {
    var seen: set<seq<Byte>> := {};
    var values: seq<Json> := [];
    var i := 0;
    assert items[0..] == items;
    while i < |items|
      invariant i <= |items|
      invariant AxisValues(items, []) == AxisValues(items[i..], values)
      invariant Keys(values, seen)
    {
      hide Bytes, Canonical, Keys;
      assert items[i..][1..] == items[i + 1..];
      var value := items[i];
      if !Canonical(value) {
        return Fail(InvalidSamplePlan);
      }
      var key := Bytes(value);
      SeenByBytes(values, seen, value);
      if key in seen {
        return Fail(DuplicateSweepValue);
      }
      OneKeyMore(values, seen, value);
      seen := seen + {key};
      values := values + [value];
      i := i + 1;
    }
    return Ok(values);
  }

  /** The encodings of the values, and no others. */
  ghost predicate Keys(values: seq<Json>, seen: set<seq<Byte>>) {
    && (forall j | 0 <= j < |values| :: Canonical(values[j]) && Bytes(values[j]) in seen)
    && (forall b | b in seen :: exists j :: 0 <= j < |values| && Canonical(values[j]) && Bytes(values[j]) == b)
  }

  lemma OneKeyMore(values: seq<Json>, seen: set<seq<Byte>>, value: Json)
    requires Canonical(value) && Keys(values, seen)
    ensures Keys(values + [value], seen + {Bytes(value)})
  {
    hide Bytes, Canonical;
    var more := values + [value];
    forall b | b in seen + {Bytes(value)}
      ensures exists j :: 0 <= j < |more| && Canonical(more[j]) && Bytes(more[j]) == b
    {
      if b in seen {
        var j :| 0 <= j < |values| && Canonical(values[j]) && Bytes(values[j]) == b;
        assert more[j] == values[j];
      } else {
        assert more[|values|] == value;
      }
    }
  }

  lemma SeenByBytes(values: seq<Json>, seen: set<seq<Byte>>, value: Json)
    requires Canonical(value) && Keys(values, seen)
    ensures Bytes(value) in seen <==> value in values
  {
    hide Bytes, Canonical;
    if Bytes(value) in seen {
      var j :| 0 <= j < |values| && Canonical(values[j]) && Bytes(values[j]) == Bytes(value);
      BytesDecideEquality(values[j], value);
    }
  }

  /** The overlap test over all pairs of axes: false where two pointers overlap. */
  method PointersAreDisjoint(axes: seq<Axis>) returns (ok: bool)
    ensures ok == Disjoint(axes)
  {
    hide Tokens, Independent;
    var left := 0;
    while left < |axes|
      invariant left <= |axes|
      invariant forall i, j | 0 <= i < left && i < j < |axes| :: Independent(Tokens(axes[i]), Tokens(axes[j]))
    {
      var right := left + 1;
      while right < |axes|
        invariant left < right <= |axes|
        invariant forall j | left < j < right :: Independent(Tokens(axes[left]), Tokens(axes[j]))
      {
        if !Independent(Tokens(axes[left]), Tokens(axes[right])) {
          return false;
        }
        right := right + 1;
      }
      left := left + 1;
    }
    return true;
  }

  /** The nested loop that gives every combination each seed in turn. */
  method PairSeeds(combinations: seq<Json>, seeds: seq<Option<int>>) returns (payloads: seq<Payload>)
    requires seeds != []
    ensures payloads == Pair(combinations, seeds)
  {
    payloads := [];
    var i := 0;
    while i < |combinations|
      invariant i <= |combinations|
      invariant payloads == Pair(combinations[..i], seeds)
    {
      var r := 0;
      ghost var before := payloads;
      while r < |seeds|
        invariant r <= |seeds|
        invariant |payloads| == |before| + r && before <= payloads
        invariant forall q | 0 <= q < r :: payloads[|before| + q] == Payload(combinations[i], seeds[q])
      {
        payloads := payloads + [Payload(combinations[i], seeds[r])];
        r := r + 1;
      }
      PairMore(combinations, seeds, i, before, payloads);
      i := i + 1;
    }
    assert combinations[..i] == combinations;
  }

  lemma PairMore(combinations: seq<Json>, seeds: seq<Option<int>>, i: nat, before: seq<Payload>, after: seq<Payload>)
    requires seeds != [] && i < |combinations| && before == Pair(combinations[..i], seeds)
    requires |after| == |before| + |seeds| && before <= after
    requires forall q | 0 <= q < |seeds| :: after[|before| + q] == Payload(combinations[i], seeds[q])
    ensures after == Pair(combinations[..i + 1], seeds)
  {
    var n := |seeds|;
    assert |before| == i * n && (i + 1) * n == i * n + n;
    var all := Pair(combinations[..i + 1], seeds);
    forall k | 0 <= k < |all|
      ensures after[k] == all[k]
    {
      DigitBounds(k, i + 1, n);
      if k < i * n {
        DigitBounds(k, i, n);
      } else {
        DigitOf(i, k - i * n, i + 1, n);
      }
    }
  }

  /** The loop that numbers the samples and refuses a repeated identity. */
  method IdentifySamples(hash: Hash, payloads: seq<Payload>) returns (r: Result<seq<Sample>>)
    ensures r == BuildSamples(hash, payloads, [])
  {
    hide Digest, PayloadJson;
    var ids: set<Text> := {};
    var samples: seq<Sample> := [];
    while |samples| < |payloads|
      invariant |samples| <= |payloads|
      invariant BuildSamples(hash, payloads, []) == BuildSamples(hash, payloads, samples)
      invariant forall id :: id in ids <==> exists s :: s in samples && s.id == id
      decreases |payloads| - |samples|
    {
      var payload := payloads[|samples|];
      var digest := Digest(hash, PayloadJson(payload));
      match digest {
        case Fail(e) =>
          return Fail(e);
        case Ok(id) =>
          if id in ids {
            return Fail(InvalidSamplePlan);
          }
          ids := ids + {id};
          samples := samples + [Sample(|samples|, id, payload)];
      }
    }
    return Ok(samples);
  }
}
