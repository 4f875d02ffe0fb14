/**
 * Edit scripts between keyed collections: replaying a diff on the collection it was taken from yields the other one.
 */
module Diff {
  import opened Common

  datatype Edit<K, V> = Insert(key: K, value: V) | Replace(key: K, value: V) | Delete(key: K)

  ghost function Patch<K, V>(m: map<K, V>, e: Edit<K, V>): map<K, V> {
    if e.Delete? then Without(m, e.key) else m[e.key := e.value]
  }

  /** Only absent keys are inserted, only present ones replaced or deleted. */
  ghost predicate Applicable<K, V>(m: map<K, V>, e: Edit<K, V>) {
    e.Insert? <==> e.key !in m
  }

  ghost function PatchAll<K, V>(m: map<K, V>, edits: seq<Edit<K, V>>): map<K, V> {
    if edits == [] then m else Patch(PatchAll(m, edits[..|edits| - 1]), edits[|edits| - 1])
  }

  /** Each edit is applicable once the ones before it are in place. */
  ghost predicate AllApplicable<K, V>(m: map<K, V>, edits: seq<Edit<K, V>>) {
    edits == []
    || (AllApplicable(m, edits[..|edits| - 1]) && Applicable(PatchAll(m, edits[..|edits| - 1]), edits[|edits| - 1]))
  }

  lemma {:induction false} PatchAllConcat<K, V>(m: map<K, V>, left: seq<Edit<K, V>>, right: seq<Edit<K, V>>)
    ensures PatchAll(m, left + right) == PatchAll(PatchAll(m, left), right)
    decreases |right|
  {
    if right == [] {
      assert left + right == left;
    } else {
      PatchAllConcat(m, left, right[..|right| - 1]);
      assert (left + right)[..|left + right| - 1] == left + right[..|right| - 1];
    }
  }

  lemma {:induction false} AllApplicablePrefix<K, V>(m: map<K, V>, edits: seq<Edit<K, V>>, n: nat)
    requires AllApplicable(m, edits) && n <= |edits|
    ensures AllApplicable(m, edits[..n])
    ensures n < |edits| ==> Applicable(PatchAll(m, edits[..n]), edits[n])
  {
    if n < |edits| - 1 {
      AllApplicablePrefix(m, edits[..|edits| - 1], n);
      assert edits[..|edits| - 1][..n] == edits[..n];
    } else {
      assert edits[..|edits|] == edits;
    }
  }

  lemma {:induction false} AllApplicableConcat<K, V>(m: map<K, V>, left: seq<Edit<K, V>>, right: seq<Edit<K, V>>)
    requires AllApplicable(m, left) && AllApplicable(PatchAll(m, left), right)
    ensures AllApplicable(m, left + right)
    decreases |right|
  {
    if right == [] {
      assert left + right == left;
    } else {
      AllApplicableConcat(m, left, right[..|right| - 1]);
      PatchAllConcat(m, left, right[..|right| - 1]);
      assert (left + right)[..|left + right| - 1] == left + right[..|right| - 1];
    }
  }

  ghost function Elements<K>(keys: seq<K>): set<K> {
    if keys == [] then {} else Elements(keys[..|keys| - 1]) + {keys[|keys| - 1]}
  }

  lemma {:induction false} ElementsAre<K>(keys: seq<K>)
    ensures forall k :: k in Elements(keys) <==> k in keys
  {
    if keys == [] {
    } else {
      var front := keys[..|keys| - 1];
      ElementsAre(front);
      assert keys == front + [keys[|keys| - 1]];
    }
  }

  /** The values a reader sees: records carry private parts that `view` drops. */
  ghost function Viewed<K, R, V>(m: map<K, R>, view: R -> V): map<K, V> {
    map k | k in m :: view(m[k])
  }

  function Deletions<K, V>(keys: seq<K>): (edits: seq<Edit<K, V>>)
    ensures |edits| == |keys|
    ensures forall i :: 0 <= i < |keys| ==> edits[i] == Delete(keys[i])
  {
    seq(|keys|, i requires 0 <= i < |keys| => Delete(keys[i]))
  }

  function Upsert<K(==), R(==), V>(prior: map<K, R>, next: map<K, R>, view: R -> V, key: K): seq<Edit<K, V>>
    requires key in next
  {
    if key !in prior then [Insert(key, view(next[key]))]
    else if prior[key] != next[key] then [Replace(key, view(next[key]))]
    else []
  }

  function Upserts<K(==), R(==), V>(prior: map<K, R>, next: map<K, R>, view: R -> V, keys: seq<K>)
    : (edits: seq<Edit<K, V>>)
    requires forall i :: 0 <= i < |keys| ==> keys[i] in next
    ensures |edits| <= |keys|
    ensures forall i :: 0 <= i < |edits| ==>
              !edits[i].Delete? && edits[i].key in next && edits[i].value == view(next[edits[i].key])
  {
    if keys == [] then []
    else Upserts(prior, next, view, keys[..|keys| - 1]) + Upsert(prior, next, view, keys[|keys| - 1])
  }

  lemma {:induction false} UpsertsPrefix<K, R, V>(prior: map<K, R>, next: map<K, R>, view: R -> V, keys: seq<K>, n: nat)
    requires n <= |keys|
    requires forall i :: 0 <= i < |keys| ==> keys[i] in next
    ensures Upserts(prior, next, view, keys[..n]) <= Upserts(prior, next, view, keys)
  {
    if n == |keys| {
      assert keys[..n] == keys;
    } else {
      UpsertsPrefix(prior, next, view, keys[..|keys| - 1], n);
      assert keys[..|keys| - 1][..n] == keys[..n];
    }
  }

  lemma UpsertsStep<K, R, V>(prior: map<K, R>, next: map<K, R>, view: R -> V, keys: seq<K>, n: nat)
    requires n < |keys|
    requires forall i :: 0 <= i < |keys| ==> keys[i] in next
    ensures var before, step := |Upserts(prior, next, view, keys[..n])|, Upsert(prior, next, view, keys[n]);
            && |Upserts(prior, next, view, keys[..n + 1])| == before + |step|
            && before + |step| <= |Upserts(prior, next, view, keys)|
            && (step != [] ==> Upserts(prior, next, view, keys)[before] == step[0])
  {
    assert keys[..n + 1][..n] == keys[..n];
    UpsertsPrefix(prior, next, view, keys, n + 1);
  }

  /** A key whose value is new or has changed. */
  predicate Differs<K(==), R(==)>(prior: map<K, R>, next: map<K, R>, key: K) {
    key in next && (key !in prior || prior[key] != next[key])
  }

  ghost predicate EditFor<K, R, V>(prior: map<K, R>, next: map<K, R>, view: R -> V, key: K, edit: Edit<K, V>) {
    && Differs(prior, next, key)
    && edit == if key in prior then Replace(key, view(next[key])) else Insert(key, view(next[key]))
  }

  /** `at` lists, in order, the positions of the keys that differ, and each has its edit. */
  ghost predicate UpsertsAt<K, R, V>(
    prior: map<K, R>, next: map<K, R>, view: R -> V, keys: seq<K>, edits: seq<Edit<K, V>>, at: seq<nat>)
  {
    && |at| == |edits|
    && (forall i, j :: 0 <= i < j < |at| ==> at[i] < at[j])
    && (forall i :: 0 <= i < |at| ==> at[i] < |keys| && EditFor(prior, next, view, keys[at[i]], edits[i]))
    && (forall k :: 0 <= k < |keys| && Differs(prior, next, keys[k]) ==> k in at)
  }

  lemma UpsertsAtSkip<K, R, V>(
    prior: map<K, R>, next: map<K, R>, view: R -> V, keys: seq<K>, edits: seq<Edit<K, V>>, at: seq<nat>, key: K)
    requires UpsertsAt(prior, next, view, keys, edits, at) && !Differs(prior, next, key)
    ensures UpsertsAt(prior, next, view, keys + [key], edits, at)
  {
    var longer := keys + [key];
    forall i | 0 <= i < |at| ensures at[i] < |longer| && EditFor(prior, next, view, longer[at[i]], edits[i]) {
      assert longer[at[i]] == keys[at[i]];
    }
  }

  lemma UpsertsAtAppend<K, R, V>(
    prior: map<K, R>, next: map<K, R>, view: R -> V, keys: seq<K>, edits: seq<Edit<K, V>>, at: seq<nat>, key: K,
    edit: Edit<K, V>)
    requires UpsertsAt(prior, next, view, keys, edits, at) && EditFor(prior, next, view, key, edit)
    ensures UpsertsAt(prior, next, view, keys + [key], edits + [edit], at + [|keys|])
  {
    var longer, more, places := keys + [key], edits + [edit], at + [|keys|];
    forall i | 0 <= i < |places|
      ensures places[i] < |longer| && EditFor(prior, next, view, longer[places[i]], more[i])
    {
      assert i < |at| ==> places[i] == at[i] && longer[at[i]] == keys[at[i]] && more[i] == edits[i];
    }
    forall k | 0 <= k < |longer| && Differs(prior, next, longer[k]) ensures k in places {
      assert k == |keys| ==> places[|at|] == k;
    }
  }

  lemma {:induction false} UpsertPositions<K, R, V>(prior: map<K, R>, next: map<K, R>, view: R -> V, keys: seq<K>)
    returns (at: seq<nat>)
    requires forall i :: 0 <= i < |keys| ==> keys[i] in next
    ensures UpsertsAt(prior, next, view, keys, Upserts(prior, next, view, keys), at)
  {
    if keys == [] {
      at := [];
    } else {
      var front, last := keys[..|keys| - 1], keys[|keys| - 1];
      var edits, step := Upserts(prior, next, view, front), Upsert(prior, next, view, last);
      at := UpsertPositions(prior, next, view, front);
      assert keys == front + [last];
      if step == [] {
        UpsertsAtSkip(prior, next, view, front, edits, at, last);
        assert edits + step == edits;
      } else {
        UpsertsAtAppend(prior, next, view, front, edits, at, last, step[0]);
        at := at + [|front|];
        assert edits + step == edits + [step[0]];
      }
    }
  }

  lemma {:induction false} DeletionsPatch<K, V>(m: map<K, V>, keys: seq<K>)
    requires Distinct(keys)
    requires forall i :: 0 <= i < |keys| ==> keys[i] in m
    ensures AllApplicable(m, Deletions(keys))
    ensures PatchAll(m, Deletions(keys)) == map k | k in m && k !in Elements(keys) :: m[k]
  {
    if keys == [] {
    } else {
      var front, last := keys[..|keys| - 1], keys[|keys| - 1];
      var edits := Deletions<K, V>(keys);
      DeletionsPatch(m, front);
      assert edits == Deletions(front) + [Delete(last)];
      ElementsAre(front);
      AppendOne(m, Deletions(front), Delete(last));
    }
  }

  lemma AppendOne<K, V>(m: map<K, V>, edits: seq<Edit<K, V>>, e: Edit<K, V>)
    requires AllApplicable(m, edits) && Applicable(PatchAll(m, edits), e)
    ensures AllApplicable(m, edits + [e])
    ensures PatchAll(m, edits + [e]) == Patch(PatchAll(m, edits), e)
  {
    assert (edits + [e])[..|edits + [e]| - 1] == edits;
  }

  /** Survivors of `prior` with the keys of `done` brought up to date. */
  ghost function Merged<K, R, V>(prior: map<K, R>, next: map<K, R>, view: R -> V, done: set<K>): map<K, V> {
    map k | k in next && (k in prior || k in done) :: if k in done then view(next[k]) else view(prior[k])
  }

  lemma MergedStep<K, R, V>(prior: map<K, R>, next: map<K, R>, view: R -> V, done: set<K>, key: K)
    requires key in next && key !in done
    ensures var step := Upsert(prior, next, view, key);
            var before, after := Merged(prior, next, view, done), Merged(prior, next, view, done + {key});
            if step == [] then before == after else Applicable(before, step[0]) && Patch(before, step[0]) == after
  {
  }

  lemma {:induction false} UpsertsPatch<K, R, V>(prior: map<K, R>, next: map<K, R>, view: R -> V, keys: seq<K>)
    requires Distinct(keys)
    requires forall i :: 0 <= i < |keys| ==> keys[i] in next
    ensures AllApplicable(Merged(prior, next, view, {}), Upserts(prior, next, view, keys))
    ensures PatchAll(Merged(prior, next, view, {}), Upserts(prior, next, view, keys))
            == Merged(prior, next, view, Elements(keys))
  {
    if keys == [] {
    } else {
      var front, last := keys[..|keys| - 1], keys[|keys| - 1];
      UpsertsPatch(prior, next, view, front);
      ElementsAre(front);
      MergedStep(prior, next, view, Elements(front), last);
      var edits, step := Upserts(prior, next, view, front), Upsert(prior, next, view, last);
      if step == [] {
        assert Upserts(prior, next, view, keys) == edits;
      } else {
        AppendOne(Merged(prior, next, view, {}), edits, step[0]);
        assert Upserts(prior, next, view, keys) == edits + [step[0]];
      }
    }
  }

  lemma MergedEnds<K, R, V>(prior: map<K, R>, next: map<K, R>, view: R -> V, gone: set<K>, kept: set<K>)
    requires forall k :: k in gone <==> k in prior && k !in next
    requires forall k :: k in kept <==> k in next
    ensures (map k | k in Viewed(prior, view) && k !in gone :: Viewed(prior, view)[k]) == Merged(prior, next, view, {})
    ensures Merged(prior, next, view, kept) == Viewed(next, view)
  {
  }

  /** Deletions of the vanished keys, then upserts of the current ones. */
  function DiffEdits<K(==), R(==), V>(prior: map<K, R>, next: map<K, R>, view: R -> V, gone: seq<K>, kept: seq<K>)
    : seq<Edit<K, V>>
    requires forall i :: 0 <= i < |kept| ==> kept[i] in next
  {
    Deletions(gone) + Upserts(prior, next, view, kept)
  }

  /** Patch after diff is the identity. */
  lemma PatchAfterDiff<K, R, V>(prior: map<K, R>, next: map<K, R>, view: R -> V, gone: seq<K>, kept: seq<K>)
    requires Distinct(gone)
    requires Distinct(kept)
    requires forall i :: 0 <= i < |gone| ==> gone[i] in prior && gone[i] !in next
    requires forall i :: 0 <= i < |kept| ==> kept[i] in next
    requires forall k :: k in prior && k !in next ==> k in gone
    requires forall k :: k in next ==> k in kept
    ensures AllApplicable(Viewed(prior, view), DiffEdits(prior, next, view, gone, kept))
    ensures PatchAll(Viewed(prior, view), DiffEdits(prior, next, view, gone, kept)) == Viewed(next, view)
  {
    var start := Viewed(prior, view);
    DeletionsPatch(start, gone);
    UpsertsPatch(prior, next, view, kept);
    MergedEnds(prior, next, view, Elements(gone), Elements(kept)) by {
      ElementsAre(gone);
      ElementsAre(kept);
    }
    AllApplicableConcat(start, Deletions(gone), Upserts(prior, next, view, kept));
    PatchAllConcat(start, Deletions(gone), Upserts(prior, next, view, kept));
  }
}
