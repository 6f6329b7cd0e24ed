/** Key uniqueness. The handlers' comments promise that the positional key
    generator yields a unique key. That holds as long as the keys increase
    along the collection, and each of the three operations keeps them
    increasing. */
module KeyOrder {
  import opened Json
  import opened Decimal
  import opened Engine

  /** Keys are strings of digits whose values strictly increase from the
      first record to the last. */
  predicate Increasing(res: Resource, coll: seq<Record>)
  {
    && WellKeyed(res, coll)
    && forall i, j :: 0 <= i < j < |coll| ==> KeyNat(res, coll[i]) < KeyNat(res, coll[j])
  }

  /** No two records share a key. */
  predicate UniqueKeys(res: Resource, coll: seq<Record>)
  {
    forall i, j :: 0 <= i < j < |coll| ==> Key(res, coll[i]) != Key(res, coll[j])
  }

  lemma IncreasingUnique(res: Resource, coll: seq<Record>)
    requires Increasing(res, coll)
    ensures UniqueKeys(res, coll)
  {
  }

  /** Whether a collection is increasing depends only on its keys. */
  lemma IncreasingByKeys(res: Resource, a: seq<Record>, b: seq<Record>)
    requires Increasing(res, a)
    requires |a| == |b| && forall j :: 0 <= j < |a| ==> Key(res, b[j]) == Key(res, a[j])
    ensures Increasing(res, b)
  {
    // KeyNat reads only the key, so each comparison carries over from a.
  }

  /** On an increasing collection the next key is larger than every key in
      it, so it is the key of no record. */
  lemma NextIdFresh(res: Resource, coll: seq<Record>)
    requires Increasing(res, coll)
    ensures forall r :: r in coll ==> KeyNat(res, r) < DigitsToNat(NextId(res, coll))
    ensures forall r :: r in coll ==> Key(res, r) != Str(NextId(res, coll))
  {
    // Every key is at most the last one, and the next id is the last one plus 1.
  }

  /** A create keeps the keys increasing, and the new key is that of no
      earlier record. */
  lemma CreateKeepsIncreasing(res: Resource, coll: seq<Record>, payload: Payload)
    requires WellFormed(res) && Increasing(res, coll)
    ensures Increasing(res, CreateStep(res, coll, payload).after)
    ensures Validates(res.rules, payload) ==>
      forall r :: r in coll ==> Key(res, r) != Key(res, CreateStep(res, coll, payload).after[|coll|])
  {
    // The old records keep their order, and by NextIdFresh the appended key is above all of them.
  }

  /** An update keeps every key in its place, so keys stay increasing. */
  lemma UpdateKeepsIncreasing(res: Resource, coll: seq<Record>, id: string, payload: Payload)
    requires WellFormed(res) && Increasing(res, coll)
    ensures Increasing(res, UpdateStep(res, coll, id, payload).after)
  {
    IncreasingByKeys(res, coll, UpdateStep(res, coll, id, payload).after);
  }

  lemma IncreasingTail(res: Resource, coll: seq<Record>)
    requires Increasing(res, coll) && coll != []
    ensures Increasing(res, coll[1..])
    ensures forall y :: y in coll[1..] ==> KeyNat(res, coll[0]) < KeyNat(res, y)
  {
    // Position k of the tail is position k + 1 of coll.
  }

  lemma IncreasingCons(res: Resource, x: Record, s: seq<Record>)
    requires Increasing(res, s) && HasDigitKey(res, x)
    requires forall y :: y in s ==> KeyNat(res, x) < KeyNat(res, y)
    ensures Increasing(res, [x] + s)
  {
    // Position j of [x] + s is position j - 1 of s.
  }

  /** Filtering out records keeps the survivors' keys increasing. */
  lemma {:induction false} RemainingKeepsIncreasing(res: Resource, coll: seq<Record>, ids: seq<Value>)
    requires Increasing(res, coll)
    ensures Increasing(res, Remaining(res, coll, ids))
  {
    if coll != [] {
      IncreasingTail(res, coll);
      RemainingKeepsIncreasing(res, coll[1..], ids);
      var rt := Remaining(res, coll[1..], ids);
      if Key(res, coll[0]) !in ids {
        IncreasingCons(res, coll[0], rt);
        assert Remaining(res, coll, ids) == [coll[0]] + rt;
      } else {
        assert Remaining(res, coll, ids) == rt;
      }
    }
  }

  lemma DeleteKeepsIncreasing(res: Resource, coll: seq<Record>, ids: Value)
    requires Increasing(res, coll)
    ensures Increasing(res, DeleteStep(res, coll, ids).after)
  {
    if ids.Arr? {
      RemainingKeepsIncreasing(res, coll, ids.elems);
    }
  }
}
