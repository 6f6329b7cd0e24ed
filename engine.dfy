/** The collection-mutation engine shared by the product and user handlers:
    payload validation, next-key generation, lookup by key, the spread-merge
    of an update, the bulk-delete filter, and the three operations built from
    them, each as a function from the collection before to the collection
    after and the outcome reported to the client. */
module Engine {
  import opened Json
  import opened Decimal

  datatype Option<T> = None | Some(value: T)

  /** A record of a collection and a request body are both plain objects. */
  type Record = Object
  type Payload = Object

  /** How a required field is tested: `!x` rejects every falsy value,
      `x == null` rejects only null and undefined. */
  datatype Check = MustBeTruthy | MustNotBeNullish

  datatype FieldRule = FieldRule(name: string, check: Check)

  /** What distinguishes one collection's handlers from another's: the name
      of its primary-key property and its required fields, in the order the
      handler tests them. The required fields are also exactly the fields a
      create copies from the payload and an update overwrites. */
  datatype Resource = Resource(keyField: string, rules: seq<FieldRule>)

  /** What a handler reports: the created or updated record, the bulk-delete
      acknowledgement, or one of the two client errors. */
  datatype Outcome = Ok(record: Record) | Acknowledged | ValidationError | NotFound

  /** The collection after a request, and the outcome reported. */
  datatype Transition = Transition(after: seq<Record>, outcome: Outcome)

  function Names(res: Resource): set<string>
  {
    set i | 0 <= i < |res.rules| :: res.rules[i].name
  }

  /** The primary key is not one of the payload fields. */
  predicate WellFormed(res: Resource)
  {
    res.keyField !in Names(res)
  }

  /** `record.id_x` */
  function Key(res: Resource, r: Record): Value
  {
    Get(r, res.keyField)
  }

  /* ---------------- validation ---------------- */

  predicate Passes(rule: FieldRule, v: Value)
  {
    match rule.check
    case MustBeTruthy => Truthy(v)
    case MustNotBeNullish => !Nullish(v)
  }

  /** The chain `!a || !b || c == null` negated: every required field passes
      its test. */
  function Validates(rules: seq<FieldRule>, payload: Payload): (ok: bool)
    ensures ok <==> forall i :: 0 <= i < |rules| ==> Passes(rules[i], Get(payload, rules[i].name))
  {
    if rules == [] then true
    else Passes(rules[0], Get(payload, rules[0].name)) && Validates(rules[1..], payload)
  }

  /** A payload that leaves out any required field, or sends it as null,
      is rejected whatever the field's test. */
  lemma MissingFieldRejected(res: Resource, payload: Payload, i: nat)
    requires i < |res.rules|
    requires Nullish(Get(payload, res.rules[i].name))
    ensures !Validates(res.rules, payload)
  {
  }

  /* ---------------- next key ---------------- */

  predicate HasDigitKey(res: Resource, r: Record)
  {
    Key(res, r).Str? && IsDigits(Key(res, r).s)
  }

  /** `parseInt(record.id_x)` for a record whose key is a string of digits. */
  function KeyNat(res: Resource, r: Record): nat
    requires HasDigitKey(res, r)
  {
    DigitsToNat(Key(res, r).s)
  }

  /** Every record's key is a string of digits. */
  predicate WellKeyed(res: Resource, coll: seq<Record>)
  {
    forall i :: 0 <= i < |coll| ==> HasDigitKey(res, coll[i])
  }

  /** The key of a new record: "1" for an empty collection, otherwise one
      more than the key of the LAST record, whatever the other keys are. */
  function NextId(res: Resource, coll: seq<Record>): (id: string)
    requires coll != [] ==> HasDigitKey(res, coll[|coll| - 1])
    ensures IsCanonical(id)
    ensures coll == [] ==> id == "1"
    ensures coll != [] ==> DigitsToNat(id) == KeyNat(res, coll[|coll| - 1]) + 1
  {
    if coll == [] then "1"
    else
      var n := KeyNat(res, coll[|coll| - 1]) + 1;
      ParseFormat(n);
      NatToDecimal(n)
  }

  /* ---------------- lookup ---------------- */

  /** `findIndex(r => r.id_x === id)`: the first position whose key is the
      string `id`, or None where the source gets -1. */
  function FindIndex(res: Resource, coll: seq<Record>, id: string): (r: Option<nat>)
    ensures r.Some? ==> r.value < |coll| && Key(res, coll[r.value]) == Str(id)
    ensures r.Some? ==> forall j :: 0 <= j < r.value ==> Key(res, coll[j]) != Str(id)
    ensures r.None? ==> forall j :: 0 <= j < |coll| ==> Key(res, coll[j]) != Str(id)
  {
    if coll == [] then None
    else if Key(res, coll[0]) == Str(id) then Some(0)
    else match FindIndex(res, coll[1..], id)
      case None => None
      case Some(i) => Some(i + 1)
  }

  /* ---------------- building records ---------------- */

  /** The required fields taken out of the payload (the destructuring
      `const { a, b, c } = req.body`). */
  function Pick(res: Resource, payload: Payload): Object
  {
    map f | f in Names(res) :: Get(payload, f)
  }

  /** `{ id_x: id, a, b, c }`: the new key and exactly the required fields;
      anything else the payload carries is dropped. */
  function NewRecord(res: Resource, id: string, payload: Payload): (r: Record)
    requires WellFormed(res)
    ensures r.Keys == Names(res) + {res.keyField}
    ensures Key(res, r) == Str(id)
    ensures forall f :: f in Names(res) ==> r[f] == Get(payload, f)
  {
    Pick(res, payload)[res.keyField := Str(id)]
  }

  /** `{ ...old, a, b, c }`: every old property is kept, the required fields
      take the payload's values. */
  function Merge(res: Resource, prev: Record, payload: Payload): (r: Record)
    ensures r.Keys == prev.Keys + Names(res)
    ensures forall f :: f in Names(res) ==> r[f] == Get(payload, f)
    ensures forall f :: f in prev && f !in Names(res) ==> r[f] == prev[f]
  {
    prev + Pick(res, payload)
  }

  /** An update never changes the key, even when the payload carries one. */
  lemma MergeKeepsKey(res: Resource, prev: Record, payload: Payload)
    requires WellFormed(res)
    ensures Key(res, Merge(res, prev, payload)) == Key(res, prev)
  {
  }

  /** Only the required fields of the payload matter to an update. */
  lemma MergeIgnoresOtherFields(res: Resource, prev: Record, p: Payload, q: Payload)
    requires forall f :: f in Names(res) ==> Get(p, f) == Get(q, f)
    ensures Merge(res, prev, p) == Merge(res, prev, q)
  {
  }

  /** Sending the same update twice has the effect of sending it once. */
  lemma MergeIdempotent(res: Resource, prev: Record, payload: Payload)
    ensures Merge(res, Merge(res, prev, payload), payload) == Merge(res, prev, payload)
  {
  }

  /** A created record is what an update would make of a record holding
      nothing but the new key. */
  lemma NewRecordIsMerge(res: Resource, id: string, payload: Payload)
    requires WellFormed(res)
    ensures NewRecord(res, id, payload) == Merge(res, map[res.keyField := Str(id)], payload)
  {
  }

  /* ---------------- bulk delete ---------------- */

  /** `coll.filter(r => !ids.includes(r.id_x))`. */
  function Remaining(res: Resource, coll: seq<Record>, ids: seq<Value>): (r: seq<Record>)
    ensures |r| <= |coll|
    ensures forall x :: x in r <==> x in coll && Key(res, x) !in ids
  {
    if coll == [] then []
    else (if Key(res, coll[0]) in ids then [] else [coll[0]]) + Remaining(res, coll[1..], ids)
  }

  /** The filter keeps relative order: it distributes over concatenation. */
  lemma {:induction false} RemainingAppend(res: Resource, a: seq<Record>, b: seq<Record>, ids: seq<Value>)
    ensures Remaining(res, a + b, ids) == Remaining(res, a, ids) + Remaining(res, b, ids)
  {
    if a != [] {
      assert (a + b)[0] == a[0];
      assert (a + b)[1..] == a[1..] + b;
      RemainingAppend(res, a[1..], b, ids);
    } else {
      assert a + b == b;
    }
  }

  /** Ids that match no record are ignored: nothing is removed. */
  lemma {:induction false} RemainingNoMatch(res: Resource, coll: seq<Record>, ids: seq<Value>)
    requires forall x :: x in coll ==> Key(res, x) !in ids
    ensures Remaining(res, coll, ids) == coll
  {
    if coll != [] {
      assert coll[0] in coll;
      assert forall x :: x in coll[1..] ==> x in coll;
      RemainingNoMatch(res, coll[1..], ids);
    }
  }

  /** An empty id list is a no-op. */
  lemma RemainingNoIds(res: Resource, coll: seq<Record>)
    ensures Remaining(res, coll, []) == coll
  {
    RemainingNoMatch(res, coll, []);
  }

  /** Deleting the same ids a second time removes nothing more. */
  lemma RemainingIdempotent(res: Resource, coll: seq<Record>, ids: seq<Value>)
    ensures Remaining(res, Remaining(res, coll, ids), ids) == Remaining(res, coll, ids)
  {
    RemainingNoMatch(res, Remaining(res, coll, ids), ids);
  }

  /** Only membership in `ids` matters: their order and repetitions do not. */
  lemma {:induction false} RemainingBySet(res: Resource, coll: seq<Record>, ids: seq<Value>, ids': seq<Value>)
    requires forall v :: v in ids <==> v in ids'
    ensures Remaining(res, coll, ids) == Remaining(res, coll, ids')
  {
    if coll != [] {
      RemainingBySet(res, coll[1..], ids, ids');
    }
  }

  /* ---------------- the three operations ---------------- */

  /** POST: validate, then append a record built from the next key and the
      required fields, and report that record. */
  function CreateStep(res: Resource, coll: seq<Record>, payload: Payload): (t: Transition)
    requires WellFormed(res) && WellKeyed(res, coll)
    ensures !Validates(res.rules, payload) ==> t == Transition(coll, ValidationError)
    ensures Validates(res.rules, payload) ==>
      && |t.after| == |coll| + 1
      && t.after[..|coll|] == coll
      && t.after[|coll|] == NewRecord(res, NextId(res, coll), payload)
      && t.outcome == Ok(t.after[|coll|])
    ensures WellKeyed(res, t.after)
  {
    if !Validates(res.rules, payload) then Transition(coll, ValidationError)
    else
      var created := NewRecord(res, NextId(res, coll), payload);
      Transition(coll + [created], Ok(created))
  }

  /** PUT /:id: validate first, then look the key up; replace the first
      record with that key by its merge with the payload, in place. */
  function UpdateStep(res: Resource, coll: seq<Record>, id: string, payload: Payload): (t: Transition)
    requires WellFormed(res)
    ensures !Validates(res.rules, payload) ==> t == Transition(coll, ValidationError)
    ensures Validates(res.rules, payload) && (forall j :: 0 <= j < |coll| ==> Key(res, coll[j]) != Str(id)) ==>
      t == Transition(coll, NotFound)
    ensures Validates(res.rules, payload) ==>
      forall i :: 0 <= i < |coll| && Key(res, coll[i]) == Str(id) && (forall j :: 0 <= j < i ==> Key(res, coll[j]) != Str(id)) ==>
        t == Transition(coll[i := Merge(res, coll[i], payload)], Ok(Merge(res, coll[i], payload)))
    ensures |t.after| == |coll|
    ensures forall j :: 0 <= j < |coll| ==> Key(res, t.after[j]) == Key(res, coll[j])
  {
    if !Validates(res.rules, payload) then Transition(coll, ValidationError)
    else match FindIndex(res, coll, id)
      case None => Transition(coll, NotFound)
      case Some(i) =>
        var updated := Merge(res, coll[i], payload);
        Transition(coll[i := updated], Ok(updated))
  }

  /** POST /eliminar: `ids` must be an array; keep the records whose key is
      not in it. The reply does not say how many were removed. */
  function DeleteStep(res: Resource, coll: seq<Record>, ids: Value): (t: Transition)
    ensures !ids.Arr? ==> t == Transition(coll, ValidationError)
    ensures ids.Arr? ==> t.outcome == Acknowledged && t.after == Remaining(res, coll, ids.elems)
  {
    if !Truthy(ids) || !ids.Arr? then Transition(coll, ValidationError)
    else Transition(Remaining(res, coll, ids.elems), Acknowledged)
  }
}
