/** The request handlers as methods on the live data: each collection is an
    object whose record list the handlers replace, push onto or splice, and
    the store holds the two collections that have handlers of their own. */
module Handlers {
  import opened Json
  import opened Engine
  import opened KeyOrder
  import opened Resources

  /** One collection of the backing document, e.g. `productos`. */
  class Collection {
    const res: Resource
    var records: seq<Record>

    /** Every key is a string of digits, so the next key can be parsed from
        the last one. */
    ghost predicate Valid()
      reads this
    {
      WellFormed(res) && WellKeyed(res, records)
    }

    constructor (res: Resource, initial: seq<Record>)
      requires WellFormed(res) && WellKeyed(res, initial)
      ensures Valid()
      ensures this.res == res && records == initial
    {
      this.res := res;
      records := initial;
    }

    /** POST: on a valid payload, push the new record and return it. */
    method Create(payload: Payload) returns (o: Outcome)
      requires Valid()
      modifies this
      ensures Valid()
      ensures Transition(records, o) == CreateStep(res, old(records), payload)
      ensures old(Increasing(res, records)) ==> Increasing(res, records)
    {
      ghost var increasing := Increasing(res, records);
      if increasing {
        CreateKeepsIncreasing(res, records, payload);
      }
      if !Validates(res.rules, payload) {
        return ValidationError;
      }
      var id := NextId(res, records);
      var created := NewRecord(res, id, payload);
      records := records + [created];
      o := Ok(records[|records| - 1]);
    }

    /** PUT /:id: validate, find the first record with that key, and splice
        the merged record into its place. */
    method Update(id: string, payload: Payload) returns (o: Outcome)
      requires Valid()
      modifies this
      ensures Valid()
      ensures Transition(records, o) == UpdateStep(res, old(records), id, payload)
      ensures old(Increasing(res, records)) ==> Increasing(res, records)
    {
      ghost var increasing := Increasing(res, records);
      if increasing {
        UpdateKeepsIncreasing(res, records, id, payload);
      }
      if !Validates(res.rules, payload) {
        return ValidationError;
      }
      var index := FindIndex(res, records, id);
      if index.None? {
        return NotFound;
      }
      var updated := Merge(res, records[index.value], payload);
      MergeKeepsKey(res, records[index.value], payload);
      records := records[index.value := updated];
      o := Ok(updated);
    }

    /** POST /eliminar: replace the list by the records whose key is not in
        `ids`. */
    method BulkDelete(ids: Value) returns (o: Outcome)
      requires Valid()
      modifies this
      ensures Valid()
      ensures Transition(records, o) == DeleteStep(res, old(records), ids)
      ensures old(Increasing(res, records)) ==> Increasing(res, records)
    {
      ghost var increasing := Increasing(res, records);
      if increasing {
        DeleteKeepsIncreasing(res, records, ids);
      }
      if !Truthy(ids) || !ids.Arr? {
        return ValidationError;
      }
      records := Remaining(res, records, ids.elems);
      o := Acknowledged;
    }
  }

  /** The backing document, as far as these handlers touch it. */
  class Store {
    const productos: Collection
    const usuarios: Collection

    ghost predicate Valid()
      reads this, productos, usuarios
    {
      && productos != usuarios
      && productos.res == Products && productos.Valid()
      && usuarios.res == Users && usuarios.Valid()
    }

    constructor (products: seq<Record>, users: seq<Record>)
      requires WellKeyed(Products, products) && WellKeyed(Users, users)
      ensures Valid() && fresh(productos) && fresh(usuarios)
      ensures productos.records == products && usuarios.records == users
    {
      ResourcesWellFormed();
      productos := new Collection(Products, products);
      usuarios := new Collection(Users, users);
    }

    /** POST /productos/eliminar */
    method DeleteProducts(ids: Value) returns (o: Outcome)
      requires Valid()
      modifies productos
      ensures Valid() && unchanged(usuarios)
      ensures Transition(productos.records, o) == DeleteStep(Products, old(productos.records), ids)
      ensures old(Increasing(Products, productos.records)) ==> Increasing(Products, productos.records)
    {
      o := productos.BulkDelete(ids);
    }

    /** POST /productos */
    method CreateProduct(payload: Payload) returns (o: Outcome)
      requires Valid()
      modifies productos
      ensures Valid() && unchanged(usuarios)
      ensures Transition(productos.records, o) == CreateStep(Products, old(productos.records), payload)
      ensures old(Increasing(Products, productos.records)) ==> Increasing(Products, productos.records)
    {
      o := productos.Create(payload);
    }

    /** PUT /productos/:id */
    method UpdateProduct(id: string, payload: Payload) returns (o: Outcome)
      requires Valid()
      modifies productos
      ensures Valid() && unchanged(usuarios)
      ensures Transition(productos.records, o) == UpdateStep(Products, old(productos.records), id, payload)
      ensures old(Increasing(Products, productos.records)) ==> Increasing(Products, productos.records)
    {
      o := productos.Update(id, payload);
    }

    /** POST /usuarios */
    method CreateUser(payload: Payload) returns (o: Outcome)
      requires Valid()
      modifies usuarios
      ensures Valid() && unchanged(productos)
      ensures Transition(usuarios.records, o) == CreateStep(Users, old(usuarios.records), payload)
      ensures old(Increasing(Users, usuarios.records)) ==> Increasing(Users, usuarios.records)
    {
      o := usuarios.Create(payload);
    }

    /** PUT /usuarios/:id */
    method UpdateUser(id: string, payload: Payload) returns (o: Outcome)
      requires Valid()
      modifies usuarios
      ensures Valid() && unchanged(productos)
      ensures Transition(usuarios.records, o) == UpdateStep(Users, old(usuarios.records), id, payload)
      ensures old(Increasing(Users, usuarios.records)) ==> Increasing(Users, usuarios.records)
    {
      o := usuarios.Update(id, payload);
    }
  }
}
