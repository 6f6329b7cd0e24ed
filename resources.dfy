/** The two collections that have their own handlers: products and users,
    with the fields each handler requires, and worked scenarios over them. */
module Resources {
  import opened Json
  import opened Decimal
  import opened Engine
  import opened KeyOrder

  /** Products: `nombre` and `categoria` must be truthy; `stock` only must not
      be null or undefined, so a stock of 0 is accepted. */
  const Products := Resource("id_producto", [
    FieldRule("nombre", MustBeTruthy),
    FieldRule("categoria", MustBeTruthy),
    FieldRule("stock", MustNotBeNullish)
  ])

  /** Users: all eight fields must be truthy. */
  const Users := Resource("id_usuario", [
    FieldRule("nombre", MustBeTruthy),
    FieldRule("apellido", MustBeTruthy),
    FieldRule("email", MustBeTruthy),
    FieldRule("telefono", MustBeTruthy),
    FieldRule("direccion", MustBeTruthy),
    FieldRule("tipo_usuario", MustBeTruthy),
    FieldRule("username", MustBeTruthy),
    FieldRule("password", MustBeTruthy)
  ])

  lemma ResourcesWellFormed()
    ensures WellFormed(Products) && WellFormed(Users)
    ensures Names(Products) == {"nombre", "categoria", "stock"}
  {
    assert Products.rules[0].name == "nombre";
    assert Products.rules[1].name == "categoria";
    assert Products.rules[2].name == "stock";
  }

  /** The product handlers' test, field by field. */
  lemma ProductValidation(p: Payload)
    ensures Validates(Products.rules, p) <==>
      Truthy(Get(p, "nombre")) && Truthy(Get(p, "categoria")) && !Nullish(Get(p, "stock"))
  {
    assert Products.rules[0].name == "nombre";
    assert Products.rules[1].name == "categoria";
    assert Products.rules[2].name == "stock";
  }

  /** The user handlers' test, field by field. */
  lemma UserValidation(p: Payload)
    ensures Validates(Users.rules, p) <==>
      && Truthy(Get(p, "nombre")) && Truthy(Get(p, "apellido"))
      && Truthy(Get(p, "email")) && Truthy(Get(p, "telefono"))
      && Truthy(Get(p, "direccion")) && Truthy(Get(p, "tipo_usuario"))
      && Truthy(Get(p, "username")) && Truthy(Get(p, "password"))
  {
    assert Users.rules[0].name == "nombre";
    assert Users.rules[1].name == "apellido";
    assert Users.rules[2].name == "email";
    assert Users.rules[3].name == "telefono";
    assert Users.rules[4].name == "direccion";
    assert Users.rules[5].name == "tipo_usuario";
    assert Users.rules[6].name == "username";
    assert Users.rules[7].name == "password";
  }

  /** A product record holding nothing but its key. */
  function Product(key: string): Record
  {
    map["id_producto" := Str(key)]
  }

  /** Creating "Tornillo" with stock 0 in an empty collection gives key "1";
      deleting id "1" afterwards empties the collection again. */
  lemma CreateThenDeleteScenario()
    ensures
      var p := map["nombre" := Str("Tornillo"), "categoria" := Str("Ferretería"), "stock" := Num(0)];
      var created := map["id_producto" := Str("1"), "nombre" := Str("Tornillo"),
                         "categoria" := Str("Ferretería"), "stock" := Num(0)];
      && CreateStep(Products, [], p) == Transition([created], Ok(created))
      && DeleteStep(Products, [created], Arr([Str("1")])) == Transition([], Acknowledged)
  {
    var p := map["nombre" := Str("Tornillo"), "categoria" := Str("Ferretería"), "stock" := Num(0)];
    var created := map["id_producto" := Str("1"), "nombre" := Str("Tornillo"),
                       "categoria" := Str("Ferretería"), "stock" := Num(0)];
    ResourcesWellFormed();
    ProductValidation(p);
    assert NewRecord(Products, "1", p) == created;
  }

  /** After keys "1" and "2" the next key is "3". */
  lemma NextIdScenario()
    ensures NextId(Products, [Product("1"), Product("2")]) == "3"
  {
    var coll := [Product("1"), Product("2")];
    assert Key(Products, coll[1]) == Str("2");
    assert DigitsToNat("2") == 2;
  }

  /** Updating key "99" when only "1" to "3" exist reports not-found and
      changes nothing. */
  lemma NotFoundScenario(p: Payload)
    requires Validates(Products.rules, p)
    ensures
      var coll := [Product("1"), Product("2"), Product("3")];
      UpdateStep(Products, coll, "99", p) == Transition(coll, NotFound)
  {
    ResourcesWellFormed();
  }

  /** `includes` compares strictly: the number 1 does not delete key "1". */
  lemma NumericIdsDeleteNothing()
    ensures DeleteStep(Products, [Product("1")], Arr([Num(1)])) == Transition([Product("1")], Acknowledged)
  {
  }

  /** Keys are reused: after deleting the last record, the next create
      hands out that record's key again. */
  lemma DeletedKeyReused(p: Payload)
    requires Validates(Products.rules, p)
    ensures
      var kept := DeleteStep(Products, [Product("1"), Product("2")], Arr([Str("2")])).after;
      && kept == [Product("1")]
      && CreateStep(Products, kept, p).outcome.record["id_producto"] == Str("2")
  {
    ResourcesWellFormed();
    var kept := DeleteStep(Products, [Product("1"), Product("2")], Arr([Str("2")])).after;
    assert kept == [Product("1")];
    assert DigitsToNat("1") == 1;
    assert NatToDecimal(2) == "2";
  }

  /** The key generator looks at the last record only: were the keys out of
      order, it would hand out a key that is already taken. */
  lemma PositionalKeyCollides()
    ensures
      var coll := [Product("3"), Product("2")];
      && !Increasing(Products, coll)
      && Str(NextId(Products, coll)) == Key(Products, coll[0])
  {
    var coll := [Product("3"), Product("2")];
    assert DigitsToNat("3") == 3 && DigitsToNat("2") == 2;
    assert KeyNat(Products, coll[0]) == 3 && KeyNat(Products, coll[1]) == 2;
    assert NatToDecimal(3) == "3";
  }
}
