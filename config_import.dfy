/** The validation half of `handleApplyConfig` in `src/App.js`: the parsed
    configuration must hold exactly three bodies, each with seven non-null
    fields, five of which must be numbers other than NaN. The first offence,
    in a fixed order, is what the user is told about.

    `JSON.parse` is a foreign call: its result is taken as a value of
    `JsValue` (or `None` when it throws). */
module ConfigImport {
  import opened Bodies
  import opened Wrappers

  /** A JavaScript number: a finite value, an infinity or NaN. */
  datatype JsNumber = Finite(r: real) | PosInfinity | NegInfinity | NaN

  /** The JavaScript values a parsed configuration can hold, plus `undefined`
      for a property that is absent. */
  datatype JsValue =
    | Undefined
    | Null
    | Bool(b: bool)
    | Num(n: JsNumber)
    | Str(s: string)
    | Arr(items: seq<JsValue>)
    | Obj(props: map<string, JsValue>)

  /** Why an import was refused, in the order the checks are made. */
  datatype ImportError =
    | ParseFailed                              // JSON.parse threw
    | ReadOfNull                               // a property was read from null
    | WrongBodyCount                           // "Configuration must contain exactly 3 bodies"
    | MissingField(body: nat, field: Field)    // "Body <body> missing required field: <field>"
    | NotANumber(body: nat, field: Field)      // "Body <body> field <field> must be a valid number"
    | NotAFunction                             // a call through a handle method that does not exist

  /** The fields every body must carry, in the order they are checked. */
  const Required: seq<Field> := [Id, X, Y, Vx, Vy, Mass, Color]
  /** The fields that must be numbers, in the order they are checked. */
  const Numeric: seq<Field> := [X, Y, Vx, Vy, Mass]

  /** A property can be read from anything but null and undefined. */
  predicate Readable(v: JsValue) {
    !v.Null? && !v.Undefined?
  }

  /** `v[key]`: the property if an object has it, otherwise undefined. */
  function Prop(v: JsValue, key: string): JsValue
    requires Readable(v)
  {
    if v.Obj? && key in v.props then v.props[key] else Undefined
  }

  /** Neither `undefined` nor `null`. */
  predicate Present(v: JsValue) {
    !v.Undefined? && !v.Null?
  }

  /** `typeof v === 'number' && !isNaN(v)`: infinities pass. */
  predicate IsNumber(v: JsValue) {
    v.Num? && !v.n.NaN?
  }

  predicate HasField(body: JsValue, f: Field)
    requires Readable(body)
  {
    Present(Prop(body, f.Key()))
  }

  predicate HasNumber(body: JsValue, f: Field)
    requires Readable(body)
  {
    IsNumber(Prop(body, f.Key()))
  }

  /** The index of the first field in `fields` that the body lacks. */
  function FirstMissing(body: JsValue, fields: seq<Field>): (r: Option<nat>)
    requires Readable(body)
    ensures r.None? <==> forall m :: 0 <= m < |fields| ==> HasField(body, fields[m])
    ensures r.Some? ==> r.value < |fields| && !HasField(body, fields[r.value]) &&
                        forall m :: 0 <= m < r.value ==> HasField(body, fields[m])
  {
    if |fields| == 0 then None
    else if !HasField(body, fields[0]) then Some(0)
    else match FirstMissing(body, fields[1..])
      case None => None
      case Some(k) => Some(k + 1)
  }

  /** The index of the first field in `fields` that is not a valid number. */
  function FirstNonNumber(body: JsValue, fields: seq<Field>): (r: Option<nat>)
    requires Readable(body)
    ensures r.None? <==> forall m :: 0 <= m < |fields| ==> HasNumber(body, fields[m])
    ensures r.Some? ==> r.value < |fields| && !HasNumber(body, fields[r.value]) &&
                        forall m :: 0 <= m < r.value ==> HasNumber(body, fields[m])
  {
    if |fields| == 0 then None
    else if !HasNumber(body, fields[0]) then Some(0)
    else match FirstNonNumber(body, fields[1..])
      case None => None
      case Some(k) => Some(k + 1)
  }

  /** The offence of the body at 0-based `index`: all required fields first,
      then the numeric ones. Errors name the body 1-based. */
  function BodyOffence(body: JsValue, index: nat): (r: Option<ImportError>)
    ensures r.Some? && (r.value.MissingField? || r.value.NotANumber?) ==> r.value.body == index + 1
  {
    if !Readable(body) then Some(ReadOfNull)
    else match FirstMissing(body, Required)
      case Some(k) => Some(MissingField(index + 1, Required[k]))
      case None =>
        match FirstNonNumber(body, Numeric)
        case Some(k) => Some(NotANumber(index + 1, Numeric[k]))
        case None => None
  }

  /** The first offence among the bodies from `i` on. */
  function BodiesOffence(items: seq<JsValue>, i: nat): Option<ImportError>
    decreases |items| - i
  {
    if i >= |items| then None
    else if BodyOffence(items[i], i).Some? then BodyOffence(items[i], i)
    else BodiesOffence(items, i + 1)
  }

  /** The array of exactly three bodies, if the configuration has one. */
  predicate HasThreeBodies(config: JsValue) {
    Readable(config) && Prop(config, "bodies").Arr? && |Prop(config, "bodies").items| == 3
  }

  /** The first offence of a parse result, `None` if it is accepted. */
  function Offence(parsed: Option<JsValue>): Option<ImportError> {
    match parsed
    case None => Some(ParseFailed)
    case Some(config) =>
      if !Readable(config) then Some(ReadOfNull)
      else if !HasThreeBodies(config) then Some(WrongBodyCount)
      else BodiesOffence(Prop(config, "bodies").items, 0)
  }

  /** The checking loops: bodies in order, stopping at the first offence. */
  method Validate(config: JsValue) returns (err: Option<ImportError>)
    ensures err == Offence(Some(config))
  {
    if !Readable(config) {
      return Some(ReadOfNull);
    }
    var bodies := Prop(config, "bodies");
    if !bodies.Arr? || |bodies.items| != 3 {
      return Some(WrongBodyCount);
    }
    var items := bodies.items;
    var i := 0;
    while i < |items|
      invariant 0 <= i <= |items|
      invariant BodiesOffence(items, 0) == BodiesOffence(items, i)
    {
      err := CheckBody(items[i], i);
      if err.Some? {
        return;
      }
      i := i + 1;
    }
    return None;
  }

  /** The checks on one body: the required fields in order, then the numeric
      fields in order, stopping at the first offence. */
  method CheckBody(body: JsValue, index: nat) returns (err: Option<ImportError>)
    ensures err == BodyOffence(body, index)
  {
    if !Readable(body) {
      return Some(ReadOfNull);
    }
    var missing := FindMissing(body);
    if missing.Some? {
      return Some(MissingField(index + 1, Required[missing.value]));
    }
    var bad := FindNonNumber(body);
    if bad.Some? {
      return Some(NotANumber(index + 1, Numeric[bad.value]));
    }
    return None;
  }

  /** The loop over the required fields: the first one that is absent. */
  method FindMissing(body: JsValue) returns (r: Option<nat>)
    requires Readable(body)
    ensures r == FirstMissing(body, Required)
  {
    var k := 0;
    while k < |Required|
      invariant 0 <= k <= |Required|
      invariant forall m :: 0 <= m < k ==> HasField(body, Required[m])
    {
      if !Present(Prop(body, Required[k].Key())) {
        assert FirstMissing(body, Required) == Some(k);
        return Some(k);
      }
      k := k + 1;
    }
    return None;
  }

  /** The loop over the numeric fields: the first one that is not a number. */
  method FindNonNumber(body: JsValue) returns (r: Option<nat>)
    requires Readable(body)
    ensures r == FirstNonNumber(body, Numeric)
  {
    var k := 0;
    while k < |Numeric|
      invariant 0 <= k <= |Numeric|
      invariant forall m :: 0 <= m < k ==> HasNumber(body, Numeric[m])
    {
      var v := Prop(body, Numeric[k].Key());
      if !v.Num? || v.n.NaN? {
        assert FirstNonNumber(body, Numeric) == Some(k);
        return Some(k);
      }
      k := k + 1;
    }
    return None;
  }

  // ---------------------------------------------------------------------
  // Properties

  /** A body passes: readable, every field present, every numeric field a number. */
  predicate BodyOk(body: JsValue) {
    Readable(body) &&
    (forall f: Field :: HasField(body, f)) &&
    (forall f: Field :: f.IsNumeric() ==> HasNumber(body, f))
  }

  /** A configuration passes: three bodies, each of which passes. */
  predicate WellFormed(config: JsValue) {
    HasThreeBodies(config) &&
    forall k :: 0 <= k < 3 ==> BodyOk(Prop(config, "bodies").items[k])
  }

  lemma RequiredCoversAll(f: Field)
    ensures exists m :: 0 <= m < |Required| && Required[m] == f
  {
    match f
    case Id => assert Required[0] == f;
    case X => assert Required[1] == f;
    case Y => assert Required[2] == f;
    case Vx => assert Required[3] == f;
    case Vy => assert Required[4] == f;
    case Mass => assert Required[5] == f;
    case Color => assert Required[6] == f;
  }

  lemma NumericCoversNumeric(f: Field)
    requires f.IsNumeric()
    ensures exists m :: 0 <= m < |Numeric| && Numeric[m] == f
  {
    match f
    case X => assert Numeric[0] == f;
    case Y => assert Numeric[1] == f;
    case Vx => assert Numeric[2] == f;
    case Vy => assert Numeric[3] == f;
    case Mass => assert Numeric[4] == f;
  }

  /** A single body raises no offence exactly when it passes. */
  lemma BodyOffenceNone(body: JsValue, index: nat)
    ensures BodyOffence(body, index).None? <==> BodyOk(body)
  {
    if BodyOffence(body, index).None? {
      forall f: Field
        ensures HasField(body, f)
      {
        RequiredCoversAll(f);
      }
      forall f: Field | f.IsNumeric()
        ensures HasNumber(body, f)
      {
        NumericCoversNumeric(f);
      }
    }
  }

  lemma {:induction false} BodiesOffenceNone(items: seq<JsValue>, i: nat)
    ensures BodiesOffence(items, i).None? <==> forall k :: i <= k < |items| ==> BodyOk(items[k])
    decreases |items| - i
  {
    if i < |items| {
      BodyOffenceNone(items[i], i);
      BodiesOffenceNone(items, i + 1);
    }
  }

  /** The checks accept a parsed configuration exactly when it is well formed. */
  lemma AcceptedIffWellFormed(config: JsValue)
    ensures Offence(Some(config)).None? <==> WellFormed(config)
  {
    if HasThreeBodies(config) {
      BodiesOffenceNone(Prop(config, "bodies").items, 0);
    }
  }

  /** Readable and carrying all seven fields. */
  predicate HasAllFields(body: JsValue) {
    Readable(body) && forall f: Field :: HasField(body, f)
  }

  /** An offence naming body n, found from `i` on, is that body's own offence,
      and every body between i and it passes. */
  lemma {:induction false} BodiesOffenceAt(items: seq<JsValue>, i: nat, n: nat)
    requires BodiesOffence(items, i).Some?
    requires BodiesOffence(items, i).value.MissingField? || BodiesOffence(items, i).value.NotANumber?
    requires BodiesOffence(items, i).value.body == n
    ensures i < n <= |items| && BodiesOffence(items, i) == BodyOffence(items[n - 1], n - 1)
    ensures forall k :: i <= k < n - 1 ==> BodyOffence(items[k], k).None?
    decreases |items| - i
  {
    if BodyOffence(items[i], i).None? {
      BodiesOffenceAt(items, i + 1, n);
    }
  }

  /** Every body before the offending one passes. */
  lemma EarlierBodiesPass(items: seq<JsValue>, n: nat)
    requires n <= |items| + 1
    requires forall k :: 0 <= k < n - 1 ==> BodyOffence(items[k], k).None?
    ensures forall k :: 0 <= k < n - 1 ==> BodyOk(items[k])
  {
    forall k | 0 <= k < n - 1
      ensures BodyOk(items[k])
    {
      BodyOffenceNone(items[k], k);
    }
  }

  /** A reported missing field is the first one lacking, in the listed order,
      in the first body that does not pass; every earlier body passes. */
  lemma MissingFieldIsFirst(config: JsValue, n: nat, f: Field, m: nat)
    requires Offence(Some(config)) == Some(MissingField(n, f))
    requires m < |Required| && Required[m] == f
    ensures HasThreeBodies(config) && 1 <= n <= 3
    ensures forall k :: 0 <= k < n - 1 ==> BodyOk(Prop(config, "bodies").items[k])
    ensures Readable(Prop(config, "bodies").items[n - 1])
    ensures !HasField(Prop(config, "bodies").items[n - 1], f)
    ensures forall p :: 0 <= p < m ==> HasField(Prop(config, "bodies").items[n - 1], Required[p])
  {
    var items := Prop(config, "bodies").items;
    BodiesOffenceAt(items, 0, n);
    EarlierBodiesPass(items, n);
    var body := items[n - 1];
    var k := FirstMissing(body, Required).value;
    RequiredDistinct(k, m);
  }

  /** The required fields are listed once each. */
  lemma RequiredDistinct(a: nat, b: nat)
    requires a < |Required| && b < |Required| && Required[a] == Required[b]
    ensures a == b
  {
  }

  /** A reported non-number is the first numeric field, in the listed order,
      that is not a number, in the first body that does not pass; that body
      has all seven fields and every earlier body passes. */
  lemma NotANumberIsFirst(config: JsValue, n: nat, f: Field, m: nat)
    requires Offence(Some(config)) == Some(NotANumber(n, f))
    requires m < |Numeric| && Numeric[m] == f
    ensures HasThreeBodies(config) && 1 <= n <= 3
    ensures forall k :: 0 <= k < n - 1 ==> BodyOk(Prop(config, "bodies").items[k])
    ensures HasAllFields(Prop(config, "bodies").items[n - 1])
    ensures !HasNumber(Prop(config, "bodies").items[n - 1], f)
    ensures forall p :: 0 <= p < m ==> HasNumber(Prop(config, "bodies").items[n - 1], Numeric[p])
  {
    var items := Prop(config, "bodies").items;
    BodiesOffenceAt(items, 0, n);
    EarlierBodiesPass(items, n);
    var body := items[n - 1];
    forall g: Field
      ensures HasField(body, g)
    {
      RequiredCoversAll(g);
    }
    var k := FirstNonNumber(body, Numeric).value;
    assert Numeric[k] == f;
    assert k == m;
  }

  /** JavaScript accepts ±Infinity where a number is required: a body whose
      mass is +Infinity passes, one whose mass is NaN does not. */
  lemma InfinityPassesNaNFails()
    ensures var body := map["id" := Num(Finite(1.0)), "x" := Num(Finite(0.0)), "y" := Num(Finite(0.0)),
                            "vx" := Num(Finite(0.0)), "vy" := Num(NegInfinity), "mass" := Num(PosInfinity),
                            "color" := Str("#ff0000")];
      BodyOk(Obj(body)) && !BodyOk(Obj(body["mass" := Num(NaN)]))
  {
    var body := map["id" := Num(Finite(1.0)), "x" := Num(Finite(0.0)), "y" := Num(Finite(0.0)),
                     "vx" := Num(Finite(0.0)), "vy" := Num(NegInfinity), "mass" := Num(PosInfinity),
                     "color" := Str("#ff0000")];
    assert !HasNumber(Obj(body["mass" := Num(NaN)]), Mass);
  }

  // ---------------------------------------------------------------------
  // Storing an accepted configuration

  /** A JSON number the model can hold: finite. */
  predicate IsFinite(v: JsValue) {
    v.Num? && v.n.Finite?
  }

  /** A body the `Body` record can hold: finite numbers, an integer id, a string colour. */
  predicate StorableBody(v: JsValue) {
    Readable(v) &&
    IsFinite(Prop(v, "id")) && Prop(v, "id").n.r == Prop(v, "id").n.r.Floor as real &&
    Prop(v, "color").Str? &&
    forall f: Field :: f.IsNumeric() ==> IsFinite(Prop(v, f.Key()))
  }

  /** A configuration whose bodies and number-typed settings the model can hold. */
  predicate Storable(config: JsValue) {
    HasThreeBodies(config) &&
    (forall k :: 0 <= k < 3 ==> StorableBody(Prop(config, "bodies").items[k])) &&
    StorableSettings(config)
  }

  /** The number-typed settings are finite. */
  predicate StorableSettings(config: JsValue)
    requires Readable(config)
  {
    (Prop(config, "timeSpeed").Num? ==> IsFinite(Prop(config, "timeSpeed"))) &&
    (Prop(config, "trailLength").Num? ==> IsFinite(Prop(config, "trailLength")))
  }

  /** The finite value of a numeric field of a storable body. */
  function NumberAt(v: JsValue, f: Field): real
    requires StorableBody(v) && f.IsNumeric()
  {
    Prop(v, f.Key()).n.r
  }

  function ToBody(v: JsValue): (b: Body)
    requires StorableBody(v)
    ensures forall f: Field :: f.IsNumeric() ==> Get(b, f) == Prop(v, f.Key()).n.r
    ensures b.id as real == Prop(v, "id").n.r && b.color == Prop(v, "color").s
  {
    Body(Prop(v, "id").n.r.Floor, NumberAt(v, X), NumberAt(v, Y), NumberAt(v, Vx),
         NumberAt(v, Vy), NumberAt(v, Mass), Prop(v, "color").s)
  }

  /** The bodies `setBodies(config.bodies)` stores, in the array's order. */
  function ImportedBodies(config: JsValue): (r: seq<Body>)
    requires Storable(config)
    ensures |r| == 3
    ensures forall k :: 0 <= k < 3 ==> r[k] == ToBody(Prop(config, "bodies").items[k])
  {
    var items := Prop(config, "bodies").items;
    [ToBody(items[0]), ToBody(items[1]), ToBody(items[2])]
  }

  /** Whatever the model can store passes the checks. */
  lemma StorableIsAccepted(config: JsValue)
    requires Storable(config)
    ensures Offence(Some(config)).None?
  {
    var items := Prop(config, "bodies").items;
    forall k | 0 <= k < 3
      ensures BodyOk(items[k])
    {
      assert StorableBody(items[k]);
      forall f: Field
        ensures HasField(items[k], f)
      {
        if f.IsNumeric() {
          assert IsFinite(Prop(items[k], f.Key()));
        }
      }
    }
    AcceptedIffWellFormed(config);
  }
}
