/** Bronze/Silver schemas: the row validator and the compatibility checker between two
    schema versions, and what the second promises about the first. */
module Schema {
  import opened Common

  datatype PaType =
    | Integer(bits: nat, signed: bool)
    | Floating(bits: nat)
    | Utf8
    | LargeUtf8
    | Boolean
    | Timestamp(timeUnit: string, tz: string)
    | Duration(durationUnit: string)
    | Other(name: string)

  /** The Python values a row may hold. */
  datatype Value = Null | Str(s: string) | Int(i: int) | Float(r: real) | Bool(b: bool)
                 | DateTime(iso: string) | TimeDelta(us: int) | Object(repr: string)

  datatype Field = Field(name: string, ty: PaType, nullable: bool)

  /** Column order is significant, and nothing stops two columns from sharing a name. */
  type Schema = seq<Field>

  /** A Python dict in insertion order. */
  type Row = seq<(string, Value)>

  ghost predicate IsDict(row: Row) {
    forall i, j :: 0 <= i < j < |row| ==> row[i].0 != row[j].0
  }

  ghost predicate HasKey(row: Row, k: string) {
    exists i :: 0 <= i < |row| && row[i].0 == k
  }

  ghost predicate DistinctNames(schema: Schema) {
    forall i, j :: 0 <= i < j < |schema| ==> schema[i].name != schema[j].name
  }

  /** `{field.name: field for field in schema}`: the last column of a name wins. */
  function FieldMap(schema: Schema): (m: map<string, Field>)
    ensures forall n :: n in m ==> m[n] in schema && m[n].name == n
    ensures forall f :: f in schema ==> f.name in m
  {
    if schema == [] then map[]
    else
      var last := schema[|schema| - 1];
      assert schema == schema[..|schema| - 1] + [last];
      FieldMap(schema[..|schema| - 1])[last.name := last]
  }

  lemma {:induction false} FieldMapOfDistinct(schema: Schema, f: Field)
    requires DistinctNames(schema) && f in schema
    ensures FieldMap(schema)[f.name] == f
  {
    var init, last := schema[..|schema| - 1], schema[|schema| - 1];
    assert schema == init + [last];
    if f != last {
      assert f in init;
      FieldMapOfDistinct(init, f);
      assert f.name != last.name by {
        var i :| 0 <= i < |init| && init[i] == f;
        assert schema[i] == f;
      }
    }
  }

  /** The keys of that dict, in the order Python iterates over them. */
  function Names(schema: Schema): (names: seq<string>)
    ensures forall n :: n in names <==> n in FieldMap(schema)
  {
    if schema == [] then []
    else
      var before, last := Names(schema[..|schema| - 1]), schema[|schema| - 1].name;
      if last in before then before else before + [last]
  }

  // ---------------------------------------------------------------- compatibility

  datatype ChangeKind = Added | Removed | TypeChanged | NullabilityChanged

  datatype SchemaChange = SchemaChange(field: string, kind: ChangeKind, breaking: bool)

  datatype Compatibility = Compatible | Incompatible | Identical

  predicate IsWideningConversion(old_: PaType, new_: PaType) {
    (old_, new_) in {(Integer(32, true), Integer(64, true)), (Floating(32), Floating(64))}
  }

  type Fields = map<string, Field>

  function RemovedChange(name: string, new_: Fields): seq<SchemaChange> {
    if name !in new_ then [SchemaChange(name, Removed, true)] else []
  }

  /** A new required column is breaking: rows already written have no value for it. */
  function AddedChange(name: string, old_: Fields, new_: Fields): seq<SchemaChange> {
    if name in new_ && name !in old_ then [SchemaChange(name, Added, !new_[name].nullable)] else []
  }

  function CommonChange(name: string, old_: Fields, new_: Fields): seq<SchemaChange> {
    if name !in old_ || name !in new_ then []
    else
      (if old_[name].ty != new_[name].ty
       then [SchemaChange(name, TypeChanged, !IsWideningConversion(old_[name].ty, new_[name].ty))]
       else [])
      + (if old_[name].nullable && !new_[name].nullable
         then [SchemaChange(name, NullabilityChanged, true)]
         else [])
  }

  function RemovedChanges(names: seq<string>, new_: Fields): seq<SchemaChange> {
    if names == [] then []
    else RemovedChanges(names[..|names| - 1], new_) + RemovedChange(names[|names| - 1], new_)
  }

  function AddedChanges(names: seq<string>, old_: Fields, new_: Fields): seq<SchemaChange> {
    if names == [] then []
    else AddedChanges(names[..|names| - 1], old_, new_) + AddedChange(names[|names| - 1], old_, new_)
  }

  function CommonChanges(names: seq<string>, old_: Fields, new_: Fields): seq<SchemaChange> {
    if names == [] then []
    else CommonChanges(names[..|names| - 1], old_, new_) + CommonChange(names[|names| - 1], old_, new_)
  }

  function Changes(old_: Schema, new_: Schema): seq<SchemaChange> {
    RemovedChanges(Names(old_), FieldMap(new_))
    + AddedChanges(Names(new_), FieldMap(old_), FieldMap(new_))
    + CommonChanges(Names(old_), FieldMap(old_), FieldMap(new_))
  }

  method CompareFields(oldSchema: Schema, newSchema: Schema) returns (changes: seq<SchemaChange>)
    ensures changes == Changes(oldSchema, newSchema)
  {
    var oldFields, newFields := FieldMap(oldSchema), FieldMap(newSchema);
    var removed := CheckRemoved(Names(oldSchema), newFields);
    var added := CheckAdded(Names(newSchema), oldFields, newFields);
    var common := CheckCommon(Names(oldSchema), oldFields, newFields);
    changes := removed + added + common;
  }

  method CheckRemoved(names: seq<string>, newFields: Fields) returns (changes: seq<SchemaChange>)
    ensures changes == RemovedChanges(names, newFields)
  {
    changes := [];
    for i := 0 to |names|
      invariant changes == RemovedChanges(names[..i], newFields)
    {
      assert names[..i + 1][..i] == names[..i];
      if names[i] !in newFields {
        changes := changes + [SchemaChange(names[i], Removed, true)];
      }
    }
    assert names[..|names|] == names;
  }

  method CheckAdded(names: seq<string>, oldFields: Fields, newFields: Fields) returns (changes: seq<SchemaChange>)
    ensures changes == AddedChanges(names, oldFields, newFields)
  {
    changes := [];
    for i := 0 to |names|
      invariant changes == AddedChanges(names[..i], oldFields, newFields)
    {
      assert names[..i + 1][..i] == names[..i];
      if names[i] in newFields && names[i] !in oldFields {
        changes := changes + [SchemaChange(names[i], Added, !newFields[names[i]].nullable)];
      }
    }
    assert names[..|names|] == names;
  }

  method CheckCommon(names: seq<string>, oldFields: Fields, newFields: Fields) returns (changes: seq<SchemaChange>)
    ensures changes == CommonChanges(names, oldFields, newFields)
  {
    changes := [];
    for i := 0 to |names|
      invariant changes == CommonChanges(names[..i], oldFields, newFields)
    {
      assert names[..i + 1][..i] == names[..i];
      changes := changes + CommonChange(names[i], oldFields, newFields);
    }
    assert names[..|names|] == names;
  }

  predicate Breaks(changes: seq<SchemaChange>) {
    exists c :: c in changes && c.breaking
  }

  function CheckSchemaCompatibility(old_: Schema, new_: Schema): Compatibility {
    var changes := Changes(old_, new_);
    if changes == [] then Identical
    else if Breaks(changes) then Incompatible
    else Compatible
  }

  // ---------------------------------------------------------------- what the check decides

  lemma {:induction false} RemovedChangesBreak(names: seq<string>, new_: Fields)
    ensures Breaks(RemovedChanges(names, new_)) <==> exists n :: n in names && n !in new_
    ensures RemovedChanges(names, new_) == [] <==> forall n :: n in names ==> n in new_
  {
    if names != [] {
      var init, last := names[..|names| - 1], names[|names| - 1];
      assert names == init + [last];
      RemovedChangesBreak(init, new_);
      assert last !in new_ ==> RemovedChange(last, new_)[0] in RemovedChanges(names, new_);
    }
  }

  lemma {:induction false} AddedChangesBreak(names: seq<string>, old_: Fields, new_: Fields)
    ensures Breaks(AddedChanges(names, old_, new_))
       <==> exists n :: n in names && n in new_ && n !in old_ && !new_[n].nullable
  {
    if names != [] {
      var init, last := names[..|names| - 1], names[|names| - 1];
      assert names == init + [last];
      AddedChangesBreak(init, old_, new_);
      if last in new_ && last !in old_ && !new_[last].nullable {
        assert AddedChange(last, old_, new_)[0] in AddedChanges(names, old_, new_);
      }
    }
  }

  /** The column `n` of the old schema is still readable in the new one. */
  ghost predicate Preserves(n: string, old_: Fields, new_: Fields)
    requires n in old_ && n in new_
  {
    && (old_[n].ty == new_[n].ty
        || (old_[n].ty == Integer(32, true) && new_[n].ty == Integer(64, true))
        || (old_[n].ty == Floating(32) && new_[n].ty == Floating(64)))
    && (old_[n].nullable ==> new_[n].nullable)
  }

  lemma {:induction false} CommonChangesBreak(names: seq<string>, old_: Fields, new_: Fields)
    ensures Breaks(CommonChanges(names, old_, new_))
       <==> exists n :: n in names && n in old_ && n in new_ && !Preserves(n, old_, new_)
  {
    if names != [] {
      var init, last := names[..|names| - 1], names[|names| - 1];
      assert names == init + [last];
      CommonChangesBreak(init, old_, new_);
      var here := CommonChange(last, old_, new_);
      if last in old_ && last in new_ && !Preserves(last, old_, new_) {
        assert here[|here| - 1] in CommonChanges(names, old_, new_) && here[0] in CommonChanges(names, old_, new_);
      }
    }
  }

  /** Declarative reading of the checker: nothing removed, nothing required added, and every
      surviving column preserved. */
  ghost predicate FieldsEvolve(o: Fields, n: Fields) {
    && (forall k :: k in o ==> k in n && Preserves(k, o, n))
    && (forall k :: k in n && k !in o ==> n[k].nullable)
  }

  ghost predicate Evolves(old_: Schema, new_: Schema) {
    FieldsEvolve(FieldMap(old_), FieldMap(new_))
  }

  lemma BreaksConcat(a: seq<SchemaChange>, b: seq<SchemaChange>)
    ensures Breaks(a + b) <==> Breaks(a) || Breaks(b)
  {
    if Breaks(a) {
      var c :| c in a && c.breaking;
      assert c in a + b;
    }
    if Breaks(b) {
      var c :| c in b && c.breaking;
      assert c in a + b;
    }
  }

  lemma FieldsDecide(oldNames: seq<string>, newNames: seq<string>, o: Fields, n: Fields)
    requires forall k :: k in oldNames <==> k in o
    requires forall k :: k in newNames <==> k in n
    ensures Breaks(RemovedChanges(oldNames, n)) || Breaks(AddedChanges(newNames, o, n)) || Breaks(CommonChanges(oldNames, o, n))
       <==> !FieldsEvolve(o, n)
  {
    RemovedChangesBreak(oldNames, n);
    AddedChangesBreak(newNames, o, n);
    CommonChangesBreak(oldNames, o, n);
  }

  /** The checker says INCOMPATIBLE exactly when the new version does not evolve the old one. */
  lemma CheckDecidesEvolution(old_: Schema, new_: Schema)
    ensures CheckSchemaCompatibility(old_, new_) != Incompatible <==> Evolves(old_, new_)
  {
    var o, n := FieldMap(old_), FieldMap(new_);
    var r, a, c := RemovedChanges(Names(old_), n), AddedChanges(Names(new_), o, n), CommonChanges(Names(old_), o, n);
    FieldsDecide(Names(old_), Names(new_), o, n);
    BreaksConcat(r, a);
    BreaksConcat(r + a, c);
  }

  lemma EvolutionReflexive(s: Schema)
    ensures CheckSchemaCompatibility(s, s) == Identical
  {
    NothingChanges(Names(s), FieldMap(s));
  }

  lemma {:induction false} NothingChanges(names: seq<string>, m: Fields)
    requires forall n :: n in names ==> n in m
    ensures RemovedChanges(names, m) == AddedChanges(names, m, m) == CommonChanges(names, m, m) == []
  {
    if names != [] {
      NothingChanges(names[..|names| - 1], m);
    }
  }

  lemma EvolutionTransitive(a: Schema, b: Schema, c: Schema)
    ensures CheckSchemaCompatibility(a, b) != Incompatible && CheckSchemaCompatibility(b, c) != Incompatible ==>
              CheckSchemaCompatibility(a, c) != Incompatible
  {
    CheckDecidesEvolution(a, b);
    CheckDecidesEvolution(b, c);
    CheckDecidesEvolution(a, c);
    if Evolves(a, b) && Evolves(b, c) {
      FieldsEvolveTransitively(FieldMap(a), FieldMap(b), FieldMap(c));
    }
  }

  lemma FieldsEvolveTransitively(a: Fields, b: Fields, c: Fields)
    requires FieldsEvolve(a, b) && FieldsEvolve(b, c)
    ensures FieldsEvolve(a, c)
  {
    forall k | k in a ensures k in c && Preserves(k, a, c) {
      assert Preserves(k, a, b) && Preserves(k, b, c);
    }
    forall k | k in c && k !in a ensures c[k].nullable {
      if k in b { assert Preserves(k, b, c); }
    }
  }

  // ---------------------------------------------------------------- row validation

  /** A non-null Python value can be stored in a column of this type. */
  predicate CheckTypeCompatible(v: Value, ty: PaType) {
    match ty
    case Utf8 => v.Str?
    case LargeUtf8 => v.Str?
    case Integer(_, _) => v.Int?
    case Floating(_) => v.Int? || v.Float?
    case Boolean => v.Bool?
    case Timestamp(_, _) => v.DateTime? || v.Str?
    case Duration(_) => v.TimeDelta? || v.Int? || v.Bool?   // bool is a subclass of int
    case Other(_) => true
  }

  datatype SchemaError = NullRequired(name: string) | TypeMismatch(name: string) | MissingRequired(name: string)

  function ItemErrors(item: (string, Value), fields: Fields): seq<SchemaError> {
    if item.0 !in fields then []
    else
      var f := fields[item.0];
      (if !f.nullable && item.1.Null? then [NullRequired(item.0)] else [])
      + (if !item.1.Null? && !CheckTypeCompatible(item.1, f.ty) then [TypeMismatch(item.0)] else [])
  }

  function ItemsErrors(row: Row, fields: Fields): seq<SchemaError> {
    if row == [] then []
    else ItemsErrors(row[..|row| - 1], fields) + ItemErrors(row[|row| - 1], fields)
  }

  predicate HasKeyExec(row: Row, k: string)
    ensures HasKeyExec(row, k) <==> HasKey(row, k)
  {
    exists i :: 0 <= i < |row| && row[i].0 == k
  }

  function MissingErrors(row: Row, schema: Schema): seq<SchemaError> {
    if schema == [] then []
    else
      var f := schema[|schema| - 1];
      MissingErrors(row, schema[..|schema| - 1])
      + (if !f.nullable && !HasKeyExec(row, f.name) then [MissingRequired(f.name)] else [])
  }

  function RowErrors(row: Row, schema: Schema): seq<SchemaError> {
    ItemsErrors(row, FieldMap(schema)) + MissingErrors(row, schema)
  }

  method CheckItems(row: Row, fields: Fields) returns (errors: seq<SchemaError>)
    ensures errors == ItemsErrors(row, fields)
  {
    errors := [];
    for i := 0 to |row|
      invariant errors == ItemsErrors(row[..i], fields)
    {
      assert row[..i + 1][..i] == row[..i];
      errors := errors + ItemErrors(row[i], fields);
    }
    assert row[..|row|] == row;
  }

  method CheckMissing(row: Row, schema: Schema) returns (errors: seq<SchemaError>)
    ensures errors == MissingErrors(row, schema)
  {
    errors := [];
    for i := 0 to |schema|
      invariant errors == MissingErrors(row, schema[..i])
    {
      assert schema[..i + 1][..i] == schema[..i];
      if !schema[i].nullable && !HasKeyExec(row, schema[i].name) {
        errors := errors + [MissingRequired(schema[i].name)];
      }
    }
    assert schema[..|schema|] == schema;
  }

  method ValidateRowAgainstSchema(row: Row, schema: Schema) returns (errors: seq<SchemaError>)
    ensures errors == RowErrors(row, schema)
  {
    errors := CheckItems(row, FieldMap(schema));
    var missing := CheckMissing(row, schema);
    errors := errors + missing;
  }

  /** Where each kind of value can be stored; in a type the validator does not know, all can. */
  ghost predicate Storable(v: Value, ty: PaType) {
    ty.Other? ||
    match v
    case Null => true
    case Str(_) => ty.Utf8? || ty.LargeUtf8? || ty.Timestamp?
    case Int(_) => ty.Integer? || ty.Floating? || ty.Duration?
    case Float(_) => ty.Floating?
    case Bool(_) => ty.Boolean? || ty.Duration?
    case DateTime(_) => ty.Timestamp?
    case TimeDelta(_) => ty.Duration?
    case Object(_) => false
  }

  /** A value that fits a column: null only where allowed, otherwise of a storable type. */
  ghost predicate Fits(v: Value, f: Field) {
    if v.Null? then f.nullable else Storable(v, f.ty)
  }

  /** What an error-free row is: every value fits its column and no required column is absent. */
  ghost predicate Conforms(row: Row, schema: Schema) {
    && (forall i :: 0 <= i < |row| && row[i].0 in FieldMap(schema) ==> Fits(row[i].1, FieldMap(schema)[row[i].0]))
    && (forall f :: f in schema && !f.nullable ==> HasKey(row, f.name))
  }

  lemma ItemErrorsEmpty(item: (string, Value), fields: Fields)
    ensures ItemErrors(item, fields) == [] <==> (item.0 in fields ==> Fits(item.1, fields[item.0]))
  {
  }

  lemma {:induction false} ItemsErrorsEmpty(row: Row, fields: Fields)
    ensures ItemsErrors(row, fields) == []
       <==> forall i :: 0 <= i < |row| && row[i].0 in fields ==> Fits(row[i].1, fields[row[i].0])
  {
    if row != [] {
      var init, last := row[..|row| - 1], row[|row| - 1];
      ItemsErrorsEmpty(init, fields);
      ItemErrorsEmpty(last, fields);
      assert forall i :: 0 <= i < |init| ==> init[i] == row[i];
    }
  }

  lemma {:induction false} MissingErrorsEmpty(row: Row, schema: Schema)
    ensures MissingErrors(row, schema) == [] <==> forall f :: f in schema && !f.nullable ==> HasKey(row, f.name)
  {
    if schema != [] {
      var init, last := schema[..|schema| - 1], schema[|schema| - 1];
      assert schema == init + [last];
      MissingErrorsEmpty(row, init);
    }
  }

  lemma ValidationDecidesConformance(row: Row, schema: Schema)
    ensures RowErrors(row, schema) == [] <==> Conforms(row, schema)
  {
    ItemsErrorsEmpty(row, FieldMap(schema));
    MissingErrorsEmpty(row, schema);
  }

  // ---------------------------------------------------------------- evolution is sound

  /** A row valid under the old version is valid under a compatible new version exactly when
      the values it carries under newly added columns fit them; in particular whenever it has
      no columns beyond the old schema's. */
  lemma EvolutionSound(row: Row, old_: Schema, new_: Schema)
    requires DistinctNames(new_)
    requires CheckSchemaCompatibility(old_, new_) != Incompatible
    requires RowErrors(row, old_) == []
    ensures RowErrors(row, new_) == []
       <==> forall i :: 0 <= i < |row| && row[i].0 in FieldMap(new_) && row[i].0 !in FieldMap(old_)
              ==> Fits(row[i].1, FieldMap(new_)[row[i].0])
    ensures (forall i :: 0 <= i < |row| ==> row[i].0 in FieldMap(old_)) ==> RowErrors(row, new_) == []
  {
    CheckDecidesEvolution(old_, new_);
    ValidationDecidesConformance(row, old_);
    ValidationDecidesConformance(row, new_);
    ConformsAfter(row, old_, new_);
  }

  lemma ConformsAfter(row: Row, old_: Schema, new_: Schema)
    requires DistinctNames(new_) && Evolves(old_, new_) && Conforms(row, old_)
    ensures Conforms(row, new_)
       <==> forall i :: 0 <= i < |row| && row[i].0 in FieldMap(new_) && row[i].0 !in FieldMap(old_)
              ==> Fits(row[i].1, FieldMap(new_)[row[i].0])
  {
    var o, n := FieldMap(old_), FieldMap(new_);
    RequiredStayPresent(row, old_, new_);
    forall i | 0 <= i < |row| && row[i].0 in o
      ensures row[i].0 in n && Fits(row[i].1, n[row[i].0])
    {
      PreservedStillFits(row[i].0, row[i].1, o, n);
    }
  }

  lemma PreservedStillFits(k: string, v: Value, o: Fields, n: Fields)
    requires k in o && FieldsEvolve(o, n) && Fits(v, o[k])
    ensures k in n && Fits(v, n[k])
  {
    assert Preserves(k, o, n);
  }

  lemma RequiredStayPresent(row: Row, old_: Schema, new_: Schema)
    requires DistinctNames(new_) && Evolves(old_, new_) && Conforms(row, old_)
    ensures forall f :: f in new_ && !f.nullable ==> HasKey(row, f.name)
  {
    var o, n := FieldMap(old_), FieldMap(new_);
    forall f | f in new_ && !f.nullable
      ensures HasKey(row, f.name)
    {
      FieldMapOfDistinct(new_, f);
      assert Preserves(f.name, o, n);
      assert o[f.name] in old_ && !o[f.name].nullable;
    }
  }

  /** Any chain of compatible versions: validity under the first reaches the last. */
  lemma {:induction false} ChainSound(row: Row, versions: seq<Schema>)
    requires |versions| > 0 && forall i :: 0 <= i < |versions| ==> DistinctNames(versions[i])
    requires forall i :: 0 <= i < |versions| - 1 ==>
               CheckSchemaCompatibility(versions[i], versions[i + 1]) != Incompatible
    requires RowErrors(row, versions[0]) == []
    requires forall i :: 0 <= i < |row| ==> row[i].0 in FieldMap(versions[0])
    ensures RowErrors(row, versions[|versions| - 1]) == []
  {
    ChainCompatible(versions);
    EvolutionSound(row, versions[0], versions[|versions| - 1]);
  }

  lemma {:induction false} ChainCompatible(versions: seq<Schema>)
    requires |versions| > 0
    requires forall i :: 0 <= i < |versions| - 1 ==>
               CheckSchemaCompatibility(versions[i], versions[i + 1]) != Incompatible
    ensures CheckSchemaCompatibility(versions[0], versions[|versions| - 1]) != Incompatible
  {
    if |versions| == 1 {
      EvolutionReflexive(versions[0]);
    } else {
      var n := |versions|;
      ChainCompatible(versions[..n - 1]);
      assert versions[..n - 1][n - 2] == versions[n - 2];
      assert CheckSchemaCompatibility(versions[n - 2], versions[n - 2 + 1]) != Incompatible;
      EvolutionTransitive(versions[0], versions[n - 2], versions[n - 1]);
    }
  }

  // ---------------------------------------------------------------- repeated column names

  /** Some entry of the column demands a value: the row validator looks at every entry, although the
      dict of the checker keeps only the last of each name. */
  ghost predicate Demands(schema: Schema, k: string) {
    exists f :: f in schema && f.name == k && !f.nullable
  }

  /** Every value the new version demands was demanded before. */
  ghost predicate DemandsCovered(old_: Schema, new_: Schema) {
    forall f :: f in new_ && !f.nullable ==> Demands(old_, f.name)
  }

  ghost predicate OldColumns(row: Row, schema: Schema) {
    forall i :: 0 <= i < |row| ==> row[i].0 in FieldMap(schema)
  }

  /** Rows over the old columns stay valid. */
  ghost predicate Sound(old_: Schema, new_: Schema) {
    forall row: Row :: IsDict(row) && OldColumns(row, old_) && RowErrors(row, old_) == [] ==> RowErrors(row, new_) == []
  }

  function FittingValue(ty: PaType): (v: Value)
    ensures !v.Null? && CheckTypeCompatible(v, ty)
  {
    match ty
    case Boolean => Bool(false)
    case Integer(_, _) => Int(0)
    case Floating(_) => Int(0)
    case Duration(_) => Int(0)
    case _ => Str("")
  }

  /** A row with a fitting value in each of the columns. */
  function FittingRow(names: seq<string>, fields: Fields): (row: Row)
    requires forall n :: n in names ==> n in fields
    ensures |row| == |names| && forall i :: 0 <= i < |row| ==> row[i].0 == names[i] && Fits(row[i].1, fields[names[i]])
  {
    seq(|names|, i requires 0 <= i < |names| => assert names[i] in names; (names[i], FittingValue(fields[names[i]].ty)))
  }

  lemma {:induction false} NamesDistinct(schema: Schema)
    ensures Distinct(Names(schema))
  {
    if schema != [] {
      NamesDistinct(schema[..|schema| - 1]);
    }
  }

  /** The names of `s` other than `k`. */
  function Except(s: seq<string>, k: string): (r: seq<string>)
    ensures forall n :: n in r <==> n in s && n != k
    ensures Distinct(s) ==> Distinct(r)
  {
    if s == [] then []
    else
      var init, last := s[..|s| - 1], s[|s| - 1];
      assert s == init + [last];
      var rest := Except(init, k);
      assert Distinct(s) ==> Distinct(rest + [last]) by {
        if Distinct(s) { DistinctInit(s); DistinctConcat(rest, [last]); }
      }
      if last == k then rest else rest + [last]
  }

  lemma EntryInMap(schema: Schema, f: Field)
    requires f in schema
    ensures f.name in FieldMap(schema)
  {
    if f != schema[|schema| - 1] {
      assert schema == schema[..|schema| - 1] + [schema[|schema| - 1]];
      EntryInMap(schema[..|schema| - 1], f);
    }
  }

  /** A row with everything but `k` is valid when nothing demands `k`. */
  lemma UndemandedIsOptional(old_: Schema, k: string)
    requires !Demands(old_, k)
    ensures var row := FittingRow(Except(Names(old_), k), FieldMap(old_));
            IsDict(row) && OldColumns(row, old_) && !HasKey(row, k) && RowErrors(row, old_) == []
  {
    var row := FittingRow(Except(Names(old_), k), FieldMap(old_));
    NamesDistinct(old_);
    forall f | f in old_ && !f.nullable ensures HasKey(row, f.name) {
      FittingRowHas(old_, k, f);
    }
    ValidationDecidesConformance(row, old_);
  }

  lemma FittingRowHas(old_: Schema, k: string, f: Field)
    requires f in old_ && f.name != k
    ensures HasKey(FittingRow(Except(Names(old_), k), FieldMap(old_)), f.name)
  {
    var names := Except(Names(old_), k);
    EntryInMap(old_, f);
    assert f.name in names;
    var i :| 0 <= i < |names| && names[i] == f.name;
    assert FittingRow(names, FieldMap(old_))[i].0 == f.name;
  }

  /** For compatible versions, whatever names they repeat, evolution is sound exactly when no entry of
      the new version demands a value that no entry of the old one demanded. */
  lemma SoundIff(old_: Schema, new_: Schema)
    requires CheckSchemaCompatibility(old_, new_) != Incompatible
    ensures Sound(old_, new_) <==> DemandsCovered(old_, new_)
  {
    CheckDecidesEvolution(old_, new_);
    if DemandsCovered(old_, new_) {
      forall row: Row | IsDict(row) && OldColumns(row, old_) && RowErrors(row, old_) == []
        ensures RowErrors(row, new_) == []
      {
        ValidationDecidesConformance(row, old_);
        ValidationDecidesConformance(row, new_);
        CoveredConforms(row, old_, new_);
      }
    } else {
      var f :| f in new_ && !f.nullable && !Demands(old_, f.name);
      UndemandedIsOptional(old_, f.name);
      var row := FittingRow(Except(Names(old_), f.name), FieldMap(old_));
      ValidationDecidesConformance(row, new_);
      assert !Conforms(row, new_);
    }
  }

  lemma CoveredConforms(row: Row, old_: Schema, new_: Schema)
    requires Evolves(old_, new_) && DemandsCovered(old_, new_) && Conforms(row, old_)
    requires OldColumns(row, old_)
    ensures Conforms(row, new_)
  {
    var o, n := FieldMap(old_), FieldMap(new_);
    forall i | 0 <= i < |row| && row[i].0 in n ensures Fits(row[i].1, n[row[i].0]) {
      PreservedStillFits(row[i].0, row[i].1, o, n);
    }
    forall f | f in new_ && !f.nullable ensures HasKey(row, f.name) {
      assert Demands(old_, f.name);
      var g :| g in old_ && g.name == f.name && !g.nullable;
      assert HasKey(row, g.name);
    }
  }

  /** With a repeated name compatible versions can fail that. */
  lemma RepeatedNameUnsound()
    ensures var old_ := [Field("x", Utf8, true)];
            var new_ := [Field("x", Utf8, false), Field("x", Utf8, true)];
            CheckSchemaCompatibility(old_, new_) == Identical && !Sound(old_, new_)
  {
    var x := Field("x", Utf8, true);
    var old_, new_ := [x], [Field("x", Utf8, false), x];
    RepeatedNameIdentical();
    SoundIff(old_, new_);
    assert new_[0] in new_ && !Demands(old_, "x");
  }

  lemma RepeatedNameIdentical()
    ensures var old_ := [Field("x", Utf8, true)];
            var new_ := [Field("x", Utf8, false), Field("x", Utf8, true)];
            CheckSchemaCompatibility(old_, new_) == Identical
  {
    var x := Field("x", Utf8, true);
    var old_, new_ := [x], [Field("x", Utf8, false), x];
    assert old_[..0] == [] && new_[..1] == [Field("x", Utf8, false)] && new_[..1][..0] == [];
    assert FieldMap(new_[..1]) == map["x" := Field("x", Utf8, false)];
    assert FieldMap(old_) == FieldMap(new_) == map["x" := x];
    assert Names(new_[..1]) == ["x"];
    assert Names(old_) == Names(new_) == ["x"];
    NothingChanges(Names(old_), FieldMap(old_));
  }

  // ---------------------------------------------------------------- what counts as identical

  lemma {:induction false} AddedEmpty(names: seq<string>, old_: Fields, new_: Fields)
    ensures AddedChanges(names, old_, new_) == [] <==> forall k :: k in names && k in new_ ==> k in old_
  {
    if names != [] {
      var init, last := names[..|names| - 1], names[|names| - 1];
      assert names == init + [last];
      AddedEmpty(init, old_, new_);
    }
  }

  /** Same type, and nullable if it was; a required column may have become nullable. */
  ghost predicate Unremarked(o: Field, n: Field) {
    o.ty == n.ty && (o.nullable ==> n.nullable)
  }

  lemma {:induction false} CommonEmpty(names: seq<string>, old_: Fields, new_: Fields)
    ensures CommonChanges(names, old_, new_) == []
       <==> forall k :: k in names && k in old_ && k in new_ ==> Unremarked(old_[k], new_[k])
  {
    if names != [] {
      var init, last := names[..|names| - 1], names[|names| - 1];
      assert names == init + [last];
      CommonEmpty(init, old_, new_);
      assert CommonChange(last, old_, new_) == []
         <==> (last in old_ && last in new_ ==> Unremarked(old_[last], new_[last]));
    }
  }

  /** IDENTICAL says: the same column names, in any order, with the same types, and no column that
      became required. */
  lemma IdenticalIff(old_: Schema, new_: Schema)
    ensures CheckSchemaCompatibility(old_, new_) == Identical <==> FieldsUnremarked(FieldMap(old_), FieldMap(new_))
  {
    var o, n := FieldMap(old_), FieldMap(new_);
    NothingRemarked(Names(old_), Names(new_), o, n);
    var r, a, c := RemovedChanges(Names(old_), n), AddedChanges(Names(new_), o, n), CommonChanges(Names(old_), o, n);
    assert r + a + c == [] <==> r == [] && a == [] && c == [];
  }

  ghost predicate FieldsUnremarked(o: Fields, n: Fields) {
    (forall k :: k in o <==> k in n) && forall k :: k in o && k in n ==> Unremarked(o[k], n[k])
  }

  lemma NothingRemarked(oldNames: seq<string>, newNames: seq<string>, o: Fields, n: Fields)
    requires forall k :: k in oldNames <==> k in o
    requires forall k :: k in newNames <==> k in n
    ensures RemovedChanges(oldNames, n) == [] && AddedChanges(newNames, o, n) == [] && CommonChanges(oldNames, o, n) == []
       <==> FieldsUnremarked(o, n)
  {
    RemovedChangesBreak(oldNames, n);
    AddedEmpty(newNames, o, n);
    CommonEmpty(oldNames, o, n);
  }

  // ---------------------------------------------------------------- the lake's schema

  const TIMESTAMP_UTC := Timestamp("us", "UTC")

  const BRONZE_SCHEMA: Schema := [
    Field("event_id", Utf8, false),
    Field("event_type", Utf8, false),
    Field("schema_version", Utf8, false),
    Field("source", Utf8, false),
    Field("produced_at", TIMESTAMP_UTC, false),
    Field("external_id", Utf8, false),
    Field("name", Utf8, true),
    Field("url", Utf8, true),
    Field("price", Utf8, true),
    Field("currency", Utf8, true),
    Field("availability", Utf8, false),
    Field("category", Utf8, true),
    Field("collected_at", TIMESTAMP_UTC, false)
  ]

  /** The thirteen Bronze columns have thirteen names. */
  lemma BronzeNamesDistinct()
    ensures DistinctNames(BRONZE_SCHEMA)
  {
  }

  /** The Bronze columns: texts but for the two times; all must be filled but for five. */
  lemma BronzeColumns(i: nat)
    requires i < |BRONZE_SCHEMA|
    ensures |BRONZE_SCHEMA| == 13
    ensures BRONZE_SCHEMA[i].nullable <==> BRONZE_SCHEMA[i].name in {"name", "url", "price", "currency", "category"}
    ensures BRONZE_SCHEMA[i].ty
         == if BRONZE_SCHEMA[i].name in {"produced_at", "collected_at"} then Timestamp("us", "UTC") else Utf8
  {
  }

  // ---------------------------------------------------------------- the reported changes and errors

  /** The last column of a name counts. */
  lemma LastEntryCounts(schema: Schema, f: Field, k: string)
    ensures Lookup(FieldMap(schema + [f]), k) == if k == f.name then Some(f) else Lookup(FieldMap(schema), k)
  {
    assert (schema + [f])[..|schema|] == schema;
  }

  /** What there is to say about column `k`. */
  ghost predicate Reportable(c: SchemaChange, o: Fields, n: Fields) {
    var k := c.field;
    match c.kind
    case Removed => k in o && k !in n && c.breaking
    case Added => k in n && k !in o && c.breaking == !n[k].nullable
    case TypeChanged => k in o && k in n && o[k].ty != n[k].ty && c.breaking == !Preserves(k, o, n[k := n[k].(nullable := true)])
    case NullabilityChanged => k in o && k in n && o[k].nullable && !n[k].nullable && c.breaking
  }

  lemma {:induction false} RemovedAre(names: seq<string>, n: Fields, c: SchemaChange)
    ensures c in RemovedChanges(names, n) <==> c.kind == Removed && c.field in names && c.field !in n && c.breaking
  {
    if names != [] {
      RemovedAre(names[..|names| - 1], n, c);
      assert names == names[..|names| - 1] + [names[|names| - 1]];
    }
  }

  lemma {:induction false} AddedAre(names: seq<string>, o: Fields, n: Fields, c: SchemaChange)
    ensures c in AddedChanges(names, o, n)
       <==> c.kind == Added && c.field in names && c.field in n && c.field !in o && c.breaking == !n[c.field].nullable
  {
    if names != [] {
      AddedAre(names[..|names| - 1], o, n, c);
      assert names == names[..|names| - 1] + [names[|names| - 1]];
    }
  }

  lemma {:induction false} CommonAre(names: seq<string>, o: Fields, n: Fields, c: SchemaChange)
    ensures c in CommonChanges(names, o, n)
       <==> (c.kind == TypeChanged || c.kind == NullabilityChanged) && c.field in names && Reportable(c, o, n)
  {
    if names != [] {
      var last := names[|names| - 1];
      CommonAre(names[..|names| - 1], o, n, c);
      assert names == names[..|names| - 1] + [last];
      assert c in CommonChange(last, o, n)
        <==> (c.kind == TypeChanged || c.kind == NullabilityChanged) && c.field == last && Reportable(c, o, n);
    }
  }

  /** The reported changes are exactly those there are, each with its kind and whether it breaks. */
  lemma ReportsExactly(old_: Schema, new_: Schema, c: SchemaChange)
    ensures c in Changes(old_, new_) <==> Reportable(c, FieldMap(old_), FieldMap(new_))
  {
    var o, n := FieldMap(old_), FieldMap(new_);
    RemovedAre(Names(old_), n, c);
    AddedAre(Names(new_), o, n, c);
    CommonAre(Names(old_), o, n, c);
    var r, a, m := RemovedChanges(Names(old_), n), AddedChanges(Names(new_), o, n), CommonChanges(Names(old_), o, n);
    assert c in r + a + m <==> c in r || c in a || c in m;
  }

  /** So are the errors of a row. */
  ghost predicate Wrong(e: SchemaError, row: Row, schema: Schema) {
    match e
    case NullRequired(k) => k in FieldMap(schema) && !FieldMap(schema)[k].nullable && (k, Null) in row
    case TypeMismatch(k) =>
      k in FieldMap(schema) && exists v :: (k, v) in row && !v.Null? && !Storable(v, FieldMap(schema)[k].ty)
    case MissingRequired(k) => Demands(schema, k) && !HasKey(row, k)
  }

  lemma {:induction false} ItemsWrong(row: Row, fields: Fields, e: SchemaError)
    ensures e in ItemsErrors(row, fields)
       <==> match e
            case NullRequired(k) => k in fields && !fields[k].nullable && (k, Null) in row
            case TypeMismatch(k) => k in fields && exists v :: (k, v) in row && !v.Null? && !Storable(v, fields[k].ty)
            case MissingRequired(_) => false
  {
    if row != [] {
      var init, item := row[..|row| - 1], row[|row| - 1];
      ItemsWrong(init, fields, e);
      assert row == init + [item];
      assert forall x :: x in row <==> x in init || x == item;
      if e.TypeMismatch? && e in ItemErrors(item, fields) {
        assert (e.name, item.1) in row;
      }
    }
  }

  lemma {:induction false} MissingWrong(row: Row, schema: Schema, e: SchemaError)
    ensures e in MissingErrors(row, schema) <==> e.MissingRequired? && Demands(schema, e.name) && !HasKey(row, e.name)
  {
    if schema != [] {
      var init, f := schema[..|schema| - 1], schema[|schema| - 1];
      MissingWrong(row, init, e);
      assert schema == init + [f];
      assert forall x :: x in schema <==> x in init || x == f;
    }
  }

  lemma ErrorsExactly(row: Row, schema: Schema, e: SchemaError)
    ensures e in RowErrors(row, schema) <==> Wrong(e, row, schema)
  {
    ItemsWrong(row, FieldMap(schema), e);
    MissingWrong(row, schema, e);
  }
}
