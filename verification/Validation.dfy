/** Data-quality validation: one error expression per rule, and a split of the rows by whether the
    joined error text is empty. */
module Validation {
  import opened Common
  import opened Events

  /** A row of the normalized schema; prices and times are numbers. */
  datatype Normalized = Normalized(
    eventId: Option<string>,
    eventType: Option<string>,
    schemaVersion: Option<int>,
    source: Option<string>,
    producedAt: Option<int>,
    externalId: Option<string>,
    name: Option<string>,
    url: Option<string>,
    price: Option<int>,
    currency: Option<string>,
    availability: Option<string>,
    category: Option<string>,
    collectedAt: Option<int>)

  const REQUIRED_COLUMNS := [
    "event_id", "event_type", "schema_version", "source", "produced_at", "external_id", "name", "url",
    "currency", "availability", "category", "collected_at"]
  const VALID_AVAILABILITY := {"in_stock", "out_of_stock", "preorder", "unknown"}
  const SUPPORTED_SCHEMA_VERSIONS := {1}

  predicate IsNull(r: Normalized, column: string) {
    match column
    case "event_id" => r.eventId.None?
    case "event_type" => r.eventType.None?
    case "schema_version" => r.schemaVersion.None?
    case "source" => r.source.None?
    case "produced_at" => r.producedAt.None?
    case "external_id" => r.externalId.None?
    case "name" => r.name.None?
    case "url" => r.url.None?
    case "price" => r.price.None?
    case "currency" => r.currency.None?
    case "availability" => r.availability.None?
    case "category" => r.category.None?
    case "collected_at" => r.collectedAt.None?
    case _ => false
  }

  predicate IsCurrency(s: string) {
    |s| == 3 && forall i :: 0 <= i < 3 ==> 'A' <= s[i] <= 'Z'
  }

  function NullErrors(r: Normalized, columns: seq<string>): seq<string> {
    if columns == [] then []
    else
      var column := columns[|columns| - 1];
      NullErrors(r, columns[..|columns| - 1]) + (if IsNull(r, column) then ["null_required:" + column] else [])
  }

  /** The messages of the rules the row fails; a comparison with null is null, and fails no rule. */
  function Errors(r: Normalized): seq<string> {
    NullErrors(r, REQUIRED_COLUMNS)
    + (if r.price.Some? && r.price.value < 0 then ["negative_price"] else [])
    + (if r.availability.Some? && r.availability.value !in VALID_AVAILABILITY
       then ["invalid_availability:allowed={in_stock,out_of_stock,preorder,unknown}"] else [])
    + (if r.schemaVersion.Some? && r.schemaVersion.value !in SUPPORTED_SCHEMA_VERSIONS
       then ["unsupported_schema_version:allowed={1}"] else [])
    + (if r.currency.Some? && !IsCurrency(r.currency.value) then ["invalid_currency_format"] else [])
  }

  /** `concat_str(errors, separator="; ", ignore_nulls=True)` */
  function Joined(errors: seq<string>): string {
    if errors == [] then ""
    else if |errors| == 1 then errors[0]
    else Joined(errors[..|errors| - 1]) + "; " + errors[|errors| - 1]
  }

  /** Messages are joined by a semicolon and a blank. */
  lemma JoinedText(errors: seq<string>, last: string)
    ensures Joined([]) == "" && Joined([last]) == last
    ensures errors != [] ==> Joined(errors + [last]) == Joined(errors) + "; " + last
  {
    assert (errors + [last])[..|errors|] == errors;
  }

  predicate HasErrors(r: Normalized) {
    |Joined(Errors(r))| > 0
  }

  /** Three ASCII capitals, by their codes. */
  predicate IsCode(s: string) {
    |s| == 3 && forall i :: 0 <= i < |s| ==> 65 <= s[i] as int <= 90
  }

  /** What the specification asks of a record. */
  predicate Acceptable(r: Normalized) {
    r.eventId.Some? && r.eventType.Some? && r.source.Some? && r.producedAt.Some? && r.externalId.Some?
    && r.name.Some? && r.url.Some? && r.category.Some? && r.collectedAt.Some?
    && (r.price.Some? ==> r.price.value >= 0)
    && (r.availability == Some("in_stock") || r.availability == Some("out_of_stock")
        || r.availability == Some("preorder") || r.availability == Some("unknown"))
    && r.schemaVersion == Some(1)
    && r.currency.Some? && IsCode(r.currency.value)
  }

  lemma {:induction false} JoinedEmptyIff(errors: seq<string>)
    requires forall e :: e in errors ==> e != ""
    ensures |Joined(errors)| == 0 <==> errors == []
  {
    if |errors| == 1 {
      assert errors[0] in errors;
    }
  }

  lemma {:induction false} NullErrorsIff(r: Normalized, columns: seq<string>)
    ensures NullErrors(r, columns) == [] <==> forall i :: 0 <= i < |columns| ==> !IsNull(r, columns[i])
    ensures forall e :: e in NullErrors(r, columns) ==> e != ""
  {
    if columns != [] {
      NullErrorsIff(r, columns[..|columns| - 1]);
    }
  }

  lemma RequiredAreNotNull(r: Normalized)
    ensures (forall i :: 0 <= i < |REQUIRED_COLUMNS| ==> !IsNull(r, REQUIRED_COLUMNS[i]))
            <==> r.eventId.Some? && r.eventType.Some? && r.schemaVersion.Some? && r.source.Some? && r.producedAt.Some?
                 && r.externalId.Some? && r.name.Some? && r.url.Some? && r.currency.Some? && r.availability.Some?
                 && r.category.Some? && r.collectedAt.Some?
  {
    assert REQUIRED_COLUMNS[0] == "event_id" && REQUIRED_COLUMNS[1] == "event_type";
    assert REQUIRED_COLUMNS[2] == "schema_version" && REQUIRED_COLUMNS[3] == "source";
    assert REQUIRED_COLUMNS[4] == "produced_at" && REQUIRED_COLUMNS[5] == "external_id";
    assert REQUIRED_COLUMNS[6] == "name" && REQUIRED_COLUMNS[7] == "url";
    assert REQUIRED_COLUMNS[8] == "currency" && REQUIRED_COLUMNS[9] == "availability";
    assert REQUIRED_COLUMNS[10] == "category" && REQUIRED_COLUMNS[11] == "collected_at";
  }

  /** A row goes to the valid side exactly when it meets every rule. */
  lemma ValidIffAcceptable(r: Normalized)
    ensures !HasErrors(r) <==> Acceptable(r)
  {
    NullErrorsIff(r, REQUIRED_COLUMNS);
    RequiredAreNotNull(r);
    JoinedEmptyIff(Errors(r));
  }

  // ---------------------------------------------------------------- the messages

  ghost predicate Names(columns: seq<string>, r: Normalized, column: string) {
    exists i :: 0 <= i < |columns| && columns[i] == column && IsNull(r, column)
  }

  lemma NamesSnoc(columns: seq<string>, last: string, r: Normalized, column: string)
    ensures Names(columns + [last], r, column) <==> Names(columns, r, column) || (column == last && IsNull(r, last))
  {
    var all := columns + [last];
    assert all[|columns|] == last;
    if Names(columns, r, column) {
      var i :| 0 <= i < |columns| && columns[i] == column;
      assert all[i] == column;
    }
  }

  lemma {:induction false} NullErrorsNamed(r: Normalized, columns: seq<string>, e: string)
    ensures e in NullErrors(r, columns) <==> exists c :: Names(columns, r, c) && e == "null_required:" + c
  {
    if columns != [] {
      var init, last := columns[..|columns| - 1], columns[|columns| - 1];
      NullErrorsNamed(r, init, e);
      assert columns == init + [last];
      forall c ensures Names(columns, r, c) <==> Names(init, r, c) || (c == last && IsNull(r, last)) {
        NamesSnoc(init, last, r, c);
      }
    }
  }

  ghost predicate RequiredIsNull(r: Normalized, e: string) {
    exists c :: Names(REQUIRED_COLUMNS, r, c) && e == "null_required:" + c
  }

  /** The rules by their messages. */
  ghost predicate Breaks(r: Normalized, e: string) {
    || RequiredIsNull(r, e)
    || (e == "negative_price" && r.price.Some? && r.price.value < 0)
    || (e == "invalid_availability:allowed={in_stock,out_of_stock,preorder,unknown}" && r.availability.Some?
        && r.availability.value != "in_stock" && r.availability.value != "out_of_stock"
        && r.availability.value != "preorder" && r.availability.value != "unknown")
    || (e == "unsupported_schema_version:allowed={1}" && r.schemaVersion.Some? && r.schemaVersion.value != 1)
    || (e == "invalid_currency_format" && r.currency.Some? && !IsCode(r.currency.value))
  }

  /** A rule's message appears exactly when the row breaks the rule. */
  lemma MessagesExactly(r: Normalized, e: string)
    ensures e in Errors(r) <==> Breaks(r, e)
  {
    NullErrorsNamed(r, REQUIRED_COLUMNS, e);
  }
}
