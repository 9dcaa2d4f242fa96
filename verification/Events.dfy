/** Canonical product observations and their flat Bronze row. */
module Events {
  import opened Common
  import opened Schema

  datatype Date = Date(year: nat, month: nat, day: nat)

  function DaysInMonth(year: nat, month: nat): nat {
    if month == 2 then (if year % 4 == 0 && (year % 100 != 0 || year % 400 == 0) then 29 else 28)
    else if month in {4, 6, 9, 11} then 30
    else 31
  }

  /** The dates `datetime.date` accepts. */
  predicate ValidDate(d: Date) {
    1 <= d.year <= 9999 && 1 <= d.month <= 12 && 1 <= d.day <= DaysInMonth(d.year, d.month)
  }

  /** `a < b` on dates. */
  predicate Before(a: Date, b: Date) {
    a.year < b.year || (a.year == b.year && (a.month < b.month || (a.month == b.month && a.day < b.day)))
  }

  /** The order of dates as the order of numbers. */
  function DayNumber(d: Date): nat {
    (d.year * 13 + d.month) * 32 + d.day
  }

  lemma BeforeIff(a: Date, b: Date)
    requires ValidDate(a) && ValidDate(b)
    ensures Before(a, b) <==> DayNumber(a) < DayNumber(b)
  {
  }

  predicate IsLeap(year: nat) {
    year % 400 == 0 || (year % 4 == 0 && year % 100 != 0)
  }

  lemma LeapIff(year: nat)
    ensures IsLeap(year) <==> year % 4 == 0 && (year % 100 != 0 || year % 400 == 0)
  {
    var q := year / 400;
    if year % 400 == 0 {
      assert year == 4 * (100 * q);
    }
  }

  /** Thirty days have April, June, September and November. */
  lemma MonthLengths(year: nat, month: nat)
    requires 1 <= month <= 12
    ensures DaysInMonth(year, month)
         == if month == 2 then (if IsLeap(year) then 29 else 28)
            else if month == 4 || month == 6 || month == 9 || month == 11 then 30 else 31
  {
    LeapIff(year);
  }

  /** The days of the first `months` months. */
  function DaysInYear(year: nat, months: nat): nat {
    if months == 0 then 0 else DaysInYear(year, months - 1) + DaysInMonth(year, months)
  }

  /** A year has 365 days, a leap year 366. */
  lemma YearLength(year: nat)
    ensures DaysInYear(year, 12) == if IsLeap(year) then 366 else 365
  {
    FirstHalf(year);
    assert DaysInYear(year, 8) == DaysInYear(year, 6) + 62;
    assert DaysInYear(year, 10) == DaysInYear(year, 8) + 61;
  }

  lemma FirstHalf(year: nat)
    ensures DaysInYear(year, 6) == if IsLeap(year) then 182 else 181
  {
    MonthLengths(year, 2);
    assert DaysInYear(year, 1) == DaysInYear(year, 0) + 31;
    assert DaysInYear(year, 2) == 31 + DaysInMonth(year, 2);
    assert DaysInYear(year, 4) == DaysInYear(year, 2) + 61;
  }

  /** An instant: its calendar date in its own offset from UTC, and its ISO text. */
  datatype Timestamp = At(date: Date, iso: string)

  datatype Event = Event(
    eventId: string,
    eventType: string,
    schemaVersion: string,
    source: string,
    producedAt: Timestamp,
    externalId: string,
    name: string,
    url: string,
    price: Option<string>,
    currency: string,
    availability: string,
    category: string,
    collectedAt: Timestamp)

  function EventToRow(e: Event): Row {
    [("event_id", Str(e.eventId)),
     ("event_type", Str(e.eventType)),
     ("schema_version", Str(e.schemaVersion)),
     ("source", Str(e.source)),
     ("produced_at", Str(e.producedAt.iso)),
     ("external_id", Str(e.externalId)),
     ("name", Str(e.name)),
     ("url", Str(e.url)),
     ("price", if e.price.Some? then Str(e.price.value) else Null),
     ("currency", Str(e.currency)),
     ("availability", Str(e.availability)),
     ("category", Str(e.category)),
     ("collected_at", Str(e.collectedAt.iso))]
  }

  /** A row listing one fitting value per column, in column order, has no errors. */
  lemma AlignedRowConforms(row: Row, schema: Schema)
    requires DistinctNames(schema) && |row| == |schema|
    requires forall i :: 0 <= i < |row| ==> row[i].0 == schema[i].name && Fits(row[i].1, schema[i])
    ensures RowErrors(row, schema) == []
  {
    forall i | 0 <= i < |row|
      ensures Fits(row[i].1, FieldMap(schema)[row[i].0])
    {
      FieldMapOfDistinct(schema, schema[i]);
    }
    forall f | f in schema
      ensures HasKey(row, f.name)
    {
      var i :| 0 <= i < |schema| && schema[i] == f;
      assert row[i].0 == f.name;
    }
    ValidationDecidesConformance(row, schema);
  }

  /** The writer's own schema check never rejects a row the writer built. */
  lemma RowsConformToBronze(e: Event)
    ensures RowErrors(EventToRow(e), BRONZE_SCHEMA) == []
  {
    BronzeNamesDistinct();
    AlignedRowConforms(EventToRow(e), BRONZE_SCHEMA);
  }

  /** The Bronze row is lossless: events with the same row agree in every field. */
  lemma RowLossless(a: Event, b: Event)
    requires EventToRow(a) == EventToRow(b)
    requires a.producedAt.iso == b.producedAt.iso ==> a.producedAt == b.producedAt
    requires a.collectedAt.iso == b.collectedAt.iso ==> a.collectedAt == b.collectedAt
    ensures a == b
  {
    var r, s := EventToRow(a), EventToRow(b);
    assert r[0] == s[0] && r[1] == s[1] && r[2] == s[2] && r[3] == s[3] && r[4] == s[4] && r[5] == s[5] && r[6] == s[6];
    assert r[7] == s[7] && r[8] == s[8] && r[9] == s[9] && r[10] == s[10] && r[11] == s[11] && r[12] == s[12];
  }

  ghost predicate HoldsEnvelope(row: Row, e: Event) {
    && ("event_id", Str(e.eventId)) in row && ("event_type", Str(e.eventType)) in row
    && ("schema_version", Str(e.schemaVersion)) in row && ("source", Str(e.source)) in row
    && ("produced_at", Str(e.producedAt.iso)) in row && ("collected_at", Str(e.collectedAt.iso)) in row
  }

  ghost predicate HoldsProduct(row: Row, e: Event) {
    && ("external_id", Str(e.externalId)) in row && ("name", Str(e.name)) in row && ("url", Str(e.url)) in row
    && ("price", if e.price.None? then Null else Str(e.price.value)) in row && ("currency", Str(e.currency)) in row
    && ("availability", Str(e.availability)) in row && ("category", Str(e.category)) in row
  }

  /** The row holds each field of the event under its own column name, and nothing else. */
  ghost predicate HoldsEvent(row: Row, e: Event) {
    IsDict(row) && |row| == 13 && HoldsEnvelope(row, e) && HoldsProduct(row, e)
  }

  lemma RowIsDict(e: Event)
    ensures IsDict(EventToRow(e)) && |EventToRow(e)| == 13
  {
    var r := EventToRow(e);
    BronzeNamesDistinct();
    assert forall i :: 0 <= i < 13 ==> r[i].0 == BRONZE_SCHEMA[i].name;
    forall i, j | 0 <= i < j < 13 ensures r[i].0 != r[j].0 {
      assert BRONZE_SCHEMA[i].name != BRONZE_SCHEMA[j].name;
    }
  }

  lemma RowHoldsEnvelope(e: Event)
    ensures HoldsEnvelope(EventToRow(e), e)
  {
    var r := EventToRow(e);
    assert r[0] in r && r[1] in r && r[2] in r && r[3] in r && r[4] in r && r[12] in r;
  }

  lemma RowHoldsProduct(e: Event)
    ensures HoldsProduct(EventToRow(e), e)
  {
    var r := EventToRow(e);
    assert r[5] in r && r[6] in r && r[7] in r && r[8] in r && r[9] in r && r[10] in r && r[11] in r;
  }

  /** Read by column name, the Bronze row gives back every field. */
  lemma RowHoldsEvent(e: Event)
    ensures HoldsEvent(EventToRow(e), e)
  {
    RowIsDict(e);
    RowHoldsEnvelope(e);
    RowHoldsProduct(e);
  }
}
