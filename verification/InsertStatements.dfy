/** The multi-row INSERT statements of the trip repositories: numbered placeholders on one side, one flat parameter
    array on the other. */
module InsertStatements {
  import opened Base
  import opened TripTracking

  /** A bound SQL parameter. */
  datatype Value =
    | Id(id: nat)
    | RoleName(role: Role)
    | Number(number: real)
    | Instant(instant: nat)
    | Json(location: Location)
    | Null

  const TRACK_COLUMNS := 8
  const SUMMARY_COLUMNS := 5

  function TrackFields(row: TrackRow): (fields: seq<Value>)
    ensures |fields| == TRACK_COLUMNS
  {
    [Id(row.ride), Id(row.client), RoleName(row.role), Number(row.point.longitude), Number(row.point.latitude),
     Number(row.deltaMeters), Number(row.totalMeters), Instant(row.recordedAt)]
  }

  datatype SummaryUpsert = SummaryUpsert(
    ride: RideId, client: ClientId, role: Role, payload: Option<Location>, totalMeters: Option<real>)

  function SummaryFields(s: SummaryUpsert): (fields: seq<Value>)
    ensures |fields| == SUMMARY_COLUMNS
  {
    [Id(s.ride), Id(s.client), RoleName(s.role),
     if s.payload.Some? then Json(s.payload.value) else Null,
     if s.totalMeters.Some? then Number(s.totalMeters.value) else Null]
  }

  /** The placeholder numbers of row `index`: $(w*index + 1) to $(w*index + w). */
  function Placeholders(index: nat, w: nat): seq<nat> {
    seq(w, j requires 0 <= j < w => w * index + j + 1)
  }

  /** What the database binds to placeholder number `n`. */
  function Bound(parameters: seq<Value>, n: nat): Option<Value> {
    if 1 <= n <= |parameters| then Some(parameters[n - 1]) else None
  }

  /** The rows of a statement as the database reads them. */
  function BoundRows(values: seq<seq<nat>>, parameters: seq<Value>): (rows: seq<seq<Option<Value>>>)
    ensures |rows| == |values|
  {
    seq(|values|, i requires 0 <= i < |values| =>
      seq(|values[i]|, j requires 0 <= j < |values[i]| => Bound(parameters, values[i][j])))
  }

  /** Placeholder `j` of row `i` is $(w*i + j + 1) and binds field `j` of record `i`. */
  predicate BindsField(values: seq<seq<nat>>, parameters: seq<Value>, records: seq<seq<Value>>, w: nat, i: nat, j: nat) {
    && i < |values| && i < |records| && |values[i]| == w && |records[i]| == w && j < w
    && values[i][j] == w * i + j + 1
    && Bound(parameters, values[i][j]) == Some(records[i][j])
  }

  ghost predicate BindsEveryField(values: seq<seq<nat>>, parameters: seq<Value>, records: seq<seq<Value>>, w: nat) {
    && |values| == |records| && |parameters| == w * |records|
    && forall i: nat, j: nat :: i < |records| && j < w ==> BindsField(values, parameters, records, w, i, j)
  }

  lemma OneMoreRecord(values: seq<seq<nat>>, parameters: seq<Value>, records: seq<seq<Value>>, record: seq<Value>, w: nat)
    requires BindsEveryField(values, parameters, records, w) && |record| == w
    ensures BindsEveryField(values + [Placeholders(|records|, w)], parameters + record, records + [record], w)
  {
    var n := |records|;
    assert w * (n + 1) == w * n + w;
    forall i: nat, j: nat | i < n + 1 && j < w
      ensures BindsField(values + [Placeholders(n, w)], parameters + record, records + [record], w, i, j)
    {
      if i < n {
        assert BindsField(values, parameters, records, w, i, j);
      } else {
        assert (parameters + record)[w * n + j] == record[j];
      }
    }
  }

  function AllTrackFields(entries: seq<TrackRow>): (records: seq<seq<Value>>)
    ensures |records| == |entries| && forall i :: 0 <= i < |entries| ==> records[i] == TrackFields(entries[i])
  {
    seq(|entries|, i requires 0 <= i < |entries| => TrackFields(entries[i]))
  }

  function AllSummaryFields(summaries: seq<SummaryUpsert>): (records: seq<seq<Value>>)
    ensures |records| == |summaries| && forall i :: 0 <= i < |summaries| ==> records[i] == SummaryFields(summaries[i])
  {
    seq(|summaries|, i requires 0 <= i < |summaries| => SummaryFields(summaries[i]))
  }

  method BuildInsertManyStatement(entries: seq<TrackRow>) returns (values: seq<seq<nat>>, parameters: seq<Value>)
    ensures BindsEveryField(values, parameters, AllTrackFields(entries), TRACK_COLUMNS)
  {
    values, parameters := [], [];
    for index := 0 to |entries|
      invariant BindsEveryField(values, parameters, AllTrackFields(entries[..index]), TRACK_COLUMNS)
    {
      var entry := entries[index];
      OneMoreRecord(values, parameters, AllTrackFields(entries[..index]), TrackFields(entry), TRACK_COLUMNS);
      assert AllTrackFields(entries[..index + 1]) == AllTrackFields(entries[..index]) + [TrackFields(entry)];
      values := values + [Placeholders(index, TRACK_COLUMNS)];
      parameters := parameters + TrackFields(entry);
    }
    assert entries[..|entries|] == entries;
  }

  method BuildUpsertSummaries(summaries: seq<SummaryUpsert>) returns (values: seq<seq<nat>>, parameters: seq<Value>)
    ensures BindsEveryField(values, parameters, AllSummaryFields(summaries), SUMMARY_COLUMNS)
  {
    values, parameters := [], [];
    for index := 0 to |summaries|
      invariant BindsEveryField(values, parameters, AllSummaryFields(summaries[..index]), SUMMARY_COLUMNS)
    {
      var summary := summaries[index];
      OneMoreRecord(values, parameters, AllSummaryFields(summaries[..index]), SummaryFields(summary), SUMMARY_COLUMNS);
      assert AllSummaryFields(summaries[..index + 1]) == AllSummaryFields(summaries[..index]) + [SummaryFields(summary)];
      values := values + [Placeholders(index, SUMMARY_COLUMNS)];
      parameters := parameters + SummaryFields(summary);
    }
    assert summaries[..|summaries|] == summaries;
  }

  // ----- reading a statement back -----

  function DecodeTrack(fields: seq<Option<Value>>): Option<TrackRow> {
    if |fields| == TRACK_COLUMNS && (forall j :: 0 <= j < TRACK_COLUMNS ==> fields[j].Some?)
       && fields[0].value.Id? && fields[1].value.Id? && fields[2].value.RoleName? && fields[3].value.Number?
       && fields[4].value.Number? && fields[5].value.Number? && fields[6].value.Number? && fields[7].value.Instant?
    then
      Some(TrackRow(fields[0].value.id, fields[1].value.id, fields[2].value.role,
                    Point(fields[3].value.number, fields[4].value.number), fields[5].value.number,
                    fields[6].value.number, fields[7].value.instant))
    else None
  }

  function DecodeSummary(fields: seq<Option<Value>>): Option<SummaryUpsert> {
    if |fields| == SUMMARY_COLUMNS && (forall j :: 0 <= j < SUMMARY_COLUMNS ==> fields[j].Some?)
       && fields[0].value.Id? && fields[1].value.Id? && fields[2].value.RoleName?
       && (fields[3].value.Json? || fields[3].value.Null?) && (fields[4].value.Number? || fields[4].value.Null?)
    then
      Some(SummaryUpsert(fields[0].value.id, fields[1].value.id, fields[2].value.role,
                         if fields[3].value.Json? then Some(fields[3].value.location) else None,
                         if fields[4].value.Number? then Some(fields[4].value.number) else None))
    else None
  }

  /** A statement whose placeholders bind every field inserts exactly the given entries, in order. */
  lemma TrackRoundTrip(values: seq<seq<nat>>, parameters: seq<Value>, entries: seq<TrackRow>)
    requires BindsEveryField(values, parameters, AllTrackFields(entries), TRACK_COLUMNS)
    ensures |values| == |entries|
    ensures forall i :: 0 <= i < |entries| ==> DecodeTrack(BoundRows(values, parameters)[i]) == Some(entries[i])
  {
    forall i | 0 <= i < |entries|
      ensures DecodeTrack(BoundRows(values, parameters)[i]) == Some(entries[i])
    {
      var row := BoundRows(values, parameters)[i];
      assert AllTrackFields(entries)[i] == TrackFields(entries[i]);
      assert BindsField(values, parameters, AllTrackFields(entries), TRACK_COLUMNS, i, 0);
      forall j | 0 <= j < TRACK_COLUMNS
        ensures row[j] == Some(TrackFields(entries[i])[j])
      {
        assert BindsField(values, parameters, AllTrackFields(entries), TRACK_COLUMNS, i, j);
      }
    }
  }

  lemma SummaryRoundTrip(values: seq<seq<nat>>, parameters: seq<Value>, summaries: seq<SummaryUpsert>)
    requires BindsEveryField(values, parameters, AllSummaryFields(summaries), SUMMARY_COLUMNS)
    ensures |values| == |summaries|
    ensures forall i :: 0 <= i < |summaries| ==> DecodeSummary(BoundRows(values, parameters)[i]) == Some(summaries[i])
  {
    forall i | 0 <= i < |summaries|
      ensures DecodeSummary(BoundRows(values, parameters)[i]) == Some(summaries[i])
    {
      var row := BoundRows(values, parameters)[i];
      assert AllSummaryFields(summaries)[i] == SummaryFields(summaries[i]);
      assert BindsField(values, parameters, AllSummaryFields(summaries), SUMMARY_COLUMNS, i, 0);
      forall j | 0 <= j < SUMMARY_COLUMNS
        ensures row[j] == Some(SummaryFields(summaries[i])[j])
      {
        assert BindsField(values, parameters, AllSummaryFields(summaries), SUMMARY_COLUMNS, i, j);
      }
    }
  }
}
