/** Append-only custody of annotation records: bounded batches, each imported as a whole or not at all. */
module AnnotationStore {
  import opened Wrappers

  const MAX_BATCH_RECORDS: nat := 4096
  const MAX_RECORD_BYTES: nat := 8 * 1024 * 1024
  const MAX_TOTAL_BYTES: nat := 64 * 1024 * 1024
  const MAX_RECORDS: nat := 100_000

  datatype Kind = Original | Adjudication

  /** A record as its canonical bytes hold it; `size` is their number, and equal bytes are equal records. */
  datatype Record = Record(id: string, kind: Kind, taskId: string, body: int, size: nat)

  datatype Row = Row(record: Record, receivedAt: int)

  datatype Error = InvalidRecord | TooLarge | DuplicateId | Conflict

  datatype Receipt = Receipt(inserted: nat, duplicates: nat)

  /** What a caller hands in: a value that is no record is `None`. */
  type Batch = seq<Option<Record>>

  function Total(records: seq<Record>): nat {
    if records == [] then 0 else Total(records[..|records| - 1]) + records[|records| - 1].size
  }

  function Records(rows: seq<Row>): (records: seq<Record>)
    ensures |records| == |rows|
    ensures forall i | 0 <= i < |rows| :: records[i] == rows[i].record
  {
    seq(|rows|, i requires 0 <= i < |rows| => rows[i].record)
  }

  /** The row of an identifier, if there is one. */
  function Find(rows: seq<Row>, id: string): (r: Option<Row>)
    ensures r.Some? ==> r.value in rows && r.value.record.id == id
    ensures r.None? ==> forall row | row in rows :: row.record.id != id
  {
    if rows == [] then None
    else if rows[|rows| - 1].record.id == id then Some(rows[|rows| - 1])
    else Find(rows[..|rows| - 1], id)
  }

  predicate DistinctIds(records: seq<Record>) {
    forall i, j | 0 <= i < j < |records| :: records[i].id != records[j].id
  }

  /** The limits and the primary key, in every reachable store. */
  predicate StoreOk(rows: seq<Row>) {
    && |rows| <= MAX_RECORDS && Total(Records(rows)) <= MAX_TOTAL_BYTES
    && (forall row | row in rows :: row.record.size <= MAX_RECORD_BYTES)
    && DistinctIds(Records(rows))
  }

  /** The records of a batch the store does not hold yet, in order. */
  function New(rows: seq<Row>, records: seq<Record>): seq<Record> {
    if records == [] then []
    else
      var front := New(rows, records[..|records| - 1]);
      if Find(rows, records[|records| - 1].id).Some? then front else front + [records[|records| - 1]]
  }

  predicate Agrees(rows: seq<Row>, r: Record) {
    Find(rows, r.id).Some? ==> Find(rows, r.id).value.record == r
  }

  predicate AllRecords(batch: Batch) {
    forall i | 0 <= i < |batch| :: batch[i].Some? && batch[i].value.size <= MAX_RECORD_BYTES
  }

  function Unwrapped(batch: Batch): (records: seq<Record>)
    requires AllRecords(batch)
    ensures |records| == |batch|
    ensures forall i | 0 <= i < |batch| :: records[i] == batch[i].value
  {
    seq(|batch|, i requires 0 <= i < |batch| => batch[i].value)
  }

  /** A batch of records that the limits on batches let through, whatever the store holds. */
  predicate Presentable(batch: Batch) {
    |batch| <= MAX_BATCH_RECORDS && AllRecords(batch) && DistinctIds(Unwrapped(batch))
  }

  /** A batch the store can take: no identifier with another record, and room for what is new. */
  predicate Fits(rows: seq<Row>, records: seq<Record>) {
    && (forall r | r in records :: Agrees(rows, r))
    && |rows| + |New(rows, records)| <= MAX_RECORDS
    && Total(Records(rows)) + Total(New(rows, records)) <= MAX_TOTAL_BYTES
  }

  /** The up-front limit on a batch's bytes is no part of this. */
  predicate Acceptable(rows: seq<Row>, batch: Batch) {
    Presentable(batch) && Fits(rows, Unwrapped(batch))
  }

  // ----- sums of sizes ------------------------------------------------------------------------

  lemma {:induction false} TotalPlus(xs: seq<Record>, ys: seq<Record>)
    ensures Total(xs + ys) == Total(xs) + Total(ys)
  {
    if ys == [] {
      assert xs + ys == xs;
    } else {
      assert (xs + ys)[..|xs + ys| - 1] == xs + ys[..|ys| - 1];
      TotalPlus(xs, ys[..|ys| - 1]);
    }
  }

  lemma TotalSnoc(xs: seq<Record>, r: Record)
    ensures Total(xs + [r]) == Total(xs) + r.size
  {
    assert (xs + [r])[..|xs|] == xs;
  }

  lemma TotalWithout(xs: seq<Record>, k: nat)
    requires k < |xs|
    ensures Total(xs) == Total(xs[..k] + xs[k + 1..]) + xs[k].size
  {
    hide Total;
    assert xs == xs[..k] + [xs[k]] + xs[k + 1..];
    TotalPlus(xs[..k] + [xs[k]], xs[k + 1..]);
    TotalSnoc(xs[..k], xs[k]);
    TotalPlus(xs[..k], xs[k + 1..]);
  }

  /** Distinct records found in a list weigh no more than the list. */
  lemma {:induction false} TotalOfPart(part: seq<Record>, all: seq<Record>)
    requires DistinctIds(part) && forall r | r in part :: r in all
    ensures Total(part) <= Total(all)
  {
    if part != [] {
      var front, last := part[..|part| - 1], part[|part| - 1];
      assert last in all;
      var k :| 0 <= k < |all| && all[k] == last;
      var rest := all[..k] + all[k + 1..];
      forall r | r in front ensures r in rest {
        assert r in all && r != last;
      }
      TotalOfPart(front, rest);
      TotalWithout(all, k);
    }
  }

  /** A batch the store can take is no heavier than the store's whole byte budget. */
  lemma FittingBatchIsLight(rows: seq<Row>, records: seq<Record>)
    requires Fits(rows, records) && DistinctIds(records)
    ensures Total(records) <= MAX_TOTAL_BYTES
  {
    var after := Records(rows) + New(rows, records);
    forall r | r in records ensures r in after {
      NewMembers(rows, records);
      if Find(rows, r.id).Some? {
        assert Agrees(rows, r);
        var k :| 0 <= k < |rows| && rows[k] == Find(rows, r.id).value;
        assert Records(rows)[k] == r;
      }
    }
    TotalOfPart(records, after);
    TotalPlus(Records(rows), New(rows, records));
  }

  lemma {:induction false} NewMembers(rows: seq<Row>, records: seq<Record>)
    ensures forall r :: r in New(rows, records) <==> r in records && Find(rows, r.id).None?
    ensures |New(rows, records)| <= |records|
  {
    if records != [] {
      NewMembers(rows, records[..|records| - 1]);
      assert records == records[..|records| - 1] + [records[|records| - 1]];
    }
  }

  // ----- one batch ------------------------------------------------------------------------------

  /** The new records, received in order at the given times. */
  function Received(records: seq<Record>, times: seq<int>): (rows: seq<Row>)
    requires |records| <= |times|
    ensures |rows| == |records|
    ensures forall i | 0 <= i < |rows| :: rows[i] == Row(records[i], times[i])
  {
    seq(|records|, i requires 0 <= i < |records| => Row(records[i], times[i]))
  }

  /** A record whose identifier came before makes the batch unpresentable. */
  lemma RepeatedId(batch: Batch, front: seq<Record>, i: nat)
    requires |front| == i < |batch| && batch[i].Some? && forall k | 0 <= k < i :: batch[k] == Some(front[k])
    requires exists p :: p in front && p.id == batch[i].value.id
    ensures !Presentable(batch)
  {
    var p :| p in front && p.id == batch[i].value.id;
    var k :| 0 <= k < i && front[k] == p;
    assert AllRecords(batch) ==> Unwrapped(batch)[k].id == Unwrapped(batch)[i].id;
  }

  lemma FreshId(front: seq<Record>, record: Record)
    requires DistinctIds(front) && record.id !in set p | p in front :: p.id
    ensures DistinctIds(front + [record])
    ensures (set p | p in front + [record] :: p.id) == (set p | p in front :: p.id) + {record.id}
  {
    var all := front + [record];
    forall i, j | 0 <= i < j < |all| ensures all[i].id != all[j].id {
      assert all[i] in front;
    }
  }

  /** The checks made before the transaction, one record at a time. */
  method PrepareBatch(batch: Batch) returns (r: Result<seq<Record>, Error>)
    ensures r.Ok? <==> Presentable(batch) && Total(Unwrapped(batch)) <= MAX_TOTAL_BYTES
    ensures r.Ok? ==> r.value == Unwrapped(batch) && |r.value| == |batch|
  {
    if |batch| > MAX_BATCH_RECORDS {
      return Err(TooLarge);
    }
    NothingWeighsNothing();
    hide Total, Unwrapped, DistinctIds;
    var prepared: seq<Record>, known: set<string>, total := [], {}, 0;
    for i := 0 to |batch|
      invariant |prepared| == i && forall k | 0 <= k < i ::
        batch[k] == Some(prepared[k]) && prepared[k].size <= MAX_RECORD_BYTES
      invariant DistinctIds(prepared) && known == set p | p in prepared :: p.id
      invariant total == Total(prepared) <= MAX_TOTAL_BYTES
    {
      if batch[i].None? {
        return Err(InvalidRecord);
      }
      var record := batch[i].value;
      if record.size > MAX_RECORD_BYTES {
        return Err(TooLarge);
      }
      total := total + record.size;
      TotalSnoc(prepared, record);
      if total > MAX_TOTAL_BYTES {
        if AllRecords(batch) {
          HeavyPrefix(batch, prepared + [record]);
        }
        return Err(TooLarge);
      }
      if record.id in known {
        RepeatedId(batch, prepared, i);
        return Err(DuplicateId);
      }
      FreshId(prepared, record);
      known := known + {record.id};
      prepared := prepared + [record];
    }
    assert AllRecords(batch) && prepared == Unwrapped(batch);
    return Ok(prepared);
  }

  lemma NothingWeighsNothing()
    ensures Total([]) == 0
  {
  }

  lemma HeavyPrefix(batch: Batch, front: seq<Record>)
    requires |front| <= |batch| && forall k | 0 <= k < |front| :: batch[k] == Some(front[k])
    requires AllRecords(batch)
    ensures Total(front) <= Total(Unwrapped(batch))
  {
    var all := Unwrapped(batch);
    assert all == front + all[|front|..];
    TotalPlus(front, all[|front|..]);
  }

  /** What an accepted batch makes of the rows. */
  function Appended(rows: seq<Row>, records: seq<Record>, times: seq<int>): seq<Row>
    requires |New(rows, records)| <= |times|
  {
    rows + Received(New(rows, records), times)
  }

  lemma NewStep(rows: seq<Row>, records: seq<Record>, i: nat)
    requires i < |records|
    ensures New(rows, records[..i + 1]) ==
      if Find(rows, records[i].id).Some? then New(rows, records[..i]) else New(rows, records[..i]) + [records[i]]
  {
    assert records[..i + 1][..i] == records[..i];
  }

  lemma {:induction false} NewPrefix(rows: seq<Row>, records: seq<Record>, i: nat)
    requires i <= |records|
    ensures New(rows, records[..i]) <= New(rows, records)
    ensures Total(New(rows, records[..i])) <= Total(New(rows, records))
    decreases |records| - i
  {
    hide New, Total, Find;
    if i == |records| {
      assert records[..i] == records;
    } else {
      NewPrefix(rows, records, i + 1);
      NewStep(rows, records, i);
      TotalSnoc(New(rows, records[..i]), records[i]);
    }
  }

  /** Looking up a record of the batch sees through the rows that the batch itself added. */
  lemma {:induction false} FindThrough(rows: seq<Row>, more: seq<Row>, id: string)
    requires forall row | row in more :: row.record.id != id
    ensures Find(rows + more, id) == Find(rows, id)
  {
    if more == [] {
      assert rows + more == rows;
    } else {
      assert (rows + more)[..|rows + more| - 1] == rows + more[..|more| - 1];
      FindThrough(rows, more[..|more| - 1], id);
    }
  }

  lemma AppendedStep(before: seq<Row>, records: seq<Record>, i: nat, times: seq<int>)
    requires i < |records| <= |times|
    ensures |New(before, records[..i])| <= i && |New(before, records[..i + 1])| <= i + 1
    ensures Appended(before, records[..i + 1], times) == Appended(before, records[..i], times)
      + if Find(before, records[i].id).Some? then [] else [Row(records[i], times[|New(before, records[..i])|])]
  {
    hide New, Find;
    NewMembers(before, records[..i]);
    NewMembers(before, records[..i + 1]);
    NewStep(before, records, i);
  }

  lemma NothingNew(before: seq<Row>, times: seq<int>)
    ensures New(before, []) == [] && Appended(before, [], times) == before && Total([]) == 0
  {
  }

  /** The limits and the key hold after every accepted batch. */
  lemma AppendedIsOk(rows: seq<Row>, records: seq<Record>, times: seq<int>)
    requires StoreOk(rows) && DistinctIds(records) && Fits(rows, records) && |records| <= |times|
    requires forall r | r in records :: r.size <= MAX_RECORD_BYTES
    ensures |New(rows, records)| <= |times| && StoreOk(Appended(rows, records, times))
  {
    hide Total, New, Find;
    NewMembers(rows, records);
    NewDistinct(rows, records);
    var after := Appended(rows, records, times);
    assert Records(after) == Records(rows) + New(rows, records);
    TotalPlus(Records(rows), New(rows, records));
    forall i, j | 0 <= i < j < |after| ensures Records(after)[i].id != Records(after)[j].id {
      if i < |rows| <= j {
        assert New(rows, records)[j - |rows|] in New(rows, records) && rows[i] in rows;
      } else if j < |rows| {
        assert Records(rows)[i].id != Records(rows)[j].id;
      } else {
        assert New(rows, records)[i - |rows|].id != New(rows, records)[j - |rows|].id;
      }
    }
    forall row | row in after ensures row.record.size <= MAX_RECORD_BYTES {
      if row !in rows {
        assert row.record in New(rows, records);
      }
    }
  }

  lemma {:induction false} NewDistinct(rows: seq<Row>, records: seq<Record>)
    requires DistinctIds(records)
    ensures DistinctIds(New(rows, records))
  {
    if records != [] {
      var front := records[..|records| - 1];
      NewDistinct(rows, front);
      NewMembers(rows, front);
      forall r | r in New(rows, front) ensures r.id != records[|records| - 1].id {
        assert r in front;
      }
    }
  }

  /** What an import that went through has done. */
  predicate Imported(before: seq<Row>, records: seq<Record>, times: seq<int>, after: seq<Row>, receipt: Receipt) {
    && |New(before, records)| <= |times|
    && after == Appended(before, records, times)
    && receipt.inserted == |New(before, records)| && receipt.inserted + receipt.duplicates == |records|
  }

  class Store {
    var rows: seq<Row>

    ghost predicate Valid()
      reads this
    {
      StoreOk(rows)
    }

    constructor ()
      ensures Valid() && rows == []
    {
      rows := [];
    }

    /** Imports the whole batch or nothing; succeeds on exactly the acceptable batches. `times` are the clock's
        readings. */
    method Append(batch: Batch, times: seq<int>) returns (r: Result<Receipt, Error>)
      requires Valid() && |times| >= |batch|
      modifies this
      ensures Valid()
      ensures r.Ok? <==> Acceptable(old(rows), batch)
      ensures r.Err? ==> rows == old(rows)
      ensures r.Ok? ==> Imported(old(rows), Unwrapped(batch), times, rows, r.value)
    {
      var prepared := PrepareBatch(batch);
      if prepared.Err? {
        if Acceptable(rows, batch) {
          FittingBatchIsLight(rows, Unwrapped(batch));
        }
        return Err(prepared.error);
      }
      r := Insert(prepared.value, times);
    }

    /** The transaction: on any refusal the rows are rolled back. */
    method Insert(records: seq<Record>, times: seq<int>) returns (r: Result<Receipt, Error>)
      requires Valid() && |times| >= |records| && DistinctIds(records)
      requires forall k | k in records :: k.size <= MAX_RECORD_BYTES
      modifies this
      ensures Valid()
      ensures r.Ok? <==> Fits(old(rows), records)
      ensures r.Err? ==> rows == old(rows)
      ensures r.Ok? ==> Imported(old(rows), records, times, rows, r.value)
    {
      hide New, Total, Find, Appended;
      var before, count, total := rows, |rows|, Total(Records(rows));
      var inserted, duplicates := 0, 0;
      NothingNew(before, times);
      for i := 0 to |records|
        invariant inserted == |New(before, records[..i])| <= i && inserted + duplicates == i
        invariant rows == Appended(before, records[..i], times)
        invariant total == Total(Records(before)) + Total(New(before, records[..i])) <= MAX_TOTAL_BYTES
        invariant count + inserted <= MAX_RECORDS
        invariant forall k | 0 <= k < i :: Agrees(before, records[k])
      {
        NewStep(before, records, i);
        NewPrefix(before, records, i + 1);
        AppendedStep(before, records, i, times);
        LookupSees(before, rows, records, i, times);
        TotalSnoc(New(before, records[..i]), records[i]);
        var existing := Find(rows, records[i].id);
        if existing.Some? {
          if existing.value.record != records[i] {
            rows := before;
            assert !Agrees(before, records[i]) && records[i] in records;
            return Err(Conflict);
          }
          duplicates := duplicates + 1;
        } else {
          if count + inserted + 1 > MAX_RECORDS || total + records[i].size > MAX_TOTAL_BYTES {
            rows := before;
            return Err(TooLarge);
          }
          rows := rows + [Row(records[i], times[inserted])];
          inserted := inserted + 1;
          total := total + records[i].size;
        }
      }
      assert records[..|records|] == records;
      AppendedIsOk(before, records, times);
      r := Ok(Receipt(inserted, duplicates));
    }
  }

  lemma LookupSees(before: seq<Row>, rows: seq<Row>, records: seq<Record>, i: nat, times: seq<int>)
    requires i < |records| && DistinctIds(records)
    requires |New(before, records[..i])| <= |times| && rows == Appended(before, records[..i], times)
    ensures Find(rows, records[i].id) == Find(before, records[i].id)
  {
    var more := Received(New(before, records[..i]), times);
    NewMembers(before, records[..i]);
    forall row | row in more ensures row.record.id != records[i].id {
      assert row.record in New(before, records[..i]);
    }
    FindThrough(before, more, records[i].id);
  }

  // ----- whole histories of batches --------------------------------------------------------------

  datatype Call = Call(batch: Batch, times: seq<int>)

  predicate Timed(calls: seq<Call>) {
    forall c | c in calls :: |c.times| >= |c.batch|
  }

  function Step(rows: seq<Row>, c: Call): seq<Row>
    requires |c.times| >= |c.batch|
  {
    if Acceptable(rows, c.batch) then
      NewMembers(rows, Unwrapped(c.batch));
      Appended(rows, Unwrapped(c.batch), c.times)
    else rows
  }

  /** The rows after any calls, accepted or refused. */
  function After(rows: seq<Row>, calls: seq<Call>): seq<Row>
    requires Timed(calls)
  {
    if calls == [] then rows else Step(After(rows, calls[..|calls| - 1]), calls[|calls| - 1])
  }

  /** Limits and key hold in every reachable store, and rows are only ever added at the end. */
  lemma {:induction false} EveryStoreIsOk(rows: seq<Row>, calls: seq<Call>)
    requires Timed(calls) && StoreOk(rows)
    ensures StoreOk(After(rows, calls)) && rows <= After(rows, calls)
  {
    if calls != [] {
      var c, front := calls[|calls| - 1], calls[..|calls| - 1];
      EveryStoreIsOk(rows, front);
      if Acceptable(After(rows, front), c.batch) {
        AppendedIsOk(After(rows, front), Unwrapped(c.batch), c.times);
      }
    }
  }

  lemma {:induction false} FindFirst(rows: seq<Row>, k: nat)
    requires DistinctIds(Records(rows)) && k < |rows|
    ensures Find(rows, rows[k].record.id) == Some(rows[k])
  {
    var found := Find(rows, rows[k].record.id);
    assert rows[k] in rows && found.Some?;
    var j :| 0 <= j < |rows| && rows[j] == found.value;
    assert Records(rows)[j].id == Records(rows)[k].id;
  }

  /** No later batch, accepted or not, changes what an identifier stands for or when it was received. */
  lemma RecordsNeverChange(rows: seq<Row>, calls: seq<Call>, id: string)
    requires Timed(calls) && StoreOk(rows) && Find(rows, id).Some?
    ensures Find(After(rows, calls), id) == Find(rows, id)
  {
    EveryStoreIsOk(rows, calls);
    var k :| 0 <= k < |rows| && rows[k] == Find(rows, id).value;
    assert After(rows, calls)[k] == rows[k];
    FindFirst(After(rows, calls), k);
  }

  lemma {:induction false} NothingNewIn(rows: seq<Row>, records: seq<Record>)
    requires forall r | r in records :: Find(rows, r.id).Some?
    ensures New(rows, records) == []
  {
    if records != [] {
      NothingNewIn(rows, records[..|records| - 1]);
    }
  }

  /** Once a batch was accepted, presenting it again at any later time succeeds and inserts nothing, even in a full
      store. */
  lemma AppendingAgainIsNothing(rows: seq<Row>, c: Call, later: seq<Call>, again: Call)
    requires StoreOk(rows) && Timed([c] + later + [again]) && again.batch == c.batch
    requires Acceptable(rows, c.batch)
    ensures Timed(later) && |c.times| >= |c.batch|
    ensures var full := After(Step(rows, c), later);
      && Acceptable(full, c.batch) && New(full, Unwrapped(c.batch)) == []
      && |again.times| >= |again.batch| && Step(full, again) == full
  {
    assert c in [c] + later + [again] && again in [c] + later + [again];
    assert Timed(later) by {
      forall x | x in later ensures x in [c] + later + [again] {
      }
    }
    var records, taken := Unwrapped(c.batch), Step(rows, c);
    AppendedIsOk(rows, records, c.times);
    EveryStoreIsOk(taken, later);
    var full := After(taken, later);
    forall r | r in records ensures Find(full, r.id) == Find(taken, r.id) && Find(full, r.id).Some? && Agrees(full, r) {
      TakenIsThere(rows, records, c.times, r);
      RecordsNeverChange(taken, later, r.id);
    }
    NothingNewIn(full, records);
  }

  lemma TakenIsThere(rows: seq<Row>, records: seq<Record>, times: seq<int>, r: Record)
    requires StoreOk(rows) && DistinctIds(records) && Fits(rows, records) && |records| <= |times| && r in records
    requires forall k | k in records :: k.size <= MAX_RECORD_BYTES
    requires |New(rows, records)| <= |times|
    ensures var taken := Appended(rows, records, times);
      Find(taken, r.id).Some? && Find(taken, r.id).value.record == r
  {
    var taken := Appended(rows, records, times);
    AppendedIsOk(rows, records, times);
    NewMembers(rows, records);
    if Find(rows, r.id).Some? {
      assert Agrees(rows, r);
      var k :| 0 <= k < |rows| && rows[k] == Find(rows, r.id).value;
      assert taken[k] == rows[k];
      FindFirst(taken, k);
    } else {
      assert r in New(rows, records);
      var k :| 0 <= k < |New(rows, records)| && New(rows, records)[k] == r;
      assert taken[|rows| + k].record == r;
      FindFirst(taken, |rows| + k);
    }
  }
}
