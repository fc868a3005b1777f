/** The durable event log: a table keyed by seq, with unique event ids. */
module EventLog {
  import opened Domain

  /** What the database does with an insert that violates no key. */
  datatype InsertOutcome = Succeeds | FailsClean | FailsStored

  /** Rows in key order, as the table's primary key stores them. */
  predicate Ordered(rows: seq<Event>) {
    forall i, j :: 0 <= i < j < |rows| ==> rows[i].seqNo < rows[j].seqNo
  }

  predicate DistinctIds(rows: seq<Event>) {
    forall i, j :: 0 <= i < j < |rows| ==> rows[i].id != rows[j].id
  }

  /** Exactly the sequence numbers 1..n, in order. */
  predicate GapFree(rows: seq<Event>) {
    forall i :: 0 <= i < |rows| ==> rows[i].seqNo == i + 1
  }

  predicate Clashes(rows: seq<Event>, evt: Event) {
    exists i :: 0 <= i < |rows| && (rows[i].seqNo == evt.seqNo || rows[i].id == evt.id)
  }

  function InsertOrdered(rows: seq<Event>, evt: Event): (result: seq<Event>)
    ensures multiset(result) == multiset(rows) + multiset{evt}
  {
    if rows == [] || rows[|rows| - 1].seqNo < evt.seqNo then
      rows + [evt]
    else
      var init, last := rows[..|rows| - 1], rows[|rows| - 1];
      assert rows == init + [last];
      InsertOrdered(init, evt) + [last]
  }

  lemma {:induction false} InsertKeepsKeys(rows: seq<Event>, evt: Event)
    requires Ordered(rows) && DistinctIds(rows) && !Clashes(rows, evt)
    ensures Ordered(InsertOrdered(rows, evt)) && DistinctIds(InsertOrdered(rows, evt))
  {
    if rows == [] || rows[|rows| - 1].seqNo < evt.seqNo {
    } else {
      var init, last := rows[..|rows| - 1], rows[|rows| - 1];
      InsertKeepsKeys(init, evt);
      var result := InsertOrdered(init, evt);
      forall i | 0 <= i < |result| ensures result[i].seqNo < last.seqNo && result[i].id != last.id {
        assert result[i] in multiset(init) + multiset{evt};
        assert result[i] == evt || result[i] in init;
      }
    }
  }

  function TableInsert(rows: seq<Event>, evt: Event, outcome: InsertOutcome): (seq<Event>, bool) {
    if Clashes(rows, evt) || outcome == FailsClean then
      (rows, false)
    else
      (InsertOrdered(rows, evt), outcome == Succeeds)
  }

  function MaxSeq(rows: seq<Event>): int {
    if rows == [] then 0 else rows[|rows| - 1].seqNo
  }

  /** The rows with seq >= fromSeq, in key order. */
  function From(rows: seq<Event>, fromSeq: int): seq<Event> {
    if rows == [] then []
    else
      var rest := From(rows[..|rows| - 1], fromSeq);
      var last := rows[|rows| - 1];
      if last.seqNo >= fromSeq then rest + [last] else rest
  }

  /** A range read takes each stretch of rows on its own and each row by its number alone, in key order. */
  lemma {:induction false} FromConcat(a: seq<Event>, b: seq<Event>, fromSeq: int)
    ensures From(a + b, fromSeq) == From(a, fromSeq) + From(b, fromSeq)
    decreases |b|
  {
    if b == [] {
      assert a + b == a;
    } else {
      FromConcat(a, b[..|b| - 1], fromSeq);
      assert (a + b)[..|a + b| - 1] == a + b[..|b| - 1];
    }
  }

  lemma FromOne(row: Event, fromSeq: int)
    ensures From([row], fromSeq) == if row.seqNo >= fromSeq then [row] else []
    ensures From([], fromSeq) == []
  {
    assert [row][..0] == [];
  }

  /** On a gap-free log a range read is a suffix: nothing skipped, nothing repeated. */
  lemma {:induction false} FromIsSuffix(rows: seq<Event>, fromSeq: int)
    requires GapFree(rows) && fromSeq >= 1
    ensures From(rows, fromSeq) == if fromSeq <= |rows| then rows[fromSeq - 1..|rows|] else []
  {
    if rows == [] {
    } else {
      FromIsSuffix(rows[..|rows| - 1], fromSeq);
    }
  }

  class EventStore {
    var rows: seq<Event>

    ghost predicate Valid()
      reads this
    {
      Ordered(rows) && DistinctIds(rows)
    }

    constructor (initial: seq<Event>)
      requires Ordered(initial) && DistinctIds(initial)
      ensures Valid() && rows == initial
    {
      rows := initial;
    }

    /** What the database does is given: any insert may fail, and a failed one may have stored its row. A key
        violation always fails and stores nothing. */
    method Insert(evt: Event, outcome: InsertOutcome) returns (ok: bool)
      requires Valid()
      modifies this
      ensures Valid()
      ensures (rows, ok) == TableInsert(old(rows), evt, outcome)
      ensures
        var taken := exists i :: 0 <= i < |old(rows)| && (old(rows)[i].seqNo == evt.seqNo || old(rows)[i].id == evt.id);
        && (ok <==> !taken && outcome == Succeeds)
        && (if taken || outcome == FailsClean then rows == old(rows)
            else multiset(rows) == multiset(old(rows)) + multiset{evt})
    {
      if Clashes(rows, evt) || outcome == FailsClean {
        return false;
      }
      InsertKeepsKeys(rows, evt);
      rows := InsertOrdered(rows, evt);
      ok := outcome == Succeeds;
    }

    /** Reads fail or return the whole range. */
    method EventsFromSeq(fromSeq: int, readable: bool) returns (result: Option<seq<Event>>)
      ensures result == if readable then Some(From(rows, fromSeq)) else None
    {
      if !readable {
        return None;
      }
      var out: seq<Event> := [];
      for i := 0 to |rows|
        invariant out == From(rows[..i], fromSeq)
      {
        assert rows[..i + 1][..i] == rows[..i];
        if rows[i].seqNo >= fromSeq {
          out := out + [rows[i]];
        }
      }
      assert rows[..|rows|] == rows;
      result := Some(out);
    }

    method LastSeq(readable: bool) returns (result: Option<int>)
      requires Valid()
      ensures result.Some? <==> readable
      ensures result.Some? ==>
        (rows == [] ==> result.value == 0) &&
        (rows != [] ==> exists i :: 0 <= i < |rows| && rows[i].seqNo == result.value) &&
        forall i :: 0 <= i < |rows| ==> rows[i].seqNo <= result.value
      ensures result.Some? ==> result.value == MaxSeq(rows)
    {
      if !readable {
        return None;
      }
      if |rows| > 0 {
        result := Some(rows[|rows| - 1].seqNo);
      } else {
        result := Some(0);
      }
    }
  }
}
