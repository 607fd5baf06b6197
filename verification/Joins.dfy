/** Joining starts to ends by key, one pass over a list of events: the loop the report's row
    builders share, and what its rows are. */
module Joins {
  import opened Values

  /** What one record is to a join. */
  datatype Event<K, R> = Start(key: K, start: R) | End(key: K, end: R) | Other

  /** One row: the record that started it, and the record that ended it, if one did. */
  datatype Row<K, R> = Row(key: K, start: R, end: Option<R>)

  predicate Has<K(==), R>(e: Event<K, R>, key: K) {
    !e.Other? && e.key == key
  }

  /** The last event under a key is a start. */
  predicate Open<K(==), R>(events: seq<Event<K, R>>, key: K) {
    if events == [] then false
    else if Has(Last(events), key) then Last(events).Start?
    else Open(Init(events), key)
  }

  /** Every end comes while its key is open. */
  predicate Paired<K(==), R>(events: seq<Event<K, R>>) {
    events != [] ==>
      Paired(Init(events)) && (Last(events).End? ==> Open(Init(events), Last(events).key))
  }

  /** The end of a start: the next event under its key, when that is an end. */
  function NextEnd<K(==), R>(events: seq<Event<K, R>>, key: K): Option<R> {
    if events == [] then None
    else if Has(events[0], key) then (if events[0].End? then Some(events[0].end) else None)
    else NextEnd(events[1..], key)
  }

  /** One row for each start, in order, with its end. */
  function Rows<K(==), R>(events: seq<Event<K, R>>): seq<Row<K, R>> {
    if events == [] then []
    else if events[0].Start? then
      [Row(events[0].key, events[0].start, NextEnd(events[1..], events[0].key))] + Rows(events[1..])
    else Rows(events[1..])
  }

  /** Whether some row, or some event, is under a key. */
  predicate Mentions<K(==), R>(events: seq<Event<K, R>>, key: K) {
    events != [] && (Has(events[0], key) || Mentions(events[1..], key))
  }

  /** The last row under a key, by position; the number of rows when there is none. */
  function LastRow<K(==), R>(rows: seq<Row<K, R>>, key: K): (i: nat)
    ensures i <= |rows| && (i < |rows| ==> rows[i].key == key)
  {
    if rows == [] then 0
    else if Last(rows).key == key then |rows| - 1
    else
      var i := LastRow(Init(rows), key);
      if i < |rows| - 1 then i else |rows|
  }

  function Ended<K, R>(row: Row<K, R>, end: R): Row<K, R> {
    Row(row.key, row.start, Some(end))
  }

  // ----------------------------------------------------- one event at a time

  lemma {:induction false} NextEndSnoc<K, R>(events: seq<Event<K, R>>, e: Event<K, R>, key: K)
    ensures NextEnd(events + [e], key)
            == if Mentions(events, key) then NextEnd(events, key)
               else if Has(e, key) && e.End? then Some(e.end) else None
  {
    if events != [] {
      assert (events + [e])[1..] == events[1..] + [e];
      NextEndSnoc(events[1..], e, key);
    } else {
      assert (events + [e])[1..] == [];
    }
  }

  lemma {:induction false} OpenCons<K, R>(events: seq<Event<K, R>>, key: K)
    requires events != []
    ensures Open(events, key)
            == if Mentions(events[1..], key) then Open(events[1..], key)
               else Has(events[0], key) && events[0].Start?
    decreases |events|
  {
    var tail := events[1..];
    if tail != [] {
      assert Init(events)[1..] == Init(tail) && Last(events) == Last(tail);
      assert Init(events)[0] == events[0];
      MentionsSnoc(Init(tail), Last(tail), key);
      assert Init(tail) + [Last(tail)] == tail;
      OpenCons(Init(events), key);
    } else {
      assert Init(events) == [];
    }
  }

  lemma {:induction false} MentionsSnoc<K, R>(events: seq<Event<K, R>>, e: Event<K, R>, key: K)
    ensures Mentions(events + [e], key) == (Mentions(events, key) || Has(e, key))
  {
    if events != [] {
      assert (events + [e])[1..] == events[1..] + [e];
      MentionsSnoc(events[1..], e, key);
    } else {
      assert (events + [e])[1..] == [];
    }
  }

  lemma {:induction false} RowsStart<K, R>(events: seq<Event<K, R>>, e: Event<K, R>)
    requires !e.End?
    ensures Rows(events + [e]) == if e.Start? then Rows(events) + [Row(e.key, e.start, None)] else Rows(events)
  {
    var all := events + [e];
    if events == [] {
      assert all[1..] == [];
    } else {
      assert all[1..] == events[1..] + [e];
      RowsStart(events[1..], e);
      if events[0].Start? {
        NextEndSnoc(events[1..], e, events[0].key);
        NoNextEnd(events[1..], events[0].key);
      }
    }
  }

  lemma {:induction false} NoNextEnd<K, R>(events: seq<Event<K, R>>, key: K)
    ensures !Mentions(events, key) ==> NextEnd(events, key).None?
  {
    if events != [] {
      NoNextEnd(events[1..], key);
    }
  }

  lemma {:induction false} LastRowCons<K, R>(row: Row<K, R>, rows: seq<Row<K, R>>, key: K)
    ensures LastRow([row] + rows, key)
            == if LastRow(rows, key) < |rows| then LastRow(rows, key) + 1
               else if row.key == key then 0 else |rows| + 1
    decreases |rows|
  {
    var all := [row] + rows;
    if rows != [] {
      assert Init(all) == [row] + Init(rows) && Last(all) == Last(rows);
      LastRowCons(row, Init(rows), key);
    } else {
      assert Init(all) == [];
    }
  }

  lemma {:induction false} RowsMentioned<K, R>(events: seq<Event<K, R>>, key: K)
    ensures LastRow(Rows(events), key) < |Rows(events)| ==> Mentions(events, key)
    ensures Open(events, key) ==> LastRow(Rows(events), key) < |Rows(events)|
    decreases |events|
  {
    if events != [] {
      RowsMentioned(events[1..], key);
      OpenCons(events, key);
      if events[0].Start? {
        LastRowCons(Row(events[0].key, events[0].start, NextEnd(events[1..], events[0].key)), Rows(events[1..]), key);
      }
    }
  }

  /** An end while its key is open ends the last row under the key, and no other. */
  lemma {:induction false} RowsEnd<K, R>(events: seq<Event<K, R>>, key: K, end: R)
    requires Open(events, key)
    ensures var rows, i := Rows(events), LastRow(Rows(events), key);
            i < |rows| && Rows(events + [End(key, end)]) == rows[i := Ended(rows[i], end)]
    decreases |events|
  {
    var e, tail := End(key, end), events[1..];
    var all := events + [e];
    assert all[1..] == tail + [e] && all[0] == events[0];
    OpenCons(events, key);
    RowsMentioned(events, key);
    if events[0].Start? {
      var row := Row(events[0].key, events[0].start, NextEnd(tail, events[0].key));
      LastRowCons(row, Rows(tail), key);
      NextEndSnoc(tail, e, events[0].key);
      NoNextEnd(tail, events[0].key);
    }
    if Mentions(tail, key) {
      RowsEnd(tail, key, end);
    } else {
      RowsMentioned(tail, key);
      RowsUnmoved(tail, key, end);
    }
  }

  lemma {:induction false} RowsUnmoved<K, R>(events: seq<Event<K, R>>, key: K, end: R)
    requires !Mentions(events, key)
    ensures Rows(events + [End(key, end)]) == Rows(events)
  {
    var e := End(key, end);
    if events == [] {
      assert (events + [e])[1..] == [];
    } else {
      assert (events + [e])[1..] == events[1..] + [e];
      RowsUnmoved(events[1..], key, end);
      if events[0].Start? {
        NextEndSnoc(events[1..], e, events[0].key);
        NoNextEnd(events[1..], events[0].key);
      }
    }
  }

  // ---------------------------------------------------------------- the loop

  predicate Started<K(==), R>(events: seq<Event<K, R>>, key: K) {
    events != [] && ((Last(events).Start? && Last(events).key == key) || Started(Init(events), key))
  }

  /** Every end comes after some start of its key. */
  predicate Begun<K(==), R>(events: seq<Event<K, R>>) {
    events != [] ==>
      Begun(Init(events)) && (Last(events).End? ==> Started(Init(events), Last(events).key))
  }

  lemma {:induction false} OpenStarted<K, R>(events: seq<Event<K, R>>, key: K)
    ensures Open(events, key) ==> Started(events, key)
  {
    if events != [] {
      OpenStarted(Init(events), key);
    }
  }

  /** A paired history answers every lookup of the loop. */
  lemma {:induction false} PairedBegun<K, R>(events: seq<Event<K, R>>)
    requires Paired(events)
    ensures Begun(events)
  {
    if events != [] {
      PairedBegun(Init(events));
      if Last(events).End? {
        OpenStarted(Init(events), Last(events).key);
      }
    }
  }

  /** The positions the loop keeps point at the last row under each key. */
  ghost predicate Points<K, R>(index: map<K, nat>, rows: seq<Row<K, R>>) {
    forall key :: key in index ==> index[key] < |rows| && index[key] == LastRow(rows, key)
  }

  lemma RowsNext<K, R>(before: seq<Event<K, R>>, e: Event<K, R>, rows: seq<Row<K, R>>, index: map<K, nat>)
    requires rows == Rows(before) && Points(index, rows)
    requires e.End? ==> Open(before, e.key) && e.key in index
    ensures Rows(before + [e])
            == match e
               case Start(key, start) => rows + [Row(key, start, None)]
               case End(key, end) => rows[index[key] := Ended(rows[index[key]], end)]
               case Other => rows
  {
    if e.End? {
      RowsEnd(before, e.key, e.end);
    } else {
      RowsStart(before, e);
    }
  }

  lemma PointsAppend<K, R>(index: map<K, nat>, rows: seq<Row<K, R>>, row: Row<K, R>)
    requires Points(index, rows)
    ensures Points(index[row.key := |rows|], rows + [row])
  {
    assert Init(rows + [row]) == rows;
  }

  lemma {:induction false} LastRowUpdate<K, R>(rows: seq<Row<K, R>>, i: nat, end: R, key: K)
    requires i < |rows|
    ensures LastRow(rows[i := Ended(rows[i], end)], key) == LastRow(rows, key)
  {
    var all := rows[i := Ended(rows[i], end)];
    if i < |rows| - 1 {
      assert Init(all) == Init(rows)[i := Ended(Init(rows)[i], end)];
      LastRowUpdate(Init(rows), i, end, key);
    } else {
      assert Init(all) == Init(rows);
    }
  }

  lemma PointsUpdate<K, R>(index: map<K, nat>, rows: seq<Row<K, R>>, i: nat, end: R)
    requires i < |rows| && Points(index, rows)
    ensures Points(index, rows[i := Ended(rows[i], end)])
  {
    forall key | key in index ensures LastRow(rows[i := Ended(rows[i], end)], key) == index[key] {
      LastRowUpdate(rows, i, end, key);
    }
  }

  /** The loop's variables after some events. */
  ghost predicate Joined<K(!new), R>(events: seq<Event<K, R>>, rows: seq<Row<K, R>>, index: map<K, nat>, pop: bool) {
    && Points(index, rows)
    && (Paired(events) ==> rows == Rows(events))
    && (if pop then Paired(events) && forall key :: key in index <==> Open(events, key)
        else Begun(events) && forall key :: key in index <==> Started(events, key))
  }

  function NextRows<K, R>(rows: seq<Row<K, R>>, index: map<K, nat>, e: Event<K, R>): seq<Row<K, R>>
    requires e.End? ==> e.key in index && index[e.key] < |rows|
  {
    match e
    case Start(key, start) => rows + [Row(key, start, None)]
    case End(key, end) => rows[index[key] := Ended(rows[index[key]], end)]
    case Other => rows
  }

  function NextIndex<K(==), R>(rows: seq<Row<K, R>>, index: map<K, nat>, e: Event<K, R>, pop: bool): map<K, nat> {
    match e
    case Start(key, start) => index[key := |rows|]
    case End(key, _) => if pop then index - {key} else index
    case Other => index
  }

  lemma JoinedNext<K(!new), R>(
      before: seq<Event<K, R>>, e: Event<K, R>, rows: seq<Row<K, R>>, index: map<K, nat>, pop: bool)
    requires Joined(before, rows, index, pop) && (e.End? ==> e.key in index)
    ensures Joined(before + [e], NextRows(rows, index, e), NextIndex(rows, index, e, pop), pop)
  {
    assert Init(before + [e]) == before && Last(before + [e]) == e;
    if Paired(before + [e]) {
      if e.End? {
        OpenStarted(before, e.key);
      }
      RowsNext(before, e, rows, index);
    }
    if e.Start? {
      PointsAppend(index, rows, Row(e.key, e.start, None));
    } else if e.End? {
      PointsUpdate(index, rows, index[e.key], e.end);
    }
  }

  /** The row builders' loop. A missing key is None: the source's KeyError. With `pop` a key's
      position is forgotten once its end is met. */
  method JoinRows<K(==, !new), R>(events: seq<Event<K, R>>, pop: bool) returns (r: Option<seq<Row<K, R>>>)
    ensures Paired(events) ==> r == Some(Rows(events))
    ensures r.Some? <==> if pop then Paired(events) else Begun(events)
  {
    var rows: seq<Row<K, R>> := [];
    var index: map<K, nat> := map[];
    var i := 0;
    while i < |events|
      invariant 0 <= i <= |events|
      invariant Joined(events[..i], rows, index, pop)
    {
      var e := events[i];
      assert events[..i + 1] == events[..i] + [e];
      if e.End? && e.key !in index {
        NotPaired(events, i, pop);
        return None;
      }
      JoinedNext(events[..i], e, rows, index, pop);
      match e {
        case Start(key, start) =>
          index := index[key := |rows|];
          rows := rows + [Row(key, start, None)];
        case End(key, end) =>
          rows := rows[index[key] := Ended(rows[index[key]], end)];
          if pop {
            index := index - {key};
          }
        case Other =>
      }
      i := i + 1;
    }
    assert events[..i] == events;
    if Paired(events) {
      PairedBegun(events);
    }
    return Some(rows);
  }

  /** One unanswered lookup settles it. */
  lemma {:induction false} NotPaired<K, R>(events: seq<Event<K, R>>, i: nat, pop: bool)
    requires i < |events| && events[i].End?
    requires if pop then !Open(events[..i], events[i].key) else !Started(events[..i], events[i].key)
    ensures !Paired(events) && (!pop ==> !Begun(events))
    decreases |events|
  {
    if i == |events| - 1 {
      assert Init(events) == events[..i];
    } else {
      assert Init(events)[..i] == events[..i] && Init(events)[i] == events[i];
      NotPaired(Init(events), i, pop);
    }
    OpenStarted(events[..i], events[i].key);
  }

  // -------------------------------------------------------------- the counts

  function Starts<K, R>(events: seq<Event<K, R>>): nat {
    if events == [] then 0 else Starts(Init(events)) + (if Last(events).Start? then 1 else 0)
  }

  function Ends<K, R>(events: seq<Event<K, R>>): nat {
    if events == [] then 0 else Ends(Init(events)) + (if Last(events).End? then 1 else 0)
  }

  function EndedRows<K, R>(rows: seq<Row<K, R>>): nat {
    if rows == [] then 0 else EndedRows(Init(rows)) + (if Last(rows).end.Some? then 1 else 0)
  }

  lemma {:induction false} EndOneRow<K, R>(rows: seq<Row<K, R>>, i: nat, end: R)
    requires i < |rows| && rows[i].end.None?
    ensures EndedRows(rows[i := Ended(rows[i], end)]) == EndedRows(rows) + 1
  {
    var all := rows[i := Ended(rows[i], end)];
    if i < |rows| - 1 {
      assert Init(all) == Init(rows)[i := Ended(Init(rows)[i], end)];
      EndOneRow(Init(rows), i, end);
    } else {
      assert Init(all) == Init(rows);
    }
  }

  lemma LastRowAppend<K, R>(rows: seq<Row<K, R>>, row: Row<K, R>, key: K)
    ensures LastRow(rows + [row], key)
            == if row.key == key then |rows|
               else if LastRow(rows, key) < |rows| then LastRow(rows, key) else |rows| + 1
  {
    assert Init(rows + [row]) == rows;
  }

  /** The last row under a key has no end exactly while the key is open. */
  lemma {:induction false} OpenRow<K, R>(events: seq<Event<K, R>>, key: K)
    requires Paired(events)
    ensures var rows, i := Rows(events), LastRow(Rows(events), key);
            && (i < |rows| <==> Started(events, key))
            && (i < |rows| ==> (rows[i].end.None? <==> Open(events, key)))
  {
    if events != [] {
      var before, e := Init(events), Last(events);
      assert events == before + [e];
      OpenRow(before, key);
      if e.End? {
        OpenRow(before, e.key);
        RowsEnd(before, e.key, e.end);
        LastRowUpdate(Rows(before), LastRow(Rows(before), e.key), e.end, key);
      } else {
        RowsStart(before, e);
        if e.Start? {
          LastRowAppend(Rows(before), Row(e.key, e.start, None), key);
        }
      }
    }
  }

  /** As many rows as starts, and as many ended rows as ends. */
  lemma {:induction false} RowsCount<K, R>(events: seq<Event<K, R>>)
    requires Paired(events)
    ensures |Rows(events)| == Starts(events) && EndedRows(Rows(events)) == Ends(events)
  {
    if events != [] {
      var before, e := Init(events), Last(events);
      assert events == before + [e];
      RowsCount(before);
      if e.End? {
        OpenRow(before, e.key);
        RowsEnd(before, e.key, e.end);
        EndOneRow(Rows(before), LastRow(Rows(before), e.key), e.end);
      } else {
        RowsStart(before, e);
        if e.Start? {
          assert Init(Rows(before) + [Row(e.key, e.start, None)]) == Rows(before);
        }
      }
    }
  }

  // ------------------------------------------------- keys that start once

  predicate Once<K(==), R>(events: seq<Event<K, R>>) {
    events != [] ==>
      Once(Init(events)) && (Last(events).Start? ==> !Started(Init(events), Last(events).key))
  }

  predicate DistinctKeys<K(==), R>(rows: seq<Row<K, R>>) {
    forall i, j :: 0 <= i < j < |rows| ==> rows[i].key != rows[j].key
  }

  lemma {:induction false} LastRowFinds<K, R>(rows: seq<Row<K, R>>, i: nat)
    requires i < |rows|
    ensures i <= LastRow(rows, rows[i].key) < |rows|
  {
    if i < |rows| - 1 {
      LastRowFinds(Init(rows), i);
    }
  }

  /** When no key starts twice, rows and started keys are the same thing: each row has its own
      key, and its end is missing exactly while that key is open. */
  lemma {:induction false} OnceRows<K, R>(events: seq<Event<K, R>>)
    requires Paired(events) && Once(events)
    ensures DistinctKeys(Rows(events))
    ensures forall i :: 0 <= i < |Rows(events)| ==>
              && Started(events, Rows(events)[i].key)
              && (Rows(events)[i].end.None? <==> Open(events, Rows(events)[i].key))
  {
    OnceDistinct(events);
    var rows := Rows(events);
    forall i | 0 <= i < |rows|
      ensures Started(events, rows[i].key) && (rows[i].end.None? <==> Open(events, rows[i].key))
    {
      LastRowFinds(rows, i);
      OpenRow(events, rows[i].key);
    }
  }

  lemma {:induction false} OnceDistinct<K, R>(events: seq<Event<K, R>>)
    requires Paired(events) && Once(events)
    ensures DistinctKeys(Rows(events))
  {
    if events != [] {
      var before, e := Init(events), Last(events);
      assert events == before + [e];
      OnceDistinct(before);
      if e.End? {
        RowsEnd(before, e.key, e.end);
      } else {
        RowsStart(before, e);
        if e.Start? {
          OpenRow(before, e.key);
          NotAmong(Rows(before), e.key);
        }
      }
    }
  }

  lemma NotAmong<K, R>(rows: seq<Row<K, R>>, key: K)
    requires LastRow(rows, key) == |rows|
    ensures forall i :: 0 <= i < |rows| ==> rows[i].key != key
  {
    forall i | 0 <= i < |rows| ensures rows[i].key != key {
      LastRowFinds(rows, i);
    }
  }
}
