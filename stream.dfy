/**
 * The message working set of the active project: the query that loads it
 * and the rule by which realtime inserts extend it.
 */
module MessageStream {
  import opened Rows

  /** `if (filter)`: only a non-null, non-empty filter adds the tag condition. */
  predicate FilterApplies(filter: Option<string>) {
    filter.Some? && filter.value != ""
  }

  /** A row the message query keeps: it belongs to the project and, when a filter applies, carries its tag. */
  predicate Matches(m: Message, projectId: string, filter: Option<string>) {
    m.projectId == projectId && (FilterApplies(filter) ==> m.tag == filter.value)
  }

  /**
   * The message query `.eq("project_id", projectId)` followed, when a filter
   * applies, by `.eq("tag", filter)`, over the table's rows in their order.
   * Every row it returns matches.
   */
  function Query(rows: seq<Message>, projectId: string, filter: Option<string>): (r: seq<Message>)
    ensures |r| <= |rows|
    ensures forall k :: 0 <= k < |r| ==> Matches(r[k], projectId, filter)
  {
    if rows == [] then []
    else (if Matches(rows[0], projectId, filter) then [rows[0]] else []) + Query(rows[1..], projectId, filter)
  }

  /** The positions of the matching rows, in increasing order: every matching position, and only those. */
  function MatchIndices(rows: seq<Message>, projectId: string, filter: Option<string>): (idx: seq<nat>)
    ensures forall k :: 0 <= k < |idx| ==> idx[k] < |rows| && Matches(rows[idx[k]], projectId, filter)
    ensures forall k, l :: 0 <= k < l < |idx| ==> idx[k] < idx[l]
    ensures forall i :: 0 <= i < |rows| && Matches(rows[i], projectId, filter) ==> i in idx
  {
    if rows == [] then []
    else
      var n := |rows| - 1;
      MatchIndices(rows[..n], projectId, filter) + (if Matches(rows[n], projectId, filter) then [n] else [])
  }

  /** A row added at the end of the table shows up at the end of the query, if it matches. */
  lemma {:induction false} QueryAppend(rows: seq<Message>, row: Message, projectId: string, filter: Option<string>)
    ensures Query(rows + [row], projectId, filter)
         == Query(rows, projectId, filter) + (if Matches(row, projectId, filter) then [row] else [])
  {
    if rows == [] {
      assert [] + [row] == [row];
    } else {
      assert (rows + [row])[0] == rows[0];
      assert (rows + [row])[1..] == rows[1..] + [row];
      QueryAppend(rows[1..], row, projectId, filter);
    }
  }

  /**
   * The query is an order-preserving selection: its k-th row is the row at
   * the k-th matching position of the table.
   */
  lemma {:induction false} QuerySelectsMatchesInOrder(rows: seq<Message>, projectId: string, filter: Option<string>)
    ensures |Query(rows, projectId, filter)| == |MatchIndices(rows, projectId, filter)|
    ensures forall k :: 0 <= k < |Query(rows, projectId, filter)| ==>
      Query(rows, projectId, filter)[k] == rows[MatchIndices(rows, projectId, filter)[k]]
  {
    if rows != [] {
      var n := |rows| - 1;
      assert rows == rows[..n] + [rows[n]];
      QueryAppend(rows[..n], rows[n], projectId, filter);
      QuerySelectsMatchesInOrder(rows[..n], projectId, filter);
    }
  }

  /** Each matching row is kept as often as the table holds it; a non-matching row never appears. */
  lemma {:induction false} QueryKeepsEveryMatch(rows: seq<Message>, projectId: string, filter: Option<string>, m: Message)
    ensures multiset(Query(rows, projectId, filter))[m]
         == if Matches(m, projectId, filter) then multiset(rows)[m] else 0
  {
    if rows != [] {
      assert rows == [rows[0]] + rows[1..];
      QueryKeepsEveryMatch(rows[1..], projectId, filter, m);
    }
  }

  /**
   * Filtering by tag narrows the project's unfiltered list: the filtered
   * query equals the filter applied to the unfiltered query's result (with
   * no filter, the query is idempotent).
   */
  lemma {:induction false} FilterNarrowsProjectList(rows: seq<Message>, projectId: string, filter: Option<string>)
    ensures Query(rows, projectId, filter) == Query(Query(rows, projectId, None), projectId, filter)
  {
    if rows != [] {
      var rest := Query(rows[1..], projectId, None);
      FilterNarrowsProjectList(rows[1..], projectId, filter);
      if Matches(rows[0], projectId, None) {
        assert Query(rows, projectId, None) == [rows[0]] + rest;
        assert ([rows[0]] + rest)[1..] == rest;
      } else {
        assert Query(rows, projectId, None) == rest;
        assert Query(rows, projectId, filter) == Query(rows[1..], projectId, filter);
      }
    }
  }

  /**
   * The realtime insert callback's update: the row is appended at the tail
   * exactly when a project is active and the row belongs to it; the earlier
   * messages keep their positions.
   */
  function Receive(messages: seq<Message>, active: Option<Project>, row: Message): (r: seq<Message>)
    ensures |messages| <= |r| <= |messages| + 1 && r[..|messages|] == messages
    ensures |r| == |messages| + 1 <==> active.Some? && row.projectId == active.value.id
    ensures |r| == |messages| + 1 ==> r[|messages|] == row
  {
    if active.Some? && row.projectId == active.value.id then messages + [row] else messages
  }

  /**
   * When the working set is the query's result and a row is inserted, the
   * realtime update gives the same list as fetching again from the grown
   * table exactly when the row belongs to another project (both lists stay
   * as they were) or the query would keep it (both lists gain it at the end).
   */
  lemma RealtimeAgreesWithRefetch(table: seq<Message>, project: Project, filter: Option<string>, row: Message)
    ensures Receive(Query(table, project.id, filter), Some(project), row) == Query(table + [row], project.id, filter)
        <==> row.projectId != project.id || Matches(row, project.id, filter)
  {
    QueryAppend(table, row, project.id, filter);
  }

  /**
   * The realtime update does not consult the filter: a row of the active
   * project whose tag differs from the applied filter is appended anyway,
   * so the working set leaves the filtered query's result.
   */
  lemma RealtimeIgnoresFilter(table: seq<Message>, project: Project, filter: Option<string>, row: Message)
    requires row.projectId == project.id && FilterApplies(filter) && row.tag != filter.value
    ensures var shown := Receive(Query(table, project.id, filter), Some(project), row);
      shown[|shown| - 1] == row && shown != Query(table + [row], project.id, filter)
  {
  }

  /** The working set after the realtime callback has run on each of `rows` in turn. */
  function ReceiveAll(messages: seq<Message>, active: Option<Project>, rows: seq<Message>): seq<Message>
    decreases |rows|
  {
    if rows == [] then messages
    else ReceiveAll(Receive(messages, active, rows[0]), active, rows[1..])
  }

  /**
   * With no filter, a working set loaded by the query stays equal to what a
   * fresh fetch would return however many rows are inserted afterwards:
   * nothing is duplicated, dropped or reordered.
   */
  lemma {:induction false} UnfilteredRealtimeTracksTable(table: seq<Message>, project: Project, rows: seq<Message>)
    ensures ReceiveAll(Query(table, project.id, None), Some(project), rows) == Query(table + rows, project.id, None)
    decreases |rows|
  {
    if rows == [] {
      assert table + rows == table;
    } else {
      var row, shown, grown := rows[0], Query(table, project.id, None), table + [rows[0]];
      assert rows == [row] + rows[1..];
      assert grown + rows[1..] == table + rows;
      assert ReceiveAll(shown, Some(project), rows)
          == ReceiveAll(Receive(shown, Some(project), row), Some(project), rows[1..]);
      QueryAppend(table, row, project.id, None);
      if Matches(row, project.id, None) {
        assert Receive(shown, Some(project), row) == shown + [row];
      } else {
        assert Receive(shown, Some(project), row) == shown;
      }
      assert Receive(shown, Some(project), row) == Query(grown, project.id, None);
      UnfilteredRealtimeTracksTable(grown, project, rows[1..]);
    }
  }

  /**
   * Realtime rows keep their arrival order: two distinct rows of the project
   * delivered in the opposite of their table order leave the list in an
   * order a fresh fetch would not return.
   */
  lemma OutOfOrderDeliveryDiverges(project: Project, a: Message, b: Message)
    requires a != b && a.projectId == project.id && b.projectId == project.id
    ensures ReceiveAll(Query([], project.id, None), Some(project), [b, a]) != Query([a, b], project.id, None)
  {
    QueryAppend([a], b, project.id, None);
    assert [a] + [b] == [a, b];
    assert [b, a][1..] == [a] && [a][1..] == [];
    assert Receive([], Some(project), b) == [b] && Receive([b], Some(project), a) == [b, a];
    assert ReceiveAll([b], Some(project), [a]) == ReceiveAll([b, a], Some(project), []);
    assert ReceiveAll(Query([], project.id, None), Some(project), [b, a]) == [b, a];
  }
}
