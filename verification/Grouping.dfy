/** SELECT SUM(count), SUM(amount_sum_cents), MIN, MAX ... GROUP BY, over any set of rollup rows. */
module Grouping {
  import opened Events
  import opened RollupAlgebra

  /** The rows that fall into the group k. */
  function Members<K(==)>(rows: set<Key>, group: Key -> K, k: K): set<Key> {
    set j | j in rows && group(j) == k
  }

  /** One row per group, holding the aggregate of the group's rows. */
  ghost predicate IsGrouping<K(!new)>(t: Table, rows: set<Key>, group: Key -> K, groups: map<K, Row>) {
    && (forall k :: k in groups <==> Members(rows, group, k) != {})
    && (forall k :: k in groups ==> Total(t, Members(rows, group, k)) == Some(groups[k]))
  }

  lemma GroupOneMore<K(!new)>(t: Table, rows: set<Key>, group: Key -> K, groups: map<K, Row>, j: Key)
    requires IsGrouping(t, rows, group, groups) && j in t && j !in rows
    ensures var k := group(j);
            IsGrouping(t, rows + {j}, group, groups[k := if k in groups then MergeRow(groups[k], t[j]) else t[j]])
  {
    var g := group(j);
    var next := groups[g := if g in groups then MergeRow(groups[g], t[j]) else t[j]];
    var before, after := Members(rows, group, g), Members(rows + {j}, group, g);
    assert after - {j} == before;
    TotalPick(t, after, j);
    MergeCellLaws(Some(t[j]), Total(t, before), None);
    assert j in after && Total(t, after) == Some(next[g]);
    forall k | k != g
      ensures Members(rows + {j}, group, k) == Members(rows, group, k)
      ensures k in next <==> k in groups
    {
    }
  }

  method GroupBy<K(==, !new)>(t: Table, rows: set<Key>, group: Key -> K) returns (groups: map<K, Row>)
    requires rows <= t.Keys
    ensures IsGrouping(t, rows, group, groups)
  {
    groups := map[];
    var todo := rows;
    while todo != {}
      invariant todo <= rows
      invariant IsGrouping(t, rows - todo, group, groups)
    {
      var j :| j in todo;
      var k := group(j);
      GroupOneMore(t, rows - todo, group, groups, j);
      groups := groups[k := if k in groups then MergeRow(groups[k], t[j]) else t[j]];
      assert (rows - todo) + {j} == rows - (todo - {j});
      todo := todo - {j};
    }
    assert rows - {} == rows;
  }
}
