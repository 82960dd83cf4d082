/** `_group_rows`: the page's `(model, pk)` rows bucketed by model tag, in a
    `defaultdict(list)` whose keys keep the order in which each tag first
    appears. */
module Grouping {
  import opened Orm

  /** The tags that occur in the rows. */
  function Tags(rows: seq<Row>): set<string>
  {
    set r | r in rows :: r.tag
  }

  /** No tag occurs twice. */
  predicate Distinct(keys: seq<string>)
  {
    forall i, j :: 0 <= i < j < |keys| ==> keys[i] != keys[j]
  }

  /** The pks of the rows tagged `t`, in row order. */
  function PksOf(rows: seq<Row>, t: string): seq<int>
  {
    if |rows| == 0 then []
    else
      var last := rows[|rows| - 1];
      PksOf(rows[..|rows| - 1], t) + (if last.tag == t then [last.pk] else [])
  }

  /** The distinct tags in order of first appearance: the dict's key order. */
  function FirstSeen(rows: seq<Row>): (keys: seq<string>)
    ensures Distinct(keys)
    ensures forall t :: t in keys <==> t in Tags(rows)
  {
    if |rows| == 0 then []
    else
      var init, last := rows[..|rows| - 1], rows[|rows| - 1];
      assert rows == init + [last];
      var seen := FirstSeen(init);
      if last.tag in seen then seen else seen + [last.tag]
  }

  /** The dict `_group_rows` builds, as a value. */
  function Groups(rows: seq<Row>): map<string, seq<int>>
  {
    map t | t in Tags(rows) :: PksOf(rows, t)
  }

  /** `_group_rows(rows)`: returns the dict and its key order. */
  method GroupRows(rows: seq<Row>) returns (groups: map<string, seq<int>>, keys: seq<string>)
    ensures groups == Groups(rows)
    ensures keys == FirstSeen(rows)
    ensures groups.Keys == Tags(rows)
    ensures forall t :: t in groups ==> groups[t] == PksOf(rows, t)
  {
    groups, keys := map[], [];
    for i := 0 to |rows|
      invariant groups == Groups(rows[..i])
      invariant keys == FirstSeen(rows[..i])
    {
      var row := rows[i];
      assert rows[..i + 1] == rows[..i] + [row];
      GroupsStep(rows[..i], row);
      if row.tag !in groups {
        keys := keys + [row.tag];
      }
      groups := groups[row.tag := (if row.tag in groups then groups[row.tag] else []) + [row.pk]];
    }
    assert rows[..|rows|] == rows;
  }

  /** A tag that does not occur has no pks. */
  lemma {:induction false} PksOfAbsent(rows: seq<Row>, t: string)
    requires t !in Tags(rows)
    ensures PksOf(rows, t) == []
  {
    if |rows| > 0 {
      assert rows[|rows| - 1] in rows;
      assert Tags(rows[..|rows| - 1]) <= Tags(rows);
      PksOfAbsent(rows[..|rows| - 1], t);
    }
  }

  /** One more row appends its pk to its tag's list and changes nothing else. */
  lemma GroupsStep(rows: seq<Row>, row: Row)
    ensures var g := Groups(rows);
      Groups(rows + [row]) == g[row.tag := (if row.tag in g then g[row.tag] else []) + [row.pk]]
    ensures FirstSeen(rows + [row]) == FirstSeen(rows) + (if row.tag in Groups(rows) then [] else [row.tag])
  {
    var g := Groups(rows);
    var rows' := rows + [row];
    assert rows'[..|rows'| - 1] == rows;
    assert Tags(rows') == Tags(rows) + {row.tag};
    if row.tag !in g {
      PksOfAbsent(rows, row.tag);
    }
    var g' := g[row.tag := (if row.tag in g then g[row.tag] else []) + [row.pk]];
    assert Groups(rows').Keys == g'.Keys;
    forall t | t in g'
      ensures Groups(rows')[t] == g'[t]
    {
    }
  }

  /** Concatenating row sequences concatenates each tag's pks. */
  lemma {:induction false} PksOfAppend(a: seq<Row>, b: seq<Row>, t: string)
    ensures PksOf(a + b, t) == PksOf(a, t) + PksOf(b, t)
  {
    if |b| == 0 {
      assert a + b == a;
    } else {
      var init := b[..|b| - 1];
      PksOfAppend(a, init, t);
      assert (a + b)[..|a + b| - 1] == a + init;
    }
  }

  /** Grouping keeps the original relative order: row `i`'s pk sits in its
      tag's list right after the pks of the earlier rows with that tag. */
  lemma GroupKeepsRowOrder(rows: seq<Row>, i: nat)
    requires i < |rows|
    ensures var t := rows[i].tag; var rank := |PksOf(rows[..i], t)|;
      rows[i].tag in Groups(rows)
      && rank < |Groups(rows)[t]|
      && Groups(rows)[t][rank] == rows[i].pk
  {
    var t := rows[i].tag;
    assert rows == rows[..i] + [rows[i]] + rows[i + 1..];
    PksOfAppend(rows[..i] + [rows[i]], rows[i + 1..], t);
    PksOfAppend(rows[..i], [rows[i]], t);
    assert PksOf([rows[i]], t) == [rows[i].pk] by {
      assert [rows[i]][..0] == [];
    }
    assert rows[i] in rows;
  }

  /** The pks grouped under a tag all come from rows with that tag. */
  lemma {:induction false} PksOfFromRows(rows: seq<Row>, t: string, pk: int)
    requires pk in PksOf(rows, t)
    ensures Row(t, pk) in rows
  {
    var init := rows[..|rows| - 1];
    if pk in PksOf(init, t) {
      PksOfFromRows(init, t, pk);
      assert init <= rows;
    }
  }

  /** The total length of the lists under `keys`. */
  function SizeOf(groups: map<string, seq<int>>, keys: seq<string>): nat
    requires forall k :: k in keys ==> k in groups
  {
    if |keys| == 0 then 0
    else SizeOf(groups, keys[..|keys| - 1]) + |groups[keys[|keys| - 1]]|
  }

  /** Adding a row grows the total over distinct old keys by one exactly
      when the row's tag is among them. */
  lemma {:induction false} SizeOfStep(rows: seq<Row>, row: Row, keys: seq<string>)
    requires forall k :: k in keys ==> k in Tags(rows)
    requires Distinct(keys)
    ensures Tags(rows) <= Tags(rows + [row])
    ensures SizeOf(Groups(rows + [row]), keys) == SizeOf(Groups(rows), keys) + (if row.tag in keys then 1 else 0)
  {
    var rows' := rows + [row];
    assert rows'[..|rows'| - 1] == rows;
    assert Tags(rows') == Tags(rows) + {row.tag};
    if |keys| > 0 {
      var ks := keys[..|keys| - 1];
      SizeOfStep(rows, row, ks);
      assert keys == ks + [keys[|keys| - 1]];
    }
  }

  /** The list lengths add up to the number of rows: every row lands in
      exactly one list. */
  lemma {:induction false} GroupSizesSumToRows(rows: seq<Row>)
    ensures SizeOf(Groups(rows), FirstSeen(rows)) == |rows|
  {
    if |rows| > 0 {
      var init, row := rows[..|rows| - 1], rows[|rows| - 1];
      assert rows == init + [row];
      GroupSizesSumToRows(init);
      GroupsStep(init, row);
      var keys := FirstSeen(init);
      SizeOfStep(init, row, keys);
      if row.tag !in Tags(init) {
        PksOfAbsent(init, row.tag);
        assert FirstSeen(rows)[..|keys|] == keys;
      }
    }
  }
}
