/** DSA values, node descriptions, and the update rows a LIST listener receives. */
module Dsa {
  datatype Val = Str(text: string) | Arr(items: seq<Val>) | Obj(fields: map<string, Val>)

  datatype Description = Description(path: string, attrAndConf: map<string, Val>, value: Val)

  /** An actor reference: the address of its actor system and its name there. */
  datatype ActorRef = ActorRef(address: string, name: string)

  predicate IsConfigName(name: string) {
    |name| > 0 && name[0] == '$'
  }

  predicate IsAttributeName(name: string) {
    |name| > 0 && name[0] == '@'
  }

  predicate IsChildName(name: string) {
    !IsConfigName(name) && !IsAttributeName(name)
  }

  /** Prefixes a name unless it already has the prefix. */
  function WithPrefix(prefix: char, name: string): (r: string)
    ensures |r| > 0 && r[0] == prefix
    ensures r == name <==> |name| > 0 && name[0] == prefix
    ensures r == name || r[1..] == name
  {
    if |name| > 0 && name[0] == prefix then name else [prefix] + name
  }

  /** An update row: array(name, value), or an object with "change" -> "remove". */
  datatype Row = Upsert(name: string, value: Val) | Remove(name: string)

  /** What a listener knows about a node, by name. */
  type ListView = map<string, Val>

  function ApplyRow(view: ListView, row: Row): ListView {
    match row
    case Upsert(name, value) => view[name := value]
    case Remove(name) => view - {name}
  }

  /** A listener applies rows in the order they arrive. */
  function ApplyRows(view: ListView, rows: seq<Row>): ListView {
    if rows == [] then view
    else ApplyRow(ApplyRows(view, rows[..|rows| - 1]), rows[|rows| - 1])
  }

  /** No two rows of the set say different things about the same name. */
  ghost predicate Unambiguous(rows: set<Row>) {
    forall a, b :: a in rows && b in rows && a.name == b.name ==> a == b
  }

  /** The view says what the row says. */
  predicate Tells(row: Row, view: ListView) {
    if row.Upsert? then row.name in view && view[row.name] == row.value else row.name !in view
  }

  /** The view in which every row of the set holds and other names keep their value. */
  ghost predicate Patched(view: ListView, rows: set<Row>, result: ListView) {
    && (forall row <- rows :: Tells(row, result))
    && (forall name :: (forall row <- rows :: row.name != name) ==>
          if name in view then name in result && result[name] == view[name] else name !in result)
  }

  lemma PatchedIsUnique(view: ListView, rows: set<Row>, a: ListView, b: ListView)
    requires Patched(view, rows, a) && Patched(view, rows, b)
    ensures a == b
  {
    forall name ensures (name in a <==> name in b) && (name in a ==> a[name] == b[name]) {
      if row :| row in rows && row.name == name {
      }
    }
  }

  function RowSet(rows: seq<Row>): set<Row> {
    set row | row in rows
  }

  lemma RowSetAppend(rows: seq<Row>, row: Row)
    ensures RowSet(rows + [row]) == RowSet(rows) + {row}
  {}

  /** The order of unambiguous rows does not matter. */
  lemma {:induction false} ApplyRowsAnyOrder(view: ListView, rows: seq<Row>)
    requires Unambiguous(RowSet(rows))
    ensures Patched(view, RowSet(rows), ApplyRows(view, rows))
  {
    if rows != [] {
      var front, last := rows[..|rows| - 1], rows[|rows| - 1];
      assert rows == front + [last];
      assert RowSet(rows) == RowSet(front) + {last};
      ApplyRowsAnyOrder(view, front);
      PatchOne(view, RowSet(front), ApplyRows(view, front), last);
    }
  }

  lemma PatchOne(view: ListView, rows: set<Row>, before: ListView, last: Row)
    requires Patched(view, rows, before) && Unambiguous(rows + {last})
    ensures Patched(view, rows + {last}, ApplyRow(before, last))
  {
    var after := ApplyRow(before, last);
    forall row | row in rows + {last}
      ensures Tells(row, after)
    {
      if row.name == last.name {
        assert row == last;
      }
    }
    forall name | forall row <- rows + {last} :: row.name != name
      ensures if name in view then name in after && after[name] == view[name] else name !in after
    {
      assert last in rows + {last};
      forall row <- rows ensures row.name != name {
        assert row in rows + {last};
      }
    }
  }
}
