/** Result tables. A pandas row is a `Record`: its column labels paired with its
    cells, in column order; a `Frame` is a sequence of records (the DataFrame's
    rows). */
module Tables {

  datatype Cell = Str(text: string) | Real(number: real) | Int(integer: int)

  type Record = seq<(string, Cell)>

  type Frame = seq<Record>

  function Names(r: Record): (ns: seq<string>)
    ensures |ns| == |r|
    ensures forall i :: 0 <= i < |r| ==> ns[i] == r[i].0
  {
    seq(|r|, i requires 0 <= i < |r| => r[i].0)
  }

  /** `df[name] = v` on a one-row frame (or a dict `d[name] = v`): the column is
      overwritten in place when it exists, appended otherwise. */
  function SetColumn(r: Record, name: string, v: Cell): (out: Record)
  {
    if r == [] then [(name, v)]
    else if r[0].0 == name then [(name, v)] + r[1..]
    else [r[0]] + SetColumn(r[1..], name, v)
  }

  /** The labels of a non-empty record: its first label, then the rest's. */
  lemma NamesCons(r: Record)
    requires r != []
    ensures Names(r) == [r[0].0] + Names(r[1..])
  {
  }

  /** An existing column keeps its place: the labels stay as they were. */
  lemma {:induction false} SetColumnExisting(r: Record, name: string, v: Cell)
    requires name in Names(r)
    ensures |SetColumn(r, name, v)| == |r| && Names(SetColumn(r, name, v)) == Names(r)
  {
    NamesCons(r);
    if r[0].0 == name {
      NamesCons([(name, v)] + r[1..]);
    } else {
      SetColumnExisting(r[1..], name, v);
      NamesCons([r[0]] + SetColumn(r[1..], name, v));
    }
  }

  /** A new column is appended at the end. */
  lemma {:induction false} SetColumnAbsent(r: Record, name: string, v: Cell)
    requires name !in Names(r)
    ensures SetColumn(r, name, v) == r + [(name, v)]
  {
    if r != [] {
      NamesCons(r);
      assert r[0].0 != name && name !in Names(r[1..]);
      SetColumnAbsent(r[1..], name, v);
      calc {
        SetColumn(r, name, v);
        [r[0]] + SetColumn(r[1..], name, v);
        [r[0]] + (r[1..] + [(name, v)]);
        ([r[0]] + r[1..]) + [(name, v)];
        { assert [r[0]] + r[1..] == r; }
        r + [(name, v)];
      }
    }
  }

  /** Either way the labels afterwards are the old ones and `name`. */
  lemma SetColumnNames(r: Record, name: string, v: Cell)
    ensures var out := SetColumn(r, name, v);
      (name in Names(r) ==> |out| == |r| && Names(out) == Names(r)) &&
      (name !in Names(r) ==> out == r + [(name, v)]) &&
      (forall k :: k in Names(out) <==> k in Names(r) || k == name)
  {
    if name in Names(r) {
      SetColumnExisting(r, name, v);
    } else {
      SetColumnAbsent(r, name, v);
      NamesAppend(r, [(name, v)]);
      assert Names([(name, v)]) == [name];
    }
  }

  lemma NamesAppend(r: Record, s: Record)
    ensures Names(r + s) == Names(r) + Names(s)
  {
  }

  /** Setting a column leaves every other column's cell where it was. */
  lemma {:induction false} SetColumnKeepsOthers(r: Record, name: string, v: Cell, i: nat)
    requires i < |r| && r[i].0 != name
    ensures i < |SetColumn(r, name, v)| && SetColumn(r, name, v)[i] == r[i]
  {
    if r[0].0 != name && i > 0 {
      SetColumnKeepsOthers(r[1..], name, v, i - 1);
    }
  }
}
