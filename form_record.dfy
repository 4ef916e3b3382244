/**
 * The record each generator edits, and the field helpers every generator
 * defines (`updateField`, `addArrayItem`, `removeArrayItem`,
 * `updateArrayItem`, `updateTableRow`). Each helper builds the next record
 * with `{ ...prev, [field]: ... }`: only the named field is replaced.
 */
module FormRecord {
  import opened ListEdit

  /** The value of one record field. */
  datatype Field =
    | Text(text: string)                         // a string field
    | Items(items: seq<string>)                  // a list of strings
    | Rows(rows: seq<Row>)                       // a list of table rows
    | Tables(tables: map<string, seq<Row>>)      // table name to its rows (DBDD `tableFields`)

  datatype Kind = TextKind | ItemsKind | RowsKind | TablesKind

  function KindOf(v: Field): Kind
  {
    match v
    case Text(_) => TextKind
    case Items(_) => ItemsKind
    case Rows(_) => RowsKind
    case Tables(_) => TablesKind
  }

  /**
   * A record: field name to value. `K` is the generator's set of field names
   * (`keyof` its data interface).
   */
  type Record<K(==)> = map<K, Field>

  /** The record has every field of the interface, each of the kind `schema` declares for it. */
  ghost predicate Conforms<K(!new)>(r: Record<K>, schema: K -> Kind)
  {
    (forall f :: f in r) && forall f :: f in r ==> KindOf(r[f]) == schema(f)
  }

  /*
   * A field's contents as a template reads them (`data.field`). For a record
   * that conforms to its interface these are exactly the field's contents;
   * the fallbacks only make the readers total.
   */
  function TextOf<K(==)>(r: Record<K>, f: K): string
  {
    if f in r && r[f].Text? then r[f].text else ""
  }

  function ItemsOf<K(==)>(r: Record<K>, f: K): seq<string>
  {
    if f in r && r[f].Items? then r[f].items else []
  }

  function RowsOf<K(==)>(r: Record<K>, f: K): seq<Row>
  {
    if f in r && r[f].Rows? then r[f].rows else []
  }

  function TablesOf<K(==)>(r: Record<K>, f: K): map<string, seq<Row>>
  {
    if f in r && r[f].Tables? then r[f].tables else map[]
  }

  /** One entry of a list field: a string or a row. */
  datatype Element = Line(line: string) | Cells(cells: Row)

  predicate IsList(v: Field)
  {
    v.Items? || v.Rows?
  }

  /** `e` may be stored in the list `v`: strings go into string lists, rows into row lists. */
  predicate Accepts(v: Field, e: Element)
  {
    (v.Items? && e.Line?) || (v.Rows? && e.Cells?)
  }

  /** The entries of a list field, in order. */
  function Entries(v: Field): (es: seq<Element>)
    requires IsList(v)
    ensures |es| == Length(v)
    ensures forall i :: 0 <= i < |es| ==> Accepts(v, es[i])
  {
    if v.Items? then seq(|v.items|, i requires 0 <= i < |v.items| => Line(v.items[i]))
    else seq(|v.rows|, i requires 0 <= i < |v.rows| => Cells(v.rows[i]))
  }

  /** A row whose every column is the empty string. */
  function BlankRow(keys: seq<string>): (row: Row)
    ensures row.Keys == set k | k in keys
    ensures forall k :: k in row ==> row[k] == ""
  {
    map k | k in keys :: ""
  }

  /** `updateField(field, value)`: `{ ...prev, [field]: value }`. */
  function UpdateField<K(==)>(r: Record<K>, field: K, value: Field): (r': Record<K>)
    ensures r'.Keys == r.Keys + {field}
    ensures r'[field] == value
    ensures forall f :: f in r && f != field ==> r'[f] == r[f]
  {
    r[field := value]
  }

  /** `addArrayItem(field, item)`: `[...prev[field], item]`. */
  function AddArrayItem<K(==)>(r: Record<K>, field: K, e: Element): (r': Record<K>)
    requires field in r && Accepts(r[field], e)
    ensures r'.Keys == r.Keys
    ensures forall f :: f in r && f != field ==> r'[f] == r[f]
    ensures KindOf(r'[field]) == KindOf(r[field])
    // the new entry is appended at the end and the prior entries are kept in order
    ensures Entries(r'[field]) == Entries(r[field]) + [e]
  {
    match r[field]
    case Items(xs) => r[field := Items(xs + [e.line])]
    case Rows(rows) => r[field := Rows(rows + [e.cells])]
  }

  /** `removeArrayItem(field, index)`: `prev[field].filter((_, i) => i !== index)`. */
  function RemoveArrayItem<K(==)>(r: Record<K>, field: K, index: int): (r': Record<K>)
    requires field in r && IsList(r[field])
    ensures r'.Keys == r.Keys
    ensures forall f :: f in r && f != field ==> r'[f] == r[f]
    ensures KindOf(r'[field]) == KindOf(r[field])
  {
    match r[field]
    case Items(xs) => r[field := Items(RemoveAt(xs, index))]
    case Rows(rows) => r[field := Rows(RemoveAt(rows, index))]
  }

  /**
   * An in-range index deletes exactly that entry and keeps the order of the
   * rest (one shorter); an out-of-range index leaves the list as it was.
   */
  lemma RemoveArrayItemSpec<K>(r: Record<K>, field: K, index: int)
    requires field in r && IsList(r[field])
    ensures var before := Entries(r[field]);
            var after := Entries(RemoveArrayItem(r, field, index)[field]);
            && (0 <= index < |before| ==> after == before[..index] + before[index + 1..])
            && (!(0 <= index < |before|) ==> after == before)
  {
    match r[field]
    case Items(xs) =>
      RemoveAtSpec(xs, index);
      EntriesSlices(xs, Items(xs), Items(RemoveAt(xs, index)), index, x => Line(x));
    case Rows(rows) =>
      RemoveAtSpec(rows, index);
      EntriesSlices(rows, Rows(rows), Rows(RemoveAt(rows, index)), index, x => Cells(x));
  }

  /** `Entries` maps the entries one by one, so it commutes with removing one of them. */
  lemma EntriesSlices<T>(xs: seq<T>, v: Field, v': Field, index: int, wrap: T -> Element)
    requires IsList(v) && IsList(v')
    requires |Entries(v)| == |xs| && forall i :: 0 <= i < |xs| ==> Entries(v)[i] == wrap(xs[i])
    requires 0 <= index < |xs| ==> |Entries(v')| == |xs| - 1 && forall i :: 0 <= i < |xs| - 1 ==> Entries(v')[i] == wrap((xs[..index] + xs[index + 1..])[i])
    requires !(0 <= index < |xs|) ==> Entries(v') == Entries(v)
    ensures 0 <= index < |xs| ==> Entries(v') == Entries(v)[..index] + Entries(v)[index + 1..]
  {
  }

  /** `updateArrayItem(field, index, value)`: `prev[field].map((item, i) => i === index ? value : item)`. */
  function UpdateArrayItem<K(==)>(r: Record<K>, field: K, index: int, e: Element): (r': Record<K>)
    requires field in r && Accepts(r[field], e)
    ensures r'.Keys == r.Keys
    ensures forall f :: f in r && f != field ==> r'[f] == r[f]
    ensures KindOf(r'[field]) == KindOf(r[field])
    // only position `index` changes, and the length is preserved
    ensures |Entries(r'[field])| == |Entries(r[field])|
    ensures 0 <= index < |Entries(r[field])| ==> Entries(r'[field]) == Entries(r[field])[index := e]
    ensures !(0 <= index < |Entries(r[field])|) ==> Entries(r'[field]) == Entries(r[field])
  {
    match r[field]
    case Items(xs) => r[field := Items(ReplaceAt(xs, index, e.line))]
    case Rows(rows) => r[field := Rows(ReplaceAt(rows, index, e.cells))]
  }

  /** `updateTableRow(field, index, key, value)`: sets one cell of one row. */
  function UpdateTableRow<K(==)>(r: Record<K>, field: K, index: int, key: string, value: string): (r': Record<K>)
    requires field in r && r[field].Rows?
    ensures r'.Keys == r.Keys
    ensures forall f :: f in r && f != field ==> r'[f] == r[f]
    // exactly one cell changes: other rows and other keys of the row are untouched
    ensures r'[field].Rows? && |r'[field].rows| == |r[field].rows|
    ensures forall i :: 0 <= i < |r[field].rows| && i != index ==> r'[field].rows[i] == r[field].rows[i]
    ensures 0 <= index < |r[field].rows| ==> r'[field].rows[index] == r[field].rows[index][key := value]
  {
    r[field := Rows(SetCell(r[field].rows, index, key, value))]
  }

  /** Every helper keeps a conforming record conforming (for `updateField`, when the value has the field's kind). */
  lemma HelpersKeepShape<K(!new)>(r: Record<K>, schema: K -> Kind, field: K, index: int, e: Element, key: string, value: string, v: Field)
    requires Conforms(r, schema) && field in r
    ensures KindOf(v) == schema(field) ==> Conforms(UpdateField(r, field, v), schema)
    ensures Accepts(r[field], e) ==> Conforms(AddArrayItem(r, field, e), schema)
    ensures IsList(r[field]) ==> Conforms(RemoveArrayItem(r, field, index), schema)
    ensures Accepts(r[field], e) ==> Conforms(UpdateArrayItem(r, field, index, e), schema)
    ensures r[field].Rows? ==> Conforms(UpdateTableRow(r, field, index, key, value), schema)
  {
  }

  /** The number of entries of a list field. */
  function Length(v: Field): nat
    requires IsList(v)
  {
    if v.Items? then |v.items| else |v.rows|
  }

  /** Every list field of the record has at least one entry. */
  predicate ListsNonEmpty<K(==)>(r: Record<K>)
  {
    forall f :: f in r && IsList(r[f]) ==> Length(r[f]) > 0
  }

  /*
   * The edits a form can make keep every list non-empty: the remove button of
   * a list is disabled while the list has one entry (`disabled={list.length === 1}`).
   */

  lemma GuardedRemoveKeepsListsNonEmpty<K>(r: Record<K>, field: K, index: int)
    requires ListsNonEmpty(r) && field in r && IsList(r[field])
    requires Length(r[field]) != 1
    ensures ListsNonEmpty(RemoveArrayItem(r, field, index))
  {
    var r' := RemoveArrayItem(r, field, index);
    match r[field]
    case Items(xs) => RemoveAtLength(xs, index);
    case Rows(rows) => RemoveAtLength(rows, index);
  }

  lemma OtherEditsKeepListsNonEmpty<K>(r: Record<K>, field: K, index: int, e: Element, key: string, value: string, s: string)
    requires ListsNonEmpty(r) && field in r
    ensures Accepts(r[field], e) ==> ListsNonEmpty(AddArrayItem(r, field, e))
    ensures Accepts(r[field], e) ==> ListsNonEmpty(UpdateArrayItem(r, field, index, e))
    ensures r[field].Rows? ==> ListsNonEmpty(UpdateTableRow(r, field, index, key, value))
    ensures r[field].Text? ==> ListsNonEmpty(UpdateField(r, field, Text(s)))
  {
    if Accepts(r[field], e) {
      var added := AddArrayItem(r, field, e);
      assert Length(added[field]) == Length(r[field]) + 1;
      var updated := UpdateArrayItem(r, field, index, e);
      assert Length(updated[field]) == Length(r[field]);
    }
  }

  /** One change a form control makes to the record. */
  datatype Edit<K> =
    | SetText(field: K, text: string)                              // an input bound to a string field
    | Append(field: K, entry: Element)                             // an "add" button
    | Remove(field: K, index: int)                                 // a "delete" button
    | SetItem(field: K, index: int, entry: Element)                // an input bound to a list entry
    | SetCellOf(field: K, index: int, key: string, value: string)  // an input bound to a table cell

  /**
   * The control exists for a field of the right kind; a delete button is
   * disabled while its list has exactly one entry.
   */
  predicate Enabled<K(==)>(r: Record<K>, e: Edit<K>)
  {
    e.field in r &&
    match e
    case SetText(f, _) => r[f].Text?
    case Append(f, x) => Accepts(r[f], x)
    case Remove(f, _) => IsList(r[f]) && Length(r[f]) != 1
    case SetItem(f, _, x) => Accepts(r[f], x)
    case SetCellOf(f, _, _, _) => r[f].Rows?
  }

  function Apply<K(==)>(r: Record<K>, e: Edit<K>): Record<K>
    requires Enabled(r, e)
  {
    match e
    case SetText(f, t) => UpdateField(r, f, Text(t))
    case Append(f, x) => AddArrayItem(r, f, x)
    case Remove(f, i) => RemoveArrayItem(r, f, i)
    case SetItem(f, i, x) => UpdateArrayItem(r, f, i, x)
    case SetCellOf(f, i, k, v) => UpdateTableRow(r, f, i, k, v)
  }

  /** A session of form edits, in order; a click on a disabled control does nothing. */
  function ApplyAll<K(==)>(r: Record<K>, edits: seq<Edit<K>>): Record<K>
    decreases |edits|
  {
    if edits == [] then r
    else ApplyAll(if Enabled(r, edits[0]) then Apply(r, edits[0]) else r, edits[1..])
  }

  lemma EditKeepsShape<K(!new)>(r: Record<K>, schema: K -> Kind, e: Edit<K>)
    requires Conforms(r, schema) && ListsNonEmpty(r) && Enabled(r, e)
    ensures Conforms(Apply(r, e), schema) && ListsNonEmpty(Apply(r, e))
  {
    var zero := Line("");
    match e
    case SetText(f, t) =>
      HelpersKeepShape(r, schema, f, 0, zero, "", "", Text(t));
      OtherEditsKeepListsNonEmpty(r, f, 0, zero, "", "", t);
    case Append(f, x) =>
      HelpersKeepShape(r, schema, f, 0, x, "", "", Text(""));
      OtherEditsKeepListsNonEmpty(r, f, 0, x, "", "", "");
    case Remove(f, i) =>
      HelpersKeepShape(r, schema, f, i, zero, "", "", Text(""));
      GuardedRemoveKeepsListsNonEmpty(r, f, i);
    case SetItem(f, i, x) =>
      HelpersKeepShape(r, schema, f, i, x, "", "", Text(""));
      OtherEditsKeepListsNonEmpty(r, f, i, x, "", "", "");
    case SetCellOf(f, i, k, v) =>
      HelpersKeepShape(r, schema, f, i, zero, k, v, Text(""));
      OtherEditsKeepListsNonEmpty(r, f, i, zero, k, v, "");
  }

  /**
   * Whatever the user does through the form, the record keeps its interface
   * and no list ever becomes empty: starting from a record whose lists all
   * have an entry, every reachable record has an entry in every list.
   */
  lemma {:induction false} EditsKeepShape<K(!new)>(r: Record<K>, schema: K -> Kind, edits: seq<Edit<K>>)
    requires Conforms(r, schema) && ListsNonEmpty(r)
    ensures Conforms(ApplyAll(r, edits), schema) && ListsNonEmpty(ApplyAll(r, edits))
    decreases |edits|
  {
    if edits != [] {
      var next := if Enabled(r, edits[0]) then Apply(r, edits[0]) else r;
      if Enabled(r, edits[0]) {
        EditKeepsShape(r, schema, edits[0]);
      }
      EditsKeepShape(next, schema, edits[1..]);
    }
  }

  /** A field no control edits keeps its value. */
  lemma {:induction false} UneditedFieldUnchanged<K>(r: Record<K>, edits: seq<Edit<K>>, f: K)
    requires f in r
    requires forall i :: 0 <= i < |edits| ==> edits[i].field != f
    ensures f in ApplyAll(r, edits) && ApplyAll(r, edits)[f] == r[f]
    decreases |edits|
  {
    if edits != [] {
      var next := if Enabled(r, edits[0]) then Apply(r, edits[0]) else r;
      assert f in next && next[f] == r[f];
      UneditedFieldUnchanged(next, edits[1..], f);
    }
  }

  /**
   * A table whose only control is a per-cell input (no add or delete button)
   * keeps its number of rows.
   */
  lemma {:induction false} CellEditsKeepRowCount<K>(r: Record<K>, edits: seq<Edit<K>>, f: K)
    requires f in r && r[f].Rows?
    requires forall i :: 0 <= i < |edits| && edits[i].field == f ==> edits[i].SetCellOf?
    ensures f in ApplyAll(r, edits) && ApplyAll(r, edits)[f].Rows?
    ensures |ApplyAll(r, edits)[f].rows| == |r[f].rows|
    decreases |edits|
  {
    if edits != [] {
      var next := if Enabled(r, edits[0]) then Apply(r, edits[0]) else r;
      assert f in next && next[f].Rows? && |next[f].rows| == |r[f].rows|;
      CellEditsKeepRowCount(next, edits[1..], f);
    }
  }
}
