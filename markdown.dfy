/**
 * The pieces every `generateMarkdown` interpolates into its template
 * literal: filtered bullet lists, tables with one line per row, and per-row
 * sections separated by a blank line. A per-row template
 * (`row => \`| ${row.a} | ${row.b} |\``) is a `Template`.
 */
module Markdown {
  import opened Text
  import opened ListEdit

  /** A piece of a per-row template: fixed text, or `${row.key}`. */
  datatype Piece = Lit(text: string) | Key(key: string)

  type Template = seq<Piece>

  /** `${row.key}`: a key the row does not have prints as `undefined`. */
  function CellText(row: Row, key: string): (s: string)
    ensures key !in row ==> s == "undefined"
  {
    if key in row then row[key] else "undefined"
  }

  /** The text of a per-row template for one row. */
  function Fill(row: Row, t: Template): string
  {
    if t == [] then ""
    else (match t[0] case Lit(s) => s case Key(k) => CellText(row, k)) + Fill(row, t[1..])
  }

  lemma {:induction false} FillAppend(row: Row, a: Template, b: Template)
    ensures Fill(row, a + b) == Fill(row, a) + Fill(row, b)
    decreases |a|
  {
    if a == [] {
      assert a + b == b;
    } else {
      assert (a + b)[0] == a[0];
      assert (a + b)[1..] == a[1..] + b;
      FillAppend(row, a[1..], b);
    }
  }

  /** A literal followed by a key prints the literal, then the key's cell, then the rest. */
  lemma FillLitKey(row: Row, text: string, key: string, t: Template)
    ensures Fill(row, [Lit(text), Key(key)] + t) == text + CellText(row, key) + Fill(row, t)
  {
    var u := [Lit(text), Key(key)] + t;
    assert u[1..] == [Key(key)] + t;
    assert ([Key(key)] + t)[1..] == t;
  }

  /** The text of a template is that of the pieces before a key, the key's cell, and that of the pieces after it. */
  lemma FillAt(row: Row, t: Template, i: int)
    requires 0 <= i < |t| && t[i].Key?
    ensures Fill(row, t) == Fill(row, t[..i]) + CellText(row, t[i].key) + Fill(row, t[i + 1..])
  {
    assert t == t[..i] + ([t[i]] + t[i + 1..]);
    FillAppend(row, t[..i], [t[i]] + t[i + 1..]);
    FillAppend(row, [t[i]], t[i + 1..]);
    assert [t[i]][1..] == [];
  }

  /** A template that reads a key the row does not have prints `undefined` in its place. */
  lemma MissingKeyPrintsUndefined(row: Row, t: Template, i: int)
    requires 0 <= i < |t| && t[i].Key? && t[i].key !in row
    ensures exists before, after :: Fill(row, t) == before + "undefined" + after
  {
    FillAt(row, t, i);
    var before, after := Fill(row, t[..i]), Fill(row, t[i + 1..]);
    assert Fill(row, t) == before + "undefined" + after;
  }

  /** `rows.map(row => template)`: one line per row, in order. */
  function TableLines(rows: seq<Row>, line: Template): (lines: seq<string>)
    ensures |lines| == |rows|
    ensures forall i :: 0 <= i < |rows| ==> lines[i] == Fill(rows[i], line)
  {
    seq(|rows|, i requires 0 <= i < |rows| => Fill(rows[i], line))
  }

  /** `items.filter(item => item.trim()).map(item => marker + item)`. */
  function BulletLines(items: seq<string>, marker: string): (lines: seq<string>)
  {
    var kept := KeepNonBlank(items);
    seq(|kept|, i requires 0 <= i < |kept| => marker + kept[i])
  }

  /** Bulleting distributes over concatenation: the lines keep the order of the entries. */
  lemma BulletLinesAppend(a: seq<string>, b: seq<string>, marker: string)
    ensures BulletLines(a + b, marker) == BulletLines(a, marker) + BulletLines(b, marker)
  {
    KeepNonBlankAppend(a, b);
  }

  /** A single blank entry yields no line, and a single non-blank entry exactly its own line. */
  lemma BulletLinesSingle(x: string, marker: string)
    ensures BulletLines([x], marker) == if IsBlank(x) then [] else [marker + x]
  {
    TrimEmptyIffBlank(x);
    assert [x][1..] == [];
  }

  /** No literal of the template and no cell of the row holds a line break. */
  predicate SingleLine(row: Row, t: Template)
  {
    forall i :: 0 <= i < |t| ==>
      match t[i]
      case Lit(s) => '\n' !in s
      case Key(k) => '\n' !in CellText(row, k)
  }

  lemma {:induction false} FillSingleLine(row: Row, t: Template)
    requires SingleLine(row, t)
    ensures '\n' !in Fill(row, t)
    decreases |t|
  {
    if t != [] {
      assert SingleLine(row, t[1..]) by {
        forall i | 0 <= i < |t[1..]| ensures t[1..][i] == t[i + 1] { }
      }
      FillSingleLine(row, t[1..]);
    }
  }

  /**
   * A table section has exactly one text line per row, in order, blank rows
   * included, when no cell holds a line break.
   */
  lemma TableTextOneLinePerRow(rows: seq<Row>, line: Template)
    requires rows != []
    requires forall i :: 0 <= i < |rows| ==> SingleLine(rows[i], line)
    ensures SplitLines(TableText(rows, line)) == TableLines(rows, line)
  {
    var lines := TableLines(rows, line);
    forall i | 0 <= i < |lines| ensures '\n' !in lines[i] {
      FillSingleLine(rows[i], line);
    }
    SplitJoinLines(lines);
  }

  /** A line shows an entry exactly when the entry is in the list and is not blank. */
  lemma BulletLinesMembers(items: seq<string>, marker: string, x: string)
    ensures marker + x in BulletLines(items, marker) <==> x in items && !IsBlank(x)
  {
    var kept := KeepNonBlank(items);
    KeepNonBlankMembers(items, x);
    if marker + x in BulletLines(items, marker) {
      var i :| 0 <= i < |kept| && BulletLines(items, marker)[i] == marker + x;
      assert (marker + kept[i])[|marker|..] == kept[i];
      assert (marker + x)[|marker|..] == x;
    }
    if x in kept {
      var i :| 0 <= i < |kept| && kept[i] == x;
      assert BulletLines(items, marker)[i] == marker + x;
    }
  }

  /** `items.filter(item => item.trim()).map(item => marker + item).join('\n')`. */
  function BulletList(items: seq<string>, marker: string): string
  {
    Join(BulletLines(items, marker), "\n")
  }

  /** `rows.map(row => line).join('\n')`. */
  function TableText(rows: seq<Row>, line: Template): string
  {
    Join(TableLines(rows, line), "\n")
  }

  /** Appending a row to a table appends its line, after a line break unless the table was empty. */
  lemma TableTextAppend(rows: seq<Row>, row: Row, line: Template)
    ensures TableText(rows + [row], line) == TableText(rows, line) + (if rows == [] then "" else "\n") + Fill(row, line)
  {
    assert TableLines(rows + [row], line) == TableLines(rows, line) + [Fill(row, line)];
    if rows != [] {
      JoinAppend(TableLines(rows, line), [Fill(row, line)], "\n");
    }
  }

  /** `rows.map(row => section).join('\n\n')`. */
  function SectionsText(rows: seq<Row>, section: Template): string
  {
    Join(TableLines(rows, section), "\n\n")
  }

  /** The keys a per-row template reads. */
  function KeysRead(t: Template): set<string>
  {
    set i | 0 <= i < |t| && t[i].Key? :: t[i].key
  }

  /** The template's fixed text alone: what a row with an empty cell for every key it reads prints. */
  function LitText(t: Template): string
  {
    if t == [] then "" else (if t[0].Lit? then t[0].text else "") + LitText(t[1..])
  }

  /**
   * A fresh row that has every key the template reads, each empty, prints
   * the template's fixed text and nothing else, so no cell shows `undefined`.
   */
  lemma {:induction false} FillBlankRow(row: Row, t: Template)
    requires KeysRead(t) <= row.Keys
    requires forall k :: k in row ==> row[k] == ""
    ensures Fill(row, t) == LitText(t)
    decreases |t|
  {
    if t != [] {
      assert KeysRead(t[1..]) <= KeysRead(t) by {
        forall k | k in KeysRead(t[1..]) ensures k in KeysRead(t) {
          var i :| 0 <= i < |t[1..]| && t[1..][i].Key? && t[1..][i].key == k;
          assert t[i + 1] == t[1..][i];
        }
      }
      if t[0].Key? {
        assert t[0].key in KeysRead(t);
      }
      FillBlankRow(row, t[1..]);
    }
  }

  /** Per-row sections of `a + b` are those of `a`, one blank line, then those of `b`. */
  lemma SectionsAppend(a: seq<Row>, b: seq<Row>, section: Template)
    requires a != [] && b != []
    ensures SectionsText(a + b, section) == SectionsText(a, section) + "\n\n" + SectionsText(b, section)
  {
    assert TableLines(a + b, section) == TableLines(a, section) + TableLines(b, section);
    JoinAppend(TableLines(a, section), TableLines(b, section), "\n\n");
  }
}
