/**
 * The list updaters every generator hands to its state setter:
 * `filter((_, i) => i !== index)`, `map((item, i) => i === index ? value : item)`
 * and `map((row, i) => i === index ? { ...row, [key]: value } : row)`.
 * An index is a JavaScript number, so it may be negative or past the end.
 */
module ListEdit {

  /** A table row: column name to cell text. */
  type Row = map<string, string>

  /** `s.filter((_, i) => i !== index)`, written as the filter it is: keep every position other than `index`. */
  function RemoveAt<T>(s: seq<T>, index: int): (r: seq<T>)
    ensures |r| <= |s|
    decreases |s|
  {
    if s == [] then []
    else
      var last := |s| - 1;
      RemoveAt(s[..last], index) + (if last == index then [] else [s[last]])
  }

  /**
   * Removing an in-range position deletes exactly that element and keeps the
   * order of the rest; an out-of-range index changes nothing.
   */
  lemma {:induction false} RemoveAtSpec<T>(s: seq<T>, index: int)
    ensures 0 <= index < |s| ==> RemoveAt(s, index) == s[..index] + s[index + 1..]
    ensures !(0 <= index < |s|) ==> RemoveAt(s, index) == s
    decreases |s|
  {
    if s != [] {
      var last := |s| - 1;
      RemoveAtSpec(s[..last], index);
      if last == index {
        assert s[..index] + s[index + 1..] == s[..last];
      } else if 0 <= index < last {
        assert s[..last][..index] == s[..index];
        assert s[..last][index + 1..] + [s[last]] == s[index + 1..];
      } else {
        assert s[..last] + [s[last]] == s;
      }
    }
  }

  /** The length drops by one exactly when the index is in range. */
  lemma RemoveAtLength<T>(s: seq<T>, index: int)
    ensures |RemoveAt(s, index)| == if 0 <= index < |s| then |s| - 1 else |s|
  {
    RemoveAtSpec(s, index);
  }

  /** `s.map((item, i) => i === index ? value : item)`. */
  function ReplaceAt<T>(s: seq<T>, index: int, value: T): (r: seq<T>)
    ensures |r| == |s|
    ensures 0 <= index < |s| ==> r == s[index := value]
    ensures !(0 <= index < |s|) ==> r == s
  {
    seq(|s|, i requires 0 <= i < |s| => if i == index then value else s[i])
  }

  /** `rows.map((row, i) => i === index ? { ...row, [key]: value } : row)`. */
  function SetCell(rows: seq<Row>, index: int, key: string, value: string): (r: seq<Row>)
    ensures |r| == |rows|
    ensures forall i :: 0 <= i < |rows| && i != index ==> r[i] == rows[i]
    ensures 0 <= index < |rows| ==>
      && r[index].Keys == rows[index].Keys + {key}
      && r[index][key] == value
      && forall k :: k in rows[index] && k != key ==> r[index][k] == rows[index][k]
  {
    seq(|rows|, i requires 0 <= i < |rows| => if i == index then rows[i][key := value] else rows[i])
  }
}
