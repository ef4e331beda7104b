/**
 * Spreadsheet rows as the client code sees them after `sheet_to_json`: an
 * object whose keys keep their insertion order and whose cells hold text,
 * numbers, booleans or nothing.
 */
module Rows {
  import opened Text

  /** A cell value. `Nil` stands for both `null` and `undefined`, which every modelled path treats alike. */
  datatype Value = Nil | Str(s: string) | Num(n: int) | Bool(b: bool)

  /** A row object: its own keys in `Object.keys` order, each with its value. */
  type Row = seq<(string, Value)>

  predicate UniqueKeys(row: Row) {
    forall i, j :: 0 <= i < j < |row| ==> row[i].0 != row[j].0
  }

  function Keys(row: Row): (r: seq<string>)
    ensures |r| == |row| && forall i :: 0 <= i < |row| ==> r[i] == row[i].0
  {
    seq(|row|, i requires 0 <= i < |row| => row[i].0)
  }

  /** `row[key]`: the value under `key`, `undefined` when the key is absent. */
  function Get(row: Row, key: string): (v: Value)
    ensures v != Nil ==> exists i :: 0 <= i < |row| && row[i] == (key, v)
    ensures (forall i :: 0 <= i < |row| ==> row[i].0 != key) ==> v == Nil
    decreases |row|
  {
    if row == [] then Nil else if row[0].0 == key then row[0].1 else Get(row[1..], key)
  }

  /** In a row with distinct keys, looking up the key at position `i` finds the value at `i`. */
  lemma {:induction false} GetAt(row: Row, i: nat)
    requires UniqueKeys(row) && i < |row|
    ensures Get(row, row[i].0) == row[i].1
    decreases i
  {
    if i > 0 {
      assert UniqueKeys(row[1..]) by {
        forall a, b | 0 <= a < b < |row[1..]| ensures row[1..][a].0 != row[1..][b].0 {
          assert row[1..][a] == row[a + 1] && row[1..][b] == row[b + 1];
        }
      }
      assert row[0].0 != row[i].0;
      GetAt(row[1..], i - 1);
    }
  }

  /** JavaScript truthiness of a cell value. */
  predicate Truthy(v: Value) {
    match v
    case Nil => false
    case Str(s) => s != ""
    case Num(n) => n != 0
    case Bool(b) => b
  }

  /** `String(v)` for a value that is neither `null` nor `undefined`. */
  function ToJsString(v: Value): string {
    match v
    case Nil => "null"
    case Str(s) => s
    case Num(n) => IntToString(n)
    case Bool(b) => if b then "true" else "false"
  }

  /** A value other than the empty string always prints as a non-empty string. */
  lemma TruthyPrintsNonEmpty(v: Value)
    requires Truthy(v)
    ensures ToJsString(v) != ""
  {
    if v.Num? {
      assert |NatToString(if v.n < 0 then -v.n else v.n)| >= 1;
    }
  }
}
