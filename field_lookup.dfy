/**
 * Column lookup by alias (`findFieldValue`). The utility module and the
 * location view normalise keys by folding accents and collapsing white space;
 * the filter panel, the individual profile and the link classifier carry a
 * local copy that only replaces each non-alphanumeric character by a space.
 * Both copies build the same `normalizedRow` dictionary and scan the alias
 * list the same way, so one definition serves both, keyed by the style.
 */
module FieldLookup {
  import opened Common
  import opened Text
  import opened Rows

  datatype KeyStyle =
    | FoldAccents     // network-graph-utils.ts and LocationGraph.tsx
    | SpaceNonAlnum   // FilterPanel.tsx, IndividualInfo.tsx and link-classification.ts

  /** One character after `toLowerCase`, through the accent replacements and `[^a-z0-9\s_]` to space. */
  function FoldChar(c: char): char {
    if '\U{00E0}' <= c <= '\U{00E5}' then 'a'
    else if '\U{00E8}' <= c <= '\U{00EB}' then 'e'
    else if c == '\U{00E7}' then 'c'
    else if '\U{00F9}' <= c <= '\U{00FC}' then 'u'
    else if '\U{00F2}' <= c <= '\U{00F6}' then 'o'
    else if '\U{00EC}' <= c <= '\U{00EF}' then 'i'
    else if IsLowerAlnum(c) || c == '_' || IsSpace(c) then c
    else ' '
  }

  /** `[^a-z0-9]` to space, one character at a time. */
  function SpaceChar(c: char): char {
    if IsLowerAlnum(c) then c else ' '
  }

  function MapChars(s: string, f: char -> char): (r: string)
    ensures |r| == |s| && forall i :: 0 <= i < |s| ==> r[i] == f(s[i])
  {
    seq(|s|, i requires 0 <= i < |s| => f(s[i]))
  }

  /** `replace(/\s+/g, ' ')`: every maximal run of white space becomes one space. */
  function CollapseSpaces(s: string): (r: string)
    ensures r == [] <==> s == []
    ensures s != [] && !IsSpace(s[0]) ==> r[0] == s[0]
    decreases |s|
  {
    if s == [] then []
    else if IsSpace(s[0]) then
      var t := TrimStart(s);
      assert t != s;
      [' '] + CollapseSpaces(t)
    else [s[0]] + CollapseSpaces(s[1..])
  }

  /** The key normaliser of each style. */
  function Normalize(style: KeyStyle, s: string): string {
    match style
    case FoldAccents => Trim(CollapseSpaces(MapChars(ToLower(s), FoldChar)))
    case SpaceNonAlnum => Trim(MapChars(ToLower(s), SpaceChar))
  }

  predicate IsKeyChar(c: char) { IsLowerAlnum(c) || c == '_' || c == ' ' }

  predicate SingleSpaced(s: string) {
    forall i :: 0 <= i < |s| - 1 ==> !(s[i] == ' ' && s[i + 1] == ' ')
  }

  /** What a folded key looks like: key characters only, single spaces, no space at either end. */
  predicate FoldedKey(s: string) {
    (forall i :: 0 <= i < |s| ==> IsKeyChar(s[i]))
    && SingleSpaced(s)
    && (s == [] || (s[0] != ' ' && s[|s| - 1] != ' '))
  }

  /** What a spaced key looks like: `[a-z0-9 ]` only, no space at either end. */
  predicate SpacedKey(s: string) {
    (forall i :: 0 <= i < |s| ==> IsLowerAlnum(s[i]) || s[i] == ' ')
    && (s == [] || (s[0] != ' ' && s[|s| - 1] != ' '))
  }

  lemma {:induction false} CollapseShape(s: string)
    requires forall i :: 0 <= i < |s| ==> IsKeyChar(s[i]) || IsSpace(s[i])
    ensures forall i :: 0 <= i < |CollapseSpaces(s)| ==> IsKeyChar(CollapseSpaces(s)[i])
    ensures SingleSpaced(CollapseSpaces(s))
    decreases |s|
  {
    if s == [] {
    } else if IsSpace(s[0]) {
      var t := TrimStart(s);
      assert t != s;
      assert forall i :: 0 <= i < |t| ==> t[i] == s[|s| - |t| + i];
      CollapseShape(t);
    } else {
      CollapseShape(s[1..]);
    }
  }

  lemma SliceKeepsShape(s: string, a: nat, b: nat)
    requires a <= b <= |s|
    requires forall i :: 0 <= i < |s| ==> IsKeyChar(s[i])
    requires SingleSpaced(s)
    ensures forall i :: 0 <= i < b - a ==> IsKeyChar(s[a..b][i])
    ensures SingleSpaced(s[a..b])
  {
    var u := s[a..b];
    assert forall i :: 0 <= i < |u| ==> u[i] == s[a + i];
  }

  lemma TrimKeepsShape(s: string)
    requires forall i :: 0 <= i < |s| ==> IsKeyChar(s[i])
    requires SingleSpaced(s)
    ensures FoldedKey(Trim(s))
  {
    var t := TrimStart(s);
    var r := TrimEnd(t);
    var a := |s| - |t|;
    assert t == s[a..];
    assert r == s[a..a + |r|];
    SliceKeepsShape(s, a, a + |r|);
    assert r == [] || (!IsSpace(r[0]) && !IsSpace(r[|r| - 1]));
  }

  /** The folding normaliser yields folded keys. */
  lemma FoldedKeyShape(s: string)
    ensures FoldedKey(Normalize(FoldAccents, s))
  {
    var m := MapChars(ToLower(s), FoldChar);
    CollapseShape(m);
    TrimKeepsShape(CollapseSpaces(m));
  }

  lemma {:induction false} CollapseFolded(s: string)
    requires forall i :: 0 <= i < |s| ==> IsKeyChar(s[i])
    requires SingleSpaced(s)
    ensures CollapseSpaces(s) == s
    decreases |s|
  {
    if s != [] {
      var u := s[1..];
      assert forall i :: 0 <= i < |u| ==> u[i] == s[i + 1];
      CollapseFolded(u);
      if s[0] == ' ' {
        if u != [] {
          assert u[0] == s[1] && !(s[0] == ' ' && s[1] == ' ');
          KeySpace(u);
        }
        CollapseSingleSpace(u);
        assert s == [' '] + u;
      } else {
        KeySpace(s);
        assert s == [s[0]] + u;
      }
    }
  }

  /** The only white space a key character can be is the plain space. */
  lemma KeySpace(s: string)
    requires s != [] && IsKeyChar(s[0]) && s[0] != ' '
    ensures !IsSpace(s[0])
  {
  }

  /** One space before a non-space (or the end) is kept as it is. */
  lemma CollapseSingleSpace(u: string)
    requires u == [] || !IsSpace(u[0])
    ensures CollapseSpaces([' '] + u) == [' '] + CollapseSpaces(u)
  {
    var s := [' '] + u;
    assert s[1..] == u;
    assert SpaceEnd(s, 1) == 1;
    assert TrimStart(s) == u;
  }

  /** A folded key is its own normal form. */
  lemma FoldedKeyFixed(n: string)
    requires FoldedKey(n)
    ensures Normalize(FoldAccents, n) == n
  {
    assert ToLower(n) == n;
    assert MapChars(n, FoldChar) == n;
    CollapseFolded(n);
    TrimUntrimmed(n);
  }

  /** Normalising a normalised key changes nothing (folding style). */
  lemma FoldAccentsIdempotent(s: string)
    ensures Normalize(FoldAccents, Normalize(FoldAccents, s)) == Normalize(FoldAccents, s)
  {
    FoldedKeyShape(s);
    FoldedKeyFixed(Normalize(FoldAccents, s));
  }

  /** The spacing normaliser yields spaced keys. */
  lemma SpacedKeyShape(s: string)
    ensures SpacedKey(Normalize(SpaceNonAlnum, s))
  {
    var m := MapChars(ToLower(s), SpaceChar);
    var r := Trim(m);
    assert Normalize(SpaceNonAlnum, s) == r;
    var p := (c: char) => IsLowerAlnum(c) || c == ' ';
    assert forall i :: 0 <= i < |m| ==> p(m[i]);
    TrimKeeps(m, p);
  }

  /** Normalising a normalised key changes nothing (spacing style). */
  lemma SpaceNonAlnumIdempotent(s: string)
    ensures Normalize(SpaceNonAlnum, Normalize(SpaceNonAlnum, s)) == Normalize(SpaceNonAlnum, s)
  {
    var n := Normalize(SpaceNonAlnum, s);
    SpacedKeyShape(s);
    assert ToLower(n) == n;
    assert MapChars(n, SpaceChar) == n;
    TrimUntrimmed(n);
  }

  /** The normaliser of a style as a function value, so that the lookup lemmas need not unfold it. */
  function KeyNormalizer(style: KeyStyle): string -> string {
    s => Normalize(style, s)
  }

  /** A cell that the lookup indexes: neither `null`/`undefined` nor blank once printed. */
  predicate Present(v: Value) {
    v != Nil && !AllSpace(ToJsString(v))
  }

  /** `normalizedRow`: later keys that normalise alike overwrite earlier ones. */
  function NormalizedRow(norm: string -> string, row: Row): map<string, Value>
    decreases |row|
  {
    if row == [] then map[]
    else
      var m := NormalizedRow(norm, row[..|row| - 1]);
      var entry := row[|row| - 1];
      if Present(entry.1) then m[norm(entry.0) := entry.1] else m
  }

  /** Does key `i` of the row land on the normalised name `k`? */
  predicate IndexedAs(norm: string -> string, row: Row, i: int, k: string)
    requires 0 <= i < |row|
  {
    Present(row[i].1) && norm(row[i].0) == k
  }

  /** The last key of the row that lands on `k` with a present cell, or -1. */
  function LastIndexed(norm: string -> string, row: Row, k: string): (r: int)
    ensures -1 <= r < |row|
    ensures r >= 0 ==> IndexedAs(norm, row, r, k)
    ensures forall j :: r < j < |row| ==> !IndexedAs(norm, row, j, k)
    decreases |row|
  {
    if row == [] then -1
    else if IndexedAs(norm, row, |row| - 1, k) then |row| - 1
    else
      var p := row[..|row| - 1];
      var r := LastIndexed(norm, p, k);
      assert forall j :: 0 <= j < |p| ==> (IndexedAs(norm, p, j, k) <==> IndexedAs(norm, row, j, k));
      r
  }

  /** `normalizedRow` holds `k` exactly when some present cell's key normalises to `k`, and then holds the last such cell. */
  lemma {:induction false} NormalizedRowEntries(norm: string -> string, row: Row, k: string)
    ensures k in NormalizedRow(norm, row) <==> LastIndexed(norm, row, k) >= 0
    ensures k in NormalizedRow(norm, row) ==> NormalizedRow(norm, row)[k] == row[LastIndexed(norm, row, k)].1
    decreases |row|
  {
    if row != [] {
      var p := row[..|row| - 1];
      NormalizedRowEntries(norm, p, k);
      assert forall j :: 0 <= j < |p| ==> p[j] == row[j];
    }
  }

  /** A field name matches when its normalised form is indexed with a truthy value. */
  predicate Matches(norm: string -> string, m: map<string, Value>, field: string) {
    norm(field) in m && Truthy(m[norm(field)])
  }

  /** The `for (const field of fields)` scan over the built dictionary. */
  function FirstField(norm: string -> string, m: map<string, Value>, fields: seq<string>): Option<string>
    decreases |fields|
  {
    if fields == [] then None
    else if Matches(norm, m, fields[0]) then Some(ToJsString(m[norm(fields[0])]))
    else FirstField(norm, m, fields[1..])
  }

  /** `findFieldValue(row, fields)` with the key normaliser `norm`, as a value. */
  function FieldValueWith(norm: string -> string, row: Row, fields: seq<string>): Option<string> {
    FirstField(norm, NormalizedRow(norm, row), fields)
  }

  /** `findFieldValue(row, fields)` in the copy of the given style. */
  function FieldValue(style: KeyStyle, row: Row, fields: seq<string>): Option<string> {
    FieldValueWith(KeyNormalizer(style), row, fields)
  }

  /** The scan returns the value of the first matching field in list order, and nothing when none matches. */
  lemma {:induction false} FirstFieldSpec(norm: string -> string, m: map<string, Value>, fields: seq<string>)
    ensures FirstField(norm, m, fields).None? <==> forall i :: 0 <= i < |fields| ==> !Matches(norm, m, fields[i])
    ensures FirstField(norm, m, fields).Some? ==>
      exists i :: 0 <= i < |fields| && Matches(norm, m, fields[i])
        && (forall j :: 0 <= j < i ==> !Matches(norm, m, fields[j]))
        && FirstField(norm, m, fields).value == ToJsString(m[norm(fields[i])])
    decreases |fields|
  {
    if fields != [] && !Matches(norm, m, fields[0]) {
      var rest := fields[1..];
      FirstFieldSpec(norm, m, rest);
      assert forall i :: 1 <= i < |fields| ==> fields[i] == rest[i - 1];
      if FirstField(norm, m, rest).Some? {
        var i :| 0 <= i < |rest| && Matches(norm, m, rest[i])
          && (forall j :: 0 <= j < i ==> !Matches(norm, m, rest[j]))
          && FirstField(norm, m, rest).value == ToJsString(m[norm(rest[i])]);
        assert Matches(norm, m, fields[i + 1]);
      }
    } else if fields != [] {
      assert Matches(norm, m, fields[0]);
    }
  }

  /** A found value is never the empty string, so `if (!value)` only rejects a missing field. */
  lemma {:induction false} FirstFieldNonEmpty(norm: string -> string, m: map<string, Value>, fields: seq<string>)
    ensures FirstField(norm, m, fields).Some? ==> FirstField(norm, m, fields).value != ""
    decreases |fields|
  {
    if fields != [] {
      if Matches(norm, m, fields[0]) {
        TruthyPrintsNonEmpty(m[norm(fields[0])]);
      } else {
        FirstFieldNonEmpty(norm, m, fields[1..]);
      }
    }
  }

  /** The number 0 is falsy: a row whose only cell holds 0 yields no field at all. */
  lemma ZeroIsAbsent(style: KeyStyle, key: string, fields: seq<string>)
    ensures FieldValue(style, [(key, Num(0))], fields) == None
  {
    var norm := KeyNormalizer(style);
    var m := NormalizedRow(norm, [(key, Num(0))]);
    forall k | k in m ensures m[k] == Num(0) {
      NormalizedRowEntries(norm, [(key, Num(0))], k);
    }
    FirstFieldSpec(norm, m, fields);
  }

  /** `findFieldValue`: builds `normalizedRow` in one loop, then scans the aliases in a second. */
  method FindFieldValue(norm: string -> string, row: Row, fields: seq<string>) returns (r: Option<string>)
    ensures r == FieldValueWith(norm, row, fields)
    ensures r.Some? ==> r.value != ""
  {
    var normalizedRow: map<string, Value> := map[];
    var i := 0;
    while i < |row|
      invariant 0 <= i <= |row|
      invariant normalizedRow == NormalizedRow(norm, row[..i])
    {
      assert row[..i + 1][..i] == row[..i];
      var (key, value) := row[i];
      TrimEmpty(ToJsString(value));
      if value != Nil && Trim(ToJsString(value)) != "" {
        normalizedRow := normalizedRow[norm(key) := value];
      }
      i := i + 1;
    }
    assert row[..|row|] == row;
    var j := 0;
    while j < |fields|
      invariant 0 <= j <= |fields|
      invariant FirstField(norm, normalizedRow, fields[j..]) == FirstField(norm, normalizedRow, fields)
    {
      assert fields[j..][1..] == fields[j + 1..];
      var normalizedField := norm(fields[j]);
      if normalizedField in normalizedRow && Truthy(normalizedRow[normalizedField]) {
        r := Some(ToJsString(normalizedRow[normalizedField]));
        FirstFieldNonEmpty(norm, normalizedRow, fields);
        return;
      }
      j := j + 1;
    }
    r := None;
  }
}
