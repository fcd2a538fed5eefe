/** The kanji knowledge table of cli/src/db.rs: one row per kanji (the primary key) with a
    tier that only ever goes up. */
module Db {
  import opened Types
  import opened Kanji

  /** The table after `add_kanji(k, level)`: a non-kanji is ignored, a new kanji is inserted with
      `level`, a stored kanji keeps the larger of its old level and `level`. */
  function WithKanji(rows: map<char, u8>, k: char, level: u8): map<char, u8>
  {
    if !IsKanji(k) then rows
    else if k in rows then rows[k := Max(rows[k], level) as u8]
    else rows[k := level]
  }

  /** Every key of the table is a kanji. */
  ghost predicate OnlyKanji(rows: map<char, u8>)
  {
    forall k :: k in rows ==> IsKanji(k)
  }

  /** A non-kanji leaves the table as it was. */
  lemma WithNonKanjiUnchanged(rows: map<char, u8>, k: char, level: u8)
    requires !IsKanji(k)
    ensures WithKanji(rows, k, level) == rows
  {
  }

  /** What the row of `k` holds afterwards, and that no other row changes. */
  lemma WithKanjiRows(rows: map<char, u8>, k: char, level: u8)
    requires IsKanji(k)
    ensures var r := WithKanji(rows, k, level);
      && r.Keys == rows.Keys + {k}
      && (k !in rows ==> r[k] == level)
      && (k in rows ==> r[k] == Max(rows[k], level) && r[k] >= rows[k] && r[k] >= level)
      && (forall j :: j in rows && j != k ==> r[j] == rows[j])
  {
  }

  /** No stored level ever decreases and no row disappears. */
  lemma WithKanjiNeverLowers(rows: map<char, u8>, k: char, level: u8)
    ensures forall j :: j in rows ==> j in WithKanji(rows, k, level) && WithKanji(rows, k, level)[j] >= rows[j]
  {
  }

  /** Only kanji are ever stored. */
  lemma WithKanjiKeepsOnlyKanji(rows: map<char, u8>, k: char, level: u8)
    requires OnlyKanji(rows)
    ensures OnlyKanji(WithKanji(rows, k, level))
  {
  }

  /** Levels 1, 3 and 2 in turn leave 3 on a kanji that was not stored before. */
  lemma LevelsOneThreeTwo(rows: map<char, u8>)
    requires '本' !in rows
    ensures var r := WithKanji(WithKanji(WithKanji(rows, '本', 1), '本', 3), '本', 2);
      '本' in r && r['本'] == 3
  {
  }

  /** The `kanji` table of the local database. */
  class KanjiTable {
    var rows: map<char, u8>

    ghost predicate Valid()
      reads this
    {
      OnlyKanji(rows)
    }

    /** An empty table, as `CREATE TABLE IF NOT EXISTS` leaves it on first use. */
    constructor ()
      ensures Valid() && rows == map[]
    {
      rows := map[];
    }

    /** `add_kanji`: look the kanji up, then raise its level with `MAX` or insert it. */
    method AddKanji(k: char, level: u8)
      requires Valid()
      modifies this
      ensures Valid()
      ensures rows == WithKanji(old(rows), k, level)
    {
      if !IsKanji(k) {
        return;
      }
      if k in rows {
        rows := rows[k := Max(rows[k], level) as u8];
      } else {
        rows := rows[k := level];
      }
    }

    /** `get_all_kanji`: every row once, in the order the query yields them (left open here). */
    method GetAllKanji() returns (entries: seq<KanjiEntry>)
      ensures |entries| == |rows|
      ensures forall i :: 0 <= i < |entries| ==>
        |entries[i].kanji| == 1 && entries[i].kanji[0] in rows && rows[entries[i].kanji[0]] == entries[i].level
      ensures forall i, j :: 0 <= i < j < |entries| ==> entries[i].kanji != entries[j].kanji
      ensures forall k :: k in rows ==> exists i :: 0 <= i < |entries| && entries[i] == KanjiEntry([k], rows[k])
    {
      entries := [];
      ghost var keys: seq<char> := [];
      var remaining := rows.Keys;
      while remaining != {}
        invariant remaining <= rows.Keys
        invariant |keys| == |entries| && |keys| + |remaining| == |rows|
        invariant forall i :: 0 <= i < |keys| ==>
          keys[i] in rows && keys[i] !in remaining && entries[i] == KanjiEntry([keys[i]], rows[keys[i]])
        invariant forall i, j :: 0 <= i < j < |keys| ==> keys[i] != keys[j]
        invariant forall k :: k in rows && k !in remaining ==> k in keys
        decreases remaining
      {
        var k :| k in remaining;
        entries := entries + [KanjiEntry([k], rows[k])];
        keys := keys + [k];
        remaining := remaining - {k};
      }
      forall k | k in rows
        ensures exists i :: 0 <= i < |entries| && entries[i] == KanjiEntry([k], rows[k])
      {
        var i :| 0 <= i < |keys| && keys[i] == k;
      }
    }

    /** `kanji_count`: the number of rows `get_all_kanji` collects. */
    method KanjiCount() returns (n: nat)
      ensures n == |rows|
    {
      var entries := GetAllKanji();
      n := |entries|;
    }
  }
}
