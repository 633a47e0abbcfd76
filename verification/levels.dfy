/**
 * The level table (levelData.d.ts): one entry per level giving the number of
 * damage dice and a flat modifier. Its contents are not part of the model;
 * every lookup takes the table as an argument.
 */
module Levels {
  import opened Wrappers

  datatype LevelEntry = LevelEntry(level: int, dice: int, modifier: int, damageMin: Option<int>)

  type LevelTable = seq<LevelEntry>

  /** `levelData.find((data) => data.level === level)`: the first matching entry. */
  function Find(table: LevelTable, level: int): (r: Option<LevelEntry>)
    ensures r.Some? ==> r.value in table && r.value.level == level
    ensures r.None? <==> forall i :: 0 <= i < |table| ==> table[i].level != level
    ensures r.Some? ==> exists i :: 0 <= i < |table| && table[i] == r.value
                         && forall j :: 0 <= j < i ==> table[j].level != level
  {
    if |table| == 0 then None
    else if table[0].level == level then Some(table[0])
    else
      var rest := Find(table[1..], level);
      if rest.Some? then
        ghost var i :| 0 <= i < |table[1..]| && table[1..][i] == rest.value
                       && forall j :: 0 <= j < i ==> table[1..][j].level != level;
        assert table[i + 1] == rest.value;
        assert forall j :: 0 <= j < i + 1 ==> table[j].level != level by {
          forall j | 0 <= j < i + 1 ensures table[j].level != level {
            if j > 0 { assert table[j] == table[1..][j - 1]; }
          }
        }
        rest
      else
        assert forall i :: 1 <= i < |table| ==> table[i] == table[1..][i - 1];
        rest
  }

  /** A table whose level keys are pairwise distinct. */
  ghost predicate UniqueLevels(table: LevelTable) {
    forall i, j :: 0 <= i < |table| && 0 <= j < |table| && table[i].level == table[j].level ==> i == j
  }

  /** With unique keys, the lookup finds exactly the entry stored for that level. */
  lemma FindEntry(table: LevelTable, i: int)
    requires UniqueLevels(table)
    requires 0 <= i < |table|
    ensures Find(table, table[i].level) == Some(table[i])
  {
  }
}
