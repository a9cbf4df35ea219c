/**
 * The Canal table filter built from the configured databases
 * (buildTableFilters): one `schema\.table` entry per table, separated by commas.
 */
module TableFilter {
  import opened CanalConfig

  /** The regex-escaped dot between schema and table: a backslash and a dot. */
  const EscapedDot: string := "\\."

  /** The filter entry of one table. */
  function Entry(t: TableDefinition): string
  {
    t.schemaName + EscapedDot + t.tableName
  }

  /** Every table of every database, databases first to last, tables in order. */
  function AllTables(dbs: seq<DbDefinition>): seq<TableDefinition>
  {
    if dbs == [] then [] else AllTables(dbs[..|dbs| - 1]) + dbs[|dbs| - 1].tables
  }

  /** The entry of every table, in order. */
  function Entries(ts: seq<TableDefinition>): seq<string>
  {
    seq(|ts|, k requires 0 <= k < |ts| => Entry(ts[k]))
  }

  /** The strings joined by single commas. */
  function Join(xs: seq<string>): string
  {
    if xs == [] then ""
    else if |xs| == 1 then xs[0]
    else Join(xs[..|xs| - 1]) + "," + xs[|xs| - 1]
  }

  /** The filter the connector hands to the Canal instance. */
  function FilterSpec(dbs: seq<DbDefinition>): string
  {
    Join(Entries(AllTables(dbs)))
  }

  lemma EntryNotEmpty(t: TableDefinition)
    ensures |Entry(t)| >= 2
  {
  }

  /** Appending one entry to a join: a comma appears only between two entries. */
  lemma JoinSnoc(xs: seq<string>, x: string)
    ensures Join(xs + [x]) == if xs == [] then x else Join(xs) + "," + x
  {
    assert (xs + [x])[..|xs + [x]| - 1] == xs;
  }

  lemma {:induction false} JoinEmptyIff(xs: seq<string>)
    requires forall k :: 0 <= k < |xs| ==> |xs[k]| > 0
    ensures Join(xs) == "" <==> xs == []
  {
    if |xs| > 1 {
      JoinEmptyIff(xs[..|xs| - 1]);
    }
  }

  /**
   * The filter is empty exactly when no table is configured: every entry holds
   * at least the escaped dot, so a configured table always shows.
   */
  lemma FilterEmptyIff(dbs: seq<DbDefinition>)
    ensures FilterSpec(dbs) == "" <==> AllTables(dbs) == []
  {
    var es := Entries(AllTables(dbs));
    forall k | 0 <= k < |es| ensures |es[k]| > 0 {
      EntryNotEmpty(AllTables(dbs)[k]);
    }
    JoinEmptyIff(es);
  }

  lemma {:induction false} JoinStartsWithFirst(xs: seq<string>)
    requires xs != []
    ensures |xs[0]| <= |Join(xs)| && Join(xs)[..|xs[0]|] == xs[0]
  {
    if |xs| > 1 {
      var init := xs[..|xs| - 1];
      JoinStartsWithFirst(init);
      assert init[0] == xs[0];
      var j := Join(init);
      assert Join(xs) == j + "," + xs[|xs| - 1];
      assert (j + "," + xs[|xs| - 1])[..|xs[0]|] == j[..|xs[0]|];
    }
  }

  lemma JoinEndsWithLast(xs: seq<string>)
    requires xs != []
    ensures var n := |xs[|xs| - 1]|; n <= |Join(xs)| && Join(xs)[|Join(xs)| - n..] == xs[|xs| - 1]
  {
  }

  /**
   * No separator before the first entry or after the last one: the filter
   * begins with the first table's entry and ends with the last table's entry.
   */
  lemma FilterBoundaries(dbs: seq<DbDefinition>)
    requires AllTables(dbs) != []
    ensures var ts := AllTables(dbs); var f := FilterSpec(dbs);
      var first := Entry(ts[0]); var last := Entry(ts[|ts| - 1]);
      |first| <= |f| && f[..|first|] == first &&
      |last| <= |f| && f[|f| - |last|..] == last
  {
    var es := Entries(AllTables(dbs));
    JoinStartsWithFirst(es);
    JoinEndsWithLast(es);
  }

  /** Cuts a string at every comma; a string without commas is one piece. */
  function SplitAtCommas(s: string): (parts: seq<string>)
    ensures |parts| >= 1
  {
    if s == [] then [""]
    else
      var parts := SplitAtCommas(s[..|s| - 1]);
      if s[|s| - 1] == ',' then parts + [""]
      else parts[..|parts| - 1] + [parts[|parts| - 1] + [s[|s| - 1]]]
  }

  predicate NoComma(s: string)
  {
    forall k :: 0 <= k < |s| ==> s[k] != ','
  }

  /** A character other than a comma extends the last piece. */
  lemma SplitChar(p: string, c: char)
    requires c != ','
    ensures var sp := SplitAtCommas(p);
      SplitAtCommas(p + [c]) == sp[..|sp| - 1] + [sp[|sp| - 1] + [c]]
  {
    assert (p + [c])[..|p + [c]| - 1] == p;
  }

  /** One character other than a comma, after text that already extends the last piece. */
  lemma SplitExtendStep(p: string, a: string, c: char, ac: string)
    requires c != ',' && ac == a + [c]
    requires var sp := SplitAtCommas(p); SplitAtCommas(p + a) == sp[..|sp| - 1] + [sp[|sp| - 1] + a]
    ensures var sp := SplitAtCommas(p); SplitAtCommas(p + ac) == sp[..|sp| - 1] + [sp[|sp| - 1] + ac]
  {
    var sp := SplitAtCommas(p);
    var parts := SplitAtCommas(p + a);
    assert SplitAtCommas(p + ac) == parts[..|parts| - 1] + [parts[|parts| - 1] + [c]] by {
      assert p + ac == (p + a) + [c];
      SplitChar(p + a, c);
    }
    LastExtend(sp, parts, a, c, ac);
  }

  /** Extending the last piece of `parts`, itself the last piece of `sp` extended by `a`. */
  lemma LastExtend(sp: seq<string>, parts: seq<string>, a: string, c: char, ac: string)
    requires |sp| >= 1 && parts == sp[..|sp| - 1] + [sp[|sp| - 1] + a] && ac == a + [c]
    ensures parts[..|parts| - 1] + [parts[|parts| - 1] + [c]] == sp[..|sp| - 1] + [sp[|sp| - 1] + ac]
  {
    assert parts[..|parts| - 1] == sp[..|sp| - 1];
    assert parts[|parts| - 1] + [c] == sp[|sp| - 1] + ac;
  }

  /** Text without commas extends the last piece. */
  lemma {:induction false} SplitExtend(p: string, a: string)
    requires NoComma(a)
    ensures var sp := SplitAtCommas(p);
      SplitAtCommas(p + a) == sp[..|sp| - 1] + [sp[|sp| - 1] + a]
    decreases |a|
  {
    if a == [] {
      var sp := SplitAtCommas(p);
      assert p + a == p;
      assert sp[..|sp| - 1] + [sp[|sp| - 1] + a] == sp by {
        assert sp[|sp| - 1] + a == sp[|sp| - 1];
      }
    } else {
      var a', c := a[..|a| - 1], a[|a| - 1];
      assert NoComma(a') by {
        forall k | 0 <= k < |a'| ensures a'[k] != ',' {
          assert a'[k] == a[k];
        }
      }
      SplitExtend(p, a');
      SplitExtendStep(p, a', c, a);
    }
  }

  lemma SplitComma(p: string)
    ensures SplitAtCommas(p + ",") == SplitAtCommas(p) + [""]
  {
    assert (p + ",")[..|p + ","| - 1] == p;
  }

  lemma {:induction false} SplitJoin(xs: seq<string>)
    requires xs != []
    requires forall k :: 0 <= k < |xs| ==> NoComma(xs[k])
    ensures SplitAtCommas(Join(xs)) == xs
  {
    var last := xs[|xs| - 1];
    if |xs| == 1 {
      SplitExtend("", last);
      assert "" + last == last;
      assert [last] == xs;
    } else {
      var init := xs[..|xs| - 1];
      var j := Join(init);
      assert SplitAtCommas(j + ",") == init + [""] by {
        SplitJoin(init);
        SplitComma(j);
      }
      assert SplitAtCommas((j + ",") + last) == init + [last] by {
        SplitExtend(j + ",", last);
        var sp := init + [""];
        assert sp[..|sp| - 1] == init;
        assert sp[|sp| - 1] + last == last;
      }
      assert init + [last] == xs;
      assert Join(xs) == (j + ",") + last;
    }
  }

  /**
   * When no schema or table name holds a comma, cutting the filter at its
   * commas gives back exactly one entry per table, in configuration order.
   */
  lemma FilterRoundTrip(dbs: seq<DbDefinition>)
    requires AllTables(dbs) != []
    requires forall t :: t in AllTables(dbs) ==> NoComma(t.schemaName) && NoComma(t.tableName)
    ensures SplitAtCommas(FilterSpec(dbs)) == Entries(AllTables(dbs))
  {
    var ts := AllTables(dbs);
    var es := Entries(ts);
    forall k | 0 <= k < |es| ensures NoComma(es[k]) {
      assert ts[k] in ts;
      assert es[k] == ts[k].schemaName + EscapedDot + ts[k].tableName;
    }
    SplitJoin(es);
  }

  /** buildTableFilters: a StringBuilder grown over the databases and their tables. */
  method BuildTableFilters(dbs: seq<DbDefinition>) returns (filter: string)
    ensures filter == FilterSpec(dbs)
  {
    var builder := "";
    var i := 0;
    while i < |dbs|
      invariant 0 <= i <= |dbs|
      invariant builder == Join(Entries(AllTables(dbs[..i])))
    {
      builder := AppendTables(builder, AllTables(dbs[..i]), dbs[i].tables);
      AllTablesSnoc(dbs, i);
      i := i + 1;
    }
    assert dbs[..i] == dbs;
    filter := builder;
  }

  /** The inner loop of buildTableFilters: the entries of one database's tables. */
  method AppendTables(builder: string, ghost before: seq<TableDefinition>, tables: seq<TableDefinition>)
    returns (grown: string)
    requires builder == Join(Entries(before))
    ensures grown == Join(Entries(before + tables))
  {
    grown := builder;
    var j := 0;
    assert before + tables[..0] == before;
    while j < |tables|
      invariant 0 <= j <= |tables|
      invariant grown == Join(Entries(before + tables[..j]))
    {
      var t := tables[j];
      ghost var done := before + tables[..j];
      ghost var previous := grown;
      if |grown| > 0 {
        grown := grown + ",";
      }
      grown := grown + t.schemaName;
      grown := grown + "\\.";
      grown := grown + t.tableName;
      AppendEntry(done, t, previous, grown);
      assert done + [t] == before + tables[..j + 1];
      j := j + 1;
    }
    assert tables[..j] == tables;
  }

  /** One step of the inner loop: a comma only when something was appended before. */
  lemma AppendEntry(done: seq<TableDefinition>, t: TableDefinition, before: string, after: string)
    requires before == Join(Entries(done))
    requires after == (if |before| > 0 then before + "," else before) + t.schemaName + EscapedDot + t.tableName
    ensures after == Join(Entries(done + [t]))
  {
    var es := Entries(done);
    assert |before| > 0 <==> es != [] by {
      forall k | 0 <= k < |es| ensures |es[k]| > 0 {
        EntryNotEmpty(done[k]);
      }
      JoinEmptyIff(es);
    }
    var sep := if |before| > 0 then before + "," else before;
    assert after == sep + Entry(t) by {
      assert sep + t.schemaName + EscapedDot + t.tableName == sep + (t.schemaName + EscapedDot + t.tableName);
    }
    assert Entries(done + [t]) == es + [Entry(t)];
    JoinSnoc(es, Entry(t));
  }

  lemma AllTablesSnoc(dbs: seq<DbDefinition>, i: nat)
    requires i < |dbs|
    ensures AllTables(dbs[..i + 1]) == AllTables(dbs[..i]) + dbs[i].tables
  {
    assert dbs[..i + 1][..i] == dbs[..i];
  }
}
