/**
 * The INSERT statement `insert_data` sends for one record: the column list is
 * the record's keys joined with ", ", the placeholder list is "%s" once per
 * entry joined the same way, and the parameters are the record's values in
 * the same order.
 */
module Statement {
  import opened OrderedDict
  import opened Synthesis

  /** The total length of the parts. */
  function TotalLength(parts: seq<string>): nat {
    if |parts| == 0 then 0 else |parts[0]| + TotalLength(parts[1..])
  }

  /** `sep.join(parts)`: the first part, then the separator and the rest. */
  function Join(parts: seq<string>, sep: string): (s: string)
    ensures |parts| == 0 ==> s == ""
    ensures |parts| == 1 ==> s == parts[0]
    ensures |parts| > 0 ==> |parts[0]| <= |s| && s[..|parts[0]|] == parts[0]
    ensures |parts| > 1 ==> s[|parts[0]|..] == sep + Join(parts[1..], sep)
  {
    if |parts| == 0 then ""
    else if |parts| == 1 then parts[0]
    else
      var rest := Join(parts[1..], sep);
      var s := parts[0] + (sep + rest);
      assert s[..|parts[0]|] == parts[0] && s[|parts[0]|..] == sep + rest;
      s
  }

  /** The length the separators of a join of n parts add: one between each two parts. */
  function GapsLength(n: nat, sep: string): nat {
    if n <= 1 then 0 else |sep| + GapsLength(n - 1, sep)
  }

  /** The joined text is as long as the parts plus one separator between each two. */
  lemma {:induction false} JoinLength(parts: seq<string>, sep: string)
    ensures |Join(parts, sep)| == TotalLength(parts) + GapsLength(|parts|, sep)
  {
    if |parts| > 1 {
      JoinLength(parts[1..], sep);
      assert |Join(parts, sep)| == |parts[0]| + |sep| + |Join(parts[1..], sep)|;
    }
  }

  /** The separators of n > 0 parts add n - 1 times the separator's length. */
  lemma {:induction false} GapsLengthIsProduct(n: nat, sep: string)
    requires n > 0
    ensures GapsLength(n, sep) == (n - 1) * |sep|
  {
    if n > 1 {
      GapsLengthIsProduct(n - 1, sep);
      assert (n - 1) * |sep| == (n - 2) * |sep| + |sep|;
    }
  }

  /** `[x] * n` */
  function Repeat(x: string, n: nat): (r: seq<string>)
    ensures |r| == n && forall i :: 0 <= i < n ==> r[i] == x
  {
    if n == 0 then [] else [x] + Repeat(x, n - 1)
  }

  /** Splits a list written as `", ".join(parts)` back into its parts. */
  function SplitList(s: string): (parts: seq<string>)
    ensures |parts| >= 1
    decreases |s|
  {
    if |s| == 0 then [""]
    else if |s| >= 2 && s[0] == ',' && s[1] == ' ' then [""] + SplitList(s[2..])
    else
      var rest := SplitList(s[1..]);
      [[s[0]] + rest[0]] + rest[1..]
  }

  /** `s.count(c)` for a single character. */
  function Count(s: string, c: char): nat {
    multiset(s)[c]
  }

  /** `count` adds up over a concatenation. */
  lemma CountConcat(a: string, b: string, c: char)
    ensures Count(a + b, c) == Count(a, c) + Count(b, c)
  {
    assert multiset(a + b) == multiset(a) + multiset(b);
  }

  /** A character that does not occur counts zero. */
  lemma CountAbsent(s: string, c: char)
    requires c !in s
    ensures Count(s, c) == 0
  {
    assert c !in multiset(s);
  }

  /** A piece with no comma stays glued to the front of whatever follows it. */
  lemma {:induction false} SplitListPlain(a: string, t: string)
    requires ',' !in a
    ensures SplitList(a + t) == [a + SplitList(t)[0]] + SplitList(t)[1..]
    decreases |a|
  {
    var rest := SplitList(t);
    if |a| == 0 {
      assert a + t == t && a + rest[0] == rest[0];
    } else {
      assert (a + t)[0] == a[0] && a[0] in a;
      assert (a + t)[1..] == a[1..] + t;
      SplitListPlain(a[1..], t);
      assert [a[0]] + (a[1..] + rest[0]) == a + rest[0];
    }
  }

  /** Splitting undoes joining when no part contains a comma. */
  lemma {:induction false} SplitJoin(parts: seq<string>)
    requires |parts| > 0
    requires forall i :: 0 <= i < |parts| ==> ',' !in parts[i]
    ensures SplitList(Join(parts, ", ")) == parts
  {
    if |parts| == 1 {
      SplitListPlain(parts[0], "");
      assert parts[0] + "" == parts[0];
    } else {
      var tail := Join(parts[1..], ", ");
      assert Join(parts, ", ") == parts[0] + (", " + tail);
      SplitListPlain(parts[0], ", " + tail);
      assert (", " + tail)[2..] == tail;
      assert SplitList(", " + tail) == [""] + SplitList(tail);
      assert parts[0] + "" == parts[0];
      SplitJoin(parts[1..]);
      assert parts == [parts[0]] + parts[1..];
    }
  }

  /** `SplitJoin` for any list, as an implication. */
  lemma SplitJoinIfCommaFree(parts: seq<string>)
    ensures |parts| > 0 && (forall i :: 0 <= i < |parts| ==> ',' !in parts[i]) ==>
      SplitList(Join(parts, ", ")) == parts
  {
    if |parts| > 0 && forall i :: 0 <= i < |parts| ==> ',' !in parts[i] {
      SplitJoin(parts);
    }
  }

  /** Joining adds only the separators' occurrences of `c`. */
  lemma {:induction false} CountJoin(parts: seq<string>, sep: string, c: char)
    requires c !in sep
    ensures |parts| > 0 ==> Count(Join(parts, sep), c) == Count(parts[0], c) + Count(Join(parts[1..], sep), c)
  {
    if |parts| == 1 {
      assert Join(parts[1..], sep) == "";
    }
  }

  /** The column list: `", ".join(data.keys())`. */
  function ColumnList(data: Record): (s: string)
    ensures |data| > 0 && (forall i :: 0 <= i < |data| ==> ',' !in data[i].0) ==> SplitList(s) == Keys(data)
    ensures (forall i :: 0 <= i < |data| ==> '%' !in data[i].0) ==> Count(s, '%') == 0
  {
    SplitJoinIfCommaFree(Keys(data));
    ColumnPercents(Keys(data));
    Join(Keys(data), ", ")
  }

  /** The placeholder list: `", ".join(["%s"] * len(data))`. */
  function PlaceholderList(data: Record): (s: string)
    ensures |data| > 0 ==> SplitList(s) == Repeat("%s", |data|)
    ensures Count(s, '%') == |data|
  {
    var holes := Repeat("%s", |data|);
    assert forall i :: 0 <= i < |holes| ==> ',' !in holes[i] by {
      forall i | 0 <= i < |holes| ensures ',' !in holes[i] {
        assert holes[i] == "%s";
      }
    }
    SplitJoinIfCommaFree(holes);
    PlaceholderPercents(|data|);
    Join(holes, ", ")
  }

  /** Text pieces that hold no '%' add none to the statement, so only the
      table, the column list and the placeholder list can contribute one. */
  lemma {:induction false} StatementPercents(a: string, table: string, b: string, cols: string,
                                             c: string, holes: string, d: string)
    requires '%' !in a && '%' !in b && '%' !in c && '%' !in d
    ensures Count(a + table + b + cols + c + holes + d, '%')
         == Count(table, '%') + Count(cols, '%') + Count(holes, '%')
  {
    CountAbsent(a, '%');
    CountAbsent(b, '%');
    CountAbsent(c, '%');
    CountAbsent(d, '%');
    CountConcat(a, table, '%');
    CountConcat(a + table, b, '%');
    CountConcat(a + table + b, cols, '%');
    CountConcat(a + table + b + cols, c, '%');
    CountConcat(a + table + b + cols + c, holes, '%');
    CountConcat(a + table + b + cols + c + holes, d, '%');
  }

  /** The fixed text around the table name, the column list and the placeholder list. */
  const InsertInto := "INSERT INTO "
  const OpenColumns := " ("
  const CloseColumnsOpenValues := ") VALUES ("
  const CloseValues := ")"

  lemma FixedTextIsPlain()
    ensures '%' !in InsertInto && '%' !in OpenColumns
    ensures '%' !in CloseColumnsOpenValues && '%' !in CloseValues
  {
  }

  /** The statement text for a table, a column list and a placeholder list. */
  function StatementText(table: string, cols: string, holes: string): string {
    InsertInto + table + OpenColumns + cols + CloseColumnsOpenValues + holes + CloseValues
  }

  /** The statement text passed to `cursor.execute`: when neither the table nor
      a column name holds '%', it has exactly one '%' directive per entry. */
  function InsertSql(table: string, data: Record): (sql: string)
    ensures ('%' !in table && forall i :: 0 <= i < |data| ==> '%' !in data[i].0) ==> Count(sql, '%') == |data|
  {
    var cols, holes := ColumnList(data), PlaceholderList(data);
    FixedTextIsPlain();
    StatementPercents(InsertInto, table, OpenColumns, cols, CloseColumnsOpenValues, holes, CloseValues);
    StatementText(table, cols, holes)
  }

  /** Where each of seven pieces sits in their concatenation. */
  lemma SevenPieces(a: string, b: string, c: string, d: string, e: string, f: string, g: string)
    ensures |a + b + c + d + e + f + g| == |a| + |b| + |c| + |d| + |e| + |f| + |g|
    ensures (a + b + c + d + e + f + g)[..|a|] == a
    ensures (a + b + c + d + e + f + g)[|a|..|a| + |b|] == b
    ensures (a + b + c + d + e + f + g)[|a| + |b|..|a| + |b| + |c|] == c
    ensures (a + b + c + d + e + f + g)[|a| + |b| + |c|..|a| + |b| + |c| + |d|] == d
    ensures (a + b + c + d + e + f + g)[|a| + |b| + |c| + |d|..|a| + |b| + |c| + |d| + |e|] == e
    ensures (a + b + c + d + e + f + g)[|a| + |b| + |c| + |d| + |e|..|a| + |b| + |c| + |d| + |e| + |f|] == f
    ensures (a + b + c + d + e + f + g)[|a| + |b| + |c| + |d| + |e| + |f|..] == g
  {
    var s := a + b + c + d + e + f + g;
    assert s == a + (b + (c + (d + (e + (f + g)))));
  }

  /** `sql` reads "INSERT INTO ", the table, " (", the column list, ") VALUES (",
      the placeholder list and ")", in that order: the column list starts at
      `p` and the placeholder list at `q`. */
  predicate LaidOut(sql: string, table: string, cols: string, holes: string) {
    var p := |InsertInto| + |table| + |OpenColumns|;
    var q := p + |cols| + |CloseColumnsOpenValues|;
    && |sql| == q + |holes| + |CloseValues|
    && sql[..|InsertInto|] == InsertInto
    && sql[|InsertInto|..|InsertInto| + |table|] == table
    && sql[|InsertInto| + |table|..p] == OpenColumns
    && sql[p..p + |cols|] == cols
    && sql[p + |cols|..q] == CloseColumnsOpenValues
    && sql[q..q + |holes|] == holes
    && sql[q + |holes|..] == CloseValues
  }

  /** The statement text puts each piece where `LaidOut` says. */
  lemma StatementLayout(table: string, cols: string, holes: string)
    ensures LaidOut(StatementText(table, cols, holes), table, cols, holes)
  {
    SevenPieces(InsertInto, table, OpenColumns, cols, CloseColumnsOpenValues, holes, CloseValues);
  }

  /** `InsertSql` fills the statement text with the record's two lists. */
  lemma InsertSqlIsText(table: string, data: Record)
    ensures InsertSql(table, data) == StatementText(table, ColumnList(data), PlaceholderList(data))
  {
  }

  /** The statement for a record: the table follows "INSERT INTO ", the column
      list sits inside the first parentheses and the placeholder list inside
      the parentheses after "VALUES". */
  lemma InsertSqlLayout(table: string, data: Record)
    ensures LaidOut(InsertSql(table, data), table, ColumnList(data), PlaceholderList(data))
  {
    InsertSqlIsText(table, data);
    StatementLayout(table, ColumnList(data), PlaceholderList(data));
  }

  /** What one `cursor.execute` call receives. */
  datatype Insert = Insert(sql: string, params: seq<Value>)

  /** The statement and parameters `insert_data` builds for one record. */
  function ComposeInsert(table: string, data: Record): (st: Insert)
    ensures |st.params| == |data|
    ensures forall i :: 0 <= i < |data| ==> st.params[i] == data[i].1
  {
    Insert(InsertSql(table, data), Values(data))
  }

  /** Columns, placeholders and parameters line up one to one: the i-th column
      of the list is the key of the i-th parameter. */
  lemma ColumnsLineUp(table: string, data: Record)
    requires |data| > 0
    requires forall i :: 0 <= i < |data| ==> ',' !in data[i].0
    ensures |SplitList(ColumnList(data))| == |SplitList(PlaceholderList(data))| == |ComposeInsert(table, data).params|
    ensures forall i :: 0 <= i < |data| ==>
      SplitList(ColumnList(data))[i] == data[i].0 && SplitList(PlaceholderList(data))[i] == "%s"
      && ComposeInsert(table, data).params[i] == data[i].1
  {
  }

  lemma PlaceholderHasOnePercent()
    ensures Count("%s", '%') == 1
  {
  }

  /** The occurrences of `c` in all the parts together. */
  function PieceCount(parts: seq<string>, c: char): nat {
    if |parts| == 0 then 0 else Count(parts[0], c) + PieceCount(parts[1..], c)
  }

  /** With a separator free of `c`, the joined text holds `c` as often as the parts do. */
  lemma {:induction false} JoinCount(parts: seq<string>, sep: string, c: char)
    requires c !in sep
    ensures Count(Join(parts, sep), c) == PieceCount(parts, c)
  {
    if |parts| > 1 {
      CountJoin(parts, sep, c);
      JoinCount(parts[1..], sep, c);
    }
  }

  /** n copies of a piece that holds `c` once hold it n times. */
  lemma {:induction false} RepeatPieceCount(x: string, c: char, n: nat)
    requires Count(x, c) == 1
    ensures PieceCount(Repeat(x, n), c) == n
  {
    if n > 0 {
      RepeatTail(x, n);
      RepeatPieceCount(x, c, n - 1);
    }
  }

  /** Dropping the first copy leaves one copy fewer. */
  lemma RepeatTail(x: string, n: nat)
    requires n > 0
    ensures Repeat(x, n)[0] == x && Repeat(x, n)[1..] == Repeat(x, n - 1)
  {
    assert Repeat(x, n) == [x] + Repeat(x, n - 1);
  }

  /** Parts none of which holds `c` hold it zero times. */
  lemma {:induction false} AbsentPieceCount(parts: seq<string>, c: char)
    requires forall i :: 0 <= i < |parts| ==> c !in parts[i]
    ensures PieceCount(parts, c) == 0
  {
    if |parts| > 0 {
      CountAbsent(parts[0], c);
      assert forall i :: 0 <= i < |parts| - 1 ==> parts[1..][i] == parts[i + 1];
      AbsentPieceCount(parts[1..], c);
    }
  }

  /** The placeholder list holds one '%' per entry. */
  lemma PlaceholderPercents(n: nat)
    ensures Count(Join(Repeat("%s", n), ", "), '%') == n
  {
    PlaceholderHasOnePercent();
    JoinCount(Repeat("%s", n), ", ", '%');
    RepeatPieceCount("%s", '%', n);
  }

  /** Keys without '%' make a column list without '%'. */
  lemma ColumnPercents(keys: seq<string>)
    ensures (forall i :: 0 <= i < |keys| ==> '%' !in keys[i]) ==> Count(Join(keys, ", "), '%') == 0
  {
    if forall i :: 0 <= i < |keys| ==> '%' !in keys[i] {
      JoinCount(keys, ", ", '%');
      AbsentPieceCount(keys, '%');
    }
  }

  /** When neither the table nor a column name holds '%', the statement has
      exactly one '%' directive per parameter, as the driver requires. */
  lemma PlaceholderCount(table: string, data: Record)
    requires '%' !in table
    requires forall i :: 0 <= i < |data| ==> '%' !in data[i].0
    ensures Count(ComposeInsert(table, data).sql, '%') == |ComposeInsert(table, data).params|
  {
  }

  /** "a, b" splits into two parts. */
  lemma SplitTwoParts()
    ensures SplitList("a, b") == ["a", "b"]
  {
    SplitListPlain("b", "");
    assert "b" + "" == "b";
    assert SplitList("b") == ["b"];
    assert ", b"[2..] == "b";
    assert SplitList(", b") == [""] + SplitList("b");
    SplitListPlain("a", ", b");
    assert "a" + ", b" == "a, b" && "a" + "" == "a";
  }

  /** A column name holding ", " reads as two columns against one parameter. */
  lemma CommaInKeyAddsColumn(table: string, v: Value)
    ensures SplitList(ColumnList([("a, b", v)])) == ["a", "b"]
    ensures |ComposeInsert(table, [("a, b", v)]).params| == 1
  {
    assert Keys([("a, b", v)]) == ["a, b"];
    assert ColumnList([("a, b", v)]) == "a, b";
    SplitTwoParts();
  }
}
