/**
 * Table and column names as the projections use them: the text is trimmed
 * and lower-cased, and a name that is empty after that is refused. A column
 * is found in a row by the position of the first column with its name.
 */
module Postgres {
  import opened Wrappers

  predicate IsWhitespace(c: char)
  {
    c == ' ' || c == '\t' || c == '\n' || c == '\r' || c == '\U{000B}' || c == '\U{000C}'
  }

  /** Drops leading whitespace. */
  function TrimStart(s: string): (r: string)
    ensures |r| <= |s| && r == s[|s| - |r|..]
    ensures |r| > 0 ==> !IsWhitespace(r[0])
    ensures forall i :: 0 <= i < |s| - |r| ==> IsWhitespace(s[i])
  {
    if |s| > 0 && IsWhitespace(s[0]) then TrimStart(s[1..]) else s
  }

  /** Drops trailing whitespace. */
  function TrimEnd(s: string): (r: string)
    ensures |r| <= |s| && r == s[..|r|]
    ensures |r| > 0 ==> !IsWhitespace(r[|r| - 1])
    ensures forall i :: |r| <= i < |s| ==> IsWhitespace(s[i])
  {
    if |s| > 0 && IsWhitespace(s[|s| - 1]) then TrimEnd(s[..|s| - 1]) else s
  }

  function Trim(s: string): (r: string)
    ensures |r| > 0 ==> !IsWhitespace(r[0]) && !IsWhitespace(r[|r| - 1])
    ensures |r| <= |s|
  {
    TrimEnd(TrimStart(s))
  }

  function LowerChar(c: char): char
  {
    if 'A' <= c <= 'Z' then (c as int + 32) as char else c
  }

  /** Lower-cases the ASCII letters; every other character is kept. */
  function Lowercase(s: string): (r: string)
    ensures |r| == |s|
    ensures forall i :: 0 <= i < |s| ==> r[i] == LowerChar(s[i])
  {
    seq(|s|, i requires 0 <= i < |s| => LowerChar(s[i]))
  }

  /** The sanitising both name types apply: trim, then lower-case. */
  function Sanitize(s: string): string
  {
    Lowercase(Trim(s))
  }

  /** A name in sanitised form: no surrounding whitespace, no capital letter, not empty. */
  predicate IsSanitizedName(s: string)
  {
    |s| > 0 && !IsWhitespace(s[0]) && !IsWhitespace(s[|s| - 1]) && forall i :: 0 <= i < |s| ==> !('A' <= s[i] <= 'Z')
  }

  datatype NameError = NotEmptyViolated

  datatype TableName = TableName(name: string)

  datatype TableColumn = TableColumn(name: string)

  /** Builds a table name from any text; the result, if any, is sanitised. */
  function NewTableName(s: string): (r: Result<TableName, NameError>)
    ensures r.Err? <==> Sanitize(s) == []
    ensures r.Ok? ==> r.value.name == Sanitize(s) && IsSanitizedName(r.value.name)
  {
    SanitizedFacts(s);
    var name := Sanitize(s);
    if |name| == 0 then Err(NotEmptyViolated) else Ok(TableName(name))
  }

  function NewTableColumn(s: string): (r: Result<TableColumn, NameError>)
    ensures r.Err? <==> Sanitize(s) == []
    ensures r.Ok? ==> r.value.name == Sanitize(s) && IsSanitizedName(r.value.name)
  {
    SanitizedFacts(s);
    var name := Sanitize(s);
    if |name| == 0 then Err(NotEmptyViolated) else Ok(TableColumn(name))
  }

  /** Lower-casing a character never yields a capital letter, and keeps whether it is whitespace. */
  lemma LowerCharFacts(c: char)
    ensures !('A' <= LowerChar(c) <= 'Z')
    ensures IsWhitespace(LowerChar(c)) == IsWhitespace(c)
  {
  }

  /** Lower-casing trimmed, non-empty text gives a sanitised name. */
  lemma LowercaseOfTrimmed(t: string)
    requires |t| > 0 && !IsWhitespace(t[0]) && !IsWhitespace(t[|t| - 1])
    ensures IsSanitizedName(Lowercase(t))
  {
    var l := Lowercase(t);
    LowerCharFacts(t[0]);
    LowerCharFacts(t[|t| - 1]);
    forall i | 0 <= i < |l| ensures !('A' <= l[i] <= 'Z') {
      LowerCharFacts(t[i]);
    }
  }

  /** Trimming and lower-casing give a sanitised name whenever something is left. */
  lemma SanitizedFacts(s: string)
    ensures |Sanitize(s)| > 0 ==> IsSanitizedName(Sanitize(s))
  {
    var t := Trim(s);
    if |t| > 0 {
      LowercaseOfTrimmed(t);
    }
  }

  /** Text that is already a sanitised name comes through trimming and lower-casing unchanged. */
  lemma SanitizeKeepsSanitized(s: string)
    requires IsSanitizedName(s)
    ensures Sanitize(s) == s
  {
    assert TrimStart(s) == s;
    assert TrimEnd(s) == s;
    assert Lowercase(s) == s;
  }

  /** Sanitising twice is sanitising once, and an accepted name is accepted again as itself. */
  lemma SanitizeIdempotent(s: string)
    ensures Sanitize(Sanitize(s)) == Sanitize(s)
    ensures NewTableName(s).Ok? ==> NewTableName(NewTableName(s).value.name) == NewTableName(s)
    ensures NewTableColumn(s).Ok? ==> NewTableColumn(NewTableColumn(s).value.name) == NewTableColumn(s)
  {
    SanitizedFacts(s);
    if |Sanitize(s)| > 0 {
      SanitizeKeepsSanitized(Sanitize(s));
    } else {
      assert Sanitize(s) == [];
      assert TrimStart([]) == [];
    }
  }

  datatype SqlError = ColumnNotFound(column: string)

  /** The position of the first column of the row with the given name. */
  function ColumnIndex(columns: seq<string>, column: TableColumn): (r: Result<nat, SqlError>)
    ensures r.Err? <==> column.name !in columns
    ensures r.Err? ==> r.error == ColumnNotFound(column.name)
    ensures r.Ok? ==> r.value < |columns| && columns[r.value] == column.name &&
                      forall j :: 0 <= j < r.value ==> columns[j] != column.name
  {
    if |columns| == 0 then Err(ColumnNotFound(column.name))
    else if columns[0] == column.name then Ok(0)
    else match ColumnIndex(columns[1..], column)
      case Err(e) => Err(e)
      case Ok(i) => Ok(i + 1)
  }

  /** The timestamp column every projection table carries. */
  function LastUpdatedAtCol(): (c: TableColumn)
    ensures NewTableColumn("last_updated_at") == Ok(c)
    ensures c.name == "last_updated_at"
  {
    SanitizeKeepsSanitized("last_updated_at");
    TableColumn("last_updated_at")
  }
}
