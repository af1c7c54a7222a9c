/**
 * `validateUserCSV`: the per-row checks of a user-import CSV. Each error
 * names the spreadsheet row (the header is row 1, so data row i is row
 * i + 2) and the problem; the message text itself is not modelled.
 */
module CsvValidation {
  import opened Common

  /** One parsed CSV data row; a missing column is `None`. */
  datatype CsvRow = CsvRow(
    name: Option<string>,
    email: Option<string>,
    password: Option<string>,
    position: Option<string>,
    divisionId: Option<int>,
    subDivisionId: Option<int>)

  datatype Problem = NameRequired | EmailRequired | InvalidEmailFormat | PasswordRequired | InvalidPosition

  datatype CsvError = CsvError(row: int, problem: Problem)

  const ValidPositions: seq<string> := ["P", "VP", "SEC", "DIRECTOR", "MANAGER", "STAFF"]

  /** `!x || x.trim() === ''`. */
  predicate Missing(o: Option<string>)
  {
    o.None? || Blank(o.value)
  }

  /** `[^\s@]+`: a non-empty run without white space or `@`. */
  predicate EmailSegment(s: string)
  {
    |s| > 0 && forall i :: 0 <= i < |s| ==> !IsJsWhitespace(s[i]) && s[i] != '@'
  }

  /**
   * `s` reads `local@domain.tld` with the `@` at `i` and the `.` at `j`,
   * each of the three parts a `[^\s@]+` run.
   */
  predicate EmailSplit(s: string, i: int, j: int)
    requires 0 <= i < j < |s|
  {
    s[i] == '@' && s[j] == '.' && EmailSegment(s[..i]) && EmailSegment(s[i + 1..j]) && EmailSegment(s[j + 1..])
  }

  /** `/^[^\s@]+@[^\s@]+\.[^\s@]+$/.test(s)`. */
  predicate ValidEmailFormat(s: string)
  {
    exists i, j :: 0 <= i < j < |s| && EmailSplit(s, i, j)
  }

  /** The position check: present and truthy, it must be a valid position once upper-cased. */
  predicate BadPosition(o: Option<string>)
  {
    TruthyStr(o) && ToUpper(o.value) !in ValidPositions
  }

  /** A row that passes every check. */
  predicate RowValid(row: CsvRow)
  {
    && !Missing(row.name)
    && !Missing(row.email) && ValidEmailFormat(row.email.value)
    && !Missing(row.password)
    && !BadPosition(row.position)
  }

  /** Field order of the checks within a row. */
  function Rank(p: Problem): nat
  {
    match p
    case NameRequired => 0
    case EmailRequired => 1
    case InvalidEmailFormat => 1
    case PasswordRequired => 2
    case InvalidPosition => 3
  }

  /** Errors sort by row, then by field. */
  function Key(e: CsvError): int
  {
    e.row * 4 + Rank(e.problem)
  }

  /** The name check: one error when the name is missing. */
  function NameErrors(row: CsvRow, n: int): (r: seq<CsvError>)
  {
    if Missing(row.name) then [CsvError(n, NameRequired)] else []
  }

  /** The e-mail check: required, and only when present, of the right shape. */
  function EmailErrors(row: CsvRow, n: int): (r: seq<CsvError>)
  {
    if Missing(row.email) then [CsvError(n, EmailRequired)]
    else if !ValidEmailFormat(row.email.value) then [CsvError(n, InvalidEmailFormat)]
    else []
  }

  /** The password check: one error when the password is missing. */
  function PasswordErrors(row: CsvRow, n: int): (r: seq<CsvError>)
  {
    if Missing(row.password) then [CsvError(n, PasswordRequired)] else []
  }

  /** The position check: one error when a given position is not a valid one. */
  function PositionErrors(row: CsvRow, n: int): (r: seq<CsvError>)
  {
    if BadPosition(row.position) then [CsvError(n, InvalidPosition)] else []
  }

  /** The errors the checks push for the row at `index`, in field order. */
  function RowErrors(row: CsvRow, index: nat): seq<CsvError>
  {
    var n := index + 2;
    NameErrors(row, n) + EmailErrors(row, n) + PasswordErrors(row, n) + PositionErrors(row, n)
  }

  /**
   * Four lists of at most one error each, all on row `n` and ranked 0 to 3,
   * concatenate into at most four errors of that row in rank order.
   */
  lemma FourParts(a: seq<CsvError>, b: seq<CsvError>, c: seq<CsvError>, d: seq<CsvError>, n: int)
    requires |a| <= 1 && |b| <= 1 && |c| <= 1 && |d| <= 1
    requires forall e :: e in a ==> e.row == n && Rank(e.problem) == 0
    requires forall e :: e in b ==> e.row == n && Rank(e.problem) == 1
    requires forall e :: e in c ==> e.row == n && Rank(e.problem) == 2
    requires forall e :: e in d ==> e.row == n && Rank(e.problem) == 3
    ensures var r := a + b + c + d;
      && |r| <= 4
      && (forall k :: 0 <= k < |r| ==> r[k].row == n)
      && (forall k, l :: 0 <= k < l < |r| ==> Rank(r[k].problem) < Rank(r[l].problem))
  {
    var r := a + b + c + d;
    forall k | 0 <= k < |r|
      ensures r[k].row == n
      ensures Rank(r[k].problem) == if k < |a| then 0 else if k < |a + b| then 1 else if k < |a + b + c| then 2 else 3
    {
      if k < |a| {
        assert r[k] == a[k];
      } else if k < |a + b| {
        assert r[k] == b[k - |a|];
      } else if k < |a + b + c| {
        assert r[k] == c[k - |a + b|];
      } else {
        assert r[k] == d[k - |a + b + c|];
      }
    }
  }

  /**
   * A row's errors all carry its spreadsheet row number, come in field
   * order, number at most four, and are absent exactly when the row is valid.
   */
  lemma RowErrorsShape(row: CsvRow, index: nat)
    ensures var r := RowErrors(row, index);
      && |r| <= 4
      && (forall k :: 0 <= k < |r| ==> r[k].row == index + 2)
      && (forall k, l :: 0 <= k < l < |r| ==> Rank(r[k].problem) < Rank(r[l].problem))
      && (r == [] <==> RowValid(row))
  {
    var n := index + 2;
    var a, b, c, d := NameErrors(row, n), EmailErrors(row, n), PasswordErrors(row, n), PositionErrors(row, n);
    FourParts(a, b, c, d, n);
    ConcatEmpty(a, b);
    ConcatEmpty(a + b, c);
    ConcatEmpty(a + b + c, d);
  }

  /**
   * Each problem is reported for a row exactly when its check fails; in
   * particular a missing e-mail is never also reported as malformed.
   */
  lemma RowErrorsReport(row: CsvRow, index: nat)
    ensures var r := RowErrors(row, index);
      && (CsvError(index + 2, NameRequired) in r <==> Missing(row.name))
      && (CsvError(index + 2, EmailRequired) in r <==> Missing(row.email))
      && (CsvError(index + 2, InvalidEmailFormat) in r <==> !Missing(row.email) && !ValidEmailFormat(row.email.value))
      && (CsvError(index + 2, PasswordRequired) in r <==> Missing(row.password))
      && (CsvError(index + 2, InvalidPosition) in r <==> BadPosition(row.position))
  {
  }

  /** The lists `f` gives for each row and its index, concatenated in row order. */
  function Collect(rows: seq<CsvRow>, f: (CsvRow, nat) -> seq<CsvError>): seq<CsvError>
  {
    if rows == [] then []
    else Collect(rows[..|rows| - 1], f) + f(rows[|rows| - 1], |rows| - 1)
  }

  /** The errors of all rows, in row order. */
  function AllErrors(rows: seq<CsvRow>): seq<CsvError>
  {
    Collect(rows, RowErrors)
  }

  /** Every error names a data row of the file: rows 2 to |rows| + 1. */
  lemma {:induction false} AllErrorsRows(rows: seq<CsvRow>)
    ensures forall k :: 0 <= k < |AllErrors(rows)| ==> 2 <= AllErrors(rows)[k].row < |rows| + 2
  {
    if rows != [] {
      var pre, n := rows[..|rows| - 1], |rows| - 1;
      AllErrorsRows(pre);
      RowErrorsShape(rows[n], n);
      assert AllErrors(rows) == AllErrors(pre) + RowErrors(rows[n], n);
    }
  }

  /** Two key-sorted lists, all keys of the first below all keys of the second, concatenate sorted. */
  lemma SortedConcat(a: seq<CsvError>, b: seq<CsvError>, bound: int)
    requires forall k, l :: 0 <= k < l < |a| ==> Key(a[k]) < Key(a[l])
    requires forall k, l :: 0 <= k < l < |b| ==> Key(b[k]) < Key(b[l])
    requires forall k :: 0 <= k < |a| ==> Key(a[k]) < bound
    requires forall l :: 0 <= l < |b| ==> bound <= Key(b[l])
    ensures forall k, l :: 0 <= k < l < |a + b| ==> Key((a + b)[k]) < Key((a + b)[l])
  {
    forall k, l | 0 <= k < l < |a + b| ensures Key((a + b)[k]) < Key((a + b)[l]) {
      if l < |a| {
        assert (a + b)[k] == a[k] && (a + b)[l] == a[l];
      } else if k >= |a| {
        assert (a + b)[k] == b[k - |a|] && (a + b)[l] == b[l - |a|];
      } else {
        assert (a + b)[k] == a[k] && (a + b)[l] == b[l - |a|];
      }
    }
  }

  /** Errors come strictly ordered by row, then by field, so none is reported twice. */
  lemma {:induction false} AllErrorsSorted(rows: seq<CsvRow>)
    ensures forall k, l :: 0 <= k < l < |AllErrors(rows)| ==> Key(AllErrors(rows)[k]) < Key(AllErrors(rows)[l])
  {
    if rows != [] {
      var pre, n := rows[..|rows| - 1], |rows| - 1;
      AllErrorsSorted(pre);
      AllErrorsRows(pre);
      RowErrorsShape(rows[n], n);
      var a, b := AllErrors(pre), RowErrors(rows[n], n);
      assert AllErrors(rows) == a + b;
      SortedConcat(a, b, (n + 2) * 4);
    }
  }

  /** A concatenation is empty exactly when both parts are. */
  lemma ConcatEmpty(a: seq<CsvError>, b: seq<CsvError>)
    ensures a + b == [] <==> a == [] && b == []
  {
    assert |a + b| == |a| + |b|;
  }

  /** Row `i` of an empty concatenation contributes nothing. */
  lemma {:induction false} CollectEmptyAt(rows: seq<CsvRow>, f: (CsvRow, nat) -> seq<CsvError>, i: nat)
    requires i < |rows| && Collect(rows, f) == []
    ensures f(rows[i], i) == []
  {
    var pre, n := rows[..|rows| - 1], |rows| - 1;
    ConcatEmpty(Collect(pre, f), f(rows[n], n));
    if i < n {
      assert rows[i] == pre[i];
      CollectEmptyAt(pre, f, i);
    }
  }

  /** Rows that all contribute nothing concatenate to nothing. */
  lemma {:induction false} CollectAllEmpty(rows: seq<CsvRow>, f: (CsvRow, nat) -> seq<CsvError>)
    requires forall i :: 0 <= i < |rows| ==> f(rows[i], i) == []
    ensures Collect(rows, f) == []
  {
    if rows != [] {
      var pre, n := rows[..|rows| - 1], |rows| - 1;
      forall i | 0 <= i < |pre| ensures f(pre[i], i) == [] {
        assert pre[i] == rows[i];
      }
      CollectAllEmpty(pre, f);
      assert f(rows[n], n) == [];
    }
  }

  /** The concatenation is empty exactly when every row's list is. */
  lemma CollectEmpty(rows: seq<CsvRow>, f: (CsvRow, nat) -> seq<CsvError>)
    ensures Collect(rows, f) == [] <==> forall i :: 0 <= i < |rows| ==> f(rows[i], i) == []
  {
    if Collect(rows, f) == [] {
      forall i | 0 <= i < |rows| ensures f(rows[i], i) == [] {
        CollectEmptyAt(rows, f, i);
      }
    } else if forall i :: 0 <= i < |rows| ==> f(rows[i], i) == [] {
      CollectAllEmpty(rows, f);
    }
  }

  /** No error at all exactly when every row passes its checks. */
  lemma AllErrorsEmpty(rows: seq<CsvRow>)
    ensures AllErrors(rows) == [] <==> forall i :: 0 <= i < |rows| ==> RowErrors(rows[i], i) == []
  {
    CollectEmpty(rows, RowErrors);
  }


  /** The same, in terms of the checks themselves. */
  lemma AllErrorsEmptyIffValid(rows: seq<CsvRow>)
    ensures AllErrors(rows) == [] <==> forall i :: 0 <= i < |rows| ==> RowValid(rows[i])
  {
    AllErrorsEmpty(rows);
    forall i | 0 <= i < |rows| ensures RowErrors(rows[i], i) == [] <==> RowValid(rows[i]) {
      RowErrorsShape(rows[i], i);
    }
  }

  /** A row contributes the same errors wherever its neighbours are. */
  lemma {:induction false} AllErrorsRow(rows: seq<CsvRow>, i: nat, e: CsvError)
    requires i < |rows|
    requires e in RowErrors(rows[i], i)
    ensures e in AllErrors(rows)
  {
    var pre := rows[..|rows| - 1];
    if i < |rows| - 1 {
      assert pre[i] == rows[i];
      AllErrorsRow(pre, i, e);
    }
  }

  lemma AppendParts(before: seq<CsvError>, a: seq<CsvError>, b: seq<CsvError>, c: seq<CsvError>, d: seq<CsvError>)
    ensures before + a + b + c + d == before + (a + b + c + d)
  {
  }

  /**
   * `validateUserCSV(data)`: walks the rows in order and pushes each
   * row's errors.
   */
  method ValidateUserCsv(rows: seq<CsvRow>) returns (errors: seq<CsvError>)
    ensures errors == AllErrors(rows)
  {
    errors := [];
    var index := 0;
    while index < |rows|
      invariant 0 <= index <= |rows|
      invariant errors == AllErrors(rows[..index])
    {
      var row := rows[index];
      var rowNum := index + 2;
      ghost var before := errors;
      if Missing(row.name) {
        errors := errors + [CsvError(rowNum, NameRequired)];
      }
      assert errors == before + NameErrors(row, rowNum);
      if Missing(row.email) {
        errors := errors + [CsvError(rowNum, EmailRequired)];
      } else if !ValidEmailFormat(row.email.value) {
        errors := errors + [CsvError(rowNum, InvalidEmailFormat)];
      }
      assert errors == before + NameErrors(row, rowNum) + EmailErrors(row, rowNum);
      if Missing(row.password) {
        errors := errors + [CsvError(rowNum, PasswordRequired)];
      }
      assert errors == before + NameErrors(row, rowNum) + EmailErrors(row, rowNum) + PasswordErrors(row, rowNum);
      if BadPosition(row.position) {
        errors := errors + [CsvError(rowNum, InvalidPosition)];
      }
      assert errors == before + NameErrors(row, rowNum) + EmailErrors(row, rowNum) + PasswordErrors(row, rowNum) + PositionErrors(row, rowNum);
      AppendParts(before, NameErrors(row, rowNum), EmailErrors(row, rowNum), PasswordErrors(row, rowNum), PositionErrors(row, rowNum));
      assert rows[..index + 1][..index] == rows[..index];
      index := index + 1;
    }
    assert rows[..index] == rows;
  }

  /** Every error of a row is among the errors of the file. */
  lemma AllErrorsReportEachRow(rows: seq<CsvRow>)
    ensures forall i :: 0 <= i < |rows| && Missing(rows[i].name) ==> CsvError(i + 2, NameRequired) in AllErrors(rows)
    ensures forall i :: 0 <= i < |rows| && Missing(rows[i].email) ==> CsvError(i + 2, EmailRequired) in AllErrors(rows)
    ensures forall i :: 0 <= i < |rows| && !Missing(rows[i].email) && !ValidEmailFormat(rows[i].email.value) ==>
      CsvError(i + 2, InvalidEmailFormat) in AllErrors(rows)
    ensures forall i :: 0 <= i < |rows| && Missing(rows[i].password) ==> CsvError(i + 2, PasswordRequired) in AllErrors(rows)
    ensures forall i :: 0 <= i < |rows| && BadPosition(rows[i].position) ==> CsvError(i + 2, InvalidPosition) in AllErrors(rows)
  {
    forall i | 0 <= i < |rows| && Missing(rows[i].name) ensures CsvError(i + 2, NameRequired) in AllErrors(rows) {
      RowErrorsReport(rows[i], i);
      AllErrorsRow(rows, i, CsvError(i + 2, NameRequired));
    }
    forall i | 0 <= i < |rows| && Missing(rows[i].email) ensures CsvError(i + 2, EmailRequired) in AllErrors(rows) {
      RowErrorsReport(rows[i], i);
      AllErrorsRow(rows, i, CsvError(i + 2, EmailRequired));
    }
    forall i | 0 <= i < |rows| && !Missing(rows[i].email) && !ValidEmailFormat(rows[i].email.value)
      ensures CsvError(i + 2, InvalidEmailFormat) in AllErrors(rows)
    {
      RowErrorsReport(rows[i], i);
      AllErrorsRow(rows, i, CsvError(i + 2, InvalidEmailFormat));
    }
    forall i | 0 <= i < |rows| && Missing(rows[i].password) ensures CsvError(i + 2, PasswordRequired) in AllErrors(rows) {
      RowErrorsReport(rows[i], i);
      AllErrorsRow(rows, i, CsvError(i + 2, PasswordRequired));
    }
    forall i | 0 <= i < |rows| && BadPosition(rows[i].position) ensures CsvError(i + 2, InvalidPosition) in AllErrors(rows) {
      RowErrorsReport(rows[i], i);
      AllErrorsRow(rows, i, CsvError(i + 2, InvalidPosition));
    }
  }

  /**
   * A file without errors has a name, an e-mail and a password on every
   * row, and every given position is valid once upper-cased.
   */
  lemma AcceptedRows(rows: seq<CsvRow>)
    requires AllErrors(rows) == []
    ensures forall i :: 0 <= i < |rows| ==> rows[i].name.Some? && rows[i].email.Some? && rows[i].password.Some?
    ensures forall i :: 0 <= i < |rows| ==> !BadPosition(rows[i].position)
  {
    AllErrorsEmptyIffValid(rows);
    forall i | 0 <= i < |rows|
      ensures rows[i].name.Some? && rows[i].email.Some? && rows[i].password.Some? && !BadPosition(rows[i].position)
    {
      assert RowValid(rows[i]);
    }
  }

  /** The position check ignores letter case: any casing of a valid position passes. */
  lemma PositionCaseInsensitive(p: string, q: string)
    requires ToUpper(p) == ToUpper(q)
    ensures BadPosition(Some(p)) <==> BadPosition(Some(q))
  {
    if p == "" || q == "" {
      assert |p| == |q| == 0;
    }
  }
}
