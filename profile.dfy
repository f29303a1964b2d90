/**
 * The Profile screen: the app-lock switch, the CSV export of the transactions and the
 * account deletion, which empties the user's collections one after another before it
 * deletes the user document and finally the sign-in account.
 */
module Profile {
  import opened Wrappers
  import opened Records
  import opened Text
  import opened Decimal
  import opened Store
  import LiveStore
  import Prefs

  // ---------------------------------------------------------------- CSV export

  const CSV_HEADER: string := "Date,Type,Category,Title,Amount\n"

  function Quoted(s: string): string {
    "\"" + s + "\""
  }

  /**
   * One CSV line: the formatted date, type, category and title in double quotes, then
   * the amount unquoted. Only the title has its double quotes doubled.
   */
  function Row(dateText: string, t: Transaction): (r: string) {
    Quoted(dateText) + "," + Quoted(t.kind) + "," + Quoted(t.category) + ","
      + Quoted(DoubleQuotes(t.title)) + "," + FormatCents(t.amount) + "\n"
  }

  /** The lines of the transactions in query order; `formatDate` is the `yyyy-MM-dd HH:mm:ss` formatter. */
  function Rows(formatDate: int -> string, docs: seq<Transaction>): (r: string)
    ensures r == [] <==> docs == []
  {
    if docs == [] then [] else Row(formatDate(docs[0].date), docs[0]) + Rows(formatDate, docs[1..])
  }

  /** A line opens with the date's quote and ends with a newline. */
  lemma RowShape(dateText: string, t: Transaction)
    ensures var r := Row(dateText, t);
      |r| > 0 && r[0] == '"' && r[|r| - 1] == '\n'
  {
  }

  /** The content written to the file, or `None` when there is no user or nothing to export. */
  function ExportOf(signedIn: bool, formatDate: int -> string, docs: seq<Transaction>): (r: Option<string>)
    ensures r.Some? <==> signedIn && docs != []
    ensures r.Some? ==> |r.value| >= |CSV_HEADER| && r.value[..|CSV_HEADER|] == CSV_HEADER
  {
    if !signedIn || docs == [] then None else Some(CSV_HEADER + Rows(formatDate, docs))
  }

  /** The line of each document, side by side. */
  function LinesOf(line: Transaction -> string, docs: seq<Transaction>): (ls: seq<string>)
    ensures |ls| == |docs|
    ensures forall i :: 0 <= i < |docs| ==> ls[i] == line(docs[i])
  {
    seq(|docs|, i requires 0 <= i < |docs| => line(docs[i]))
  }

  /** Lines written one after another. */
  function Concat(parts: seq<string>): string {
    if parts == [] then [] else Concat(parts[..|parts| - 1]) + parts[|parts| - 1]
  }

  lemma {:induction false} ConcatCons(parts: seq<string>)
    requires parts != []
    ensures Concat(parts) == parts[0] + Concat(parts[1..])
  {
    if |parts| > 1 {
      var front := parts[..|parts| - 1];
      var tail := parts[1..];
      var last := parts[|parts| - 1];
      ConcatCons(front);
      assert front[1..] == tail[..|tail| - 1];
      assert Concat(tail) == Concat(front[1..]) + last;
      assert Concat(parts) == (parts[0] + Concat(front[1..])) + last;
      assert (parts[0] + Concat(front[1..])) + last == parts[0] + (Concat(front[1..]) + last);
    } else {
      assert parts[1..] == [];
      assert parts[..0] == [];
    }
  }

  lemma LinesOfTail(line: Transaction -> string, docs: seq<Transaction>)
    requires docs != []
    ensures LinesOf(line, docs)[1..] == LinesOf(line, docs[1..])
  {
  }

  function RowOf(formatDate: int -> string): Transaction -> string {
    (t: Transaction) => Row(formatDate(t.date), t)
  }

  /** The export's lines are each document's line, concatenated in order. */
  lemma {:induction false} RowsAreConcat(formatDate: int -> string, docs: seq<Transaction>)
    ensures Rows(formatDate, docs) == Concat(LinesOf(RowOf(formatDate), docs))
  {
    if docs != [] {
      var ls := LinesOf(RowOf(formatDate), docs);
      ConcatCons(ls);
      LinesOfTail(RowOf(formatDate), docs);
      RowsAreConcat(formatDate, docs[1..]);
    }
  }

  /** The StringBuilder loop: after the header, one line appended per document. */
  method BuildCsv(formatDate: int -> string, docs: seq<Transaction>) returns (csv: string)
    ensures csv == CSV_HEADER + Rows(formatDate, docs)
  {
    ghost var lines := LinesOf(RowOf(formatDate), docs);
    var body := [];
    for i := 0 to |docs|
      invariant body == Concat(lines[..i])
    {
      var t := docs[i];
      var line := Row(formatDate(t.date), t);
      assert line == lines[i];
      assert lines[..i + 1][..i] == lines[..i];
      body := body + line;
    }
    assert lines[..|docs|] == lines;
    RowsAreConcat(formatDate, docs);
    csv := CSV_HEADER + body;
  }

  /** `exportTransactionsToCSV`, up to the content handed to the file writer. */
  method ExportTransactionsToCsv(signedIn: bool, formatDate: int -> string, docs: seq<Transaction>) returns (r: Option<string>)
    ensures r == ExportOf(signedIn, formatDate, docs)
  {
    if !signedIn || docs == [] {
      return None;
    }
    var csv := BuildCsv(formatDate, docs);
    r := Some(csv);
  }

  // ---------------------------------------------------------------- reading the CSV back

  /** One record as a CSV reader sees it. */
  datatype CsvRow = CsvRow(date: string, kind: string, category: string, title: string, amount: int)

  /**
   * A reader following the usual CSV convention for the text after an opening quote:
   * a doubled quote stands for one quote and a single quote closes the field.
   */
  function ReadQuotedBody(s: string): (r: Option<(string, string)>)
    ensures r.Some? ==> |r.value.1| < |s|
    decreases |s|
  {
    if s == [] then None
    else if s[0] == '"' then
      if |s| >= 2 && s[1] == '"' then
        match ReadQuotedBody(s[2..])
        case None => None
        case Some(p) => Some(("\"" + p.0, p.1))
      else Some(([], s[1..]))
    else
      match ReadQuotedBody(s[1..])
      case None => None
      case Some(p) => Some(([s[0]] + p.0, p.1))
  }

  /** A quoted field and the comma after it. */
  function ReadField(s: string): (r: Option<(string, string)>)
    ensures r.Some? ==> |r.value.1| < |s|
  {
    if s == [] || s[0] != '"' then None
    else
      match ReadQuotedBody(s[1..])
      case None => None
      case Some(p) => if p.1 != [] && p.1[0] == ',' then Some((p.0, p.1[1..])) else None
  }

  /** The text up to the next newline, and what follows it. */
  function ReadLine(s: string): (r: Option<(string, string)>)
    ensures r.Some? ==> |r.value.1| < |s|
  {
    if s == [] then None
    else if s[0] == '\n' then Some(([], s[1..]))
    else
      match ReadLine(s[1..])
      case None => None
      case Some(p) => Some(([s[0]] + p.0, p.1))
  }

  function ReadRow(s: string): (r: Option<(CsvRow, string)>)
    ensures r.Some? ==> |r.value.1| < |s|
  {
    match ReadField(s)
    case None => None
    case Some(f1) =>
      match ReadField(f1.1)
      case None => None
      case Some(f2) =>
        match ReadField(f2.1)
        case None => None
        case Some(f3) =>
          match ReadField(f3.1)
          case None => None
          case Some(f4) =>
            match ReadLine(f4.1)
            case None => None
            case Some(line) =>
              match ParseCents(line.0)
              case None => None
              case Some(amount) => Some((CsvRow(f1.0, f2.0, f3.0, f4.0, amount), line.1))
  }

  function ReadRows(s: string): Option<seq<CsvRow>>
    decreases |s|
  {
    if s == [] then Some([])
    else
      match ReadRow(s)
      case None => None
      case Some(p) =>
        match ReadRows(p.1)
        case None => None
        case Some(rest) => Some([p.0] + rest)
  }

  function ReadCsv(s: string): Option<seq<CsvRow>> {
    if |s| >= |CSV_HEADER| && s[..|CSV_HEADER|] == CSV_HEADER then ReadRows(s[|CSV_HEADER|..]) else None
  }

  lemma {:induction false} ReadQuotedBodyOfDoubled(x: string, rest: string)
    requires rest == [] || rest[0] != '"'
    ensures ReadQuotedBody(DoubleQuotes(x) + "\"" + rest) == Some((x, rest))
  {
    var s := DoubleQuotes(x) + "\"" + rest;
    if x == [] {
      assert s == "\"" + rest;
      assert s[1..] == rest;
    } else {
      ReadQuotedBodyOfDoubled(x[1..], rest);
      var tail := DoubleQuotes(x[1..]) + "\"" + rest;
      if x[0] == '"' {
        assert s == "\"\"" + tail;
        assert s[0] == '"' && s[1] == '"' && s[2..] == tail;
        assert ReadQuotedBody(s) == Some(("\"" + x[1..], rest));
        assert "\"" + x[1..] == x;
      } else {
        assert s == [x[0]] + tail;
        assert s[0] != '"' && s[1..] == tail;
        assert ReadQuotedBody(s) == Some(([x[0]] + x[1..], rest));
        assert [x[0]] + x[1..] == x;
      }
    }
  }

  /** A field written with its quotes doubled reads back as the original text. */
  lemma ReadFieldOfQuoted(x: string, rest: string)
    ensures ReadField(Quoted(DoubleQuotes(x)) + "," + rest) == Some((x, rest))
  {
    var s := Quoted(DoubleQuotes(x)) + "," + rest;
    assert s[1..] == DoubleQuotes(x) + "\"" + ("," + rest);
    ReadQuotedBodyOfDoubled(x, "," + rest);
    assert ("," + rest)[1..] == rest;
  }

  lemma {:induction false} ReadLineOf(x: string, rest: string)
    requires '\n' !in x
    ensures ReadLine(x + "\n" + rest) == Some((x, rest))
  {
    if x == [] {
      assert x + "\n" + rest == "\n" + rest;
      assert ("\n" + rest)[1..] == rest;
    } else {
      assert (x + "\n" + rest)[1..] == x[1..] + "\n" + rest;
      assert x[0] != '\n';
      ReadLineOf(x[1..], rest);
      assert [x[0]] + x[1..] == x;
    }
  }

  /** Date, type and category are written verbatim, so they must hold no double quote for the line to read back. */
  predicate PlainFields(dateText: string, t: Transaction) {
    '"' !in dateText && '"' !in t.kind && '"' !in t.category
  }

  /** A line reads back as the transaction's fields: the title exactly, even with quotes in it. */
  lemma ReadRowOfRow(dateText: string, t: Transaction, rest: string)
    requires PlainFields(dateText, t)
    ensures ReadRow(Row(dateText, t) + rest) == Some((CsvRow(dateText, t.kind, t.category, t.title, t.amount), rest))
  {
    var amount := FormatCents(t.amount);
    var tail := amount + "\n" + rest;
    var s4 := Quoted(DoubleQuotes(t.title)) + "," + tail;
    var s3 := Quoted(t.category) + "," + s4;
    var s2 := Quoted(t.kind) + "," + s3;
    var s1 := Quoted(dateText) + "," + s2;
    assert Row(dateText, t) + rest == s1;
    DoubleQuotesNoQuote(dateText);
    DoubleQuotesNoQuote(t.kind);
    DoubleQuotesNoQuote(t.category);
    ReadFieldOfQuoted(dateText, s2);
    ReadFieldOfQuoted(t.kind, s3);
    ReadFieldOfQuoted(t.category, s4);
    ReadFieldOfQuoted(t.title, tail);
    ReadLineOf(amount, rest);
    FormatParseRoundTrip(t.amount);
  }

  /** The records the export is meant to carry, in query order. */
  function ExpectedRecords(formatDate: int -> string, docs: seq<Transaction>): (r: seq<CsvRow>)
    ensures |r| == |docs|
  {
    if docs == [] then []
    else
      var t := docs[0];
      [CsvRow(formatDate(t.date), t.kind, t.category, t.title, t.amount)] + ExpectedRecords(formatDate, docs[1..])
  }

  /**
   * The exported file reads back as exactly one record per transaction, in query order,
   * with every field intact, as long as no date, type or category holds a double quote.
   */
  lemma {:induction false} ReadRowsOfRows(formatDate: int -> string, docs: seq<Transaction>)
    requires forall i :: 0 <= i < |docs| ==> PlainFields(formatDate(docs[i].date), docs[i])
    ensures ReadRows(Rows(formatDate, docs)) == Some(ExpectedRecords(formatDate, docs))
  {
    if docs != [] {
      var t := docs[0];
      var rest := Rows(formatDate, docs[1..]);
      ReadRowOfRow(formatDate(t.date), t, rest);
      assert forall i :: 0 <= i < |docs[1..]| ==> docs[1..][i] == docs[i + 1];
      ReadRowsOfRows(formatDate, docs[1..]);
      ReadRowsStep(Row(formatDate(t.date), t) + rest, CsvRow(formatDate(t.date), t.kind, t.category, t.title, t.amount), rest);
    }
  }

  lemma ReadRowsStep(s: string, record: CsvRow, rest: string)
    requires ReadRow(s) == Some((record, rest))
    ensures ReadRows(rest).Some? ==> ReadRows(s) == Some([record] + ReadRows(rest).value)
  {
  }

  lemma ExportReadsBack(formatDate: int -> string, docs: seq<Transaction>)
    requires docs != []
    requires forall i :: 0 <= i < |docs| ==> PlainFields(formatDate(docs[i].date), docs[i])
    ensures ReadCsv(ExportOf(true, formatDate, docs).value) == Some(ExpectedRecords(formatDate, docs))
  {
    var csv := CSV_HEADER + Rows(formatDate, docs);
    assert csv[|CSV_HEADER|..] == Rows(formatDate, docs);
    ReadRowsOfRows(formatDate, docs);
  }

  /**
   * A category with a double quote in it is not escaped: unless the quote happens to be
   * followed by another quote or a comma, it closes the field early and the line no
   * longer reads as a record.
   */
  lemma UnescapedQuoteBreaksRow(dateText: string, t: Transaction, before: string, after: string, rest: string)
    requires '"' !in dateText && '"' !in t.kind && '"' !in before
    requires t.category == before + "\"" + after
    requires after != [] && after[0] != '"' && after[0] != ','
    ensures ReadRow(Row(dateText, t) + rest) == None
  {
    var s4 := Quoted(DoubleQuotes(t.title)) + "," + FormatCents(t.amount) + "\n" + rest;
    var s3 := Quoted(t.category) + "," + s4;
    var s2 := Quoted(t.kind) + "," + s3;
    var s1 := Quoted(dateText) + "," + s2;
    assert Row(dateText, t) + rest == s1;
    DoubleQuotesNoQuote(dateText);
    DoubleQuotesNoQuote(t.kind);
    ReadFieldOfQuoted(dateText, s2);
    ReadFieldOfQuoted(t.kind, s3);
    FieldClosedEarly(before, after, s4);
  }

  lemma FieldClosedEarly(before: string, after: string, rest: string)
    requires '"' !in before
    requires after != [] && after[0] != '"' && after[0] != ','
    ensures ReadField(Quoted(before + "\"" + after) + "," + rest) == None
  {
    var s := Quoted(before + "\"" + after) + "," + rest;
    var left := after + "\"," + rest;
    DoubleQuotesNoQuote(before);
    assert s[1..] == DoubleQuotes(before) + "\"" + left;
    ReadQuotedBodyOfDoubled(before, left);
  }

  /** For instance, an expense in the category `Caf"e` makes an unreadable line. */
  lemma QuoteInCategoryExample()
    ensures ReadRow(Row("2025-01-01 12:00:00", NewTransaction("Lunch", "Caf\"e", 100, EXPENSE, 0))) == None
  {
    var t := NewTransaction("Lunch", "Caf\"e", 100, EXPENSE, 0);
    assert t.category == "Caf" + "\"" + "e";
    UnescapedQuoteBreaksRow("2025-01-01 12:00:00", t, "Caf", "e", []);
    assert Row("2025-01-01 12:00:00", t) + [] == Row("2025-01-01 12:00:00", t);
  }

  // ---------------------------------------------------------------- account deletion

  /** The collections, in the order `deleteUserAccount` empties them. */
  const DELETION_ORDER: seq<Collection> := [Transactions, Budgets, SavingGoals, Accounts, Categories]

  /**
   * One `deleteCollection`: the fetch (`getOk`), then, for a non-empty collection, one
   * batch deleting all of it (`commitOk`). `Some` when the chain goes on; a failed
   * fetch or commit ends it with nothing deleted.
   */
  function DeleteCollectionOn(db: Db, c: Collection, getOk: bool, commitOk: bool): (r: Option<Db>)
    ensures r.None? <==> !getOk || (CollectionSize(db, c) > 0 && !commitOk)
    ensures r.Some? ==> r.value == ClearCollection(db, c)
  {
    if !getOk then None
    else if CollectionSize(db, c) == 0 then (ClearedIsEmpty(db, c); Some(db))
    else if commitOk then Some(ClearCollection(db, c))
    else None
  }

  /** Clearing an already empty collection changes nothing. */
  lemma ClearedIsEmpty(db: Db, c: Collection)
    requires CollectionSize(db, c) == 0
    ensures ClearCollection(db, c) == db
  {
    match c
    case Transactions =>
    case Budgets =>
    case SavingGoals =>
    case Accounts =>
    case Categories =>
  }

  /** How far the chain got: the store so far and the number of collection steps that went on. */
  datatype Progress = Progress(db: Db, completed: nat)

  /** The collection steps in order, each only after the previous one went on. */
  function RunCollections(db: Db, cs: seq<Collection>, getOk: seq<bool>, commitOk: seq<bool>): (p: Progress)
    requires |getOk| >= |cs| && |commitOk| >= |cs|
    ensures p.completed <= |cs|
    decreases |cs|
  {
    if cs == [] then Progress(db, 0)
    else
      var p := RunCollections(db, cs[..|cs| - 1], getOk, commitOk);
      if p.completed < |cs| - 1 then p
      else
        match DeleteCollectionOn(p.db, cs[|cs| - 1], getOk[|cs| - 1], commitOk[|cs| - 1])
        case None => p
        case Some(d) => Progress(d, |cs|)
  }

  /**
   * The chain stops at its first failure: the first `completed` collections are emptied,
   * and the store is what those clearings make of it.
   */
  lemma {:induction false} RunCollectionsStopsAtFirstFailure(db: Db, cs: seq<Collection>, getOk: seq<bool>, commitOk: seq<bool>)
    requires |getOk| >= |cs| && |commitOk| >= |cs|
    ensures var p := RunCollections(db, cs, getOk, commitOk);
      && p.db == ClearAll(db, cs[..p.completed])
      && (p.completed < |cs| ==> DeleteCollectionOn(p.db, cs[p.completed], getOk[p.completed], commitOk[p.completed]).None?)
    decreases |cs|
  {
    if cs != [] {
      var front := cs[..|cs| - 1];
      RunCollectionsStopsAtFirstFailure(db, front, getOk, commitOk);
      var p := RunCollections(db, front, getOk, commitOk);
      assert front[..p.completed] == cs[..p.completed];
      if p.completed == |cs| - 1 {
        var k := |cs| - 1;
        match DeleteCollectionOn(p.db, cs[k], getOk[k], commitOk[k])
        case None =>
        case Some(d) =>
          assert cs[..k + 1] == cs[..k] + [cs[k]];
          ClearAllSnoc(db, cs[..k], cs[k]);
      }
    }
  }

  /** The store with the given collections emptied one after the other. */
  function ClearAll(db: Db, cs: seq<Collection>): Db
    decreases |cs|
  {
    if cs == [] then db else ClearAll(ClearCollection(db, cs[0]), cs[1..])
  }

  lemma {:induction false} ClearAllSnoc(db: Db, cs: seq<Collection>, c: Collection)
    ensures ClearAll(db, cs + [c]) == ClearCollection(ClearAll(db, cs), c)
    decreases |cs|
  {
    if cs == [] {
      assert [c][1..] == [];
    } else {
      assert (cs + [c])[1..] == cs[1..] + [c];
      ClearAllSnoc(ClearCollection(db, cs[0]), cs[1..], c);
    }
  }

  /** Emptying every listed collection leaves each of them empty, whatever else it held. */
  lemma {:induction false} ClearAllEmpties(db: Db, cs: seq<Collection>)
    ensures forall c :: c in cs ==> CollectionSize(ClearAll(db, cs), c) == 0
    ensures forall c :: c !in cs ==> SameCollection(ClearAll(db, cs), db, c)
    ensures ClearAll(db, cs).profile == db.profile
    decreases |cs|
  {
    if cs != [] {
      var first := ClearCollection(db, cs[0]);
      ClearAllEmpties(first, cs[1..]);
      assert forall c :: c in cs ==> c == cs[0] || c in cs[1..];
      forall c | c !in cs
        ensures SameCollection(ClearAll(db, cs), db, c)
      {
        assert c != cs[0] && c !in cs[1..];
        assert SameCollection(ClearAll(first, cs[1..]), first, c) && SameCollection(first, db, c);
        match c
        case Transactions =>
        case Budgets =>
        case SavingGoals =>
        case Accounts =>
        case Categories =>
      }
    }
  }

  /** What the deletion achieved. */
  datatype Deletion = Deletion(db: Db, collectionsDone: nat, userDocDeleted: bool, authDeleted: bool)

  /**
   * `deleteUserAccount`: the five collections in order, then the user document
   * (`userDocOk`), then the sign-in account (`authOk`), each only after the step before succeeded.
   */
  function DeleteUserAccountOn(db: Db, signedIn: bool, getOk: seq<bool>, commitOk: seq<bool>, userDocOk: bool, authOk: bool): (r: Deletion)
    requires |getOk| == |DELETION_ORDER| && |commitOk| == |DELETION_ORDER|
    ensures !signedIn ==> r == Deletion(db, 0, false, false)
    ensures r.authDeleted ==> r.userDocDeleted
    ensures r.userDocDeleted ==> r.collectionsDone == |DELETION_ORDER| && r.db.profile == None
  {
    if !signedIn then Deletion(db, 0, false, false)
    else
      var p := RunCollections(db, DELETION_ORDER, getOk, commitOk);
      if p.completed < |DELETION_ORDER| then Deletion(p.db, p.completed, false, false)
      else if !userDocOk then Deletion(p.db, p.completed, false, false)
      else Deletion(DeleteProfile(p.db), p.completed, true, authOk)
  }

  /**
   * Once the sign-in account is gone, so is all of the user's data: every collection
   * is empty and the user document deleted. When the chain stops early, the collection
   * whose fetch or batch failed, those after it, and the user document are untouched.
   */
  lemma DeletionOrder(db: Db, getOk: seq<bool>, commitOk: seq<bool>, userDocOk: bool, authOk: bool)
    requires |getOk| == |DELETION_ORDER| && |commitOk| == |DELETION_ORDER|
    ensures var r := DeleteUserAccountOn(db, true, getOk, commitOk, userDocOk, authOk);
      && (forall i :: 0 <= i < r.collectionsDone ==> CollectionSize(r.db, DELETION_ORDER[i]) == 0)
      && (forall i :: r.collectionsDone <= i < |DELETION_ORDER| ==> SameCollection(r.db, db, DELETION_ORDER[i]))
      && (!r.userDocDeleted ==> r.db.profile == db.profile)
      && (r.authDeleted ==> forall c :: CollectionSize(r.db, c) == 0)
  {
    var p := RunCollections(db, DELETION_ORDER, getOk, commitOk);
    RunCollectionsStopsAtFirstFailure(db, DELETION_ORDER, getOk, commitOk);
    var done := DELETION_ORDER[..p.completed];
    ClearAllEmpties(db, done);
    forall i | p.completed <= i < |DELETION_ORDER|
      ensures DELETION_ORDER[i] !in done
    {
      assert forall j :: 0 <= j < |done| ==> done[j] == DELETION_ORDER[j] != DELETION_ORDER[i];
    }
    forall c: Collection
      ensures c in DELETION_ORDER
    {
      match c
      case Transactions => assert DELETION_ORDER[0] == c;
      case Budgets => assert DELETION_ORDER[1] == c;
      case SavingGoals => assert DELETION_ORDER[2] == c;
      case Accounts => assert DELETION_ORDER[3] == c;
      case Categories => assert DELETION_ORDER[4] == c;
    }
    assert p.completed == |DELETION_ORDER| ==> done == DELETION_ORDER;
    var r := DeleteUserAccountOn(db, true, getOk, commitOk, userDocOk, authOk);
    if r.userDocDeleted {
      assert r.db == DeleteProfile(p.db);
    }
  }

  // ---------------------------------------------------------------- the fragment

  class Screen {
    var appLockSwitch: bool

    constructor ()
      ensures !appLockSwitch
    {
      appLockSwitch := false;
    }

    /** `loadData`: the switch shows the stored app-lock setting, off when none was stored. */
    method LoadData(prefs: Prefs.SharedPreferences)
      modifies this
      ensures appLockSwitch == Prefs.AppLockEnabled(prefs.values)
    {
      appLockSwitch := Prefs.GetBoolean(prefs.values, Prefs.IS_APP_LOCK_ENABLED, false);
    }

    /** The switch's change listener: the new state is stored; nothing else is. */
    method OnAppLockChanged(prefs: Prefs.SharedPreferences, isChecked: bool)
      modifies this, prefs
      ensures appLockSwitch == isChecked
      ensures prefs.values == old(prefs.values)[Prefs.IS_APP_LOCK_ENABLED := isChecked]
      ensures Prefs.AppLockEnabled(prefs.values) == isChecked
    {
      appLockSwitch := isChecked;
      prefs.PutBoolean(Prefs.IS_APP_LOCK_ENABLED, isChecked);
    }

    /** `deleteCollection` on the live store. */
    method DeleteCollection(store: LiveStore.UserStore, c: Collection, getOk: bool, commitOk: bool) returns (continued: bool)
      modifies store
      ensures continued <==> DeleteCollectionOn(old(store.State()), c, getOk, commitOk).Some?
      ensures continued ==> store.State() == DeleteCollectionOn(old(store.State()), c, getOk, commitOk).value
      ensures !continued ==> store.State() == old(store.State())
    {
      if !getOk {
        return false;
      }
      if CollectionSize(store.State(), c) == 0 {
        ClearedIsEmpty(store.State(), c);
        return true;
      }
      if !commitOk {
        return false;
      }
      store.ClearCollection(c);
      continued := true;
    }

    /** `deleteUserAccount` on the live store: the chain of steps, each run only after the one before went on. */
    method DeleteUserAccount(store: LiveStore.UserStore, signedIn: bool, getOk: seq<bool>, commitOk: seq<bool>, userDocOk: bool, authOk: bool)
      returns (collectionsDone: nat, userDocDeleted: bool, authDeleted: bool)
      requires |getOk| == |DELETION_ORDER| && |commitOk| == |DELETION_ORDER|
      modifies store
      ensures Deletion(store.State(), collectionsDone, userDocDeleted, authDeleted)
        == DeleteUserAccountOn(old(store.State()), signedIn, getOk, commitOk, userDocOk, authOk)
    {
      collectionsDone, userDocDeleted, authDeleted := 0, false, false;
      if !signedIn {
        return;
      }
      var i := 0;
      while i < |DELETION_ORDER|
        invariant 0 <= i <= |DELETION_ORDER|
        invariant RunCollections(old(store.State()), DELETION_ORDER[..i], getOk, commitOk) == Progress(store.State(), collectionsDone)
      {
        assert DELETION_ORDER[..i + 1][..i] == DELETION_ORDER[..i];
        if collectionsDone == i {
          var continued := DeleteCollection(store, DELETION_ORDER[i], getOk[i], commitOk[i]);
          if continued {
            collectionsDone := i + 1;
          }
        }
        i := i + 1;
      }
      assert DELETION_ORDER[..|DELETION_ORDER|] == DELETION_ORDER;
      if collectionsDone < |DELETION_ORDER| || !userDocOk {
        return;
      }
      store.DeleteProfile();
      userDocDeleted := true;
      authDeleted := authOk;
    }
  }
}
