/**
 * The server's `applications` table (server/index.js): seeded with twenty
 * legacy records when empty, extended by `POST /api/submit`, listed newest
 * first by `GET /api/applications` and rewritten by `POST /api/status`.
 * The SQL engine is replaced by what the statements evidently do to a
 * sequence of rows kept in insertion (id) order.
 */
module ApplicationStore {
  import opened Wrappers

  const UnderReview := "Under Review"
  const Approved := "Approved"
  const Rejected := "Rejected"
  const Revoked := "Revoked"
  const Archived := "Archived"

  const WebSource := "Web"
  const LegacySource := "Legacy"

  const DefaultLoanType := "Working Capital"

  /** What SQLite reports when an insert repeats a refId. */
  const UniqueRefIdError := "UNIQUE constraint failed: applications.refId"

  /** One row of the table; a SQL NULL is `None`. `files` is the decoded JSON array. */
  datatype Application = Application(
    id: nat,
    refId: string,
    companyName: string,
    turnover: Option<int>,
    amountRequested: Option<int>,
    yearsTrading: Option<int>,
    loanType: string,
    sector: Option<string>,
    status: string,
    date: string,
    files: seq<string>,
    source: string,
    docIncome: Option<string>,
    docKyc: Option<string>,
    docBusiness: Option<string>)

  /** The body of `POST /api/submit`: the applicant's fields, the document ids and the loan type. */
  datatype Submission = Submission(
    companyName: string,
    turnover: Option<int>,
    amountRequested: Option<int>,
    yearsTrading: Option<int>,
    sector: Option<string>,
    files: seq<string>,
    loanType: Option<string>)

  /** One line of the historical CSV the table is seeded from. */
  datatype CsvRecord = CsvRecord(id: string, industry: string, amount: int, inc: string, kyc: string, biz: string)

  const LegacyCsv: seq<CsvRecord> := [
    CsvRecord("SMEServ1", "Services", 1000000, "Yes", "Yes", "Yes"),
    CsvRecord("SMETrad2", "Trading", 4500000, "No", "No", "No"),
    CsvRecord("SMETrad3", "Trading", 3100000, "No", "Yes", "No"),
    CsvRecord("SMEServ4", "Services", 100000, "Yes", "Yes", "No"),
    CsvRecord("SMEServ5", "Services", 1800000, "Yes", "Yes", "Yes"),
    CsvRecord("SMEServ6", "Services", 1000000, "No", "Yes", "No"),
    CsvRecord("SMEServ7", "Services", 2400000, "No", "Yes", "Yes"),
    CsvRecord("SMEServ8", "Services", 400000, "Yes", "No", "Yes"),
    CsvRecord("SMEServ9", "Services", 4600000, "Yes", "Yes", "Yes"),
    CsvRecord("SMEManu10", "Manufacturing", 3700000, "Yes", "No", "Yes"),
    CsvRecord("SMEManu11", "Manufacturing", 2100000, "Yes", "No", "Yes"),
    CsvRecord("SMETrad12", "Trading", 900000, "No", "Yes", "Yes"),
    CsvRecord("SMETrad13", "Trading", 2300000, "Yes", "Yes", "No"),
    CsvRecord("SMEServ14", "Services", 4400000, "Yes", "Yes", "Yes"),
    CsvRecord("SMEServ15", "Services", 4500000, "Yes", "Yes", "No"),
    CsvRecord("SMETrad16", "Trading", 1300000, "No", "Yes", "Yes"),
    CsvRecord("SMETrad17", "Trading", 600000, "No", "Yes", "Yes"),
    CsvRecord("SMEManu18", "Manufacturing", 5000000, "Yes", "Yes", "Yes"),
    CsvRecord("SMEServ19", "Services", 1300000, "No", "No", "Yes"),
    CsvRecord("SMEManu20", "Manufacturing", 300000, "Yes", "Yes", "No")
  ]

  /** The row the seeding statement writes for `c` (the id is assigned on insert). */
  function SeedRow(c: CsvRecord): (r: Application)
    ensures r.refId == c.id && r.sector == Some(c.industry) && r.amountRequested == Some(c.amount)
    ensures r.status == Archived && r.source == LegacySource
    ensures r.turnover == Some(0) && r.yearsTrading == Some(0)
  {
    Application(0, c.id, "Legacy Applicant " + c.id, Some(0), Some(c.amount), Some(0), "General SME",
                Some(c.industry), Archived, "2023-01-01", [], LegacySource, Some(c.inc), Some(c.kyc), Some(c.biz))
  }

  /** The seeded rows for `csv`, numbered from `firstId`. */
  function SeedRows(csv: seq<CsvRecord>, firstId: nat): (r: seq<Application>)
    ensures |r| == |csv|
    ensures forall i :: 0 <= i < |csv| ==> r[i] == SeedRow(csv[i]).(id := firstId + i)
  {
    if csv == [] then [] else SeedRows(csv[..|csv| - 1], firstId) + [SeedRow(csv[|csv| - 1]).(id := firstId + |csv| - 1)]
  }

  predicate RefIdTaken(rows: seq<Application>, refId: string) {
    exists i :: 0 <= i < |rows| && rows[i].refId == refId
  }

  /** No two records share an id. */
  predicate CsvIdsDistinct(csv: seq<CsvRecord>) {
    forall i, j :: 0 <= i < j < |csv| ==> csv[i].id != csv[j].id
  }

  /** The number written after the seven-character "SME" + sector prefix of a legacy id. */
  function Serial(id: string): int {
    if |id| < 7 then -1 else DecimalValue(id[7..])
  }

  /** Record `i` carries the serial `n + i`. */
  predicate SerialsFrom(csv: seq<CsvRecord>, n: int) {
    forall i :: 0 <= i < |csv| ==> Serial(csv[i].id) == n + i
  }

  /** Records numbered in sequence repeat no id. */
  lemma SerialsMakeIdsDistinct(csv: seq<CsvRecord>, n: int)
    requires SerialsFrom(csv, n)
    ensures CsvIdsDistinct(csv)
  {
    forall i, j | 0 <= i < j < |csv| ensures csv[i].id != csv[j].id {
      assert Serial(csv[i].id) != Serial(csv[j].id);
    }
  }

  /** The serials of the records, five at a time. */
  lemma LegacySerials1To5()
    ensures forall i :: 0 <= i < 5 ==> Serial(LegacyCsv[i].id) == i + 1
  {
    assert LegacyCsv[0].id[7..] == "1" && DecimalValue("1") == 1;
    assert Serial(LegacyCsv[0].id) == 1;
    assert LegacyCsv[1].id[7..] == "2" && DecimalValue("2") == 2;
    assert Serial(LegacyCsv[1].id) == 2;
    assert LegacyCsv[2].id[7..] == "3" && DecimalValue("3") == 3;
    assert Serial(LegacyCsv[2].id) == 3;
    assert LegacyCsv[3].id[7..] == "4" && DecimalValue("4") == 4;
    assert Serial(LegacyCsv[3].id) == 4;
    assert LegacyCsv[4].id[7..] == "5" && DecimalValue("5") == 5;
    assert Serial(LegacyCsv[4].id) == 5;
  }

  lemma LegacySerials6To10()
    ensures forall i :: 5 <= i < 10 ==> Serial(LegacyCsv[i].id) == i + 1
  {
    assert LegacyCsv[5].id[7..] == "6" && DecimalValue("6") == 6;
    assert Serial(LegacyCsv[5].id) == 6;
    assert LegacyCsv[6].id[7..] == "7" && DecimalValue("7") == 7;
    assert Serial(LegacyCsv[6].id) == 7;
    assert LegacyCsv[7].id[7..] == "8" && DecimalValue("8") == 8;
    assert Serial(LegacyCsv[7].id) == 8;
    assert LegacyCsv[8].id[7..] == "9" && DecimalValue("9") == 9;
    assert Serial(LegacyCsv[8].id) == 9;
    assert LegacyCsv[9].id[7..] == "10" && DecimalValue("10") == 10;
    assert Serial(LegacyCsv[9].id) == 10;
  }

  lemma LegacySerials11To15()
    ensures forall i :: 10 <= i < 15 ==> Serial(LegacyCsv[i].id) == i + 1
  {
    assert LegacyCsv[10].id[7..] == "11" && DecimalValue("11") == 11;
    assert Serial(LegacyCsv[10].id) == 11;
    assert LegacyCsv[11].id[7..] == "12" && DecimalValue("12") == 12;
    assert Serial(LegacyCsv[11].id) == 12;
    assert LegacyCsv[12].id[7..] == "13" && DecimalValue("13") == 13;
    assert Serial(LegacyCsv[12].id) == 13;
    assert LegacyCsv[13].id[7..] == "14" && DecimalValue("14") == 14;
    assert Serial(LegacyCsv[13].id) == 14;
    assert LegacyCsv[14].id[7..] == "15" && DecimalValue("15") == 15;
    assert Serial(LegacyCsv[14].id) == 15;
  }

  lemma LegacySerials16To20()
    ensures forall i :: 15 <= i < 20 ==> Serial(LegacyCsv[i].id) == i + 1
  {
    assert LegacyCsv[15].id[7..] == "16" && DecimalValue("16") == 16;
    assert Serial(LegacyCsv[15].id) == 16;
    assert LegacyCsv[16].id[7..] == "17" && DecimalValue("17") == 17;
    assert Serial(LegacyCsv[16].id) == 17;
    assert LegacyCsv[17].id[7..] == "18" && DecimalValue("18") == 18;
    assert Serial(LegacyCsv[17].id) == 18;
    assert LegacyCsv[18].id[7..] == "19" && DecimalValue("19") == 19;
    assert Serial(LegacyCsv[18].id) == 19;
    assert LegacyCsv[19].id[7..] == "20" && DecimalValue("20") == 20;
    assert Serial(LegacyCsv[19].id) == 20;
  }

  /** The historical CSV numbers its records 1 to 20, so it repeats no id and seeding never trips the UNIQUE column. */
  lemma LegacyCsvIdsDistinct()
    ensures SerialsFrom(LegacyCsv, 1)
    ensures CsvIdsDistinct(LegacyCsv)
  {
    LegacySerials1To5();
    LegacySerials6To10();
    LegacySerials11To15();
    LegacySerials16To20();
    assert |LegacyCsv| == 20;
    SerialsMakeIdsDistinct(LegacyCsv, 1);
  }

  /** The four decimal digits of `n`, most significant first. */
  function FourDigits(n: int): (s: string)
    requires 1000 <= n <= 9999
    ensures |s| == 4 && forall i :: 0 <= i < 4 ==> '0' <= s[i] <= '9'
  {
    [DigitChar(n / 1000), DigitChar(n / 100 % 10), DigitChar(n / 10 % 10), DigitChar(n % 10)]
  }

  function DigitChar(d: int): (c: char)
    requires 0 <= d <= 9
    ensures '0' <= c <= '9' && c as int - '0' as int == d
  {
    ('0' as int + d) as char
  }

  /** Reads a string of decimal digits as a number (any other character is read by its distance from '0'). */
  function DecimalValue(s: string): int {
    if s == [] then 0 else DecimalValue(s[..|s| - 1]) * 10 + (s[|s| - 1] as int - '0' as int)
  }

  /** The digits of a generated refId spell the number drawn. */
  lemma FourDigitsRoundTrip(n: int)
    requires 1000 <= n <= 9999
    ensures DecimalValue(FourDigits(n)) == n
  {
    var s := FourDigits(n);
    var a, b, c := n / 1000, n / 100, n / 10;
    assert s[..3] == s[..|s| - 1] && s[..3][..2] == s[..2] && s[..2][..1] == s[..1] && s[..1][..0] == [];
    assert DecimalValue(s[..1]) == a;
    DropLastDigit(b);
    assert DecimalValue(s[..2]) == b;
    DropLastDigit(c);
    assert DecimalValue(s[..3]) == c;
    DropLastDigit(n);
  }

  /** Dropping the last decimal digit of `m` is dividing by ten. */
  lemma DropLastDigit(m: int)
    requires m >= 0
    ensures m / 10 * 10 + m % 10 == m
    ensures m / 10 == m / 10 / 10 * 10 + m / 10 % 10
    ensures m / 10 / 10 == m / 100 && m / 100 / 10 == m / 1000
  {
  }

  /** `Math.floor(1000 + r * 9000)` for a draw `0 <= r < 1` of `Math.random()`. */
  function RefNumber(r: real): (n: int)
    requires 0.0 <= r < 1.0
    ensures 1000 <= n <= 9999
  {
    var x := 1000.0 + r * 9000.0;
    assert 1000.0 <= x < 10000.0;
    x.Floor
  }

  /** `"APP-" + Math.floor(1000 + r * 9000)` */
  function RefIdFor(r: real): (id: string)
    requires 0.0 <= r < 1.0
    ensures |id| == 8 && id[..4] == "APP-"
    ensures forall i :: 4 <= i < 8 ==> '0' <= id[i] <= '9'
    ensures 1000 <= DecimalValue(id[4..]) <= 9999
  {
    var n := RefNumber(r);
    FourDigitsRoundTrip(n);
    assert ("APP-" + FourDigits(n))[4..] == FourDigits(n);
    "APP-" + FourDigits(n)
  }

  /** The row `POST /api/submit` inserts (the id is assigned on insert). */
  function SubmittedRow(s: Submission, refId: string, date: string): (r: Application)
    ensures r.refId == refId && r.status == UnderReview && r.source == WebSource && r.date == date
    ensures r.loanType == (if s.loanType == None || s.loanType == Some("") then DefaultLoanType else s.loanType.value)
    ensures r.companyName == s.companyName && r.turnover == s.turnover && r.amountRequested == s.amountRequested
    ensures r.yearsTrading == s.yearsTrading && r.sector == s.sector && r.files == s.files
  {
    var loanType := if s.loanType == None || s.loanType == Some("") then DefaultLoanType else s.loanType.value;
    Application(0, refId, s.companyName, s.turnover, s.amountRequested, s.yearsTrading, loanType,
                s.sector, UnderReview, date, s.files, WebSource, None, None, None)
  }

  /** The effect of `UPDATE applications SET status = ? WHERE refId = ?`. */
  function SetStatus(rows: seq<Application>, refId: string, status: string): (r: seq<Application>)
    ensures |r| == |rows|
    ensures forall i :: 0 <= i < |rows| ==> r[i] == if rows[i].refId == refId then rows[i].(status := status) else rows[i]
  {
    seq(|rows|, i requires 0 <= i < |rows| => if rows[i].refId == refId then rows[i].(status := status) else rows[i])
  }

  /** An update naming an unknown refId leaves the table as it was. */
  lemma SetStatusUnknownRefId(rows: seq<Application>, refId: string, status: string)
    requires !RefIdTaken(rows, refId)
    ensures SetStatus(rows, refId, status) == rows
  {
  }

  /**
   * The server checks nothing about the current status: a row that is already
   * Approved can still be set to Revoked. Only the client hides the buttons.
   */
  lemma NoTransitionGuard(rows: seq<Application>, i: nat)
    requires i < |rows| && rows[i].status == Approved
    ensures SetStatus(rows, rows[i].refId, Revoked)[i].status == Revoked
  {
  }

  /** Reverses a sequence: the order `ORDER BY id DESC` gives rows kept in id order. */
  function Reverse(s: seq<Application>): (r: seq<Application>)
    ensures |r| == |s|
  {
    if s == [] then [] else Reverse(s[1..]) + [s[0]]
  }

  lemma {:induction false} ReverseAt(s: seq<Application>, k: nat)
    requires k < |s|
    ensures Reverse(s)[k] == s[|s| - 1 - k]
  {
    if k < |s| - 1 {
      ReverseAt(s[1..], k);
    }
  }

  lemma {:induction false} ReverseAppend(s: seq<Application>, x: Application)
    ensures Reverse(s + [x]) == [x] + Reverse(s)
  {
    forall k | 0 <= k < |s| + 1 ensures Reverse(s + [x])[k] == ([x] + Reverse(s))[k] {
      ReverseAt(s + [x], k);
      if k > 0 { ReverseAt(s, k - 1); }
    }
  }

  lemma {:induction false} ReverseMultiset(s: seq<Application>)
    ensures multiset(Reverse(s)) == multiset(s)
  {
    if s != [] {
      ReverseMultiset(s[1..]);
      assert s == [s[0]] + s[1..];
    }
  }

  /** Rows are kept in increasing id order. */
  predicate IdsIncreasing(rows: seq<Application>) {
    forall i, j :: 0 <= i < j < |rows| ==> rows[i].id < rows[j].id
  }

  /** refIds are pairwise distinct (the UNIQUE column constraint). */
  predicate RefIdsUnique(rows: seq<Application>) {
    forall i, j :: 0 <= i < j < |rows| ==> rows[i].refId != rows[j].refId
  }

  class Store {
    /** The table's rows in insertion order. */
    var rows: seq<Application>
    /** The next value AUTOINCREMENT hands out. */
    var nextId: nat

    ghost predicate Valid()
      reads this
    {
      && IdsIncreasing(rows)
      && RefIdsUnique(rows)
      && (forall i :: 0 <= i < |rows| ==> 0 < rows[i].id < nextId)
      && 0 < nextId
    }

    /** `CREATE TABLE IF NOT EXISTS` on a fresh database file. */
    constructor ()
      ensures Valid() && rows == [] && nextId == 1
    {
      rows := [];
      nextId := 1;
    }

    /** One INSERT: the UNIQUE refId column either accepts the row with the next id or refuses it. */
    method Insert(row: Application) returns (res: Result<nat, string>)
      requires Valid()
      modifies this
      ensures Valid()
      ensures RefIdTaken(old(rows), row.refId) ==>
        res == Failure(UniqueRefIdError) && rows == old(rows) && nextId == old(nextId)
      ensures !RefIdTaken(old(rows), row.refId) ==>
        res == Success(old(nextId)) && rows == old(rows) + [row.(id := old(nextId))] && nextId == old(nextId) + 1
    {
      var taken := RefIdTaken(rows, row.refId);
      if taken {
        res := Failure(UniqueRefIdError);
      } else {
        rows := rows + [row.(id := nextId)];
        res := Success(nextId);
        nextId := nextId + 1;
      }
    }

    /** The start-up block: seed the twenty legacy records when the table has no rows. */
    method SeedIfEmpty()
      requires Valid()
      modifies this
      ensures Valid()
      ensures |old(rows)| == 0 ==> rows == SeedRows(LegacyCsv, old(nextId)) && nextId == old(nextId) + |LegacyCsv|
      ensures |old(rows)| != 0 ==> rows == old(rows) && nextId == old(nextId)
    {
      if |rows| == 0 {
        LegacyCsvIdsDistinct();
        SeedRecords(LegacyCsv);
      }
    }

    /** Inserts one row per record into the empty table, in file order. */
    method SeedRecords(csv: seq<CsvRecord>)
      requires Valid() && rows == [] && CsvIdsDistinct(csv)
      modifies this
      ensures Valid()
      ensures rows == SeedRows(csv, old(nextId)) && nextId == old(nextId) + |csv|
    {
      var first := nextId;
      for k := 0 to |csv|
        invariant Valid()
        invariant rows == SeedRows(csv[..k], first) && nextId == first + k
      {
        assert !RefIdTaken(rows, csv[k].id) by {
          forall j | 0 <= j < |rows| ensures rows[j].refId != csv[k].id {
            assert rows[j].refId == csv[j].id;
          }
        }
        var _ := Insert(SeedRow(csv[k]));
        assert csv[..k + 1][..k] == csv[..k];
      }
      assert csv[..|csv|] == csv;
    }

    /** `POST /api/submit` with `draw` the value of `Math.random()` and `today` the server's date. */
    method Submit(s: Submission, draw: real, today: string) returns (res: Result<string, string>)
      requires Valid()
      requires 0.0 <= draw < 1.0
      modifies this
      ensures Valid()
      ensures RefIdTaken(old(rows), RefIdFor(draw)) ==>
        res == Failure(UniqueRefIdError) && rows == old(rows) && nextId == old(nextId)
      ensures !RefIdTaken(old(rows), RefIdFor(draw)) ==>
        && res == Success(RefIdFor(draw))
        && rows == old(rows) + [SubmittedRow(s, RefIdFor(draw), today).(id := old(nextId))]
        && nextId == old(nextId) + 1
    {
      var refId := RefIdFor(draw);
      var inserted := Insert(SubmittedRow(s, refId, today));
      match inserted
      case Success(_) => res := Success(refId);
      case Failure(e) => res := Failure(e);
    }

    /** `GET /api/applications`: every row, newest (highest id) first. */
    method List() returns (data: seq<Application>)
      requires Valid()
      ensures data == Reverse(rows)
      ensures multiset(data) == multiset(rows)
      ensures forall i, j :: 0 <= i < j < |data| ==> data[i].id > data[j].id
    {
      data := Reverse(rows);
      ReverseMultiset(rows);
      forall i, j | 0 <= i < j < |data| ensures data[i].id > data[j].id {
        ReverseAt(rows, i);
        ReverseAt(rows, j);
      }
    }

    /** `POST /api/status`: sets `status` on the rows whose refId matches; nothing else changes. */
    method UpdateStatus(refId: string, status: string)
      requires Valid()
      modifies this
      ensures Valid()
      ensures rows == SetStatus(old(rows), refId, status) && nextId == old(nextId)
    {
      rows := SetStatus(rows, refId, status);
    }
  }
}
