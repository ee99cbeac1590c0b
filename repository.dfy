/**
 * The in-memory store of the parking lot (repository/ParkingRepository.java):
 * active tickets and known vehicles keyed by plate, the last-paid-month ledger,
 * and the append-only monthly payment log (the file monthly_payment.csv, kept
 * here as its sequence of lines). The store also fixes plate normalisation and
 * the CSV row layout of parking_data.csv, whose file image is a sequence of lines.
 */
module Repository {
  import opened Wrappers
  import opened JavaStrings
  import opened Vehicles
  import opened Tickets

  // ------------------------------------------------------- plate normalisation

  /** `normalizePlate`: null becomes "", anything else is trimmed, upper-cased and
      stripped of every whitespace character. */
  function NormalizePlate(plate: Option<string>): string
  {
    match plate
    case None => ""
    case Some(s) => RemoveSpaces(ToUpperCase(Trim(s)))
  }

  /** A normalised plate holds no whitespace and no lower-case letter; null gives "". */
  lemma NormalizedShape(plate: Option<string>)
    ensures plate.None? ==> NormalizePlate(plate) == ""
    ensures forall i :: 0 <= i < |NormalizePlate(plate)| ==>
              !IsSpace(NormalizePlate(plate)[i]) && !IsLower(NormalizePlate(plate)[i])
  {
    if plate.Some? {
      RemoveSpacesKeepsNoLower(ToUpperCase(Trim(plate.value)));
    }
  }

  /** A normalised plate neither starts nor ends with a char that `trim` strips. */
  lemma NormalizedIsTrimmed(s: string)
    ensures IsTrimmed(NormalizePlate(Some(s)))
  {
    UpperKeepsTrimmed(Trim(s));
    RemoveSpacesKeepsTrimmed(ToUpperCase(Trim(s)));
  }

  /** Normalising twice is normalising once. */
  lemma NormalizeIdempotent(plate: Option<string>)
    ensures NormalizePlate(Some(NormalizePlate(plate))) == NormalizePlate(plate)
  {
    var r := NormalizePlate(plate);
    NormalizedShape(plate);
    if plate.Some? {
      NormalizedIsTrimmed(plate.value);
    }
    TrimOfTrimmed(r);
    assert ToUpperCase(r) == r;
    RemoveSpacesOfSpaceless(r);
  }

  /** Surrounding blanks never change a normalised plate. */
  lemma NormalizeIgnoresTrim(s: string)
    ensures NormalizePlate(Some(Trim(s))) == NormalizePlate(Some(s))
  {
    TrimIdempotent(s);
  }

  /** Some key of `keys` normalises to the same plate as `plate`. */
  predicate HasAlikeKey(keys: set<string>, plate: Option<string>)
  {
    exists k :: k in keys && NormalizePlate(Some(k)) == NormalizePlate(plate)
  }

  /** No two keys of `keys` normalise alike. */
  predicate NormalizesApart(keys: set<string>)
  {
    forall k1, k2 :: k1 in keys && k2 in keys && k1 != k2 ==>
      NormalizePlate(Some(k1)) != NormalizePlate(Some(k2))
  }

  // ------------------------------------------------------------------ zones

  /** `determineZoneFromVehicle`, on the two vehicle attributes it reads: cars go to
      zone B, petrol motorbikes to A2, every other two-wheeler to A1. */
  function DetermineZoneFromVehicle(vtype: VehicleType, fuel: FuelType): (zone: string)
    ensures IsZone(zone)
    ensures zone == "B" <==> vtype == CAR
    ensures zone == "A2" <==> vtype == BIKE && fuel == GASOLINE
  {
    if vtype == CAR then "B"
    else if fuel == ELECTRIC || vtype == BICYCLE then "A1"
    else if fuel == GASOLINE then (assert vtype == BIKE; "A2")
    else "A1"
  }

  // ------------------------------------------------------------ payment log

  /** The header line that opens the payment log. */
  const PaymentHeader: string := "LicensePlate,MonthYear"

  /** The line the log gains for one payment. */
  function PaymentLine(plate: string, month: string): string
  {
    plate + "," + month
  }

  /** The log after `saveMonthlyPayment(plate, month)` with both arguments present:
      an empty log first gets its header, then the payment line is appended. */
  function AppendPayment(log: seq<string>, plate: string, month: string): (r: seq<string>)
    ensures |r| >= 2 && r[|r| - 1] == PaymentLine(plate, month)
    ensures log != [] ==> r == log + [PaymentLine(plate, month)]
    ensures log == [] ==> r[0] == PaymentHeader
  {
    (if log == [] then [PaymentHeader] else log) + [PaymentLine(plate, month)]
  }

  /** One log line records a payment for `normalizedPlate` and exactly `month`. */
  predicate PaymentLineMatches(line: string, normalizedPlate: string, month: string)
  {
    Trim(line) != "" &&
    var parts := JavaSplit(line, ',');
    |parts| >= 2 && NormalizePlate(Some(Trim(parts[0]))) == normalizedPlate && Trim(parts[1]) == month
  }

  /** The answer of `hasPaidMonthly(plate, month)` on the log `log`: some line after
      the first (the header) names the plate, up to normalisation, and the month. */
  predicate PaidInLog(log: seq<string>, plate: Option<string>, month: Option<string>)
  {
    plate.Some? && month.Some? && plate.value != "" && month.value != "" &&
    LogRecords(log, NormalizePlate(plate), month.value)
  }

  /** Some line after the header records `normalizedPlate` and `month`. */
  predicate LogRecords(log: seq<string>, normalizedPlate: string, month: string)
  {
    SomeBetween(PaymentMatcher(normalizedPlate, month), log, 1, |log|)
  }

  /** `PaymentLineMatches` as a test on lines. */
  function PaymentMatcher(normalizedPlate: string, month: string): string -> bool
  {
    line => PaymentLineMatches(line, normalizedPlate, month)
  }

  /** The scan of `hasPaidMonthly` over the log lines after the header. */
  method ScanPaymentLog(log: seq<string>, normalizedPlate: string, month: string) returns (found: bool)
    ensures found <==> LogRecords(log, normalizedPlate, month)
  {
    if |log| <= 1 {
      return false;
    }
    var i := 1;
    while i < |log|
      invariant 1 <= i <= |log|
      invariant !SomeBetween(PaymentMatcher(normalizedPlate, month), log, 1, i)
    {
      if PaymentLineMatches(log[i], normalizedPlate, month) {
        SomeBetweenGrows(PaymentMatcher(normalizedPlate, month), log, 1, i + 1, |log|);
        return true;
      }
      i := i + 1;
    }
    return false;
  }

  /** A payment just appended is found by the next lookup. */
  lemma PaymentRecordedIsSeen(log: seq<string>, plate: string, month: string)
    requires plate != "" && month != ""
    requires ',' !in plate && ',' !in month && IsTrimmed(month)
    ensures PaidInLog(AppendPayment(log, plate, month), Some(plate), Some(month))
  {
    var line := PaymentLine(plate, month);
    var log' := AppendPayment(log, plate, month);
    assert line == Join([plate, month], ',');
    JoinHasSep([plate, month], ',');
    FieldsOfJoin([plate, month], ',');
    assert JavaSplit(line, ',') == [plate, month];
    assert line[|plate|] == ',';
    assert Trim(line) != "";
    TrimOfTrimmed(month);
    NormalizeIgnoresTrim(plate);
    assert PaymentLineMatches(log'[|log'| - 1], NormalizePlate(Some(plate)), month);
  }

  /** A payment seen in a log is still seen once lines are appended. */
  lemma PaidInExtendedLog(log: seq<string>, more: seq<string>, p: Option<string>, m: Option<string>)
    requires PaidInLog(log, p, m)
    ensures PaidInLog(log + more, p, m)
  {
    var matcher := PaymentMatcher(NormalizePlate(p), m.value);
    SomeBetweenAppend(matcher, log, more, 1, |log|);
    SomeBetweenGrows(matcher, log + more, 1, |log|, |log + more|);
  }

  /** The log only grows: a payment seen before an append is still seen after it. */
  lemma PaidStaysPaid(log: seq<string>, plate: string, month: string,
                      p: Option<string>, m: Option<string>)
    requires PaidInLog(log, p, m)
    ensures PaidInLog(AppendPayment(log, plate, month), p, m)
  {
    PaidInExtendedLog(log, [PaymentLine(plate, month)], p, m);
  }

  // ------------------------------------------------------ last-paid ledger

  /** Every answer `getLastPaidMonth(plate)` may give on the ledger `history`: absent
      or empty plates get null; otherwise null exactly when no key normalises like
      the plate, and else the month of one such key (HashMap order decides which). */
  ghost predicate LastPaidAnswer(history: map<string, string>, plate: Option<string>, r: Option<string>)
  {
    if plate.None? || plate.value == "" then r.None?
    else
      (r.None? <==> !HasAlikeKey(history.Keys, plate)) &&
      (r.Some? ==> exists k :: k in history && NormalizePlate(Some(k)) == NormalizePlate(plate)
                                         && history[k] == r.value)
  }

  /** After `updatePaymentStatus(plate, month)`, the lookup answers that month,
      provided no other ledger key normalises like the plate. */
  lemma LastPaidAfterUpdate(history: map<string, string>, plate: string, month: string, r: Option<string>)
    requires plate != ""
    requires forall k :: k in history && k != plate ==>
               NormalizePlate(Some(k)) != NormalizePlate(Some(plate))
    requires LastPaidAnswer(history[plate := month], Some(plate), r)
    ensures r == Some(month)
  {
    var h := history[plate := month];
    assert plate in h;
    assert HasAlikeKey(h.Keys, Some(plate));
    var k :| k in h && NormalizePlate(Some(k)) == NormalizePlate(Some(plate)) && h[k] == r.value;
    assert k == plate;
  }

  /** With ledger keys that normalise apart the lookup has a single answer: the
      iteration order of the map cannot change it. */
  lemma LastPaidAnswerUnique(history: map<string, string>, plate: string, r1: Option<string>, r2: Option<string>)
    requires NormalizesApart(history.Keys)
    requires LastPaidAnswer(history, Some(plate), r1) && LastPaidAnswer(history, Some(plate), r2)
    ensures r1 == r2
  {
    if plate != "" && r1.Some? && r2.Some? {
      var k1 :| k1 in history && NormalizePlate(Some(k1)) == NormalizePlate(Some(plate)) && history[k1] == r1.value;
      var k2 :| k2 in history && NormalizePlate(Some(k2)) == NormalizePlate(Some(plate)) && history[k2] == r2.value;
      assert k1 == k2;
    }
  }

  // ------------------------------------------------------------ CSV rows

  /** The entry time of a ticket is written as a signed decimal count of hours. */
  function FormatTimestamp(h: int): (s: string)
    ensures s != [] && IsTrimmed(s) && ',' !in s
  {
    var s := if h < 0 then "-" + NatToString(-h) else NatToString(h);
    assert forall i :: 0 <= i < |s| ==> s[i] == '-' || IsDigit(s[i]);
    s
  }

  /** Reads back an entry time; `None` where the text is not a timestamp (Java's
      DateTimeParseException). */
  function ParseTimestamp(s: string): (r: Option<int>)
  {
    if s == "" then None
    else if s[0] == '-' then
      if |s| > 1 && AllDigits(s[1..]) then Some(-(DigitsValue(s[1..]) as int)) else None
    else if AllDigits(s) then Some(DigitsValue(s))
    else None
  }

  /** Every entry time reads back as itself. */
  lemma TimestampRoundTrip(h: int)
    ensures ParseTimestamp(FormatTimestamp(h)) == Some(h)
  {
    if h < 0 {
      var d := NatToString(-h);
      assert ("-" + d)[1..] == d;
      DigitsOfNat(-h);
    } else {
      DigitsOfNat(h);
    }
  }

  /** One data row of parking_data.csv; `entry` is absent for a vehicle without an
      active ticket. */
  datatype DataRow = DataRow(vtype: VehicleType, plate: string, entry: Option<int>,
                             fuel: FuelType, monthly: bool, lastPaid: Option<string>)

  const HeaderFields: seq<string> :=
    ["type", "licensePlate", "entryTime", "fuelType", "ticketType", "lastPaidMonth"]

  /** The header line of parking_data.csv. */
  const DataHeader: string := Join(HeaderFields, ',')

  function EntryField(entry: Option<int>): string
  {
    match entry
    case None => ""
    case Some(h) => FormatTimestamp(h)
  }

  function RowFields(r: DataRow): seq<string>
  {
    [TypeName(r.vtype), r.plate, EntryField(r.entry), FuelName(r.fuel), TicketKind(r.monthly),
     MonthField(r.lastPaid)]
  }

  /** The line `saveToFile` prints for one row. */
  function EncodeRow(r: DataRow): string
  {
    Join(RowFields(r), ',')
  }

  function EncodeRows(rows: seq<DataRow>): (lines: seq<string>)
    ensures |lines| == |rows|
    ensures forall i :: 0 <= i < |rows| ==> lines[i] == EncodeRow(rows[i])
  {
    seq(|rows|, i requires 0 <= i < |rows| => EncodeRow(rows[i]))
  }

  /** How `loadFromFile` reads one line: `None` for a blank line, and otherwise what
      its comma-separated fields give. */
  function ParseRow(line: string, hasLastPaidColumn: bool): Option<DataRow>
  {
    if Trim(line) == "" then None else RowOfFields(JavaSplit(line, ','), hasLastPaidColumn)
  }

  /** The row made of the fields of one line: `None` for fewer than five fields, or
      when the type, fuel or entry time does not parse (the row the source skips after
      catching the exception). A sixth field is read only when the header has one, and
      an empty one means no month. Every field is trimmed first. */
  function RowOfFields(parts: seq<string>, hasLastPaidColumn: bool): Option<DataRow>
  {
    if |parts| < 5 then None
    else
      match (ParseType(Trim(parts[0])), ParseFuel(Trim(parts[3])))
      case (Some(vtype), Some(fuel)) =>
        var plate := Trim(parts[1]);
        var monthly := Trim(parts[4]) == "MONTHLY";
        var lastPaid := if hasLastPaidColumn && |parts| >= 6 && Trim(parts[5]) != ""
                        then Some(Trim(parts[5])) else None;
        var entryText := Trim(parts[2]);
        if entryText == "" then Some(DataRow(vtype, plate, None, fuel, monthly, lastPaid))
        else
          (match ParseTimestamp(entryText)
           case Some(h) => Some(DataRow(vtype, plate, Some(h), fuel, monthly, lastPaid))
           case None => None)
      case _ => None
  }

  /** What a row must satisfy to survive a save and a load: no comma and no
      surrounding blanks in the plate or month, and no empty month. */
  predicate StorableRow(r: DataRow)
  {
    ',' !in r.plate && IsTrimmed(r.plate) &&
    (r.lastPaid.Some? ==> r.lastPaid.value != "" && ',' !in r.lastPaid.value && IsTrimmed(r.lastPaid.value))
  }

  /** The fields written for a storable row are free of commas. */
  lemma StorableFields(r: DataRow)
    requires StorableRow(r)
    ensures forall i :: 0 <= i < |RowFields(r)| ==> ',' !in RowFields(r)[i]
  {
    var fs := RowFields(r);
    forall i | 0 <= i < |fs| ensures ',' !in fs[i] {
      if i == 0 {
        UpperToken(TypeName(r.vtype));
      } else if i == 3 {
        UpperToken(FuelName(r.fuel));
      } else if i == 4 {
        UpperToken(TicketKind(r.monthly));
      }
    }
  }

  /** A word of capital letters and underscores holds no comma and no blank. */
  lemma UpperToken(s: string)
    requires forall i :: 0 <= i < |s| ==> IsUpper(s[i]) || s[i] == '_'
    ensures ',' !in s && IsTrimmed(s)
  {
  }

  /** A written row is never a blank line: it starts with the type name. */
  lemma EncodedRowNotBlank(r: DataRow)
    ensures Trim(EncodeRow(r)) != ""
  {
    var fs := RowFields(r);
    assert fs[0] != [] && IsUpper(fs[0][0]) by {
      match r.vtype
      case CAR =>
      case BIKE =>
      case BICYCLE =>
    }
    JoinStart(fs, ',');
    TrimNotBlank(EncodeRow(r));
  }

  /** Splitting a written row gives its fields back, the month field only when it is
      there (Java's split drops a trailing empty field). */
  lemma SplitEncodedRow(r: DataRow)
    requires StorableRow(r)
    ensures JavaSplit(EncodeRow(r), ',') ==
              if r.lastPaid.Some? then RowFields(r) else RowFields(r)[..5]
  {
    var fs := RowFields(r);
    var line := EncodeRow(r);
    StorableFields(r);
    FieldsOfJoin(fs, ',');
    JoinHasSep(fs, ',');
    assert JavaSplit(line, ',') == DropTrailingEmpty(fs);
    assert fs[4] != "";
  }

  /** The row made of fields whose trimmed texts parse to the parts of `r`. */
  lemma RowOfParsedFields(parts: seq<string>, hasLastPaidColumn: bool, r: DataRow)
    requires |parts| >= 5
    requires ParseType(Trim(parts[0])) == Some(r.vtype) && ParseFuel(Trim(parts[3])) == Some(r.fuel)
    requires Trim(parts[1]) == r.plate && (Trim(parts[4]) == "MONTHLY") == r.monthly
    requires r.entry.None? ==> Trim(parts[2]) == ""
    requires r.entry.Some? ==> Trim(parts[2]) != "" && ParseTimestamp(Trim(parts[2])) == r.entry
    requires r.lastPaid == if hasLastPaidColumn && |parts| >= 6 && Trim(parts[5]) != ""
                           then Some(Trim(parts[5])) else None
    ensures RowOfFields(parts, hasLastPaidColumn) == Some(r)
  {
  }

  /** The type, fuel and ticket-kind fields written for a row read back, once
      trimmed, as the row's type, fuel and kind. */
  lemma EncodedNamesParse(r: DataRow)
    ensures var fs := RowFields(r);
      ParseType(Trim(fs[0])) == Some(r.vtype) && ParseFuel(Trim(fs[3])) == Some(r.fuel) &&
      (Trim(fs[4]) == "MONTHLY") == r.monthly
  {
    var fs := RowFields(r);
    assert fs[0] == TypeName(r.vtype) && fs[3] == FuelName(r.fuel) && fs[4] == TicketKind(r.monthly);
    TypeFieldParses(r.vtype);
    FuelFieldParses(r.fuel);
    KindFieldParses(r.monthly);
  }

  lemma TypeFieldParses(t: VehicleType)
    ensures ParseType(Trim(TypeName(t))) == Some(t)
  {
    TrimOfTrimmed(TypeName(t));
  }

  lemma FuelFieldParses(f: FuelType)
    ensures ParseFuel(Trim(FuelName(f))) == Some(f)
  {
    TrimOfTrimmed(FuelName(f));
  }

  lemma KindFieldParses(monthly: bool)
    ensures (Trim(TicketKind(monthly)) == "MONTHLY") == monthly
  {
    TrimOfTrimmed(TicketKind(monthly));
  }

  /** The trimmed plate and month fields written for a storable row are the row's
      plate and month. */
  lemma EncodedTextsParse(r: DataRow)
    requires StorableRow(r)
    ensures var fs := RowFields(r);
      Trim(fs[1]) == r.plate &&
      (r.lastPaid.Some? ==> Trim(fs[5]) == r.lastPaid.value && r.lastPaid.value != "")
  {
    var fs := RowFields(r);
    assert fs[1] == r.plate && fs[5] == MonthField(r.lastPaid);
    TrimOfTrimmed(r.plate);
    if r.lastPaid.Some? {
      TrimOfTrimmed(r.lastPaid.value);
    }
  }

  /** The trimmed entry field written for a row reads back as the row's entry time. */
  lemma EncodedEntryParses(r: DataRow)
    ensures var fs := RowFields(r);
      (r.entry.None? ==> Trim(fs[2]) == "") &&
      (r.entry.Some? ==> Trim(fs[2]) != "" && ParseTimestamp(Trim(fs[2])) == r.entry)
  {
    assert RowFields(r)[2] == EntryField(r.entry);
    TrimOfTrimmed(EntryField(r.entry));
    if r.entry.Some? {
      TimestampRoundTrip(r.entry.value);
    }
  }

  /** Reading a written row gives the row back. */
  lemma ParseEncodedRow(r: DataRow)
    requires StorableRow(r)
    ensures ParseRow(EncodeRow(r), true) == Some(r)
  {
    EncodedRowNotBlank(r);
    SplitEncodedRow(r);
    EncodedNamesParse(r);
    EncodedTextsParse(r);
    EncodedEntryParses(r);
    var fs := RowFields(r);
    RowOfParsedFields(if r.lastPaid.Some? then fs else fs[..5], true, r);
  }

  /** What each line after the header reads as. */
  function ParseLines(body: seq<string>, hasLastPaidColumn: bool): (r: seq<Option<DataRow>>)
  {
    MapSeq(LineParser(hasLastPaidColumn), body)
  }

  /** `ParseRow` as a function on lines. */
  function LineParser(hasLastPaidColumn: bool): string -> Option<DataRow>
  {
    line => ParseRow(line, hasLastPaidColumn)
  }

  /** Parses the lines after the header, keeping the rows that parse, in order. */
  function ParseRows(body: seq<string>, hasLastPaidColumn: bool): seq<DataRow>
  {
    Somes(ParseLines(body, hasLastPaidColumn))
  }

  /** The rows `loadFromFile` takes from a file image: none when there is not even a
      header; the header decides whether a sixth column is read. */
  function LoadedRows(lines: seq<string>): seq<DataRow>
  {
    if lines == [] then [] else ParseRows(lines[1..], |JavaSplit(lines[0], ',')| >= 6)
  }

  /** Writing rows and reading them back is the identity. */
  lemma ParseEncodedRows(rows: seq<DataRow>)
    requires forall i :: 0 <= i < |rows| ==> StorableRow(rows[i])
    ensures ParseRows(EncodeRows(rows), true) == rows
  {
    var parsed := ParseLines(EncodeRows(rows), true);
    forall i | 0 <= i < |rows| ensures parsed[i] == Some(rows[i]) {
      MapSeqAt(LineParser(true), EncodeRows(rows), i);
      ParseEncodedRow(rows[i]);
    }
    SomesOfAll(parsed, rows);
  }

  /** The header announces six columns. */
  lemma DataHeaderHasSixColumns()
    ensures |JavaSplit(DataHeader, ',')| == 6
  {
    FieldsOfJoin(HeaderFields, ',');
    JoinHasSep(HeaderFields, ',');
    assert JavaSplit(DataHeader, ',') == DropTrailingEmpty(HeaderFields);
  }

  /** A whole file written by `saveToFile` reads back as the rows written. */
  lemma LoadSavedFile(rows: seq<DataRow>)
    requires forall i :: 0 <= i < |rows| ==> StorableRow(rows[i])
    ensures LoadedRows([DataHeader] + EncodeRows(rows)) == rows
  {
    DataHeaderHasSixColumns();
    assert ([DataHeader] + EncodeRows(rows))[1..] == EncodeRows(rows);
    ParseEncodedRows(rows);
  }

  /** For each plate, the last row about it: the vehicles a load leaves in the store. */
  function LastRows(rows: seq<DataRow>): (m: map<string, DataRow>)
    ensures forall p :: p in m ==> m[p].plate == p && m[p] in rows
    ensures forall x :: x in rows ==> x.plate in m
  {
    if rows == [] then map[]
    else
      var x := rows[|rows| - 1];
      var m := LastRows(rows[..|rows| - 1]);
      assert forall y :: y in rows ==> y in rows[..|rows| - 1] || y == x;
      m[x.plate := x]
  }

  /** For each plate, the last row about it with an entry time: the tickets a load
      leaves in the store. A later row without an entry time does not remove it. */
  function LastTicketRows(rows: seq<DataRow>): (m: map<string, DataRow>)
    ensures forall p :: p in m ==> m[p].plate == p && m[p] in rows && m[p].entry.Some?
    ensures forall x :: x in rows && x.entry.Some? ==> x.plate in m
  {
    if rows == [] then map[]
    else
      var x := rows[|rows| - 1];
      var m := LastTicketRows(rows[..|rows| - 1]);
      assert forall y :: y in rows ==> y in rows[..|rows| - 1] || y == x;
      if x.entry.Some? then m[x.plate := x] else m
  }

  /** One more row becomes the last row about its own plate and changes no other. */
  lemma LastRowsSnoc(rows: seq<DataRow>, row: DataRow)
    ensures LastRows(rows + [row]) == LastRows(rows)[row.plate := row]
    ensures LastTicketRows(rows + [row]) ==
              if row.entry.Some? then LastTicketRows(rows)[row.plate := row] else LastTicketRows(rows)
  {
    assert (rows + [row])[..|rows|] == rows;
  }

  /** When all rows about a plate are one and the same row, that row is the last. */
  lemma {:induction false} LastRowsOfUnique(rows: seq<DataRow>, x: DataRow)
    requires x in rows
    requires forall y :: y in rows && y.plate == x.plate ==> y == x
    ensures LastRows(rows)[x.plate] == x
    ensures x.entry.Some? <==> x.plate in LastTicketRows(rows)
    ensures x.entry.Some? ==> LastTicketRows(rows)[x.plate] == x
  {
    var n := |rows|;
    var front := rows[..n - 1];
    assert rows == front + [rows[n - 1]];
    LastRowsSnoc(front, rows[n - 1]);
    if rows[n - 1] != x {
      assert x in front;
      LastRowsOfUnique(front, x);
    } else if x in front {
      LastRowsOfUnique(front, x);
    } else {
      assert forall y :: y in front ==> y.plate != x.plate;
    }
  }

  /** The row written for a ticket and its vehicle. */
  function TicketRow(t: Ticket, v: Vehicle): DataRow
    reads t, v
  {
    DataRow(v.vtype, t.plate, Some(t.entryTime), v.fuelType, t.isMonthlyTicket, v.lastPaidMonth)
  }

  /** The row written for a vehicle without an active ticket. */
  function VehicleRow(v: Vehicle): DataRow
    reads v
  {
    DataRow(v.vtype, v.plate, None, v.fuelType, v.hasMonthlyCard, v.lastPaidMonth)
  }

  /** What a stored ticket holds. */
  datatype TicketView = TicketView(plate: string, entryTime: int, monthly: bool, zone: string)

  ghost function TicketState(t: Ticket): TicketView
    reads t
  {
    TicketView(t.plate, t.entryTime, t.isMonthlyTicket, t.zone)
  }

  /** Every stored vehicle, seen as the row it would be written as without a ticket. */
  ghost function VehicleViews(vs: map<string, Vehicle>): map<string, DataRow>
    reads vs.Values
  {
    map p | p in vs :: VehicleRow(vs[p])
  }

  /** Every stored ticket, seen by its fields. */
  ghost function TicketViews(ts: map<string, Ticket>): map<string, TicketView>
    reads ts.Values
  {
    map p | p in ts :: TicketState(ts[p])
  }

  /** The vehicle `loadFromFile` builds from a row: the row's fields, no entry time. */
  function LoadedVehicle(r: DataRow): DataRow
  {
    r.(entry := None)
  }

  /** The ticket `loadFromFile` builds from a row with an entry time: its zone follows
      the row's vehicle. */
  function LoadedTicket(r: DataRow): TicketView
    requires r.entry.Some?
  {
    TicketView(r.plate, r.entry.value, r.monthly, DetermineZoneFromVehicle(r.vtype, r.fuel))
  }

  /** The vehicles a load builds from the last rows about each plate. */
  function LoadedVehicles(last: map<string, DataRow>): map<string, DataRow>
  {
    map p | p in last :: LoadedVehicle(last[p])
  }

  /** The tickets a load builds from the last rows with an entry time about each plate. */
  function LoadedTickets(last: map<string, DataRow>): map<string, TicketView>
  {
    map p | p in last && last[p].entry.Some? :: LoadedTicket(last[p])
  }

  /** `order` lists every key of `keys` exactly once: one HashMap iteration order. */
  ghost predicate Enumerates(order: seq<string>, keys: set<string>)
  {
    (forall k :: k in order <==> k in keys) &&
    (forall i, j :: 0 <= i < j < |order| ==> order[i] != order[j])
  }

  /** Part way through such an iteration: `order` lists, once each, the keys already
      visited, and `remaining` holds the others. */
  ghost predicate Visiting(order: seq<string>, keys: set<string>, remaining: set<string>)
  {
    remaining <= keys &&
    (forall k :: k in order <==> k in keys && k !in remaining) &&
    (forall i, j :: 0 <= i < j < |order| ==> order[i] != order[j])
  }

  /** Visiting one more remaining key. */
  lemma VisitNext(order: seq<string>, keys: set<string>, remaining: set<string>, k: string)
    requires Visiting(order, keys, remaining) && k in remaining
    ensures Visiting(order + [k], keys, remaining - {k})
  {
  }

  /** A month value that a save and a load keep as it is. */
  predicate StorableMonth(m: Option<string>)
  {
    m.Some? ==> m.value != "" && ',' !in m.value && IsTrimmed(m.value)
  }

  /** The store's linkage seen on its views: every ticket is filed under its own
      plate, next to a vehicle with the same monthly flag, and every vehicle is
      filed under its own plate. */
  predicate ViewsLinked(tv: map<string, TicketView>, vv: map<string, DataRow>)
  {
    (forall k :: k in tv ==> tv[k].plate == k && k in vv && tv[k].monthly == vv[k].monthly) &&
    (forall k :: k in vv ==> vv[k].plate == k)
  }

  /** Every vehicle view has a plate and a month that a save and a load keep. */
  predicate ViewsStorable(vv: map<string, DataRow>)
  {
    forall k :: k in vv ==> ',' !in k && IsTrimmed(k) && StorableMonth(vv[k].lastPaid)
  }

  /** Filing a ticket and its vehicle under their common plate, with the same
      monthly flag, keeps the store linked. */
  lemma FilingKeepsLinked(tv: map<string, TicketView>, vv: map<string, DataRow>, t: TicketView, v: DataRow)
    requires ViewsLinked(tv, vv)
    requires t.plate == v.plate && t.monthly == v.monthly
    ensures ViewsLinked(tv[t.plate := t], vv[v.plate := v])
  {
  }

  /** Filing a vehicle whose plate and month survive CSV keeps the store storable. */
  lemma FilingKeepsStorable(vv: map<string, DataRow>, v: DataRow)
    requires ViewsStorable(vv)
    requires ',' !in v.plate && IsTrimmed(v.plate) && StorableMonth(v.lastPaid)
    ensures ViewsStorable(vv[v.plate := v])
  {
  }

  /** A plate is suggested for a keyword when its normalised form contains the
      normalised keyword. */
  predicate Suggests(normalizedKeyword: string, plate: string)
  {
    Contains(NormalizePlate(Some(plate)), normalizedKeyword)
  }

  /** The plates of `plates`, in order, whose normalised form contains `normalizedKeyword`. */
  function KeepContaining(plates: seq<string>, normalizedKeyword: string): seq<string>
  {
    Filter(plate => Suggests(normalizedKeyword, plate), plates)
  }

  /** One more plate is kept at the end exactly when it is suggested. */
  lemma KeepContainingSnoc(plates: seq<string>, normalizedKeyword: string, plate: string)
    ensures KeepContaining(plates + [plate], normalizedKeyword) ==
              KeepContaining(plates, normalizedKeyword) + (if Suggests(normalizedKeyword, plate) then [plate] else [])
  {
    FilterSnoc(p => Suggests(normalizedKeyword, p), plates, plate);
  }

  /** A plate is suggested exactly when it is one of the plates and its normalised form
      contains the keyword; there are never more suggestions than plates. */
  lemma KeepContainingSpec(plates: seq<string>, normalizedKeyword: string)
    ensures |KeepContaining(plates, normalizedKeyword)| <= |plates|
    ensures forall x :: x in KeepContaining(plates, normalizedKeyword) <==>
              x in plates && Contains(NormalizePlate(Some(x)), normalizedKeyword)
  {
    FilterSpec(plate => Suggests(normalizedKeyword, plate), plates);
  }

  /** Every ticket matches the empty keyword: normalising a blank keyword gives "",
      which every plate contains. */
  lemma BlankKeywordKeepsAll(plates: seq<string>)
    ensures KeepContaining(plates, "") == plates
  {
    forall x | x in plates ensures Suggests("", x) {
      assert OccursAt(NormalizePlate(Some(x)), "", 0);
    }
    FilterAll(plate => Suggests("", plate), plates);
  }

  // ------------------------------------------------------------ the store

  class ParkingRepository {
    var tickets: map<string, Ticket>
    var vehicles: map<string, Vehicle>
    /** the last-paid-month ledger: plate to "MM/yyyy" */
    var lastPaid: map<string, string>
    /** the lines of monthly_payment.csv */
    var paymentLog: seq<string>

    /** An empty store over the payment log found on disk. */
    constructor (paymentLog: seq<string>)
      ensures tickets == map[] && vehicles == map[] && lastPaid == map[]
      ensures this.paymentLog == paymentLog
      ensures Linked() && Storable()
    {
      tickets := map[];
      vehicles := map[];
      lastPaid := map[];
      this.paymentLog := paymentLog;
    }

    /** Every ticket is filed under its own plate and has a vehicle under the same
        key with the same monthly flag; every vehicle is filed under its own plate. */
    ghost predicate Linked()
      reads this, tickets.Values, vehicles.Values
    {
      (forall k :: k in tickets ==>
         tickets[k].plate == k && k in vehicles && tickets[k].isMonthlyTicket == vehicles[k].hasMonthlyCard) &&
      (forall k :: k in vehicles ==> vehicles[k].plate == k)
    }

    /** `Linked` is the linkage of the store's views. */
    lemma LinkedByViews()
      ensures Linked() <==> ViewsLinked(TicketViews(tickets), VehicleViews(vehicles))
    {
      var tv, vv := TicketViews(tickets), VehicleViews(vehicles);
      assert tv.Keys == tickets.Keys && vv.Keys == vehicles.Keys;
      assert forall k :: k in tickets ==> tv[k] == TicketState(tickets[k]);
      assert forall k :: k in vehicles ==> vv[k] == VehicleRow(vehicles[k]);
    }

    /** `Storable` is the storability of the store's vehicle views. */
    lemma StorableByViews()
      ensures Storable() <==> ViewsStorable(VehicleViews(vehicles))
    {
      var vv := VehicleViews(vehicles);
      assert vv.Keys == vehicles.Keys;
      assert forall k :: k in vehicles ==> vv[k] == VehicleRow(vehicles[k]);
    }

    /** A store whose views are those of a linked store with one ticket and its
        vehicle filed under their common plate is linked. */
    lemma LinkedAfterFiling(tv: map<string, TicketView>, vv: map<string, DataRow>, t: TicketView, v: DataRow)
      requires ViewsLinked(tv, vv)
      requires t.plate == v.plate && t.monthly == v.monthly
      requires TicketViews(tickets) == tv[t.plate := t] && VehicleViews(vehicles) == vv[v.plate := v]
      ensures Linked()
    {
      FilingKeepsLinked(tv, vv, t, v);
      LinkedByViews();
    }

    /** A store whose vehicle views are those of a storable store with one more
        vehicle, whose plate and month survive CSV, is storable. */
    lemma StorableAfterFiling(vv: map<string, DataRow>, v: DataRow)
      requires ViewsStorable(vv)
      requires ',' !in v.plate && IsTrimmed(v.plate) && StorableMonth(v.lastPaid)
      requires VehicleViews(vehicles) == vv[v.plate := v]
      ensures Storable()
    {
      FilingKeepsStorable(vv, v);
      StorableByViews();
    }

    /** Every plate and month in the store survives being written to CSV. */
    ghost predicate Storable()
      reads this, vehicles.Values
    {
      forall k :: k in vehicles ==>
        ',' !in k && IsTrimmed(k) && StorableMonth(vehicles[k].lastPaidMonth)
    }

    /** `add`: a null vehicle is ignored, any other is saved. */
    method Add(item: Vehicle?)
      modifies this
      ensures item != null ==> vehicles == old(vehicles)[item.plate := item]
      ensures item == null ==> vehicles == old(vehicles)
      ensures tickets == old(tickets) && lastPaid == old(lastPaid) && paymentLog == old(paymentLog)
      ensures (old(Linked()) && (item != null && item.plate in tickets ==>
                                 tickets[item.plate].isMonthlyTicket == item.hasMonthlyCard)) ==> Linked()
      ensures (old(Storable()) && (item != null ==> ',' !in item.plate && IsTrimmed(item.plate) &&
                                                    StorableMonth(item.lastPaidMonth))) ==> Storable()
    {
      if item != null {
        SaveVehicle(item);
      }
    }

    /** `remove`: drops the vehicle filed under the item's plate. */
    method Remove(item: Vehicle?)
      modifies this
      ensures item != null ==> vehicles == old(vehicles) - {item.plate}
      ensures item == null ==> vehicles == old(vehicles)
      ensures tickets == old(tickets) && lastPaid == old(lastPaid) && paymentLog == old(paymentLog)
      ensures old(Linked()) && (item != null ==> item.plate !in tickets) ==> Linked()
      ensures old(Storable()) ==> Storable()
    {
      if item != null {
        vehicles := vehicles - {item.plate};
      }
    }

    /** `saveTicket`: files the ticket under its plate; a later exact lookup finds it. */
    method SaveTicket(ticket: Ticket)
      modifies this
      ensures tickets == old(tickets)[ticket.plate := ticket]
      ensures TicketViews(tickets) == old(TicketViews(tickets))[ticket.plate := TicketState(ticket)]
      ensures FindTicketByPlate(Some(ticket.plate)) == Some(ticket)
      ensures VehicleViews(vehicles) == old(VehicleViews(vehicles))
      ensures vehicles == old(vehicles) && lastPaid == old(lastPaid) && paymentLog == old(paymentLog)
      ensures (old(Linked()) && ticket.plate in vehicles &&
               vehicles[ticket.plate].hasMonthlyCard == ticket.isMonthlyTicket) ==> Linked()
      ensures old(Storable()) ==> Storable()
    {
      tickets := tickets[ticket.plate := ticket];
    }

    /** `removeTicket`: drops the ticket under exactly this key; a later exact lookup
        finds nothing. */
    method RemoveTicket(plate: string)
      modifies this
      ensures tickets == old(tickets) - {plate}
      ensures FindTicketByPlate(Some(plate)) == None
      ensures vehicles == old(vehicles) && lastPaid == old(lastPaid) && paymentLog == old(paymentLog)
      ensures old(Linked()) ==> Linked()
      ensures old(Storable()) ==> Storable()
    {
      tickets := tickets - {plate};
    }

    /** `saveVehicle`: files the vehicle under its plate; a later exact lookup finds it. */
    method SaveVehicle(vehicle: Vehicle)
      modifies this
      ensures vehicles == old(vehicles)[vehicle.plate := vehicle]
      ensures VehicleViews(vehicles) == old(VehicleViews(vehicles))[vehicle.plate := VehicleRow(vehicle)]
      ensures FindVehicleByPlate(Some(vehicle.plate)) == Some(vehicle)
      ensures TicketViews(tickets) == old(TicketViews(tickets))
      ensures tickets == old(tickets) && lastPaid == old(lastPaid) && paymentLog == old(paymentLog)
      ensures (old(Linked()) && (vehicle.plate in tickets ==>
                                 tickets[vehicle.plate].isMonthlyTicket == vehicle.hasMonthlyCard)) ==> Linked()
      ensures (old(Storable()) && ',' !in vehicle.plate && IsTrimmed(vehicle.plate) &&
               StorableMonth(vehicle.lastPaidMonth)) ==> Storable()
    {
      vehicles := vehicles[vehicle.plate := vehicle];
    }

    /** `findTicketByPlate`: the exact-key lookup; null in, null out. */
    function FindTicketByPlate(plate: Option<string>): (r: Option<Ticket>)
      reads this
      ensures r.None? <==> plate.None? || plate.value !in tickets
      ensures r.Some? ==> r.value == tickets[plate.value]
    {
      if plate.None? || plate.value !in tickets then None else Some(tickets[plate.value])
    }

    /** `findVehicleByPlate`: the exact-key lookup; null in, null out. */
    function FindVehicleByPlate(plate: Option<string>): (r: Option<Vehicle>)
      reads this
      ensures r.None? <==> plate.None? || plate.value !in vehicles
      ensures r.Some? ==> r.value == vehicles[plate.value]
    {
      if plate.None? || plate.value !in vehicles then None else Some(vehicles[plate.value])
    }

    /** `findTicketByPlateNormalized`: the stored key that normalises like the input,
        null when the input is null or empty or no key does. */
    method FindTicketByPlateNormalized(inputPlate: Option<string>) returns (r: Option<string>)
      ensures inputPlate.None? || inputPlate.value == "" ==> r.None?
      ensures r.Some? ==> r.value in tickets && NormalizePlate(Some(r.value)) == NormalizePlate(inputPlate)
      ensures r.None? && inputPlate.Some? && inputPlate.value != "" ==> !HasAlikeKey(tickets.Keys, inputPlate)
    {
      if inputPlate.None? || inputPlate.value == "" {
        return None;
      }
      var normalizedInput := NormalizePlate(inputPlate);
      var remaining := tickets.Keys;
      while remaining != {}
        invariant remaining <= tickets.Keys
        invariant forall k :: k in tickets && k !in remaining ==> NormalizePlate(Some(k)) != normalizedInput
        decreases remaining
      {
        var storedPlate :| storedPlate in remaining;
        if NormalizePlate(Some(storedPlate)) == normalizedInput {
          return Some(storedPlate);
        }
        remaining := remaining - {storedPlate};
      }
      return None;
    }

    /** `isVehicleParked`: some ticket key normalises like the plate; false for null.
        Unlike the lookups above, an empty plate is not rejected. */
    method IsVehicleParked(plate: Option<string>) returns (parked: bool)
      ensures parked <==> plate.Some? && HasAlikeKey(tickets.Keys, plate)
    {
      if plate.None? {
        return false;
      }
      var normalizedInput := NormalizePlate(plate);
      var remaining := tickets.Keys;
      while remaining != {}
        invariant remaining <= tickets.Keys
        invariant forall k :: k in tickets && k !in remaining ==> NormalizePlate(Some(k)) != normalizedInput
        decreases remaining
      {
        var storedPlate :| storedPlate in remaining;
        if NormalizePlate(Some(storedPlate)) == normalizedInput {
          return true;
        }
        remaining := remaining - {storedPlate};
      }
      return false;
    }

    /** `findVehicleByPlateNormalized`: the vehicle under a key that normalises like the
        input, null when the input is null or empty or no key does. */
    method FindVehicleByPlateNormalized(inputPlate: Option<string>) returns (r: Option<Vehicle>)
      ensures inputPlate.None? || inputPlate.value == "" ==> r.None?
      ensures r.Some? ==> exists k :: k in vehicles && NormalizePlate(Some(k)) == NormalizePlate(inputPlate)
                                                   && vehicles[k] == r.value
      ensures r.None? && inputPlate.Some? && inputPlate.value != "" ==> !HasAlikeKey(vehicles.Keys, inputPlate)
    {
      if inputPlate.None? || inputPlate.value == "" {
        return None;
      }
      var normalizedInput := NormalizePlate(inputPlate);
      var remaining := vehicles.Keys;
      while remaining != {}
        invariant remaining <= vehicles.Keys
        invariant forall k :: k in vehicles && k !in remaining ==> NormalizePlate(Some(k)) != normalizedInput
        decreases remaining
      {
        var storedPlate :| storedPlate in remaining;
        if NormalizePlate(Some(storedPlate)) == normalizedInput {
          return Some(vehicles[storedPlate]);
        }
        remaining := remaining - {storedPlate};
      }
      return None;
    }

    /** The plates of the tickets listed in `order`, in that order. */
    function TicketPlates(order: seq<string>): (plates: seq<string>)
      reads this, tickets.Values
      requires forall k :: k in order ==> k in tickets
      ensures |plates| == |order|
    {
      if order == [] then []
      else TicketPlates(order[..|order| - 1]) + [tickets[order[|order| - 1]].plate]
    }

    /** Listing one more ticket adds its plate at the end. */
    lemma TicketPlatesSnoc(order: seq<string>, k: string)
      requires forall j :: j in order ==> j in tickets
      requires k in tickets
      ensures TicketPlates(order + [k]) == TicketPlates(order) + [tickets[k].plate]
    {
      assert (order + [k])[..|order|] == order;
    }

    /** `searchByKeyword`: for a null or empty keyword nothing; otherwise, visiting the
        tickets in HashMap order (`order`), the plate of every ticket whose normalised
        plate contains the normalised keyword. */
    method SearchByKeyword(keyword: Option<string>) returns (suggestions: seq<string>, ghost order: seq<string>)
      ensures keyword.None? || keyword.value == "" ==> suggestions == []
      ensures keyword.Some? && keyword.value != "" ==>
                Enumerates(order, tickets.Keys) &&
                suggestions == KeepContaining(TicketPlates(order), NormalizePlate(keyword))
    {
      suggestions := [];
      order := [];
      if keyword.None? || keyword.value == "" {
        return;
      }
      var normalizedKeyword := NormalizePlate(keyword);
      var remaining := tickets.Keys;
      while remaining != {}
        invariant Visiting(order, tickets.Keys, remaining)
        invariant suggestions == KeepContaining(TicketPlates(order), normalizedKeyword)
        decreases remaining
      {
        var k :| k in remaining;
        var plate := tickets[k].plate;
        if Suggests(normalizedKeyword, plate) {
          suggestions := suggestions + [plate];
        }
        TicketPlatesSnoc(order, k);
        KeepContainingSnoc(TicketPlates(order), normalizedKeyword, plate);
        VisitNext(order, tickets.Keys, remaining, k);
        order := order + [k];
        remaining := remaining - {k};
      }
    }

    /** `updatePaymentStatus`: records the month for the plate; absent or empty
        arguments change nothing. */
    method UpdatePaymentStatus(plate: Option<string>, month: Option<string>)
      modifies this
      ensures lastPaid == if plate.None? || month.None? || plate.value == "" || month.value == ""
                          then old(lastPaid) else old(lastPaid)[plate.value := month.value]
      ensures tickets == old(tickets) && vehicles == old(vehicles) && paymentLog == old(paymentLog)
    {
      if plate.None? || month.None? || plate.value == "" || month.value == "" {
        return;
      }
      lastPaid := lastPaid[plate.value := month.value];
    }

    /** `getLastPaidMonth`: the month recorded under a key that normalises like the
        plate, or null. */
    method GetLastPaidMonth(plate: Option<string>) returns (r: Option<string>)
      ensures LastPaidAnswer(lastPaid, plate, r)
    {
      if plate.None? || plate.value == "" {
        return None;
      }
      var normalizedPlate := NormalizePlate(plate);
      var remaining := lastPaid.Keys;
      while remaining != {}
        invariant remaining <= lastPaid.Keys
        invariant forall k :: k in lastPaid && k !in remaining ==> NormalizePlate(Some(k)) != normalizedPlate
        decreases remaining
      {
        var storedPlate :| storedPlate in remaining;
        if NormalizePlate(Some(storedPlate)) == normalizedPlate {
          return Some(lastPaid[storedPlate]);
        }
        remaining := remaining - {storedPlate};
      }
      return None;
    }

    /** `hasPaidMonthly`: scans the log after its first line for the plate, up to
        normalisation, and exactly this month. */
    method HasPaidMonthly(plate: Option<string>, monthYear: Option<string>) returns (paid: bool)
      ensures paid == PaidInLog(paymentLog, plate, monthYear)
    {
      if plate.None? || monthYear.None? || plate.value == "" || monthYear.value == "" {
        return false;
      }
      var normalizedPlate := NormalizePlate(plate);
      paid := ScanPaymentLog(paymentLog, normalizedPlate, monthYear.value);
    }

    /** `saveMonthlyPayment`: appends one payment line (after the header when the
        log is empty); absent or empty arguments change nothing. */
    method SaveMonthlyPayment(plate: Option<string>, monthYear: Option<string>)
      modifies this
      ensures paymentLog == if plate.None? || monthYear.None? || plate.value == "" || monthYear.value == ""
                            then old(paymentLog) else AppendPayment(old(paymentLog), plate.value, monthYear.value)
      ensures tickets == old(tickets) && vehicles == old(vehicles) && lastPaid == old(lastPaid)
    {
      if plate.None? || monthYear.None? || plate.value == "" || monthYear.value == "" {
        return;
      }
      var writeHeader := paymentLog == [];
      if writeHeader {
        paymentLog := paymentLog + [PaymentHeader];
      }
      paymentLog := paymentLog + [PaymentLine(plate.value, monthYear.value)];
    }

    // ------------------------------------------------------- save and load

    /** The rows written for the tickets listed in `order`, in that order: one per
        ticket whose plate has a vehicle. */
    function TicketRows(order: seq<string>): (rows: seq<DataRow>)
      reads this, tickets.Values, vehicles.Values
      requires forall k :: k in order ==> k in tickets
      ensures forall x :: x in rows <==>
        exists k :: k in order && tickets[k].plate in vehicles &&
                    x == TicketRow(tickets[k], vehicles[tickets[k].plate])
    {
      if order == [] then []
      else
        var k := order[|order| - 1];
        var t := tickets[k];
        var front := TicketRows(order[..|order| - 1]);
        assert forall j :: j in order ==> j in order[..|order| - 1] || j == k;
        if t.plate in vehicles then front + [TicketRow(t, vehicles[t.plate])] else front
    }

    /** The rows written for the vehicles listed in `order`, in that order: one per
        vehicle whose plate has no ticket. */
    function VehicleOnlyRows(order: seq<string>): (rows: seq<DataRow>)
      reads this, vehicles.Values
      requires forall k :: k in order ==> k in vehicles
      ensures forall x :: x in rows <==>
        exists k :: k in order && vehicles[k].plate !in tickets && x == VehicleRow(vehicles[k])
    {
      if order == [] then []
      else
        var k := order[|order| - 1];
        var v := vehicles[k];
        var front := VehicleOnlyRows(order[..|order| - 1]);
        assert forall j :: j in order ==> j in order[..|order| - 1] || j == k;
        if v.plate !in tickets then front + [VehicleRow(v)] else front
    }

    /** Listing one more ticket adds its row, if its plate has a vehicle, at the end. */
    lemma TicketRowsSnoc(order: seq<string>, k: string)
      requires forall j :: j in order ==> j in tickets
      requires k in tickets
      ensures TicketRows(order + [k]) ==
                TicketRows(order) +
                (if tickets[k].plate in vehicles then [TicketRow(tickets[k], vehicles[tickets[k].plate])] else [])
    {
      assert (order + [k])[..|order|] == order;
    }

    /** Listing one more vehicle adds its row, if its plate has no ticket, at the end. */
    lemma VehicleOnlyRowsSnoc(order: seq<string>, k: string)
      requires forall j :: j in order ==> j in vehicles
      requires k in vehicles
      ensures VehicleOnlyRows(order + [k]) ==
                VehicleOnlyRows(order) + (if vehicles[k].plate !in tickets then [VehicleRow(vehicles[k])] else [])
    {
      assert (order + [k])[..|order|] == order;
    }

    /** `saveToFile`: the header, a row per ticket that has a vehicle, then a row with
        an empty entry time per vehicle without a ticket. The ghost orders are the
        HashMap iteration orders. */
    method SaveToFile() returns (lines: seq<string>, ghost ticketOrder: seq<string>, ghost vehicleOrder: seq<string>)
      ensures Enumerates(ticketOrder, tickets.Keys) && Enumerates(vehicleOrder, vehicles.Keys)
      ensures lines == [DataHeader] + EncodeRows(TicketRows(ticketOrder) + VehicleOnlyRows(vehicleOrder))
    {
      var rows, vehicleRows;
      rows, ticketOrder := CollectTicketRows();
      vehicleRows, vehicleOrder := CollectVehicleRows();
      lines := [DataHeader] + EncodeRows(rows + vehicleRows);
    }

    /** The first loop of `saveToFile`: over the tickets in HashMap order (`order`),
        the row of each ticket whose plate has a vehicle. */
    method CollectTicketRows() returns (rows: seq<DataRow>, ghost order: seq<string>)
      ensures Enumerates(order, tickets.Keys)
      ensures rows == TicketRows(order)
    {
      order := [];
      rows := [];
      var remaining := tickets.Keys;
      while remaining != {}
        invariant Visiting(order, tickets.Keys, remaining)
        invariant rows == TicketRows(order)
        decreases remaining
      {
        var k :| k in remaining;
        var ticket := tickets[k];
        if ticket.plate in vehicles {
          var vehicle := vehicles[ticket.plate];
          rows := rows + [TicketRow(ticket, vehicle)];
        }
        TicketRowsSnoc(order, k);
        VisitNext(order, tickets.Keys, remaining, k);
        order := order + [k];
        remaining := remaining - {k};
      }
    }

    /** The second loop of `saveToFile`: over the vehicles in HashMap order (`order`),
        the row of each vehicle whose plate has no ticket. */
    method CollectVehicleRows() returns (rows: seq<DataRow>, ghost order: seq<string>)
      ensures Enumerates(order, vehicles.Keys)
      ensures rows == VehicleOnlyRows(order)
    {
      order := [];
      rows := [];
      var remaining := vehicles.Keys;
      while remaining != {}
        invariant Visiting(order, vehicles.Keys, remaining)
        invariant rows == VehicleOnlyRows(order)
        decreases remaining
      {
        var k :| k in remaining;
        var vehicle := vehicles[k];
        if vehicle.plate !in tickets {
          rows := rows + [VehicleRow(vehicle)];
        }
        VehicleOnlyRowsSnoc(order, k);
        VisitNext(order, vehicles.Keys, remaining, k);
        order := order + [k];
        remaining := remaining - {k};
      }
    }

    /** `loadFromFile` on a file image: every row that parses creates a vehicle (and,
        with an entry time, a ticket whose zone follows the vehicle), replacing
        whatever was filed under that plate, so the last row about a plate wins.
        Entries no row mentions stay as they were. */
    method LoadFromFile(lines: seq<string>)
      modifies this
      ensures lastPaid == old(lastPaid) && paymentLog == old(paymentLog)
      ensures VehicleViews(vehicles) == old(VehicleViews(vehicles)) + LoadedVehicles(LastRows(LoadedRows(lines)))
      ensures TicketViews(tickets) == old(TicketViews(tickets)) + LoadedTickets(LastTicketRows(LoadedRows(lines)))
    {
      if lines == [] {
        return;
      }
      var headerParts := JavaSplit(lines[0], ',');
      var hasLastPaidMonth := |headerParts| >= 6;
      LoadLines(lines, LineParser(hasLastPaidMonth));
    }

    /** The loop of `loadFromFile` over the lines after the header, each read by
        `parse`. */
    method LoadLines(lines: seq<string>, parse: string -> Option<DataRow>)
      modifies this
      requires lines != []
      ensures lastPaid == old(lastPaid) && paymentLog == old(paymentLog)
      ensures VehicleViews(vehicles) ==
                old(VehicleViews(vehicles)) + LoadedVehicles(LastRows(Somes(MapSeq(parse, lines[1..]))))
      ensures TicketViews(tickets) ==
                old(TicketViews(tickets)) + LoadedTickets(LastTicketRows(Somes(MapSeq(parse, lines[1..]))))
    {
      ghost var rows: seq<DataRow> := [];
      var i := 1;
      while i < |lines|
        invariant 1 <= i <= |lines|
        invariant rows == Somes(MapSeq(parse, lines[1..i]))
        invariant lastPaid == old(lastPaid) && paymentLog == old(paymentLog)
        invariant VehicleViews(vehicles) == old(VehicleViews(vehicles)) + LoadedVehicles(LastRows(rows))
        invariant TicketViews(tickets) == old(TicketViews(tickets)) + LoadedTickets(LastTicketRows(rows))
      {
        rows := LoadLine(lines, i, parse, old(VehicleViews(vehicles)), old(TicketViews(tickets)), rows);
        i := i + 1;
      }
      assert lines[1..i] == lines[1..];
    }

    /** One turn of the loop of `loadFromFile`: line `i` is parsed and, if it gives a
        row, stored; `rows` are the rows of the lines before it. */
    method LoadLine(lines: seq<string>, i: nat, parse: string -> Option<DataRow>,
                    ghost beforeV: map<string, DataRow>, ghost beforeT: map<string, TicketView>,
                    ghost rows: seq<DataRow>)
      returns (ghost rows': seq<DataRow>)
      modifies this
      requires 1 <= i < |lines| && rows == Somes(MapSeq(parse, lines[1..i]))
      requires VehicleViews(vehicles) == beforeV + LoadedVehicles(LastRows(rows))
      requires TicketViews(tickets) == beforeT + LoadedTickets(LastTicketRows(rows))
      ensures rows' == Somes(MapSeq(parse, lines[1..i + 1]))
      ensures VehicleViews(vehicles) == beforeV + LoadedVehicles(LastRows(rows'))
      ensures TicketViews(tickets) == beforeT + LoadedTickets(LastTicketRows(rows'))
      ensures lastPaid == old(lastPaid) && paymentLog == old(paymentLog)
    {
      var parsed := parse(lines[i]);
      SomesMapStep(parse, lines, 1, i);
      rows' := rows;
      if parsed.Some? {
        var row := parsed.value;
        var lastV, lastT := LastRows(rows), LastTicketRows(rows);
        StoreRow(row);
        LoadedVehiclesStep(lastV, row);
        MergeUpdate(beforeV, LoadedVehicles(lastV), row.plate, LoadedVehicle(row));
        if row.entry.Some? {
          LoadedTicketsStep(lastT, row);
          MergeUpdate(beforeT, LoadedTickets(lastT), row.plate, LoadedTicket(row));
        }
        LastRowsSnoc(rows, row);
        rows' := rows + [row];
      }
    }

    /** One parsed row of `loadFromFile`: a new vehicle with the row's fields, and for
        a row with an entry time a new ticket whose zone follows the vehicle, each
        filed under the row's plate. */
    method StoreRow(row: DataRow)
      modifies this
      ensures VehicleViews(vehicles) == old(VehicleViews(vehicles))[row.plate := LoadedVehicle(row)]
      ensures TicketViews(tickets) ==
                if row.entry.Some? then old(TicketViews(tickets))[row.plate := LoadedTicket(row)]
                else old(TicketViews(tickets))
      ensures lastPaid == old(lastPaid) && paymentLog == old(paymentLog)
    {
      var vehicle := new Vehicle.WithLastPaidMonth(row.plate, row.vtype, row.fuel, row.monthly, row.lastPaid);
      assert VehicleRow(vehicle) == LoadedVehicle(row);
      if row.entry.Some? {
        var zone := DetermineZoneFromVehicle(vehicle.vtype, vehicle.fuelType);
        var ticket := new Ticket(row.plate, row.entry.value, row.monthly, zone);
        assert TicketState(ticket) == LoadedTicket(row);
        SaveTicket(ticket);
      }
      SaveVehicle(vehicle);
    }
  }

  /** Overriding a key of a merge overrides it in the right-hand map. */
  lemma MergeUpdate<V>(a: map<string, V>, b: map<string, V>, k: string, x: V)
    ensures (a + b)[k := x] == a + b[k := x]
  {
  }

  /** Loading one more row replaces the vehicle of its plate. */
  lemma LoadedVehiclesStep(lastV: map<string, DataRow>, row: DataRow)
    ensures LoadedVehicles(lastV[row.plate := row]) == LoadedVehicles(lastV)[row.plate := LoadedVehicle(row)]
  {
  }

  /** Loading one more row with an entry time replaces the ticket of its plate. */
  lemma LoadedTicketsStep(lastT: map<string, DataRow>, row: DataRow)
    requires row.entry.Some?
    ensures LoadedTickets(lastT[row.plate := row]) == LoadedTickets(lastT)[row.plate := LoadedTicket(row)]
  {
  }

  /** The tickets of a store, each with its zone recomputed from the vehicle filed
      under the same plate. */
  function Rezoned(tickets: map<string, TicketView>, vehicles: map<string, DataRow>): map<string, TicketView>
  {
    map p | p in tickets && p in vehicles ::
      tickets[p].(zone := DetermineZoneFromVehicle(vehicles[p].vtype, vehicles[p].fuel))
  }

  /** The rows `saveToFile` writes: each is storable, each names a stored vehicle, has
      an entry time exactly when its plate has a ticket, and no two rows share a plate;
      every ticket and every vehicle without a ticket has its row. */
  lemma SavedRowsFacts(repo: ParkingRepository, ticketRows: seq<DataRow>, vehicleRows: seq<DataRow>)
    requires forall x :: x in ticketRows ==>
      x.plate in repo.tickets && x.plate in repo.vehicles && x.entry.Some? && StorableRow(x) &&
      x == TicketRow(repo.tickets[x.plate], repo.vehicles[x.plate])
    requires forall x :: x in vehicleRows ==>
      x.plate in repo.vehicles && x.plate !in repo.tickets && x.entry.None? && StorableRow(x) &&
      x == VehicleRow(repo.vehicles[x.plate])
    ensures var saved := ticketRows + vehicleRows;
      (forall i :: 0 <= i < |saved| ==> StorableRow(saved[i])) &&
      (forall x :: x in saved ==> x.plate in repo.vehicles && (x.entry.Some? <==> x.plate in repo.tickets)) &&
      (forall x, y :: x in saved && y in saved && x.plate == y.plate ==> x == y)
  {
    var saved := ticketRows + vehicleRows;
    assert forall x :: x in saved <==> x in ticketRows || x in vehicleRows;
    forall i | 0 <= i < |saved| ensures StorableRow(saved[i]) {
      assert saved[i] in saved;
    }
  }

  /** Each row written for a ticket is the row of the ticket filed under the row's
      plate, and every ticket has its row. */
  lemma TicketRowsOfStore(repo: ParkingRepository, to: seq<string>)
    requires repo.Linked() && repo.Storable()
    requires Enumerates(to, repo.tickets.Keys)
    ensures forall x :: x in repo.TicketRows(to) ==>
      x.plate in repo.tickets && x.plate in repo.vehicles && x.entry.Some? && StorableRow(x) &&
      x == TicketRow(repo.tickets[x.plate], repo.vehicles[x.plate])
    ensures forall p :: p in repo.tickets ==> TicketRow(repo.tickets[p], repo.vehicles[p]) in repo.TicketRows(to)
  {
  }

  /** Each row written for a vehicle without a ticket is the row of the vehicle filed
      under the row's plate, and every such vehicle has its row. */
  lemma VehicleOnlyRowsOfStore(repo: ParkingRepository, vo: seq<string>)
    requires repo.Linked() && repo.Storable()
    requires Enumerates(vo, repo.vehicles.Keys)
    ensures forall x :: x in repo.VehicleOnlyRows(vo) ==>
      x.plate in repo.vehicles && x.plate !in repo.tickets && x.entry.None? && StorableRow(x) &&
      x == VehicleRow(repo.vehicles[x.plate])
    ensures forall p :: p in repo.vehicles && p !in repo.tickets ==> VehicleRow(repo.vehicles[p]) in repo.VehicleOnlyRows(vo)
  {
  }

  /** In rows where no two rows share a plate, every row is the last about its plate. */
  lemma UniqueRowsAreLast(rows: seq<DataRow>)
    requires forall x, y :: x in rows && y in rows && x.plate == y.plate ==> x == y
    ensures forall x :: x in rows ==>
      LastRows(rows)[x.plate] == x && (x.entry.Some? <==> x.plate in LastTicketRows(rows)) &&
      (x.entry.Some? ==> LastTicketRows(rows)[x.plate] == x)
  {
    forall x | x in rows
      ensures LastRows(rows)[x.plate] == x && (x.entry.Some? <==> x.plate in LastTicketRows(rows))
      ensures x.entry.Some? ==> LastTicketRows(rows)[x.plate] == x
    {
      LastRowsOfUnique(rows, x);
    }
  }

  /** Loading into an empty store keeps exactly what was loaded. */
  lemma MergeIntoEmpty<V>(m: map<string, V>)
    ensures map[] + m == m
  {
  }

  /** Two maps with the same keys and the same value at each key are equal. */
  lemma MapsAgree<V>(a: map<string, V>, b: map<string, V>)
    requires forall k :: k in a <==> k in b
    requires forall k :: k in a ==> a[k] == b[k]
    ensures a == b
  {
  }

  /** Rows that name exactly the stored vehicles, one row per plate, rebuild the
      store's vehicles once only the last row of each plate is kept. */
  lemma ReloadedVehicles(repo: ParkingRepository, rows: seq<DataRow>)
    requires repo.Linked()
    requires forall x :: x in rows ==> x.plate in repo.vehicles
    requires forall x, y :: x in rows && y in rows && x.plate == y.plate ==> x == y
    requires forall p :: p in repo.tickets ==> TicketRow(repo.tickets[p], repo.vehicles[p]) in rows
    requires forall p :: p in repo.vehicles && p !in repo.tickets ==> VehicleRow(repo.vehicles[p]) in rows
    ensures LoadedVehicles(LastRows(rows)) == VehicleViews(repo.vehicles)
  {
    UniqueRowsAreLast(rows);
    var lastV := LastRows(rows);
    forall p | p in lastV ensures p in repo.vehicles {
      assert lastV[p] in rows;
    }
    forall p | p in repo.vehicles
      ensures p in lastV && LoadedVehicle(lastV[p]) == VehicleRow(repo.vehicles[p])
    {
      if p in repo.tickets {
        var x := TicketRow(repo.tickets[p], repo.vehicles[p]);
        assert x in rows && x.plate == p;
      } else {
        var x := VehicleRow(repo.vehicles[p]);
        assert x in rows && x.plate == p;
      }
    }
    var loaded := LoadedVehicles(lastV);
    var views := VehicleViews(repo.vehicles);
    assert forall p :: p in loaded <==> p in views;
    forall p | p in loaded ensures loaded[p] == views[p] {
      assert loaded[p] == LoadedVehicle(lastV[p]);
    }
    MapsAgree(loaded, views);
  }

  /** Rows that carry an entry time exactly for the plates with a ticket, one row per
      plate, rebuild the store's tickets, zones recomputed from their vehicles, once
      only the last row with an entry time of each plate is kept. */
  lemma ReloadedTickets(repo: ParkingRepository, rows: seq<DataRow>)
    requires repo.Linked()
    requires forall x :: x in rows ==> (x.entry.Some? <==> x.plate in repo.tickets)
    requires forall x, y :: x in rows && y in rows && x.plate == y.plate ==> x == y
    requires forall p :: p in repo.tickets ==> TicketRow(repo.tickets[p], repo.vehicles[p]) in rows
    ensures LoadedTickets(LastTicketRows(rows)) == Rezoned(TicketViews(repo.tickets), VehicleViews(repo.vehicles))
  {
    UniqueRowsAreLast(rows);
    var lastT := LastTicketRows(rows);
    var loaded := LoadedTickets(lastT);
    var rezoned := Rezoned(TicketViews(repo.tickets), VehicleViews(repo.vehicles));
    forall p | p in lastT ensures p in repo.tickets && p in loaded {
      assert lastT[p] in rows;
    }
    forall p | p in repo.tickets
      ensures p in lastT && p in loaded && p in rezoned && LoadedTicket(lastT[p]) == rezoned[p]
    {
      var x := TicketRow(repo.tickets[p], repo.vehicles[p]);
      assert x in rows && x.plate == p;
      assert rezoned[p] == TicketState(repo.tickets[p]).(zone := DetermineZoneFromVehicle(x.vtype, x.fuel));
    }
    assert forall p :: p in loaded ==> p in lastT;
    assert forall p :: p in rezoned ==> p in repo.tickets;
    assert forall p :: p in loaded <==> p in rezoned;
    forall p | p in loaded ensures loaded[p] == rezoned[p] {
      assert loaded[p] == LoadedTicket(lastT[p]);
    }
    MapsAgree(loaded, rezoned);
  }

  /** The rows `saveToFile` writes for a store whose tickets and vehicles are filed
      under their own plates and whose plates and months survive CSV: each survives
      CSV, and the last rows about each plate rebuild every vehicle as it was and
      every ticket with its zone recomputed. */
  lemma SavedRowsRebuild(repo: ParkingRepository, to: seq<string>, vo: seq<string>)
    requires repo.Linked() && repo.Storable()
    requires Enumerates(to, repo.tickets.Keys) && Enumerates(vo, repo.vehicles.Keys)
    ensures var saved := repo.TicketRows(to) + repo.VehicleOnlyRows(vo);
      (forall i :: 0 <= i < |saved| ==> StorableRow(saved[i])) &&
      LoadedVehicles(LastRows(saved)) == VehicleViews(repo.vehicles) &&
      LoadedTickets(LastTicketRows(saved)) == Rezoned(TicketViews(repo.tickets), VehicleViews(repo.vehicles))
  {
    var saved := repo.TicketRows(to) + repo.VehicleOnlyRows(vo);
    TicketRowsOfStore(repo, to);
    VehicleOnlyRowsOfStore(repo, vo);
    SavedRowsFacts(repo, repo.TicketRows(to), repo.VehicleOnlyRows(vo));
    assert forall x :: x in saved <==> x in repo.TicketRows(to) || x in repo.VehicleOnlyRows(vo);
    ReloadedVehicles(repo, saved);
    ReloadedTickets(repo, saved);
  }

  /** Saving and then loading: the file `saveToFile` writes for such a store reads
      back as rows that rebuild every vehicle as it was, and every ticket with its
      zone recomputed. */
  lemma SavedRowsReload(repo: ParkingRepository, to: seq<string>, vo: seq<string>)
    requires repo.Linked() && repo.Storable()
    requires Enumerates(to, repo.tickets.Keys) && Enumerates(vo, repo.vehicles.Keys)
    ensures var rows := LoadedRows([DataHeader] + EncodeRows(repo.TicketRows(to) + repo.VehicleOnlyRows(vo)));
      LoadedVehicles(LastRows(rows)) == VehicleViews(repo.vehicles) &&
      LoadedTickets(LastTicketRows(rows)) == Rezoned(TicketViews(repo.tickets), VehicleViews(repo.vehicles))
  {
    SavedRowsRebuild(repo, to, vo);
    LoadSavedFile(repo.TicketRows(to) + repo.VehicleOnlyRows(vo));
  }

  /** Saving the store and loading the file into an empty store, as a restart does,
      gives back every vehicle field for field and every ticket with its plate, entry
      time and monthly flag, its zone recomputed from its vehicle. */
  method SaveAndReload(repo: ParkingRepository) returns (copy: ParkingRepository)
    requires repo.Linked() && repo.Storable()
    ensures VehicleViews(copy.vehicles) == old(VehicleViews(repo.vehicles))
    ensures TicketViews(copy.tickets) == old(Rezoned(TicketViews(repo.tickets), VehicleViews(repo.vehicles)))
  {
    var lines, to, vo := repo.SaveToFile();
    SavedRowsReload(repo, to, vo);
    copy := Reload(lines, repo.paymentLog);
  }

  /** A restart: a new store, then `loadFromFile` on the saved lines. */
  method Reload(lines: seq<string>, paymentLog: seq<string>) returns (copy: ParkingRepository)
    ensures fresh(copy)
    ensures copy.paymentLog == paymentLog && copy.lastPaid == map[]
    ensures VehicleViews(copy.vehicles) == LoadedVehicles(LastRows(LoadedRows(lines)))
    ensures TicketViews(copy.tickets) == LoadedTickets(LastTicketRows(LoadedRows(lines)))
  {
    copy := new ParkingRepository(paymentLog);
    assert VehicleViews(copy.vehicles) == map[] && TicketViews(copy.tickets) == map[];
    copy.LoadFromFile(lines);
    MergeIntoEmpty(LoadedVehicles(LastRows(LoadedRows(lines))));
    MergeIntoEmpty(LoadedTickets(LastTicketRows(LoadedRows(lines))));
  }

  /** When every ticket's zone already follows its vehicle, the reload gives the tickets
      back exactly. */
  lemma RezonedWhenZonesFollow(repo: ParkingRepository)
    requires repo.Linked()
    requires forall p :: p in repo.tickets ==>
               repo.tickets[p].zone == DetermineZoneFromVehicle(repo.vehicles[p].vtype, repo.vehicles[p].fuelType)
    ensures Rezoned(TicketViews(repo.tickets), VehicleViews(repo.vehicles)) == TicketViews(repo.tickets)
  {
  }
}
