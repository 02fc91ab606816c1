/**
  Booking field extraction and the bookings table (services/booking.service.js).

  parseBookingMessage turns a WhatsApp text into a JavaScript object, modelled
  as a map from property name to string. saveBooking inserts a row into the
  bookings table, modelled as a sequence of rows with auto-increment ids, and
  findBookingByPhone is the query for the newest row of one phone number.
 */
module Bookings {
  import opened Js

  /** The five properties parseBookingMessage can set and saveBooking reads;
      `Property()` is the JavaScript property name. */
  datatype Field = Name | Phone | Problem | Date | Time {
    function Property(): string {
      match this
      case Name => "name"
      case Phone => "phone"
      case Problem => "problem"
      case Date => "date"
      case Time => "time"
    }
  }

  /** A booking object: the values of those of the five properties it has. */
  type Fields = map<Field, string>

  // ---------------------------------------------------------------- one line

  /** A line that survives `if (!key || !value) continue`: its key after
      `key.trim().toLowerCase()` and its value after `value.trim()`. */
  datatype Entry = Entry(key: string, value: string)

  /** `const [key, value] = line.split(":")`: the piece before the first colon and
      the piece between the first and second colon; the line is skipped when either
      is empty or missing. */
  function LineEntry(line: string): Option<Entry> {
    var pieces := Split(line, ':');
    if pieces[0] == "" || |pieces| < 2 || pieces[1] == "" then None
    else Some(Entry(Lower(Trim(pieces[0])), Trim(pieces[1])))
  }

  /** The outcome of the five label tests on one key; the tests are independent
      of each other. */
  datatype Hits = Hits(name: bool, phone: bool, problem: bool, date: bool, time: bool) {
    predicate For(f: Field) {
      match f
      case Name => name
      case Phone => phone
      case Problem => problem
      case Date => date
      case Time => time
    }
  }

  /** `k.includes("name")`, `k.includes("mobile") || k.includes("phone")`,
      `k.includes("problem")`, `k.includes("date")`, `k.includes("time")`. */
  function LabelHits(k: string): Hits {
    Hits(Contains(k, "name"), Contains(k, "mobile") || Contains(k, "phone"), Contains(k, "problem"),
         Contains(k, "date"), Contains(k, "time"))
  }

  /** `if (test) data.f = v;` */
  function Put(data: Fields, test: bool, f: Field, v: string): Fields {
    if test then data[f := v] else data
  }

  /** The five `if`s of the loop body, in source order. */
  function Assign(data: Fields, h: Hits, v: string): Fields {
    Put(Put(Put(Put(Put(data, h.name, Name, v), h.phone, Phone, v), h.problem, Problem, v), h.date, Date, v), h.time, Time, v)
  }

  /** One entry assigns every property whose label test passes, and only those. */
  lemma AssignField(data: Fields, h: Hits, v: string, f: Field)
    ensures f in Assign(data, h, v) <==> f in data || h.For(f)
    ensures h.For(f) ==> Assign(data, h, v)[f] == v
    ensures !h.For(f) && f in data ==> Assign(data, h, v)[f] == data[f]
  {
  }

  /** The effect of one line of the text. */
  function ApplyLine(data: Fields, line: string): Fields {
    match LineEntry(line)
    case None => data
    case Some(e) => Assign(data, LabelHits(e.key), e.value)
  }

  /** The object after processing the given lines in order. */
  function Fold(lines: seq<string>): Fields
    decreases |lines|
  {
    if |lines| == 0 then map[]
    else ApplyLine(Fold(lines[..|lines| - 1]), lines[|lines| - 1])
  }

  /** The value parseBookingMessage(text) returns. */
  function Parsed(text: string): Fields {
    Fold(Split(text, '\n'))
  }

  /** parseBookingMessage: one pass over the lines, assigning properties. */
  method ParseBookingMessage(text: string) returns (data: Fields)
    ensures data == Parsed(text)
  {
    var lines := Split(text, '\n');
    data := map[];
    for i := 0 to |lines|
      invariant data == Fold(lines[..i])
    {
      assert lines[..i + 1][..i] == lines[..i];
      var line := lines[i];
      var pieces := Split(line, ':');
      var key := pieces[0];
      var value: Option<string> := if |pieces| > 1 then Some(pieces[1]) else None;
      if key == "" || !Truthy(value) {
        assert LineEntry(line).None?;
        continue;
      }
      var k := Lower(Trim(key));
      var v := Trim(value.value);
      assert LineEntry(line) == Some(Entry(k, v));
      data := AssignByLabel(data, k, v);
    }
    assert lines[..|lines|] == lines;
  }

  /** The body of the loop for a line that was not skipped: the label tests on the
      trimmed, lower-cased key `k`, each assigning the trimmed value `v`. */
  method AssignByLabel(data: Fields, k: string, v: string) returns (d: Fields)
    ensures d == Assign(data, LabelHits(k), v)
  {
    d := data;
    if Contains(k, "name") { d := d[Name := v]; }
    ghost var d1 := d;
    assert d1 == Put(data, Contains(k, "name"), Name, v);
    if Contains(k, "mobile") || Contains(k, "phone") { d := d[Phone := v]; }
    ghost var d2 := d;
    assert d2 == Put(d1, Contains(k, "mobile") || Contains(k, "phone"), Phone, v);
    if Contains(k, "problem") { d := d[Problem := v]; }
    ghost var d3 := d;
    assert d3 == Put(d2, Contains(k, "problem"), Problem, v);
    if Contains(k, "date") { d := d[Date := v]; }
    ghost var d4 := d;
    assert d4 == Put(d3, Contains(k, "date"), Date, v);
    if Contains(k, "time") { d := d[Time := v]; }
  }

  // ---------------------------------------------------------------- meaning of the fold

  /** The line assigns property `f`. */
  predicate Sets(line: string, f: Field) {
    LineEntry(line).Some? && LabelHits(LineEntry(line).value.key).For(f)
  }

  /** The last position of `xs` that satisfies `p`, if any. */
  function LastWhere<T>(xs: seq<T>, p: T -> bool): (r: Option<nat>)
    ensures r.None? ==> forall i | 0 <= i < |xs| :: !p(xs[i])
    ensures r.Some? ==> r.value < |xs| && p(xs[r.value])
    ensures r.Some? ==> forall j | r.value < j < |xs| :: !p(xs[j])
    decreases |xs|
  {
    if |xs| == 0 then None
    else if p(xs[|xs| - 1]) then Some(|xs| - 1)
    else
      var r := LastWhere(xs[..|xs| - 1], p);
      assert forall i | 0 <= i < |xs| - 1 :: xs[..|xs| - 1][i] == xs[i];
      r
  }

  /** The last of the lines that assigns `f`, if any. */
  function LastSetter(lines: seq<string>, f: Field): Option<nat> {
    LastWhere(lines, line => Sets(line, f))
  }

  /** A property is present exactly when some line assigns it, and its value is
      that of the last such line. */
  lemma {:induction false} FoldField(lines: seq<string>, f: Field)
    ensures f in Fold(lines) <==> LastSetter(lines, f).Some?
    ensures f in Fold(lines) ==> Fold(lines)[f] == LineEntry(lines[LastSetter(lines, f).value]).value.value
    decreases |lines|
  {
    if |lines| > 0 {
      var init := lines[..|lines| - 1];
      var line := lines[|lines| - 1];
      FoldField(init, f);
      match LineEntry(line)
      case Some(e) =>
        AssignField(Fold(init), LabelHits(e.key), e.value, f);
        if !LabelHits(e.key).For(f) {
          KeepLastSetter(lines, f);
        }
      case None =>
        KeepLastSetter(lines, f);
    }
  }

  /** Last wins, by position: the line at `i` assigns `f` and no later line does. */
  lemma FoldLastSetter(lines: seq<string>, f: Field, i: nat)
    requires i < |lines| && Sets(lines[i], f)
    requires forall j | i < j < |lines| :: !Sets(lines[j], f)
    ensures f in Fold(lines) && Fold(lines)[f] == LineEntry(lines[i]).value.value
  {
    FoldField(lines, f);
    var k := LastSetter(lines, f).value;
    assert !(i < k) && !(k < i);
  }

  lemma KeepLastSetter(lines: seq<string>, f: Field)
    requires |lines| > 0 && !Sets(lines[|lines| - 1], f)
    ensures LastSetter(lines, f) == LastSetter(lines[..|lines| - 1], f)
    ensures LastSetter(lines, f).Some? ==> lines[LastSetter(lines, f).value] == lines[..|lines| - 1][LastSetter(lines, f).value]
  {
  }

  /** The fold, property by property: present iff some line assigns it, with the
      value of the last line that does. */
  lemma LinesField(lines: seq<string>, f: Field)
    ensures f in Fold(lines) <==> exists i | 0 <= i < |lines| :: Sets(lines[i], f)
    ensures f in Fold(lines) ==>
              var i := LastSetter(lines, f).value;
              && Sets(lines[i], f)
              && (forall j | i < j < |lines| :: !Sets(lines[j], f))
              && Fold(lines)[f] == LineEntry(lines[i]).value.value
  {
    FoldField(lines, f);
    if LastSetter(lines, f).Some? {
      var i := LastSetter(lines, f).value;
      assert Sets(lines[i], f);
    }
  }

  /** Parsed, property by property: present iff some line of the text assigns it,
      with the value of the last line that does. */
  lemma ParsedField(text: string, f: Field)
    ensures f in Parsed(text) <==> exists i | 0 <= i < |Split(text, '\n')| :: Sets(Split(text, '\n')[i], f)
    ensures f in Parsed(text) ==>
              var lines := Split(text, '\n');
              var i := LastSetter(lines, f).value;
              && Sets(lines[i], f)
              && (forall j | i < j < |lines| :: !Sets(lines[j], f))
              && Parsed(text)[f] == LineEntry(lines[i]).value.value
  {
    LinesField(Split(text, '\n'), f);
  }

  /** Text where no line has a non-empty key and a non-empty value yields {}. */
  lemma NoEntryParsesEmpty(text: string)
    requires forall i | 0 <= i < |Split(text, '\n')| :: LineEntry(Split(text, '\n')[i]).None?
    ensures Parsed(text) == map[]
  {
    forall f: Field ensures f !in Parsed(text) {
      FoldField(Split(text, '\n'), f);
    }
  }

  // ---------------------------------------------------------------- examples of the quirks

  /** The entry of a line `key:value` whose value is the text up to the next
      colon of `tail`. */
  lemma EntryOf(key: string, value: string, tail: string)
    requires key != "" && ':' !in key && ':' !in value
    requires tail == value || (|tail| > |value| && tail[..|value| + 1] == value + [':'])
    ensures LineEntry(key + [':'] + tail) == if value == "" then None else Some(Entry(Lower(Trim(key)), Trim(value)))
  {
    SplitAfterPiece(key, ':', tail);
    if tail == value {
      SplitNoSeparator(value, ':');
    } else {
      assert tail == value + [':'] + tail[|value| + 1..];
      SplitAfterPiece(value, ':', tail[|value| + 1..]);
    }
  }

  /** Every colon splits the line, so a value such as "10:00 AM" is cut at its
      own colon and only "10" is kept. */
  lemma ValueCutAtNextColon(key: string, value: string, rest: string)
    requires key != "" && ':' !in key && ':' !in value && value != ""
    ensures LineEntry(key + [':'] + value + [':'] + rest) == Some(Entry(Lower(Trim(key)), Trim(value)))
  {
    var tail := value + [':'] + rest;
    assert key + [':'] + value + [':'] + rest == key + [':'] + tail;
    assert tail[..|value| + 1] == value + [':'];
    EntryOf(key, value, tail);
  }

  /** A line without a colon is skipped. */
  lemma NoColonSkipped(line: string)
    requires ':' !in line
    ensures LineEntry(line).None?
  {
    SplitNoSeparator(line, ':');
  }

  /** A line starting with a colon has an empty key and is skipped. */
  lemma EmptyKeySkipped(tail: string)
    ensures LineEntry([':'] + tail).None?
  {
    assert [':'] + tail == "" + [':'] + tail;
    SplitAfterPiece("", ':', tail);
  }

  /** A value of white space only passes the emptiness test, which comes before
      trimming, and is stored as "". */
  lemma BlankValueStoredEmpty(key: string, value: string)
    requires key != "" && ':' !in key && ':' !in value && value != "" && AllSpace(value)
    ensures LineEntry(key + [':'] + value) == Some(Entry(Lower(Trim(key)), ""))
  {
    EntryOf(key, value, value);
    TrimEmptyIffAllSpace(value);
  }

  /** The label tests are independent: a key such as "date/time" sets both. */
  lemma DateTimeKeySetsBoth()
    ensures LabelHits("date/time") == Hits(false, false, false, true, true)
  {
    assert OccursAt("date/time", "date", 0);
    assert OccursAt("date/time", "time", 5);
    NotContainedChar("date/time", "name", 'n');
    NotContainedChar("date/time", "mobile", 'o');
    NotContainedChar("date/time", "phone", 'o');
    NotContainedChar("date/time", "problem", 'o');
  }

  lemma NotContainedChar(s: string, t: string, c: char)
    requires c in t && c !in s
    ensures !Contains(s, t)
  {
    if Contains(s, t) { ContainsChars(s, t, c); }
  }

  // ---------------------------------------------------------------- the bookings table

  /** A row of the bookings table. */
  datatype Booking = Booking(id: nat, name: string, phone: string, problem: string, date: string, time: string, status: string)

  /** What saveBooking resolves to: `{success: true}` or `{success: false, message}`. */
  datatype SaveResponse = SaveResponse(success: bool, message: Option<string>)

  const IncompleteMessage := "Incomplete booking data"
  const PendingStatus := "Pending"

  /** All five destructured properties are truthy. */
  predicate Complete(data: Fields) {
    forall f: Field :: f in data && data[f] != ""
  }

  /** The row inserted for complete data under the given auto-increment id. */
  function NewRow(id: nat, data: Fields): (b: Booking)
    requires Complete(data)
  {
    Booking(id, data[Name], data[Phone], data[Problem], data[Date], data[Time], PendingStatus)
  }

  /** The result of saveBooking(data); None when the INSERT rejects (the promise
      throws). */
  function SaveOutcome(data: Fields, dbFails: bool): (r: Option<SaveResponse>)
  {
    if !Complete(data) then Some(SaveResponse(false, Some(IncompleteMessage)))
    else if dbFails then None
    else Some(SaveResponse(true, None))
  }

  /** saveBooking succeeds exactly on complete data with a working database; it
      fails with the fixed message exactly on incomplete data; it never reports a
      booking id. */
  lemma SaveOutcomeCases(data: Fields, dbFails: bool)
    ensures SaveOutcome(data, dbFails) == Some(SaveResponse(true, None)) <==> Complete(data) && !dbFails
    ensures SaveOutcome(data, dbFails) == Some(SaveResponse(false, Some(IncompleteMessage))) <==> !Complete(data)
    ensures SaveOutcome(data, dbFails).None? <==> Complete(data) && dbFails
  {
  }

  /** A property that is present but blank (white space trims to "") keeps
      saveBooking from saving. */
  lemma BlankFieldRejected(data: Fields, f: Field, dbFails: bool)
    requires f in data && data[f] == ""
    ensures SaveOutcome(data, dbFails) == Some(SaveResponse(false, Some(IncompleteMessage)))
  {
  }

  /** findBookingByPhone: the row with the greatest id among those with that phone. */
  function LatestByPhone(rows: seq<Booking>, phone: string): (r: Option<Booking>)
    ensures r.None? <==> forall i | 0 <= i < |rows| :: rows[i].phone != phone
    ensures r.Some? ==> r.value in rows && r.value.phone == phone
    ensures r.Some? ==> forall i | 0 <= i < |rows| && rows[i].phone == phone :: rows[i].id <= r.value.id
    decreases |rows|
  {
    if |rows| == 0 then None
    else
      var init := rows[..|rows| - 1];
      var last := rows[|rows| - 1];
      var rest := LatestByPhone(init, phone);
      assert forall i | 0 <= i < |rows| - 1 :: rows[i] == init[i];
      if last.phone != phone then rest
      else if rest.Some? && rest.value.id > last.id then rest
      else Some(last)
  }

  class BookingTable {
    var rows: seq<Booking>
    var nextId: nat

    /** Ids are assigned in increasing order and are all below the next one. */
    ghost predicate Valid()
      reads this
    {
      && 0 < nextId
      && (forall i | 0 <= i < |rows| :: 0 < rows[i].id < nextId)
      && (forall i, j | 0 <= i < j < |rows| :: rows[i].id < rows[j].id)
    }

    constructor ()
      ensures Valid() && rows == [] && nextId == 1
    {
      rows := [];
      nextId := 1;
    }

    /** saveBooking(data): a completeness check, then one INSERT with status Pending. */
    method Save(data: Fields, dbFails: bool) returns (res: Option<SaveResponse>)
      requires Valid()
      modifies this
      ensures Valid()
      ensures res == SaveOutcome(data, dbFails)
      ensures res == Some(SaveResponse(true, None)) ==>
                rows == old(rows) + [NewRow(old(nextId), data)] && nextId == old(nextId) + 1
      ensures res != Some(SaveResponse(true, None)) ==> rows == old(rows) && nextId == old(nextId)
    {
      if !Truthy(Get(data, Name)) || !Truthy(Get(data, Phone)) || !Truthy(Get(data, Problem))
        || !Truthy(Get(data, Date)) || !Truthy(Get(data, Time)) {
        return Some(SaveResponse(false, Some(IncompleteMessage)));
      }
      assert Complete(data) by {
        forall f: Field ensures f in data && data[f] != "" {
          match f
          case Name =>
          case Phone =>
          case Problem =>
          case Date =>
          case Time =>
        }
      }
      if dbFails {
        return None;
      }
      rows := rows + [NewRow(nextId, data)];
      nextId := nextId + 1;
      return Some(SaveResponse(true, None));
    }
  }

  /** Reading a property of the object: undefined when absent. */
  function Get(data: Fields, f: Field): Option<string> {
    if f in data then Some(data[f]) else None
  }

  /** After a successful save the new row is the one findBookingByPhone returns for
      its phone number. */
  lemma SavedRowIsLatest(rows: seq<Booking>, nextId: nat, data: Fields)
    requires Complete(data)
    requires forall i | 0 <= i < |rows| :: rows[i].id < nextId
    ensures LatestByPhone(rows + [NewRow(nextId, data)], data[Phone]) == Some(NewRow(nextId, data))
  {
    var all := rows + [NewRow(nextId, data)];
    assert all[..|all| - 1] == rows;
  }
}
