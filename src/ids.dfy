/** Identifier formats and their validation (backend/app/utils/ids.py).
    The clock and the random sources are parameters: the UTC date, the hex
    token of `secrets.token_hex` and the hex text of a `uuid4`. */
module Ids {
  import opened Wrappers
  import opened Text
  import PyNum

  const PrefixSession := "sess"
  const PrefixAnalysis := "anal"
  const PrefixResult := "rslt"
  const PrefixCeleb := "celb"

  /** `[a-f0-9]`. */
  predicate IsLowerHex(c: char) {
    '0' <= c <= '9' || 'a' <= c <= 'f'
  }

  predicate AllLowerHex(s: string) {
    forall i :: 0 <= i < |s| ==> IsLowerHex(s[i])
  }

  /** `re.match` of a pattern ending in `$`: the whole text matches, or all
      of it but one final newline does. */
  predicate Anchored(s: string, body: string -> bool) {
    body(s) || (|s| > 0 && s[|s| - 1] == '\n' && body(s[..|s| - 1]))
  }

  /** `sess_\d{8}_[a-f0-9]{8}`, where `\d` is any Unicode decimal digit. */
  predicate SessionBody(s: string) {
    |s| == 22 && s[..5] == "sess_" && s[13] == '_'
    && (forall i :: 5 <= i < 13 ==> PyNum.IsDigit(s[i]))
    && (forall i :: 14 <= i < 22 ==> IsLowerHex(s[i]))
  }

  /** `<prefix>_[a-f0-9]{12}`. */
  predicate TaggedBody(prefix: string, s: string) {
    |s| == |prefix| + 13 && s[..|prefix|] == prefix && s[|prefix|] == '_'
    && (forall i :: |prefix| < i < |s| ==> IsLowerHex(s[i]))
  }

  /** `validate_session_id`: `None` and "" are refused before the pattern. */
  predicate ValidateSessionId(id: Option<string>) {
    id.Some? && id.value != "" && Anchored(id.value, SessionBody)
  }

  predicate ValidateAnalysisId(id: Option<string>) {
    id.Some? && id.value != "" && Anchored(id.value, s => TaggedBody(PrefixAnalysis, s))
  }

  predicate ValidateResultId(id: Option<string>) {
    id.Some? && id.value != "" && Anchored(id.value, s => TaggedBody(PrefixResult, s))
  }

  /** Empty and absent ids are invalid for all three validators. */
  lemma EmptyInvalid()
    ensures !ValidateSessionId(None) && !ValidateAnalysisId(None) && !ValidateResultId(None)
    ensures !ValidateSessionId(Some("")) && !ValidateAnalysisId(Some("")) && !ValidateResultId(Some(""))
  {
  }

  /** A calendar date. */
  datatype Date = Date(year: int, month: int, day: int)

  predicate IsLeap(y: int) {
    y % 4 == 0 && (y % 100 != 0 || y % 400 == 0)
  }

  function DaysIn(y: int, m: int): int
    requires 1 <= m <= 12
  {
    if m == 2 then (if IsLeap(y) then 29 else 28)
    else if m == 4 || m == 6 || m == 9 || m == 11 then 30
    else 31
  }

  /** A date `datetime` accepts. */
  predicate IsCalendarDate(d: Date) {
    1 <= d.year <= 9999 && 1 <= d.month <= 12 && 1 <= d.day <= DaysIn(d.year, d.month)
  }

  /** `strftime("%Y%m%d")` of a date with a four-digit year. */
  function Ymd(d: Date): (r: string)
    requires 1000 <= d.year <= 9999 && 1 <= d.month <= 12 && 1 <= d.day <= 31
    ensures |r| == 8
  {
    [DigitChar(d.year / 1000), DigitChar(d.year / 100 % 10), DigitChar(d.year / 10 % 10), DigitChar(d.year % 10),
     DigitChar(d.month / 10), DigitChar(d.month % 10), DigitChar(d.day / 10), DigitChar(d.day % 10)]
  }

  /** `generate_session_id`, given the UTC date and `token_hex(4)`. */
  function GenerateSessionId(today: Date, token: string): (id: string)
    requires 1000 <= today.year <= 9999 && 1 <= today.month <= 12 && 1 <= today.day <= 31
  {
    PrefixSession + "_" + Ymd(today) + "_" + token
  }

  /** `generate_analysis_id`, given the hex text of a `uuid4`. */
  function GenerateAnalysisId(uuidHex: string): (id: string)
    requires |uuidHex| >= 12
  {
    PrefixAnalysis + "_" + uuidHex[..12]
  }

  /** `generate_result_id`, given the hex text of a `uuid4`. */
  function GenerateResultId(uuidHex: string): (id: string)
    requires |uuidHex| >= 12
  {
    PrefixResult + "_" + uuidHex[..12]
  }

  lemma YmdDigits(d: Date)
    requires 1000 <= d.year <= 9999 && 1 <= d.month <= 12 && 1 <= d.day <= 31
    ensures forall i :: 0 <= i < 8 ==> '0' <= Ymd(d)[i] <= '9'
  {
    var t := Ymd(d);
    forall i | 0 <= i < 8 ensures '0' <= t[i] <= '9' {
      var k := if i == 0 then d.year / 1000 else if i == 1 then d.year / 100 % 10
        else if i == 2 then d.year / 10 % 10 else if i == 3 then d.year % 10
        else if i == 4 then d.month / 10 else if i == 5 then d.month % 10
        else if i == 6 then d.day / 10 else d.day % 10;
      assert t[i] == DigitChar(k);
      DigitCharCode(k);
    }
  }

  /** A generated session id is "sess_", the date's eight digits, "_" and
      the token, and it validates whenever the token is eight lowercase hex
      characters, as `token_hex(4)` gives. */
  lemma GeneratedSessionValid(today: Date, token: string)
    requires 1000 <= today.year <= 9999 && 1 <= today.month <= 12 && 1 <= today.day <= 31
    requires |token| == 8 && AllLowerHex(token)
    ensures var id := GenerateSessionId(today, token);
      |id| == 22 && id[5..13] == Ymd(today) && id[14..] == token && ValidateSessionId(Some(id))
  {
    var id := GenerateSessionId(today, token);
    assert id == "sess_" + Ymd(today) + "_" + token;
    assert id[5..13] == Ymd(today);
    YmdDigits(today);
    forall i | 5 <= i < 13 ensures PyNum.IsDigit(id[i]) {
      assert id[i] == Ymd(today)[i - 5];
      PyNum.AsciiDigit(id[i]);
    }
    forall i | 14 <= i < 22 ensures IsLowerHex(id[i]) {
      assert id[i] == token[i - 14];
    }
    assert SessionBody(id);
  }

  /** Generated analysis and result ids are the prefix and twelve hex
      characters, and validate when the `uuid4` text is lowercase hex. */
  lemma GeneratedTaggedValid(uuidHex: string)
    requires |uuidHex| == 32 && AllLowerHex(uuidHex)
    ensures ValidateAnalysisId(Some(GenerateAnalysisId(uuidHex)))
    ensures ValidateResultId(Some(GenerateResultId(uuidHex)))
  {
    var a := GenerateAnalysisId(uuidHex);
    var r := GenerateResultId(uuidHex);
    assert a[..4] == PrefixAnalysis && r[..4] == PrefixResult;
    forall i | 4 < i < 17 ensures IsLowerHex(a[i]) && IsLowerHex(r[i]) {
      assert a[i] == uuidHex[i - 5] && r[i] == uuidHex[i - 5];
    }
    assert TaggedBody(PrefixAnalysis, a);
    assert TaggedBody(PrefixResult, r);
  }

  /** `get_or_create_session_id`: the given id when it is valid, else the
      freshly generated one. */
  function GetOrCreateSessionId(id: Option<string>, generated: string): (r: string)
    ensures ValidateSessionId(id) ==> r == id.value
    ensures !ValidateSessionId(id) ==> r == generated
  {
    if id.Some? && id.value != "" && ValidateSessionId(id) then id.value else generated
  }

  /** With a generated fallback the result is always a valid id. */
  lemma GetOrCreateValid(id: Option<string>, today: Date, token: string)
    requires 1000 <= today.year <= 9999 && 1 <= today.month <= 12 && 1 <= today.day <= 31
    requires |token| == 8 && AllLowerHex(token)
    ensures ValidateSessionId(Some(GetOrCreateSessionId(id, GenerateSessionId(today, token))))
  {
    GeneratedSessionValid(today, token);
  }

  function Digit(c: char): int {
    if PyNum.IsDigit(c) then PyNum.DigitValue(c) else 0
  }

  /** `datetime.strptime(t, "%Y%m%d")` on eight decimal digits. Its pattern
      is `\d\d\d\d` for the year, `1[0-2]|0[1-9]|[1-9]` for the month and
      `3[01]|[12]\d|0[1-9]|[1-9]| [1-9]` for the day, matched without an end
      anchor and tried in that order; a one-digit month or day leaves text
      unconverted, which is an error, as is a date the calendar lacks. */
  function StrpYmd(t: string): (r: Option<Date>)
    requires |t| == 8 && forall i :: 0 <= i < 8 ==> PyNum.IsDigit(t[i])
    ensures r.Some? ==> IsCalendarDate(r.value)
  {
    var year := YearOf(t[0], t[1], t[2], t[3]);
    var month := MonthOf(t[4], t[5]);
    var day := DayOf(t[6], t[7]);
    if month.None? || day.None? then None
    else
      var d := Date(year, month.value, day.value);
      if IsCalendarDate(d) then Some(d) else None
  }

  /** The year pattern `\d\d\d\d`, read by `int`. */
  function YearOf(a: char, b: char, c: char, e: char): int {
    Digit(a) * 1000 + Digit(b) * 100 + Digit(c) * 10 + Digit(e)
  }

  /** The month pattern `1[0-2]|0[1-9]` on two characters. */
  function MonthOf(a: char, b: char): (m: Option<int>)
    ensures m.Some? ==> 1 <= m.value <= 12
  {
    if a == '1' && '0' <= b <= '2' then Some(10 + (b as int - '0' as int))
    else if a == '0' && '1' <= b <= '9' then Some(b as int - '0' as int)
    else None
  }

  /** The day pattern `3[01]|[12]\d|0[1-9]` on two characters. */
  function DayOf(a: char, b: char): (d: Option<int>)
    ensures d.Some? ==> 1 <= d.value <= 31
  {
    if a == '3' && '0' <= b <= '1' then Some(30 + (b as int - '0' as int))
    else if '1' <= a <= '2' then Some((a as int - '0' as int) * 10 + Digit(b))
    else if a == '0' && '1' <= b <= '9' then Some(b as int - '0' as int)
    else None
  }

  /** `extract_date_from_session_id`: `None` for an invalid id; otherwise the
      date of the second `_`-separated piece, `None` when that is not one. */
  function ExtractDateFromSessionId(id: string): (r: Option<Date>)
    ensures !ValidateSessionId(Some(id)) ==> r.None?
    ensures r.Some? ==> IsCalendarDate(r.value)
  {
    if !ValidateSessionId(Some(id)) then None
    else
      var body := if SessionBody(id) then id else id[..|id| - 1];
      assert SessionBody(body);
      SecondPiece(body);
      assert SplitOn(id, "_")[1] == body[5..13] by { SecondPieceKept(id, body); }
      StrpYmd(body[5..13])
  }

  /** The second `_`-separated piece of a session id is its date digits. */
  lemma SecondPiece(s: string)
    requires SessionBody(s)
    ensures |SplitOn(s, "_")| >= 2 && SplitOn(s, "_")[1] == s[5..13]
  {
    DatePiece(s);
  }

  /** Any text that starts like a session id, `sess_` then eight digits then
      `_`, has those digits as its second `_`-separated piece. */
  lemma DatePiece(s: string)
    requires |s| >= 14 && s[..5] == "sess_" && s[13] == '_'
    requires forall i :: 5 <= i < 13 ==> PyNum.IsDigit(s[i])
    ensures |SplitOn(s, "_")| >= 2 && SplitOn(s, "_")[1] == s[5..13]
  {
    assert s[4..5] == "_" by { assert s[4] == "sess_"[4]; }
    assert OccursAt(s, "_", 4);
    forall j | 0 <= j < 4 ensures !OccursAt(s, "_", j) {
      assert s[j] == "sess_"[j];
    }
    var rest := s[5..];
    assert rest[8..9] == "_" by { assert rest[8] == s[13]; }
    assert OccursAt(rest, "_", 8);
    forall j | 0 <= j < 8 ensures !OccursAt(rest, "_", j) {
      assert rest[j] == s[5 + j];
      DigitNotUnderscore(s[5 + j]);
    }
  }

  lemma DigitNotUnderscore(c: char)
    requires PyNum.IsDigit(c)
    ensures c != '_'
  {
  }

  /** A trailing newline after the body does not change the second piece. */
  lemma SecondPieceKept(id: string, body: string)
    requires SessionBody(body) && (id == body || id == body + "\n")
    ensures |SplitOn(id, "_")| >= 2 && SplitOn(id, "_")[1] == body[5..13]
  {
    assert id[..5] == body[..5] && id[13] == body[13];
    assert forall i :: 5 <= i < 13 ==> id[i] == body[i];
    DatePiece(id);
    assert id[5..13] == body[5..13];
  }

  lemma DigitOf(k: nat)
    requires k < 10
    ensures Digit(DigitChar(k)) == k && DigitChar(k) as int - '0' as int == k
  {
    DigitCharCode(k);
    PyNum.AsciiDigit(DigitChar(k));
  }

  lemma YearDigits(y: int)
    requires 1000 <= y <= 9999
    ensures (y / 1000) * 1000 + (y / 100 % 10) * 100 + (y / 10 % 10) * 10 + y % 10 == y
  {
    var h, t := y / 100, y / 10;
    assert h / 10 == y / 1000 && h == (y / 1000) * 10 + h % 10;
    assert t / 10 == h && t == h * 10 + t % 10;
    assert y == t * 10 + y % 10;
  }

  /** Parsing the digits `Ymd` writes gives the date back. */
  lemma StrpYmdRoundTrip(d: Date)
    requires IsCalendarDate(d) && 1000 <= d.year
    ensures StrpYmd(Ymd(d)) == Some(d)
  {
    var t := Ymd(d);
    YmdDigits(d);
    forall i | 0 <= i < 8 ensures PyNum.IsDigit(t[i]) { PyNum.AsciiDigit(t[i]); }
    YearRoundTrip(d.year);
    MonthRoundTrip(d.month);
    DayRoundTrip(d.day);
  }

  lemma YearRoundTrip(y: int)
    requires 1000 <= y <= 9999
    ensures YearOf(DigitChar(y / 1000), DigitChar(y / 100 % 10), DigitChar(y / 10 % 10), DigitChar(y % 10)) == y
  {
    DigitOf(y / 1000); DigitOf(y / 100 % 10); DigitOf(y / 10 % 10); DigitOf(y % 10);
    YearDigits(y);
  }

  lemma MonthRoundTrip(m: int)
    requires 1 <= m <= 12
    ensures MonthOf(DigitChar(m / 10), DigitChar(m % 10)) == Some(m)
  {
    DigitOf(m / 10); DigitOf(m % 10);
  }

  lemma DayRoundTrip(d: int)
    requires 1 <= d <= 31
    ensures DayOf(DigitChar(d / 10), DigitChar(d % 10)) == Some(d)
  {
    DigitOf(d / 10); DigitOf(d % 10);
  }

  /** The date a generated session id was made on is the date it yields. */
  lemma ExtractDateRoundTrip(today: Date, token: string)
    requires IsCalendarDate(today) && 1000 <= today.year
    requires |token| == 8 && AllLowerHex(token)
    ensures ExtractDateFromSessionId(GenerateSessionId(today, token)) == Some(today)
  {
    GeneratedSessionValid(today, token);
    StrpYmdRoundTrip(today);
  }

  /** `$` also admits one final newline: a valid id with "\n" appended
      still validates, and keeps its date. */
  lemma TrailingNewline(today: Date, token: string)
    requires IsCalendarDate(today) && 1000 <= today.year
    requires |token| == 8 && AllLowerHex(token)
    ensures var id := GenerateSessionId(today, token) + "\n";
      ValidateSessionId(Some(id)) && ExtractDateFromSessionId(id) == Some(today)
  {
    var body := GenerateSessionId(today, token);
    var id := body + "\n";
    GeneratedSessionValid(today, token);
    assert id[..|id| - 1] == body;
    assert !SessionBody(id);
    StrpYmdRoundTrip(today);
  }

  /** `\d` admits any Unicode decimal digit, so an id whose date digits are
      Arabic-Indic validates; its date is still rejected, because the month
      pattern takes ASCII digits only. */
  lemma UnicodeDigits()
    ensures var id := "sess_" + ['\U{0662}', '\U{0660}', '\U{0662}', '\U{0664}', '\U{0660}', '\U{0661}', '\U{0661}', '\U{0665}']
      + "_a1b2c3d4";
      ValidateSessionId(Some(id)) && ExtractDateFromSessionId(id) == None
  {
    var id := "sess_" + ['\U{0662}', '\U{0660}', '\U{0662}', '\U{0664}', '\U{0660}', '\U{0661}', '\U{0661}', '\U{0665}']
      + "_a1b2c3d4";
    var digits := ['\U{0662}', '\U{0660}', '\U{0662}', '\U{0664}', '\U{0660}', '\U{0661}', '\U{0661}', '\U{0665}'];
    assert id[..5] == "sess_";
    forall i | 5 <= i < 13 ensures PyNum.IsDigit(id[i]) { assert id[i] == digits[i - 5]; }
    forall i | 14 <= i < 22 ensures IsLowerHex(id[i]) { assert id[i] == "_a1b2c3d4"[i - 13]; }
    assert SessionBody(id);
  }

  /** A well-formed id of a date the calendar lacks yields no date. */
  lemma ImpossibleDate(token: string)
    requires |token| == 8 && AllLowerHex(token)
    ensures ValidateSessionId(Some("sess_20240230_" + token))
    ensures ExtractDateFromSessionId("sess_20240230_" + token) == None
  {
    var id := "sess_20240230_" + token;
    assert id[..5] == "sess_";
    forall i | 5 <= i < 13 ensures PyNum.IsDigit(id[i]) { PyNum.AsciiDigit(id[i]); }
    forall i | 14 <= i < 22 ensures IsLowerHex(id[i]) { assert id[i] == token[i - 14]; }
    assert SessionBody(id);
  }
}
