/**
 * The ephemeris block of an observer-table response, as `Planet._get_orbit` in
 * python/universe/planet.py reads it: the response is split into lines, the rows between the
 * `$$SOE` and `$$EOE` sentinel lines are cut out with Python's slice, and each row becomes one
 * `hEclPosition`. The HTTP request that produces the response text is not part of the model;
 * the text is a parameter.
 */
module Ephemeris {
  import opened Wrappers
  import opened Text
  import opened Coords

  /** The `month` table: three-letter abbreviations to month numbers. */
  const Month: map<string, nat> := map[
    "Jan" := 1, "Feb" := 2, "Mar" := 3, "Apr" := 4, "May" := 5, "Jun" := 6,
    "Jul" := 7, "Aug" := 8, "Sep" := 9, "Oct" := 10, "Nov" := 11, "Dec" := 12]

  const MonthNames: seq<string> := ["Jan", "Feb", "Mar", "Apr", "May", "Jun", "Jul", "Aug", "Sep", "Oct", "Nov", "Dec"]

  /** The table maps the twelve abbreviations, in calendar order and one-to-one, onto 1..12. */
  lemma MonthTableIsBijection()
    ensures forall k :: 0 <= k < 12 ==> MonthNames[k] in Month && Month[MonthNames[k]] == k + 1
    ensures forall a :: a in Month ==> 1 <= Month[a] <= 12 && a == MonthNames[Month[a] - 1]
    ensures forall a, b :: a in Month && b in Month && Month[a] == Month[b] ==> a == b
  {
  }

  const StartMarker: string := "$$SOE"
  const EndMarker: string := "$$EOE"

  // ------------------------------------------------------------------
  // Locating the block

  /** The first line equal to `marker`, if any. */
  function FirstIndexOf(lines: seq<string>, marker: string): (r: Option<nat>)
    ensures r.Some? ==> r.value < |lines| && lines[r.value] == marker
    ensures r.Some? ==> forall j :: 0 <= j < r.value ==> lines[j] != marker
    ensures r.None? ==> forall j :: 0 <= j < |lines| ==> lines[j] != marker
  {
    if lines == [] then None
    else if lines[0] == marker then Some(0)
    else
      match FirstIndexOf(lines[1..], marker)
      case None => None
      case Some(i) => Some(i + 1)
  }

  /** The last line before `end` equal to `marker`, if any. */
  function LastIndexBefore(lines: seq<string>, marker: string, end: nat): (r: Option<nat>)
    requires end <= |lines|
    ensures r.Some? ==> r.value < end && lines[r.value] == marker
    ensures r.Some? ==> forall j :: r.value < j < end ==> lines[j] != marker
    ensures r.None? ==> forall j :: 0 <= j < end ==> lines[j] != marker
    decreases end
  {
    if end == 0 then None
    else if lines[end - 1] == marker then Some(end - 1)
    else LastIndexBefore(lines, marker, end - 1)
  }

  /**
   * What the scan leaves in `start` and `stop`: `stop` is one before the first `$$EOE`, and
   * `start` is one after the last `$$SOE` before it (before the end, when there is no `$$EOE`).
   */
  function Markers(lines: seq<string>): (m: (Option<nat>, Option<int>))
    ensures m.1.Some? <==> EndMarker in lines
    ensures m.1.Some? ==> 0 <= m.1.value + 1 < |lines| && lines[m.1.value + 1] == EndMarker
    ensures m.1.Some? ==> forall j :: 0 <= j <= m.1.value ==> lines[j] != EndMarker
    ensures m.0.Some? ==> 0 < m.0.value <= |lines| && lines[m.0.value - 1] == StartMarker
    ensures m.0.Some? && m.1.Some? ==> m.0.value <= m.1.value + 1
    ensures var from := if m.0.Some? then m.0.value else 0;
            var to := if m.1.Some? then m.1.value + 1 else |lines|;
            forall j :: from <= j < to ==> lines[j] != StartMarker
  {
    var e := FirstIndexOf(lines, EndMarker);
    var limit := if e.Some? then e.value else |lines|;
    var s := LastIndexBefore(lines, StartMarker, limit);
    (if s.Some? then Some(s.value + 1) else None, if e.Some? then Some(e.value - 1) else None)
  }

  /** `xs[lo:hi]` for non-negative bounds, which Python clips to the sequence. */
  function PySlice<T>(xs: seq<T>, lo: nat, hi: nat): (r: seq<T>)
    ensures lo <= hi <= |xs| ==> r == xs[lo..hi]
    ensures hi <= lo || |xs| <= lo ==> r == []
    ensures lo <= |xs| < hi ==> r == xs[lo..]
  {
    var a := if lo < |xs| then lo else |xs|;
    var b := if hi < |xs| then hi else |xs|;
    if a < b then xs[a..b] else []
  }

  datatype RowError = MissingToken | UnknownMonth(name: string) | BadNumber(token: string)

  /** Why `_get_orbit` raised: no `$$EOE` (so `stop + 1` fails on `None`), or a row did not decode. */
  datatype OrbitError = NoEndMarker | BadRow(row: nat, error: RowError)

  /**
   * `lines[start:stop+1]`, where a missing `start` (`None`) slices from the top. Without an
   * `$$EOE` line the slice fails; otherwise the block ends just before the first `$$EOE`,
   * starts just after a `$$SOE` or at the top, and holds no sentinel line.
   */
  function BlockOf(lines: seq<string>): (r: Result<seq<string>, OrbitError>)
    ensures r.Failure? <==> EndMarker !in lines
    ensures r.Failure? ==> r.error == NoEndMarker
    ensures r.Success? ==> var e := FirstIndexOf(lines, EndMarker).value;
      && |r.value| <= e && r.value == lines[e - |r.value|..e]
      && (e - |r.value| == 0 || lines[e - |r.value| - 1] == StartMarker)
      && forall k :: 0 <= k < |r.value| ==> r.value[k] != StartMarker && r.value[k] != EndMarker
  {
    var (start, stop) := Markers(lines);
    if stop.None? then Failure(NoEndMarker)
    else Success(PySlice(lines, if start.Some? then start.value else 0, stop.value + 1))
  }

  // ------------------------------------------------------------------
  // Decoding the rows

  /**
   * One row, given as its tokens `line.split()`: the date `YYYY-Mon-DD` in token 0, the time
   * `HH:MM` in token 1, then longitude, latitude and distance in AU in tokens 2, 3 and 4.
   * The errors come in the order Python meets them.
   */
  function DecodeRow(words: seq<string>): (r: Result<HEclPosition, RowError>)
    ensures |words| < 2 ==> r == Failure(MissingToken)
    ensures r.Success? ==> |words| >= 5 && |Split(words[0], '-')| >= 3 && Split(words[0], '-')[1] in Month
    ensures r.Success? ==> ParseDecimal(words[3]) == Some(r.value.hEclLat) && ParseDecimal(words[2]) == Some(r.value.hEclLon)
    ensures r.Success? ==> ParseDecimal(words[4]).Some? && r.value.dist == ParseDecimal(words[4]).value * Constants.AU
  {
    if |words| < 2 then Failure(MissingToken)
    else
      var date := Split(words[0], '-');
      var time := Split(words[1], ':');
      if |date| < 2 then Failure(MissingToken)
      else if date[1] !in Month then Failure(UnknownMonth(date[1]))
      else if |date| < 3 || |time| < 2 then Failure(MissingToken)
      else
        var dt := date[0] + "-" + NatToString(Month[date[1]]) + "-" + date[2] + " " + time[0] + ":" + time[1];
        if |words| < 4 then Failure(MissingToken)
        else
          match ParseDecimal(words[3])
          case None => Failure(BadNumber(words[3]))
          case Some(lat) =>
            match ParseDecimal(words[2])
            case None => Failure(BadNumber(words[2]))
            case Some(lon) =>
              if |words| < 5 then Failure(MissingToken)
              else
                match ParseDecimal(words[4])
                case None => Failure(BadNumber(words[4]))
                case Some(dist) => Success(MakeHEclPosition(lat, lon, dist, dt, DefaultFormatCode, true))
  }

  /**
   * The rows decoded in order, one record per row: the list succeeds exactly when every row
   * does, and then record k is row k decoded; the first row that fails aborts the whole list.
   */
  function DecodeRows(rows: seq<seq<string>>): (r: Result<seq<HEclPosition>, OrbitError>)
    ensures r.Success? <==> forall k :: 0 <= k < |rows| ==> DecodeRow(rows[k]).Success?
    ensures r.Success? ==> |r.value| == |rows|
    ensures r.Success? ==> forall k :: 0 <= k < |rows| ==> r.value[k] == DecodeRow(rows[k]).value
  {
    MapResultPointwise(DecodeRow, rows);
    match MapResult(DecodeRow, rows)
    case Failure((n, e)) => Failure(BadRow(n, e))
    case Success(ps) => Success(ps)
  }

  /**
   * `_get_orbit` over the response text: it fails with `NoEndMarker` exactly when no line is
   * `$$EOE`; otherwise it succeeds exactly when every line of the block decodes, and then
   * record k is block line k decoded, in order.
   */
  function OrbitOf(response: string): (r: Result<seq<HEclPosition>, OrbitError>)
    ensures r == Failure(NoEndMarker) <==> EndMarker !in Split(response, '\n')
    ensures r.Success? <==> (BlockOf(Split(response, '\n')).Success? &&
      forall k :: 0 <= k < |BlockOf(Split(response, '\n')).value| ==> DecodeRow(Words(BlockOf(Split(response, '\n')).value[k])).Success?)
    ensures r.Success? ==> |r.value| == |BlockOf(Split(response, '\n')).value|
    ensures r.Success? ==> forall k :: 0 <= k < |r.value| ==>
      r.value[k] == DecodeRow(Words(BlockOf(Split(response, '\n')).value[k])).value
  {
    match BlockOf(Split(response, '\n'))
    case Failure(e) => Failure(e)
    case Success(block) => DecodeRows(Tokenise(block))
  }

  // ------------------------------------------------------------------
  // The imperative scan and decode

  /** The sentinel scan of `_get_orbit`: stops at the first `$$EOE`, each `$$SOE` before it moves `start`. */
  method ScanMarkers(lines: seq<string>) returns (start: Option<nat>, stop: Option<int>)
    ensures (start, stop) == Markers(lines)
  {
    start, stop := None, None;
    var lineno := 0;
    while lineno < |lines|
      invariant 0 <= lineno <= |lines|
      invariant forall j :: 0 <= j < lineno ==> lines[j] != EndMarker
      invariant start == (var s := LastIndexBefore(lines, StartMarker, lineno); if s.Some? then Some(s.value + 1) else None)
    {
      if lines[lineno] == StartMarker {
        start := Some(lineno + 1);
        lineno := lineno + 1;
        continue;
      }
      if lines[lineno] == EndMarker {
        stop := Some(lineno - 1);
        break;
      }
      lineno := lineno + 1;
    }
  }

  /** `_get_orbit` once the response is in hand: the records of the block, or why there are none. */
  method GetOrbit(response: string) returns (r: Result<seq<HEclPosition>, OrbitError>)
    ensures r == OrbitOf(response)
  {
    var lines := Split(response, '\n');
    var start, stop := ScanMarkers(lines);
    if stop.None? {
      assert BlockOf(lines) == Failure(NoEndMarker);
      return Failure(NoEndMarker);
    }
    var block := PySlice(lines, if start.Some? then start.value else 0, stop.value + 1);
    assert BlockOf(lines) == Success(block);
    var decoded := MapUntilFailure(DecodeRow, Tokenise(block));
    match decoded
    case Failure((k, e)) => r := Failure(BadRow(k, e));
    case Success(positions) => r := Success(positions);
  }

  // ------------------------------------------------------------------
  // Properties

  /**
   * With `$$SOE` at line i, the first `$$EOE` at line j > i and no `$$SOE` in between, the block
   * is exactly lines i+1 .. j-1. An earlier `$$SOE` makes no difference: the last one counts.
   */
  lemma BlockBetweenMarkers(lines: seq<string>, i: nat, j: nat)
    requires i < j < |lines|
    requires lines[i] == StartMarker && lines[j] == EndMarker
    requires forall k :: 0 <= k < j ==> lines[k] != EndMarker
    requires forall k :: i < k < j ==> lines[k] != StartMarker
    ensures BlockOf(lines) == Success(lines[i + 1..j])
  {
    var e := FirstIndexOf(lines, EndMarker);
    assert e == Some(j);
    var s := LastIndexBefore(lines, StartMarker, j);
    assert s == Some(i);
  }

  /**
   * With `$$SOE` at line i and the first `$$EOE` at line j > i, the records are lines
   * i+1 .. j-1 decoded in order, or the error of the first of them that does not decode.
   */
  lemma OrbitOfBetweenMarkers(response: string, i: nat, j: nat)
    requires i < j < |Split(response, '\n')|
    requires Split(response, '\n')[i] == StartMarker && Split(response, '\n')[j] == EndMarker
    requires forall k :: 0 <= k < j ==> Split(response, '\n')[k] != EndMarker
    requires forall k :: i < k < j ==> Split(response, '\n')[k] != StartMarker
    ensures OrbitOf(response) == DecodeRows(Tokenise(Split(response, '\n')[i + 1..j]))
  {
    var lines := Split(response, '\n');
    assert BlockOf(lines) == Success(lines[i + 1..j]) by {
      BlockBetweenMarkers(lines, i, j);
    }
  }

  /** Adjacent sentinels give an empty list of records. */
  lemma AdjacentMarkersGiveNoRecords(response: string, i: nat)
    requires i + 1 < |Split(response, '\n')|
    requires Split(response, '\n')[i] == StartMarker && Split(response, '\n')[i + 1] == EndMarker
    requires forall k :: 0 <= k <= i ==> Split(response, '\n')[k] != EndMarker
    ensures OrbitOf(response) == Success([])
  {
    var lines := Split(response, '\n');
    assert BlockOf(lines) == Success([]) by {
      BlockBetweenMarkers(lines, i, i + 1);
      assert lines[i + 1..i + 1] == [];
    }
    assert OrbitOf(response) == DecodeRows(Tokenise([]));
  }

  /**
   * With an `$$EOE` but no `$$SOE` before it, `start` stays `None` and the slice runs from
   * the very first line up to the `$$EOE`.
   */
  lemma NoStartMarkerReadsFromTop(lines: seq<string>, j: nat)
    requires j < |lines| && lines[j] == EndMarker
    requires forall k :: 0 <= k < j ==> lines[k] != EndMarker && lines[k] != StartMarker
    ensures BlockOf(lines) == Success(lines[..j])
  {
    assert FirstIndexOf(lines, EndMarker) == Some(j);
  }

  /** The error reported is that of the first row that does not decode. */
  lemma FirstBadRowReported(rows: seq<seq<string>>, i: nat)
    requires i < |rows| && DecodeRow(rows[i]).Failure?
    requires forall k :: 0 <= k < i ==> DecodeRow(rows[k]).Success?
    ensures DecodeRows(rows) == Failure(BadRow(i, DecodeRow(rows[i]).error))
  {
    FirstFailureReported(DecodeRow, rows, i);
  }

  /** A row whose month is not one of the twelve abbreviations fails (Python's `KeyError`), whatever follows. */
  lemma UnknownMonthFails(words: seq<string>)
    requires |words| >= 2 && |Split(words[0], '-')| >= 2
    requires Split(words[0], '-')[1] !in MonthNames
    ensures DecodeRow(words) == Failure(UnknownMonth(Split(words[0], '-')[1]))
  {
    MonthTableIsBijection();
  }

  /**
   * A well-formed row `YYYY-Mon-DD HH:MM lon lat dist ...` gives latitude from token 3,
   * longitude from token 2, the distance from token 4 converted from AU to metres, and the
   * date rebuilt as `YYYY-M-DD HH:MM` with the month number.
   */
  lemma WellFormedRow(year: string, mon: string, day: string, hour: string, minute: string,
                      lonTok: string, latTok: string, distTok: string, rest: seq<string>)
    requires '-' !in year && '-' !in mon && '-' !in day && ':' !in hour && ':' !in minute
    requires mon in Month
    requires ParseDecimal(lonTok).Some? && ParseDecimal(latTok).Some? && ParseDecimal(distTok).Some?
    ensures DecodeRow([year + "-" + mon + "-" + day, hour + ":" + minute, lonTok, latTok, distTok] + rest)
         == Success(HEclPosition(ParseDecimal(latTok).value, ParseDecimal(lonTok).value,
                                 ParseDecimal(distTok).value * Constants.AU,
                                 Parsed(year + "-" + NatToString(Month[mon]) + "-" + day + " " + hour + ":" + minute, DefaultFormatCode),
                                 DefaultFormatCode))
  {
    var dateTok := year + "-" + mon + "-" + day;
    assert dateTok == year + ['-'] + (mon + ['-'] + day);
    SplitAfterPiece(year, '-', mon + ['-'] + day);
    SplitAfterPiece(mon, '-', day);
    SplitWhole(day, '-');
    assert Split(dateTok, '-') == [year, mon, day];
    var timeTok := hour + ":" + minute;
    assert timeTok == hour + [':'] + minute;
    SplitAfterPiece(hour, ':', minute);
    SplitWhole(minute, ':');
    assert Split(timeTok, ':') == [hour, minute];
  }
}
