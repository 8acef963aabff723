/**
 * `formatDuration`: a duration in milliseconds rendered as Korean
 * day/hour/minute/second parts such as "2일 1시간 3분 3초".
 *
 * The duration is an integer (or absent, for `null`); the unit values are
 * the source's `Math.floor` of `/` and `%`, which for a positive integer
 * agree with integer division and remainder.
 */
module TimeFormat {
  import opened Wrappers
  import opened Strings

  /** The four units, largest first. */
  datatype Unit = Day | Hour | Minute | Second

  /** The Korean suffix written after each amount. */
  function Suffix(u: Unit): string
  {
    match u
    case Day => "일"
    case Hour => "시간"
    case Minute => "분"
    case Second => "초"
  }

  /** Position of a unit in the output, largest unit first. */
  function Rank(u: Unit): nat
  {
    match u
    case Day => 0
    case Hour => 1
    case Minute => 2
    case Second => 3
  }

  /** Milliseconds in one unit. */
  function UnitMs(u: Unit): nat
  {
    match u
    case Day => 86400000
    case Hour => 3600000
    case Minute => 60000
    case Second => 1000
  }

  /** What a zero or negative (or `null`) duration renders as. */
  const ZERO_DURATION: string := "0초"

  /** One entry of `parts` before rendering: an amount of a unit. */
  datatype Part = Part(amount: nat, unit: Unit)

  /** `seconds`, `minutes`, `hours` and `days` of `ms`. */
  function Amount(ms: nat, u: Unit): (r: nat)
    ensures u == Second || u == Minute ==> r < 60
    ensures u == Hour ==> r < 24
  {
    match u
    case Second => (ms / 1000) % 60
    case Minute => (ms / 60000) % 60
    case Hour => (ms / 3600000) % 24
    case Day => ms / 86400000
  }

  /** `parts` for a positive duration: every non-zero unit, largest first,
      and seconds also when nothing else was pushed. */
  function DurationParts(ms: nat): (r: seq<Part>)
    ensures 1 <= |r| <= 4
    ensures forall i :: 0 <= i < |r| ==> r[i].amount == Amount(ms, r[i].unit)
  {
    var d := if Amount(ms, Day) > 0 then [Part(Amount(ms, Day), Day)] else [];
    var h := if Amount(ms, Hour) > 0 then [Part(Amount(ms, Hour), Hour)] else [];
    var m := if Amount(ms, Minute) > 0 then [Part(Amount(ms, Minute), Minute)] else [];
    var s := if Amount(ms, Second) > 0 || d + h + m == [] then [Part(Amount(ms, Second), Second)] else [];
    d + h + m + s
  }

  /** `${amount}` followed by the unit's suffix. */
  function Render(p: Part): string
  {
    NatToString(p.amount) + Suffix(p.unit)
  }

  function RenderAll(parts: seq<Part>): (r: seq<string>)
    ensures |r| == |parts|
    ensures forall i :: 0 <= i < |parts| ==> r[i] == Render(parts[i])
  {
    if parts == [] then [] else [Render(parts[0])] + RenderAll(parts[1..])
  }

  /** The string `formatDuration(ms)` returns. */
  function Formatted(ms: Option<int>): (r: string)
    ensures r != []
  {
    if ms.None? || ms.value <= 0 then ZERO_DURATION
    else Join(RenderAll(DurationParts(ms.value)), " ")
  }

  /** `formatDuration`, building `parts` by conditional pushes. */
  method FormatDuration(ms: Option<int>) returns (r: string)
    ensures r == Formatted(ms)
  {
    if ms.None? || ms.value <= 0 {
      return ZERO_DURATION;
    }
    var n: nat := ms.value;
    var seconds := (n / 1000) % 60;
    var minutes := (n / 60000) % 60;
    var hours := (n / 3600000) % 24;
    var days := n / 86400000;
    assert seconds == Amount(n, Second) && minutes == Amount(n, Minute);
    assert hours == Amount(n, Hour) && days == Amount(n, Day);
    var parts: seq<string> := [];
    ghost var pushed: seq<Part> := [];
    if days > 0 {
      RenderAllPush(pushed, Part(days, Day));
      parts := parts + [NatToString(days) + "일"];
      pushed := pushed + [Part(days, Day)];
    }
    if hours > 0 {
      RenderAllPush(pushed, Part(hours, Hour));
      parts := parts + [NatToString(hours) + "시간"];
      pushed := pushed + [Part(hours, Hour)];
    }
    if minutes > 0 {
      RenderAllPush(pushed, Part(minutes, Minute));
      parts := parts + [NatToString(minutes) + "분"];
      pushed := pushed + [Part(minutes, Minute)];
    }
    assert parts == RenderAll(pushed);
    if seconds > 0 || |parts| == 0 {
      RenderAllPush(pushed, Part(seconds, Second));
      parts := parts + [NatToString(seconds) + "초"];
      pushed := pushed + [Part(seconds, Second)];
    }
    assert pushed == DurationParts(n);
    r := Join(parts, " ");
  }

  /** Rendering distributes over one more part. */
  lemma {:induction false} RenderAllPush(ps: seq<Part>, p: Part)
    ensures RenderAll(ps + [p]) == RenderAll(ps) + [Render(p)]
    decreases |ps|
  {
    if ps == [] {
      assert ps + [p] == [p];
    } else {
      RenderAllPush(ps[1..], p);
      assert (ps + [p])[1..] == ps[1..] + [p];
    }
  }

  /** The four unit values add back up to the duration with its sub-second
      remainder dropped. */
  lemma Decomposition(ms: nat)
    ensures Amount(ms, Day) * 86400000 + Amount(ms, Hour) * 3600000
          + Amount(ms, Minute) * 60000 + Amount(ms, Second) * 1000
          == ms - ms % 1000
  {
    var q := ms / 1000;
    assert ms / 60000 == q / 60;
    assert ms / 3600000 == q / 3600;
    assert ms / 86400000 == q / 86400;
    assert q / 3600 == (q / 60) / 60;
    assert q / 86400 == (q / 3600) / 24;
  }

  /** The sum of `amount` times unit length over a list of parts. */
  function Total(parts: seq<Part>): nat
  {
    if parts == [] then 0 else parts[0].amount * UnitMs(parts[0].unit) + Total(parts[1..])
  }

  lemma {:induction false} TotalAppend(a: seq<Part>, b: seq<Part>)
    ensures Total(a + b) == Total(a) + Total(b)
    decreases |a|
  {
    if a == [] {
      assert a + b == b;
    } else {
      assert (a + b)[1..] == a[1..] + b;
      TotalAppend(a[1..], b);
    }
  }

  /** Nothing is lost by omitting zero units: the parts of a duration
      still account for all of it but the sub-second remainder. */
  lemma PartsTotal(ms: nat)
    ensures Total(DurationParts(ms)) == ms - ms % 1000
  {
    Decomposition(ms);
    var d := if Amount(ms, Day) > 0 then [Part(Amount(ms, Day), Day)] else [];
    var h := if Amount(ms, Hour) > 0 then [Part(Amount(ms, Hour), Hour)] else [];
    var m := if Amount(ms, Minute) > 0 then [Part(Amount(ms, Minute), Minute)] else [];
    var s := if Amount(ms, Second) > 0 || d + h + m == [] then [Part(Amount(ms, Second), Second)] else [];
    TotalAppend(d + h + m, s);
    TotalAppend(d + h, m);
    TotalAppend(d, h);
  }

  /** All four unit values are zero exactly for a duration under one
      second. */
  lemma AllZeroIffSubSecond(ms: nat)
    ensures (Amount(ms, Day) == 0 && Amount(ms, Hour) == 0 && Amount(ms, Minute) == 0
             && Amount(ms, Second) == 0) <==> ms < 1000
  {
    Decomposition(ms);
  }

  /** Units in `parts` strictly follow the order days, hours, minutes,
      seconds, and each part carries its own unit value. */
  lemma PartsOrdered(ms: nat)
    ensures var parts := DurationParts(ms);
      && (forall i, j :: 0 <= i < j < |parts| ==> Rank(parts[i].unit) < Rank(parts[j].unit))
      && (forall i :: 0 <= i < |parts| ==> parts[i].amount == Amount(ms, parts[i].unit))
  {
    var parts := DurationParts(ms);
    forall i, j | 0 <= i < j < |parts| ensures Rank(parts[i].unit) < Rank(parts[j].unit) {
      assert forall k :: 0 <= k < |parts| ==> Rank(parts[k].unit) >= k;
      assert forall k :: 0 <= k < |parts| ==> Rank(parts[k].unit) + |parts| - k <= 4;
    }
  }

  /** A unit appears in `parts` exactly when its value is non-zero, except
      that seconds appears (as 0) for a positive duration under one second. */
  lemma PartsPresence(ms: nat, u: Unit)
    requires ms > 0
    ensures var parts := DurationParts(ms);
      (exists i :: 0 <= i < |parts| && parts[i].unit == u) <==>
      Amount(ms, u) > 0 || (u == Second && ms < 1000)
  {
    AllZeroIffSubSecond(ms);
    var parts := DurationParts(ms);
    var d := if Amount(ms, Day) > 0 then [Part(Amount(ms, Day), Day)] else [];
    var h := if Amount(ms, Hour) > 0 then [Part(Amount(ms, Hour), Hour)] else [];
    var m := if Amount(ms, Minute) > 0 then [Part(Amount(ms, Minute), Minute)] else [];
    assert parts[..|d + h + m|] == d + h + m;
    if Amount(ms, u) > 0 || (u == Second && ms < 1000) {
      var i := match u
        case Day => 0
        case Hour => |d|
        case Minute => |d + h|
        case Second => |d + h + m|;
      assert parts[i].unit == u;
    }
  }

  /** `parts` is never empty, and it is the lone zero-seconds part exactly
      for a duration under one second. */
  lemma PartsSubSecond(ms: nat)
    requires ms > 0
    ensures DurationParts(ms) != []
    ensures ms < 1000 <==> DurationParts(ms) == [Part(0, Second)]
  {
    AllZeroIffSubSecond(ms);
    var d := if Amount(ms, Day) > 0 then [Part(Amount(ms, Day), Day)] else [];
    var h := if Amount(ms, Hour) > 0 then [Part(Amount(ms, Hour), Hour)] else [];
    var m := if Amount(ms, Minute) > 0 then [Part(Amount(ms, Minute), Minute)] else [];
    var s := if Amount(ms, Second) > 0 || d + h + m == [] then [Part(Amount(ms, Second), Second)] else [];
    assert DurationParts(ms) == d + h + m + s;
    if DurationParts(ms) == [Part(0, Second)] {
      PartsTotal(ms);
      assert Total([Part(0, Second)]) == 0;
    }
  }

  /** Splitting the result on spaces gives back one rendered part per unit:
      the parts are separated by single spaces and contain none. */
  lemma WordsOfFormatted(ms: nat)
    requires ms > 0
    ensures Split(Formatted(Some(ms)), ' ') == RenderAll(DurationParts(ms))
  {
    PartsSubSecond(ms);
    var words := RenderAll(DurationParts(ms));
    forall i | 0 <= i < |words| ensures ' ' !in words[i] {
      var p := DurationParts(ms)[i];
      assert words[i] == NatToString(p.amount) + Suffix(p.unit);
      assert ' ' !in NatToString(p.amount);
    }
    SplitJoin(words, ' ');
  }

  /** Durations under one second show as zero seconds. */
  lemma SubSecond(ms: int)
    requires 0 < ms < 1000
    ensures Formatted(Some(ms)) == ZERO_DURATION
  {
    PartsSubSecond(ms);
    assert NatToString(0) == "0";
  }

  /** The documented examples. */
  lemma TwoDaysExample()
    ensures Formatted(Some(176583000)) == "2일 1시간 3분 3초"
  {
    var parts := [Part(2, Day), Part(1, Hour), Part(3, Minute), Part(3, Second)];
    TwoDaysParts();
    TwoDaysRender(parts);
  }

  lemma TwoDaysParts()
    ensures DurationParts(176583000) == [Part(2, Day), Part(1, Hour), Part(3, Minute), Part(3, Second)]
  {
    var ms := 176583000;
    assert Amount(ms, Day) == 2 && Amount(ms, Hour) == 1;
    assert Amount(ms, Minute) == 3 && Amount(ms, Second) == 3;
  }

  lemma TwoDaysRender(parts: seq<Part>)
    requires parts == [Part(2, Day), Part(1, Hour), Part(3, Minute), Part(3, Second)]
    ensures Join(RenderAll(parts), " ") == "2일 1시간 3분 3초"
  {
    assert NatToString(1) == "1" && NatToString(2) == "2" && NatToString(3) == "3";
    assert Render(parts[0]) == "2일" && Render(parts[1]) == "1시간";
    assert Render(parts[2]) == "3분" && Render(parts[3]) == "3초";
    var words := RenderAll(parts);
    assert words == ["2일", "1시간", "3분", "3초"];
    assert Join(words[3..], " ") == "3초";
    assert Join(words[2..], " ") == "3분 3초";
    assert Join(words[1..], " ") == "1시간 3분 3초";
  }

  lemma OneHourExample()
    ensures Formatted(Some(3661000)) == "1시간 1분 1초"
  {
    var parts := [Part(1, Hour), Part(1, Minute), Part(1, Second)];
    OneHourParts();
    OneHourRender(parts);
  }

  lemma OneHourParts()
    ensures DurationParts(3661000) == [Part(1, Hour), Part(1, Minute), Part(1, Second)]
  {
    var ms := 3661000;
    assert Amount(ms, Day) == 0 && Amount(ms, Hour) == 1;
    assert Amount(ms, Minute) == 1 && Amount(ms, Second) == 1;
  }

  lemma OneHourRender(parts: seq<Part>)
    requires parts == [Part(1, Hour), Part(1, Minute), Part(1, Second)]
    ensures Join(RenderAll(parts), " ") == "1시간 1분 1초"
  {
    assert NatToString(1) == "1";
    assert Render(parts[0]) == "1시간" && Render(parts[1]) == "1분" && Render(parts[2]) == "1초";
    var words := RenderAll(parts);
    assert words == ["1시간", "1분", "1초"];
    assert Join(words[2..], " ") == "1초";
    assert Join(words[1..], " ") == "1분 1초";
  }
}
