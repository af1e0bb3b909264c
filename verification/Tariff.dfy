/**
 Electricity tariffs: expansion of periods to an exact weekly cover, seasons, and the normalisation of
 compact, legacy and version-2 inputs. A value of the wrong kind arrives as Invalid or None; every refusal
 is None.
 */
module Tariff {
  import opened Prelude

  const SLOTS: nat := 48
  const DAYS: nat := 7
  const MAX_PERIODS: nat := 336
  const MAX_SEASONS: nat := 12

  datatype Field<+T> = Absent | Invalid | Present(value: T)

  type Grid = seq<seq<real>>

  predicate Weekly(g: Grid) {
    |g| == SLOTS && forall s :: 0 <= s < |g| ==> |g[s]| == DAYS
  }

  // ---------------------------------------------------------------- half-hour times

  predicate Digit(c: char) {
    '0' <= c <= '9'
  }

  predicate HalfHour(text: string) {
    && |text| == 5 && Digit(text[1]) && (text[0] == '0' || text[0] == '1' || (text[0] == '2' && text[1] <= '3'))
    && text[2] == ':' && (text[3..] == "00" || text[3..] == "30")
  }

  function DigitValue(c: char): int {
    c as int - '0' as int
  }

  function Slot(text: Field<string>, end: bool): Option<nat> {
    if text.Present? && end && text.value == "24:00" then Some(48)
    else if !text.Present? || !HalfHour(text.value) then None
    else
      var hour := DigitValue(text.value[0]) * 10 + DigitValue(text.value[1]);
      Some(hour * 2 + (if text.value[3..] == "30" then 1 else 0))
  }

  function DigitChar(d: nat): char
    requires d < 10
  {
    ('0' as int + d) as char
  }

  function SlotText(slot: nat): string
    requires slot <= SLOTS
  {
    [DigitChar(slot / 20), DigitChar(slot / 2 % 10), ':', if slot % 2 == 1 then '3' else '0', '0']
  }

  lemma SpelledSlotIsRead(slot: nat)
    requires slot < SLOTS
    ensures HalfHour(SlotText(slot)) && Slot(Present(SlotText(slot)), false) == Some(slot)
  {
    var text := SlotText(slot);
    assert text[3..] == [text[3], text[4]];
    assert slot / 20 * 10 + slot / 2 % 10 == slot / 2;
  }

  lemma ReadSlotIsSpelled(text: string)
    requires HalfHour(text)
    ensures Slot(Present(text), false).value < SLOTS && text == SlotText(Slot(Present(text), false).value)
  {
    assert text[3..] == [text[3], text[4]];
    assert text == [text[0], text[1], text[2], text[3], text[4]];
  }

  /** Each half hour of the day has exactly one spelling; only an end may be 24:00. */
  lemma SlotsAreSpelledOnce(text: string, end: bool, slot: nat)
    requires slot <= SLOTS
    ensures Slot(Present(text), end) == Some(slot) <==> text == SlotText(slot) && (slot < SLOTS || end)
  {
    if slot < SLOTS { SpelledSlotIsRead(slot); }
    if HalfHour(text) { ReadSlotIsSpelled(text); }
  }

  // ---------------------------------------------------------------- periods

  datatype Days = EveryDay | NoDays | Listed(days: seq<Option<int>>)

  datatype Period = Period(start: Field<string>, end: Field<string>, days: Days, rate: Option<real>)

  /** A validated period; days are numbered 1 to 7. */
  datatype Span = Span(start: nat, end: nat, days: seq<int>, rate: real)

  predicate Distinct(days: seq<int>) {
    forall j, k :: 0 <= j < k < |days| ==> days[j] != days[k]
  }

  predicate ValidDays(days: seq<int>) {
    days != [] && Distinct(days) && forall k :: 0 <= k < |days| ==> 1 <= days[k] <= 7
  }

  function Unwrap(values: seq<Option<int>>): (r: seq<int>)
    requires forall k :: 0 <= k < |values| ==> values[k].Some?
    ensures |r| == |values| && forall k :: 0 <= k < |r| ==> r[k] == values[k].value
  {
    if values == [] then [] else Unwrap(values[..|values| - 1]) + [values[|values| - 1].value]
  }

  function DaysOf(days: Days): Option<seq<int>> {
    match days
    case EveryDay => Some([1, 2, 3, 4, 5, 6, 7])
    case NoDays => None
    case Listed(values) =>
      if (forall k :: 0 <= k < |values| ==> values[k].Some?) && ValidDays(Unwrap(values)) then Some(Unwrap(values))
      else None
  }

  function PeriodValues(p: Period): (r: Option<Span>)
    ensures r.Some? ==> r.value.start < r.value.end <= SLOTS && ValidDays(r.value.days)
  {
    var start := Slot(p.start, false);
    var end := Slot(p.end, true);
    var days := DaysOf(p.days);
    if start.None? || end.None? || start.value >= end.value || days.None? || p.rate.None? then None
    else Some(Span(start.value, end.value, days.value, p.rate.value))
  }

  predicate Covers(span: Span, slot: int, day: int) {
    span.start <= slot < span.end && day + 1 in span.days
  }

  /** The rate the periods so far give a cell: that of the last one covering it. */
  function Filled(spans: seq<Span>, slot: int, day: int): Option<real> {
    if spans == [] then None
    else
      var n := |spans| - 1;
      if Covers(spans[n], slot, day) then Some(spans[n].rate) else Filled(spans[..n], slot, day)
  }

  predicate Overlaps(a: Span, b: Span) {
    exists slot, day | 0 <= slot < SLOTS && 0 <= day < DAYS :: Covers(a, slot, day) && Covers(b, slot, day)
  }

  predicate Disjoint(spans: seq<Span>) {
    forall j, k :: 0 <= j < k < |spans| ==> !Overlaps(spans[j], spans[k])
  }

  predicate Complete(spans: seq<Span>) {
    forall slot, day | 0 <= slot < SLOTS && 0 <= day < DAYS :: Filled(spans, slot, day).Some?
  }

  function Spans(periods: seq<Period>): Option<seq<Span>> {
    if periods == [] then Some([])
    else
      var n := |periods| - 1;
      var first := Spans(periods[..n]);
      var last := PeriodValues(periods[n]);
      if first.None? || last.None? then None else Some(first.value + [last.value])
  }

  function Rows(spans: seq<Span>): Grid
    requires Complete(spans)
  {
    seq(SLOTS, s requires 0 <= s < SLOTS => seq(DAYS, d requires 0 <= d < DAYS => Filled(spans, s, d).value))
  }

  /** What the expansion yields. */
  function Expanded(periods: seq<Period>): Option<Grid> {
    var spans := Spans(periods);
    if periods == [] || |periods| > MAX_PERIODS || spans.None? || !Disjoint(spans.value) || !Complete(spans.value)
    then None
    else Some(Rows(spans.value))
  }

  lemma {:induction false} SpansFollowPeriods(periods: seq<Period>)
    ensures Spans(periods).Some? <==> forall k :: 0 <= k < |periods| ==> PeriodValues(periods[k]).Some?
    ensures Spans(periods).Some? ==>
      && |Spans(periods).value| == |periods|
      && forall k :: 0 <= k < |periods| ==> PeriodValues(periods[k]) == Some(Spans(periods).value[k])
    decreases |periods|
  {
    if periods != [] {
      var n := |periods| - 1;
      SpansFollowPeriods(periods[..n]);
      assert forall k :: 0 <= k < n ==> periods[..n][k] == periods[k];
    }
  }

  lemma {:induction false} FilledByCoverer(spans: seq<Span>, slot: int, day: int)
    ensures Filled(spans, slot, day).Some? <==> exists k :: 0 <= k < |spans| && Covers(spans[k], slot, day)
    ensures Filled(spans, slot, day).Some? ==>
      exists k :: 0 <= k < |spans| && Covers(spans[k], slot, day) && Filled(spans, slot, day) == Some(spans[k].rate)
    decreases |spans|
  {
    if spans != [] {
      var n := |spans| - 1;
      FilledByCoverer(spans[..n], slot, day);
      assert forall k :: 0 <= k < n ==> spans[..n][k] == spans[k];
      if Covers(spans[n], slot, day) {
        assert Filled(spans, slot, day) == Some(spans[n].rate);
      } else if Filled(spans, slot, day).Some? {
        var k :| 0 <= k < n && Covers(spans[..n][k], slot, day)
            && Filled(spans[..n], slot, day) == Some(spans[..n][k].rate);
        assert Covers(spans[k], slot, day);
      }
    }
  }

  /** The cell belongs to exactly one period, the k-th. */
  ghost predicate OwnedBy(spans: seq<Span>, slot: int, day: int, k: int) {
    && 0 <= k < |spans| && Covers(spans[k], slot, day)
    && forall j :: 0 <= j < |spans| && j != k ==> !Covers(spans[j], slot, day)
  }

  ghost predicate HasOwner(spans: seq<Span>, slot: int, day: int) {
    exists k :: OwnedBy(spans, slot, day, k)
  }

  ghost predicate CoversOnce(spans: seq<Span>) {
    forall slot, day | 0 <= slot < SLOTS && 0 <= day < DAYS :: HasOwner(spans, slot, day)
  }

  ghost predicate HoldsOwnersRate(spans: seq<Span>, slot: int, day: int, rate: real) {
    exists k :: OwnedBy(spans, slot, day, k) && spans[k].rate == rate
  }

  lemma DisjointAndCompleteOwn(spans: seq<Span>, slot: int, day: int)
    requires Disjoint(spans) && Complete(spans) && 0 <= slot < SLOTS && 0 <= day < DAYS
    ensures HasOwner(spans, slot, day) && HoldsOwnersRate(spans, slot, day, Filled(spans, slot, day).value)
  {
    FilledByCoverer(spans, slot, day);
    var k :| 0 <= k < |spans| && Covers(spans[k], slot, day) && Filled(spans, slot, day) == Some(spans[k].rate);
    forall j | 0 <= j < |spans| && j != k ensures !Covers(spans[j], slot, day) {
      assert !Overlaps(spans[if j < k then j else k], spans[if j < k then k else j]);
    }
    assert OwnedBy(spans, slot, day, k);
  }

  lemma CoversOnceIsDisjoint(spans: seq<Span>)
    requires CoversOnce(spans)
    ensures Disjoint(spans) && Complete(spans)
  {
    forall j, k, slot, day | 0 <= j < k < |spans| && 0 <= slot < SLOTS && 0 <= day < DAYS
      ensures !(Covers(spans[j], slot, day) && Covers(spans[k], slot, day))
    {
      assert HasOwner(spans, slot, day);
      var owner :| OwnedBy(spans, slot, day, owner);
      assert j != owner || k != owner;
    }
    forall slot, day | 0 <= slot < SLOTS && 0 <= day < DAYS ensures Filled(spans, slot, day).Some? {
      assert HasOwner(spans, slot, day);
      var owner :| OwnedBy(spans, slot, day, owner);
      FilledByCoverer(spans, slot, day);
    }
  }

  lemma DisjointAndCompleteIsOnce(spans: seq<Span>)
    requires Disjoint(spans) && Complete(spans)
    ensures CoversOnce(spans) && Weekly(Rows(spans))
    ensures forall slot, day | 0 <= slot < SLOTS && 0 <= day < DAYS ::
        HoldsOwnersRate(spans, slot, day, Rows(spans)[slot][day])
  {
    forall slot, day | 0 <= slot < SLOTS && 0 <= day < DAYS
      ensures HasOwner(spans, slot, day) && HoldsOwnersRate(spans, slot, day, Rows(spans)[slot][day])
    {
      DisjointAndCompleteOwn(spans, slot, day);
    }
  }

  /** Expansion succeeds exactly when there are 1 to 336 periods, each valid, that cover every half hour of
      every weekday exactly once; each cell then holds the rate of the one period it belongs to. */
  lemma ExpansionIsExactCover(periods: seq<Period>)
    ensures Expanded(periods).Some? <==>
      1 <= |periods| <= MAX_PERIODS && Spans(periods).Some? && CoversOnce(Spans(periods).value)
    ensures Expanded(periods).Some? ==>
      var grid := Expanded(periods).value;
      && Weekly(grid)
      && forall slot, day | 0 <= slot < SLOTS && 0 <= day < DAYS ::
           HoldsOwnersRate(Spans(periods).value, slot, day, grid[slot][day])
  {
    if 1 <= |periods| <= MAX_PERIODS && Spans(periods).Some? {
      var spans := Spans(periods).value;
      if CoversOnce(spans) { CoversOnceIsDisjoint(spans); }
      if Disjoint(spans) && Complete(spans) { DisjointAndCompleteIsOnce(spans); }
    }
  }

  // ---------------------------------------------------------------- the expansion in place

  /** The part of a span that two nested loops have written when they stand at day `j` of slot `slot`. */
  predicate Written(span: Span, slot: int, j: nat, s: int, d: int)
    requires j <= |span.days|
  {
    (span.start <= s < slot && d + 1 in span.days) || (s == slot && d + 1 in span.days[..j])
  }

  lemma AnotherDayWritten(span: Span, slot: int, j: nat, s: int, d: int)
    requires j < |span.days|
    ensures Written(span, slot, j + 1, s, d) <==> Written(span, slot, j, s, d) || (s == slot && d + 1 == span.days[j])
  {
    assert span.days[..j + 1] == span.days[..j] + [span.days[j]];
  }

  /** Marks one more period in the grid; refuses at the first cell that is taken. */
  method FillPeriod(grid: array2<Option<real>>, span: Span, ghost spans: seq<Span>) returns (ok: bool)
    requires grid.Length0 == SLOTS && grid.Length1 == DAYS
    requires span.start < span.end <= SLOTS && ValidDays(span.days)
    requires forall s, d | 0 <= s < SLOTS && 0 <= d < DAYS :: grid[s, d] == Filled(spans, s, d)
    modifies grid
    ensures ok <==> forall k :: 0 <= k < |spans| ==> !Overlaps(spans[k], span)
    ensures ok ==> forall s, d | 0 <= s < SLOTS && 0 <= d < DAYS :: grid[s, d] == Filled(spans + [span], s, d)
  {
    assert (spans + [span])[..|spans|] == spans;
    for slot := span.start to span.end
      invariant forall s, d | 0 <= s < SLOTS && 0 <= d < DAYS ::
        grid[s, d] == if Written(span, slot, 0, s, d) then Some(span.rate) else Filled(spans, s, d)
      invariant forall s, d | 0 <= s < SLOTS && 0 <= d < DAYS && Written(span, slot, 0, s, d) ::
          Filled(spans, s, d).None?
    {
      for j := 0 to |span.days|
        invariant forall s, d | 0 <= s < SLOTS && 0 <= d < DAYS ::
          grid[s, d] == if Written(span, slot, j, s, d) then Some(span.rate) else Filled(spans, s, d)
        invariant forall s, d | 0 <= s < SLOTS && 0 <= d < DAYS && Written(span, slot, j, s, d) ::
            Filled(spans, s, d).None?
      {
        var day := span.days[j] - 1;
        forall s, d
          ensures Written(span, slot, j + 1, s, d) <==> Written(span, slot, j, s, d) || (s == slot && d == day)
        {
          AnotherDayWritten(span, slot, j, s, d);
        }
        if grid[slot, day].Some? {
          FilledByCoverer(spans, slot, day);
          assert Covers(span, slot, day);
          return false;
        }
        grid[slot, day] := Some(span.rate);
      }
      assert span.days[..|span.days|] == span.days;
    }
    NoOverlap(spans, span);
    return true;
  }

  lemma NoOverlap(spans: seq<Span>, span: Span)
    requires forall s, d | 0 <= s < SLOTS && 0 <= d < DAYS && Covers(span, s, d) :: Filled(spans, s, d).None?
    ensures forall k :: 0 <= k < |spans| ==> !Overlaps(spans[k], span)
  {
    forall s, d | 0 <= s < SLOTS && 0 <= d < DAYS && Covers(span, s, d)
      ensures forall k :: 0 <= k < |spans| ==> !Covers(spans[k], s, d)
    {
      FilledByCoverer(spans, s, d);
    }
  }

  lemma {:induction false} SpansGrow(periods: seq<Period>, n: nat)
    requires n < |periods|
    ensures Spans(periods[..n + 1]) == if Spans(periods[..n]).None? || PeriodValues(periods[n]).None? then None
                                       else Some(Spans(periods[..n]).value + [PeriodValues(periods[n]).value])
  {
    assert periods[..n + 1][..n] == periods[..n];
  }

  lemma {:induction false} SpansFailForGood(periods: seq<Period>, n: nat)
    requires n <= |periods| && (Spans(periods[..n]).None? || !Disjoint(Spans(periods[..n]).value))
    ensures Spans(periods).None? || !Disjoint(Spans(periods).value)
    decreases |periods| - n
  {
    if n == |periods| {
      assert periods[..n] == periods;
    } else {
      SpansGrow(periods, n);
      if Spans(periods[..n + 1]).Some? {
        var spans := Spans(periods[..n]).value;
        var j, k :| 0 <= j < k < |spans| && Overlaps(spans[j], spans[k]);
        var more := Spans(periods[..n + 1]).value;
        assert more[j] == spans[j] && more[k] == spans[k];
      }
      SpansFailForGood(periods, n + 1);
    }
  }

  lemma AnotherSpan(spans: seq<Span>, span: Span)
    requires Disjoint(spans)
    ensures Disjoint(spans + [span]) <==> forall k :: 0 <= k < |spans| ==> !Overlaps(spans[k], span)
  {
    var more := spans + [span];
    if Disjoint(more) {
      forall k | 0 <= k < |spans| ensures !Overlaps(spans[k], span) { assert !Overlaps(more[k], more[|spans|]); }
    }
  }

  method PeriodsGrid(periods: seq<Period>) returns (r: Option<Grid>)
    ensures r == Expanded(periods)
  {
    if periods == [] || |periods| > MAX_PERIODS { return None; }
    var grid := new Option<real>[SLOTS, DAYS]((s, d) => None);
    ghost var spans: seq<Span> := [];
    for i := 0 to |periods|
      invariant Spans(periods[..i]) == Some(spans) && Disjoint(spans)
      invariant forall s, d | 0 <= s < SLOTS && 0 <= d < DAYS :: grid[s, d] == Filled(spans, s, d)
    {
      SpansGrow(periods, i);
      var span := PeriodValues(periods[i]);
      if span.None? {
        SpansFailForGood(periods, i + 1);
        return None;
      }
      AnotherSpan(spans, span.value);
      var ok := FillPeriod(grid, span.value, spans);
      spans := spans + [span.value];
      if !ok {
        SpansFailForGood(periods, i + 1);
        return None;
      }
    }
    assert periods[..|periods|] == periods;
    r := CheckedRows(grid, spans);
  }

  /** The final look at the grid: every cell must hold a price. */
  method CheckedRows(grid: array2<Option<real>>, ghost spans: seq<Span>) returns (r: Option<Grid>)
    requires grid.Length0 == SLOTS && grid.Length1 == DAYS
    requires forall s, d | 0 <= s < SLOTS && 0 <= d < DAYS :: grid[s, d] == Filled(spans, s, d)
    ensures r.Some? <==> Complete(spans)
    ensures r.Some? ==> r.value == Rows(spans)
  {
    var rows: Grid := [];
    for s := 0 to SLOTS
      invariant |rows| == s
      invariant forall t, d | 0 <= t < s && 0 <= d < DAYS :: Filled(spans, t, d).Some?
      invariant forall t | 0 <= t < s ::
          |rows[t]| == DAYS && forall d | 0 <= d < DAYS :: Some(rows[t][d]) == Filled(spans, t, d)
    {
      var row: seq<real> := [];
      for d := 0 to DAYS
        invariant |row| == d && forall e | 0 <= e < d :: Filled(spans, s, e) == Some(row[e])
      {
        if grid[s, d].None? { return None; }
        row := row + [grid[s, d].value];
      }
      rows := rows + [row];
    }
    RowsAreUnique(spans, rows);
    r := Some(rows);
  }

  lemma RowsAreUnique(spans: seq<Span>, rows: Grid)
    requires Weekly(rows)
    requires forall s, d | 0 <= s < SLOTS && 0 <= d < DAYS :: Filled(spans, s, d) == Some(rows[s][d])
    ensures Complete(spans) && rows == Rows(spans)
  {
    assert forall s | 0 <= s < SLOTS :: rows[s] == Rows(spans)[s];
  }
}
