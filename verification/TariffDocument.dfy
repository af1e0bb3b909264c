/**
 Whole tariffs: metadata, seasons, and the normalisation of compact schedules and of legacy or version-2
 exports to version 2. `zones` tells which time zones exist. Every refusal is None.
 */
module TariffDocument {
  import opened Prelude
  import opened Tariff

  type RawGrid = seq<seq<Option<real>>>

  datatype Rates = NoRates | Periods(periods: seq<Period>) | Cells(cells: RawGrid)

  datatype Season = Season(name: Field<string>, months: Field<seq<Option<int>>>, rates: Rates)

  /** A parsed document; `rates` is what it holds under the key its kind reads. */
  datatype Document = Document(compact: bool, version: Option<int>, name: Field<string>, currency: Field<string>,
                               timeZone: Field<string>, source: Field<string>, billingDay: Field<int>,
                               reference: Field<string>, rates: Rates, seasons: Field<seq<Season>>)

  datatype NormalSeason = NormalSeason(name: string, months: seq<int>, rates: Grid)

  datatype Metadata = Metadata(name: string, currency: string, timeZone: string, source: string,
                               billingDay: Option<int>, reference: Option<string>)

  datatype Plan = Plan(metadata: Metadata, rates: Grid, seasons: seq<NormalSeason>)

  // ---------------------------------------------------------------- texts

  predicate Blank(c: char) {
    var n := c as int;
    || 9 <= n <= 13 || 28 <= n <= 32 || n == 133 || n == 160 || n == 0x1680 || 0x2000 <= n <= 0x200A
    || n == 0x2028 || n == 0x2029 || n == 0x202F || n == 0x205F || n == 0x3000
  }

  function Strip(text: string): (r: string)
    ensures |r| <= |text| && (r == "" || (!Blank(r[0]) && !Blank(r[|r| - 1])))
    decreases |text|
  {
    if text == "" then ""
    else if Blank(text[0]) then Strip(text[1..])
    else if Blank(text[|text| - 1]) then Strip(text[..|text| - 1])
    else text
  }

  function Text(value: Field<string>, limit: nat): (r: Option<string>)
    ensures r.Some? ==> r.value != "" && Strip(r.value) == r.value && |r.value| <= limit
  {
    if !value.Present? || Strip(value.value) == "" || |value.value| > limit then None else Some(Strip(value.value))
  }

  predicate Currency(text: string) {
    |text| == 3 && forall k :: 0 <= k < 3 ==> 'A' <= text[k] <= 'Z'
  }

  function SourceOf(d: Document): Option<string> {
    match d.source
    case Absent => if d.compact then Some("manual") else None
    case Invalid => None
    case Present(s) => if s == "manual" || s == "emporia" then Some(s) else None
  }

  predicate BillingOk(billingDay: Field<int>) {
    billingDay.Absent? || (billingDay.Present? && 1 <= billingDay.value <= 31)
  }

  predicate ReferenceOk(reference: Field<string>) {
    reference.Absent? || (reference.Present? && |reference.value| <= 200)
  }

  function MetadataOf(zones: string -> bool, d: Document): Option<Metadata> {
    var zone := Text(d.timeZone, 100);
    var name := Text(d.name, 120);
    if !d.currency.Present? || !Currency(d.currency.value) || zone.None? || !zones(zone.value) || SourceOf(d).None?
       || name.None? || !BillingOk(d.billingDay) || !ReferenceOk(d.reference) then None
    else Some(Metadata(name.value, d.currency.value, zone.value, SourceOf(d).value,
                       if d.billingDay.Present? then Some(d.billingDay.value) else None,
                       if d.reference.Present? && d.reference.value != "" then Some(d.reference.value) else None))
  }

  // ---------------------------------------------------------------- weekly grids

  predicate Filled48(cells: RawGrid) {
    && |cells| == SLOTS
    && forall s :: 0 <= s < |cells| ==> |cells[s]| == DAYS && forall d :: 0 <= d < |cells[s]| ==> cells[s][d].Some?
  }

  function CheckedGrid(cells: RawGrid): (r: Option<Grid>)
    ensures r.Some? ==> Weekly(r.value)
  {
    if !Filled48(cells) then None
    else Some(seq(SLOTS, s requires 0 <= s < SLOTS => seq(DAYS, d requires 0 <= d < DAYS => cells[s][d].value)))
  }

  /** Compact documents hold periods, all others hold grids. */
  function Convert(compact: bool, rates: Rates): Option<Grid> {
    match rates
    case NoRates => None
    case Periods(periods) => if compact then Expanded(periods) else None
    case Cells(cells) => if compact then None else CheckedGrid(cells)
  }

  // ---------------------------------------------------------------- seasons

  function Insert(x: int, sorted: seq<int>): seq<int> {
    if sorted == [] || x <= sorted[0] then [x] + sorted else [sorted[0]] + Insert(x, sorted[1..])
  }

  function Sort(months: seq<int>): seq<int> {
    if months == [] then [] else Insert(months[|months| - 1], Sort(months[..|months| - 1]))
  }

  /** The months used so far, with these ones; None at the first that is no month or used already. */
  function UseMonths(months: seq<Option<int>>, used: set<int>): Option<set<int>> {
    if months == [] then Some(used)
    else
      var n := |months| - 1;
      var earlier := UseMonths(months[..n], used);
      if earlier.None? || months[n].None? || !(1 <= months[n].value <= 12) || months[n].value in earlier.value then None
      else Some(earlier.value + {months[n].value})
  }

  predicate AllNumbers(months: seq<Option<int>>) {
    forall k :: 0 <= k < |months| ==> months[k].Some?
  }

  function OneSeason(compact: bool, season: Season, used: set<int>): Option<(NormalSeason, set<int>)> {
    if !season.months.Present? || season.months.value == [] then None
    else
      var used' := UseMonths(season.months.value, used);
      var name := Text(season.name, 80);
      var rates := Convert(compact, season.rates);
      if used'.None? || name.None? || rates.None? || !AllNumbers(season.months.value) then None
      else Some((NormalSeason(name.value, Sort(Unwrap(season.months.value)), rates.value), used'.value))
  }

  function Seasons(compact: bool, seasons: seq<Season>): Option<(seq<NormalSeason>, set<int>)> {
    if seasons == [] then Some(([], {}))
    else
      var n := |seasons| - 1;
      var earlier := Seasons(compact, seasons[..n]);
      if earlier.None? then None
      else
        var one := OneSeason(compact, seasons[n], earlier.value.1);
        if one.None? then None else Some((earlier.value.0 + [one.value.0], one.value.1))
  }

  function SeasonGrids(compact: bool, seasons: Field<seq<Season>>): Option<seq<NormalSeason>> {
    if !seasons.Present? || |seasons.value| > MAX_SEASONS || Seasons(compact, seasons.value).None? then None
    else Some(Seasons(compact, seasons.value).value.0)
  }

  /** Adds the months of one season to those used, unless one is no month or used already. */
  method CollectMonths(months: seq<Option<int>>, before: set<int>) returns (r: Option<set<int>>)
    ensures r == UseMonths(months, before)
    ensures r.Some? ==> AllNumbers(months)
  {
    var used := before;
    for j := 0 to |months|
      invariant UseMonths(months[..j], before) == Some(used)
      invariant forall k :: 0 <= k < j ==> months[k].Some?
    {
      assert months[..j + 1][..j] == months[..j];
      if months[j].None? || !(1 <= months[j].value <= 12) || months[j].value in used {
        MonthsFailForGood(months, before, j + 1);
        return None;
      }
      used := used + {months[j].value};
    }
    assert months[..|months|] == months;
    r := Some(used);
  }

  method CollectSeason(compact: bool, season: Season, used: set<int>) returns (r: Option<(NormalSeason, set<int>)>)
    ensures r == OneSeason(compact, season, used)
  {
    if !season.months.Present? || season.months.value == [] { return None; }
    var more := CollectMonths(season.months.value, used);
    var name := Text(season.name, 80);
    var rates := Convert(compact, season.rates);
    if more.None? || name.None? || rates.None? { return None; }
    r := Some((NormalSeason(name.value, Sort(Unwrap(season.months.value)), rates.value), more.value));
  }

  /** The same, looping over the seasons with a growing set of used months. */
  method CollectSeasons(compact: bool, seasons: seq<Season>) returns (r: Option<seq<NormalSeason>>)
    ensures r == SeasonGrids(compact, Present(seasons))
  {
    if |seasons| > MAX_SEASONS { return None; }
    var used: set<int> := {};
    var result := [];
    for i := 0 to |seasons|
      invariant Seasons(compact, seasons[..i]) == Some((result, used))
    {
      assert seasons[..i + 1][..i] == seasons[..i];
      var season := CollectSeason(compact, seasons[i], used);
      if season.None? {
        SeasonsFailForGood(compact, seasons, i + 1);
        return None;
      }
      result := result + [season.value.0];
      used := season.value.1;
    }
    assert seasons[..|seasons|] == seasons;
    r := Some(result);
  }

  lemma {:induction false} MonthsFailForGood(months: seq<Option<int>>, used: set<int>, n: nat)
    requires n <= |months| && UseMonths(months[..n], used).None?
    ensures UseMonths(months, used).None?
    decreases |months| - n
  {
    if n == |months| {
      assert months[..n] == months;
    } else {
      assert months[..n + 1][..n] == months[..n];
      MonthsFailForGood(months, used, n + 1);
    }
  }

  lemma {:induction false} SeasonsFailForGood(compact: bool, seasons: seq<Season>, n: nat)
    requires n <= |seasons| && Seasons(compact, seasons[..n]).None?
    ensures Seasons(compact, seasons).None?
    decreases |seasons| - n
  {
    if n == |seasons| {
      assert seasons[..n] == seasons;
    } else {
      assert seasons[..n + 1][..n] == seasons[..n];
      SeasonsFailForGood(compact, seasons, n + 1);
    }
  }

  // ---------------------------------------------------------------- the whole document

  predicate VersionOk(d: Document) {
    && d.version.Some? && 1 <= d.version.value <= 2 && (d.compact ==> d.version.value == 1)
    && (!d.compact && d.version.value == 1 ==> d.seasons.Absent? && d.billingDay.Absent?)
  }

  /** Only a version-2 export has to name its seasons. */
  function SeasonsField(d: Document): Field<seq<Season>> {
    if d.seasons.Absent? && (d.compact || d.version == Some(1)) then Present([]) else d.seasons
  }

  function Validate(zones: string -> bool, d: Document): Option<Plan> {
    var metadata := MetadataOf(zones, d);
    var rates := Convert(d.compact, d.rates);
    var seasons := SeasonGrids(d.compact, SeasonsField(d));
    if !VersionOk(d) || metadata.None? || rates.None? || seasons.None? then None
    else Some(Plan(metadata.value, rates.value, seasons.value))
  }

  // ---------------------------------------------------------------- seasons come out sorted and disjoint

  predicate Ascending(months: seq<int>) {
    forall j, k :: 0 <= j < k < |months| ==> months[j] < months[k]
  }

  predicate Ordered(months: seq<int>) {
    forall j, k :: 0 <= j < k < |months| ==> months[j] <= months[k]
  }

  lemma {:induction false} InsertAdds(x: int, sorted: seq<int>)
    ensures multiset(Insert(x, sorted)) == multiset(sorted) + multiset{x}
  {
    if sorted != [] && x > sorted[0] {
      InsertAdds(x, sorted[1..]);
      assert sorted == [sorted[0]] + sorted[1..];
    }
  }

  lemma {:induction false} InsertKeepsOrder(x: int, sorted: seq<int>)
    requires Ordered(sorted)
    ensures Ordered(Insert(x, sorted))
    ensures Insert(x, sorted) != [] && Insert(x, sorted)[0] == if sorted == [] || x <= sorted[0] then x else sorted[0]
  {
    if sorted != [] && x > sorted[0] {
      InsertKeepsOrder(x, sorted[1..]);
      var rest := Insert(x, sorted[1..]);
      assert sorted[0] <= rest[0];
      assert forall k :: 0 <= k < |rest| ==> rest[0] <= rest[k];
    }
  }

  lemma {:induction false} SortSorts(months: seq<int>)
    ensures Ordered(Sort(months)) && multiset(Sort(months)) == multiset(months)
  {
    if months != [] {
      var n := |months| - 1;
      var sorted := Sort(months[..n]);
      SortSorts(months[..n]);
      InsertKeepsOrder(months[n], sorted);
      InsertAdds(months[n], sorted);
      assert months == months[..n] + [months[n]];
      assert multiset(months) == multiset(months[..n]) + multiset{months[n]};
      assert Sort(months) == Insert(months[n], sorted);
    }
  }

  lemma {:induction false} InsertLast(x: int, sorted: seq<int>)
    requires Ascending(sorted + [x])
    ensures Insert(x, sorted) == sorted + [x]
    decreases |sorted|
  {
    if sorted != [] {
      assert sorted[0] == (sorted + [x])[0] < (sorted + [x])[|sorted|] == x;
      assert forall j, k :: 0 <= j < k < |sorted[1..] + [x]| ==>
        (sorted[1..] + [x])[j] == (sorted + [x])[j + 1] < (sorted + [x])[k + 1] == (sorted[1..] + [x])[k];
      InsertLast(x, sorted[1..]);
    }
  }

  lemma {:induction false} SortOfSorted(months: seq<int>)
    requires Ascending(months)
    ensures Sort(months) == months
  {
    if months != [] {
      var n := |months| - 1;
      SortOfSorted(months[..n]);
      assert months == months[..n] + [months[n]];
      InsertLast(months[n], months[..n]);
    }
  }

  /** Months that may be used: real months, new ones, each once. */
  predicate Usable(months: multiset<int>, used: set<int>) {
    forall m :: m in months ==> 1 <= m <= 12 && m !in used && months[m] == 1
  }

  ghost function Elements(months: multiset<int>): set<int> {
    set m | m in months
  }

  lemma OneMoreMonth(before: multiset<int>, m: int, used: set<int>)
    ensures Usable(before + multiset{m}, used) <==> Usable(before, used) && 1 <= m <= 12 && m !in used && m !in before
    ensures Elements(before + multiset{m}) == Elements(before) + {m}
  {
    var after := before + multiset{m};
    if Usable(after, used) {
      assert m in after;
      forall k | k in before ensures 1 <= k <= 12 && k !in used && before[k] == 1 { assert k in after; }
    }
  }

  lemma {:induction false} UseMonthsExactly(months: seq<int>, used: set<int>)
    ensures UseMonths(Wrap(months), used).Some? <==> Usable(multiset(months), used)
    ensures UseMonths(Wrap(months), used).Some?
        ==> UseMonths(Wrap(months), used).value == used + Elements(multiset(months))
  {
    if months == [] {
      assert Elements(multiset(months)) == {};
    } else {
      var n := |months| - 1;
      UseMonthsExactly(months[..n], used);
      assert Wrap(months)[..n] == Wrap(months[..n]);
      assert months == months[..n] + [months[n]];
      assert multiset(months) == multiset(months[..n]) + multiset{months[n]};
      OneMoreMonth(multiset(months[..n]), months[n], used);
      assert months[n] in Elements(multiset(months[..n])) <==> months[n] in multiset(months[..n]);
    }
  }

  function Wrap(months: seq<int>): seq<Option<int>> {
    seq(|months|, k requires 0 <= k < |months| => Some(months[k]))
  }

  lemma WrapUnwraps(values: seq<Option<int>>)
    requires forall k :: 0 <= k < |values| ==> values[k].Some?
    ensures Wrap(Unwrap(values)) == values
  {
  }

  lemma UnwrapWraps(months: seq<int>)
    ensures Unwrap(Wrap(months)) == months
  {
  }

  /** Reading months back sorted uses exactly the same months. */
  lemma SortedMonthsReadBack(months: seq<int>, used: set<int>)
    requires UseMonths(Wrap(months), used).Some?
    ensures UseMonths(Wrap(Sort(months)), used) == UseMonths(Wrap(months), used)
    ensures Ascending(Sort(months)) && Sort(Sort(months)) == Sort(months)
    ensures forall m :: m in Sort(months) ==> 1 <= m <= 12 && m !in used
    ensures UseMonths(Wrap(months), used).value == used + MonthSet(Sort(months))
  {
    SortSorts(months);
    UseMonthsExactly(months, used);
    UseMonthsExactly(Sort(months), used);
    var sorted := Sort(months);
    forall m | m in sorted ensures 1 <= m <= 12 && m !in used { assert m in multiset(sorted); }
    forall j, k | 0 <= j < k < |sorted| ensures sorted[j] < sorted[k] { OnceIsOnce(sorted, j, k); }
    SortOfSorted(sorted);
    assert forall m :: m in sorted <==> m in multiset(sorted);
    assert MonthSet(sorted) == Elements(multiset(months));
  }

  lemma OnceIsOnce(s: seq<int>, j: nat, k: nat)
    requires j < k < |s| && forall m :: m in multiset(s) ==> multiset(s)[m] == 1
    ensures s[j] != s[k]
  {
    var before := s[..k];
    assert s == before + [s[k]] + s[k + 1..];
    assert before[j] == s[j] && before[j] in multiset(before);
    assert multiset(s) == multiset(before) + multiset{s[k]} + multiset(s[k + 1..]);
    assert s[j] in multiset(s);
  }

  function MonthSet(months: seq<int>): set<int> {
    set m | m in months
  }

  predicate InYear(months: seq<int>) {
    forall m :: m in months ==> 1 <= m <= 12
  }

  predicate Apart(a: seq<int>, b: seq<int>) {
    forall m :: m in a ==> m !in b
  }

  predicate SeasonOk(season: NormalSeason) {
    Ascending(season.months) && season.months != [] && InYear(season.months) && Weekly(season.rates)
  }

  /** Every season is well formed, no two share a month, and `used` holds all their months. */
  predicate SeasonsOk(seasons: seq<NormalSeason>, used: set<int>) {
    && (forall k :: 0 <= k < |seasons| ==> SeasonOk(seasons[k]) && MonthSet(seasons[k].months) <= used)
    && (forall j, k :: 0 <= j < k < |seasons| ==> Apart(seasons[j].months, seasons[k].months))
  }

  lemma ConvertIsWeekly(compact: bool, rates: Rates)
    ensures Convert(compact, rates).Some? ==> Weekly(Convert(compact, rates).value)
  {
    if rates.Periods? { ExpansionIsExactCover(rates.periods); }
  }

  lemma AnotherSeasonOk(seasons: seq<NormalSeason>, used: set<int>, one: NormalSeason, used': set<int>)
    requires SeasonsOk(seasons, used) && SeasonOk(one) && MonthSet(one.months) !! used
    requires used' == used + MonthSet(one.months)
    ensures SeasonsOk(seasons + [one], used')
  {
    forall j | 0 <= j < |seasons| ensures Apart(seasons[j].months, one.months) {
      forall m | m in seasons[j].months ensures m !in one.months { assert m in MonthSet(seasons[j].months); }
    }
  }

  lemma OneSeasonOk(compact: bool, season: Season, used: set<int>)
    requires OneSeason(compact, season, used).Some?
    ensures
      var (one, used') := OneSeason(compact, season, used).value;
      && SeasonOk(one) && MonthSet(one.months) !! used && used' == used + MonthSet(one.months)
  {
    var months := Unwrap(season.months.value);
    WrapUnwraps(season.months.value);
    SortedMonthsReadBack(months, used);
    SortKeepsLength(months);
    ConvertIsWeekly(compact, season.rates);
  }

  lemma SortKeepsLength(months: seq<int>)
    ensures |Sort(months)| == |months|
  {
    SortSorts(months);
    assert |multiset(Sort(months))| == |multiset(months)|;
  }

  lemma ConvertReadsBack(compact: bool, season: Season, one: NormalSeason)
    requires Convert(compact, season.rates) == Some(one.rates)
    ensures Convert(false, ReadBack(one).rates) == Some(one.rates)
  {
    ConvertIsWeekly(compact, season.rates);
    GridReadsBack(one.rates);
  }

  lemma NormalSeasonReadsBack(one: NormalSeason, used: set<int>)
    requires Convert(false, ReadBack(one).rates) == Some(one.rates) && Text(Present(one.name), 80) == Some(one.name)
    requires one.months != [] && Sort(one.months) == one.months && UseMonths(Wrap(one.months), used).Some?
    ensures OneSeason(false, ReadBack(one), used) == Some((one, UseMonths(Wrap(one.months), used).value))
  {
    UnwrapWraps(one.months);
  }

  lemma OneSeasonReadsBack(compact: bool, season: Season, used: set<int>)
    requires OneSeason(compact, season, used).Some?
    ensures
      var (one, used') := OneSeason(compact, season, used).value;
      OneSeason(false, ReadBack(one), used) == Some((one, used'))
  {
    var months := Unwrap(season.months.value);
    WrapUnwraps(season.months.value);
    SortedMonthsReadBack(months, used);
    SortKeepsLength(months);
    var one := OneSeason(compact, season, used).value.0;
    ConvertReadsBack(compact, season, one);
    NormalSeasonReadsBack(one, used);
  }

  lemma {:induction false} SeasonsAreOk(compact: bool, seasons: seq<Season>)
    requires Seasons(compact, seasons).Some?
    ensures SeasonsOk(Seasons(compact, seasons).value.0, Seasons(compact, seasons).value.1)
    ensures |Seasons(compact, seasons).value.0| == |seasons|
  {
    if seasons != [] {
      var n := |seasons| - 1;
      SeasonsAreOk(compact, seasons[..n]);
      var (earlier, used) := Seasons(compact, seasons[..n]).value;
      OneSeasonOk(compact, seasons[n], used);
      var (one, used') := OneSeason(compact, seasons[n], used).value;
      AnotherSeasonOk(earlier, used, one, used');
    }
  }

  /** Every accepted tariff has full weekly grids, at most 12 seasons, and season months that come out
      sorted, within 1 to 12 and pairwise disjoint. */
  lemma SeasonsAreSortedAndDisjoint(zones: string -> bool, d: Document)
    requires Validate(zones, d).Some?
    ensures
      var plan := Validate(zones, d).value;
      && Weekly(plan.rates) && |plan.seasons| <= MAX_SEASONS
      && (forall k :: 0 <= k < |plan.seasons| ==> SeasonOk(plan.seasons[k]))
      && (forall j, k :: 0 <= j < k < |plan.seasons| ==> Apart(plan.seasons[j].months, plan.seasons[k].months))
  {
    ConvertIsWeekly(d.compact, d.rates);
    SeasonsAreOk(d.compact, SeasonsField(d).value);
  }

  // ---------------------------------------------------------------- normalisation is idempotent

  function Raw(grid: Grid): RawGrid {
    seq(|grid|, s requires 0 <= s < |grid| => seq(|grid[s]|, d requires 0 <= d < |grid[s]| => Some(grid[s][d])))
  }

  lemma GridReadsBack(grid: Grid)
    requires Weekly(grid)
    ensures CheckedGrid(Raw(grid)) == Some(grid)
  {
    var cells := Raw(grid);
    assert Filled48(cells);
    var read := CheckedGrid(cells).value;
    forall s | 0 <= s < SLOTS ensures read[s] == grid[s] {
      assert forall d | 0 <= d < DAYS :: read[s][d] == cells[s][d].value == grid[s][d];
    }
    assert read == grid;
  }

  function ReadBack(season: NormalSeason): Season {
    Season(Present(season.name), Present(Wrap(season.months)), Cells(Raw(season.rates)))
  }

  function ReadAllBack(seasons: seq<NormalSeason>): (r: seq<Season>)
    ensures |r| == |seasons|
  {
    if seasons == [] then [] else ReadAllBack(seasons[..|seasons| - 1]) + [ReadBack(seasons[|seasons| - 1])]
  }

  /** A normalised plan as the version-2 document it is saved as. */
  function DocumentOf(plan: Plan): Document {
    var m := plan.metadata;
    Document(false, Some(2), Present(m.name), Present(m.currency), Present(m.timeZone), Present(m.source),
             if m.billingDay.Some? then Present(m.billingDay.value) else Absent,
             if m.reference.Some? then Present(m.reference.value) else Absent,
             Cells(Raw(plan.rates)), Present(ReadAllBack(plan.seasons)))
  }

  lemma {:induction false} SeasonsReadBack(compact: bool, seasons: seq<Season>)
    requires Seasons(compact, seasons).Some?
    ensures Seasons(false, ReadAllBack(Seasons(compact, seasons).value.0)) == Seasons(compact, seasons)
  {
    if seasons != [] {
      var n := |seasons| - 1;
      SeasonsReadBack(compact, seasons[..n]);
      var (earlier, used) := Seasons(compact, seasons[..n]).value;
      OneSeasonReadsBack(compact, seasons[n], used);
      var (one, _) := OneSeason(compact, seasons[n], used).value;
      assert (earlier + [one])[..|earlier|] == earlier;
      assert ReadAllBack(earlier + [one])[..|earlier|] == ReadAllBack(earlier);
    }
  }

  lemma MetadataReadsBack(zones: string -> bool, d: Document, plan: Plan)
    requires MetadataOf(zones, d) == Some(plan.metadata)
    ensures MetadataOf(zones, DocumentOf(plan)) == Some(plan.metadata)
  {
  }

  lemma RatesReadBack(compact: bool, rates: Rates)
    requires Convert(compact, rates).Some?
    ensures Convert(false, Cells(Raw(Convert(compact, rates).value))) == Convert(compact, rates)
  {
    ConvertIsWeekly(compact, rates);
    GridReadsBack(Convert(compact, rates).value);
  }

  lemma SeasonGridsReadBack(compact: bool, seasons: Field<seq<Season>>)
    requires SeasonGrids(compact, seasons).Some?
    ensures SeasonGrids(false, Present(ReadAllBack(SeasonGrids(compact, seasons).value)))
        == SeasonGrids(compact, seasons)
  {
    SeasonsReadBack(compact, seasons.value);
    SeasonsAreOk(compact, seasons.value);
  }

  /** Whatever was accepted, compact, legacy or version 2: the normalised tariff is accepted again as it
      is, and normalises to itself. */
  lemma NormalisationIsIdempotent(zones: string -> bool, d: Document)
    requires Validate(zones, d).Some?
    ensures Validate(zones, DocumentOf(Validate(zones, d).value)) == Validate(zones, d)
  {
    var plan := Validate(zones, d).value;
    MetadataReadsBack(zones, d, plan);
    RatesReadBack(d.compact, d.rates);
    SeasonGridsReadBack(d.compact, SeasonsField(d));
    var again := DocumentOf(plan);
    assert VersionOk(again) && SeasonsField(again) == Present(ReadAllBack(plan.seasons));
  }
}
