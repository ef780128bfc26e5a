/**
 The forecast horizon and the per-key truncation of Open-Meteo's `daily` object.
 A `daily` object maps a field name (`time`, `weathercode`,
 `temperature_2m_max`, ...) to either an array (`Series`) or some other JSON
 value (`Single`).
 */
module Daily {
  import opened Wrappers

  datatype Cell = Null | Number(n: int) | Str(s: string)

  datatype Field = Series(items: seq<Cell>) | Single(value: Cell)

  type DailyMap = map<string, Field>

  function Min(a: int, b: int): int { if a <= b then a else b }

  function Max(a: int, b: int): int { if a >= b then a else b }

  const DefaultDays := 5
  const MaxDays := 14

  /** `Math.max(1, Math.min(14, Number(days) || 5))`; `None` is a missing or non-numeric
      `days`, which like 0 falls back to the default. */
  function Horizon(days: Option<int>): (r: int)
    ensures 1 <= r <= MaxDays
    ensures days.None? || days == Some(0) ==> r == DefaultDays
    ensures days.Some? && 1 <= days.value <= MaxDays ==> r == days.value
    ensures days.Some? && days.value > MaxDays ==> r == MaxDays
    ensures days.Some? && days.value < 0 ==> r == 1
  {
    var requested := if days.Some? && days.value != 0 then days.value else DefaultDays;
    Max(1, Min(MaxDays, requested))
  }

  /** `Array.isArray(v) ? v.slice(0, limit) : v` */
  function Truncate(f: Field, limit: nat): (r: Field)
    ensures r.Single? <==> f.Single?
    ensures f.Single? ==> r == f
    ensures f.Series? ==> |r.items| == Min(|f.items|, limit) && r.items <= f.items
  {
    match f
    case Series(items) => Series(if |items| <= limit then items else items[..limit])
    case Single(_) => f
  }

  /** The `sliceDaily` loop over `Object.keys(daily)` */
  function SliceDaily(daily: DailyMap, limit: nat): (r: DailyMap)
    ensures r.Keys == daily.Keys
    ensures forall k | k in daily :: r[k] == Truncate(daily[k], limit)
  {
    map k | k in daily :: Truncate(daily[k], limit)
  }

  /** Every array field of `daily` has length n */
  ghost predicate Aligned(daily: DailyMap, n: nat) {
    forall k | k in daily && daily[k].Series? :: |daily[k].items| == n
  }

  /** Every array field is a prefix of its original of length min(original, limit), every
      other field is unchanged, and arrays of equal length keep equal lengths. */
  lemma SliceKeepsAlignment(daily: DailyMap, n: nat, limit: nat)
    requires Aligned(daily, n)
    ensures Aligned(SliceDaily(daily, limit), Min(n, limit))
    ensures forall k | k in daily && daily[k].Series? ::
      SliceDaily(daily, limit)[k].items == daily[k].items[..Min(n, limit)]
    ensures forall k | k in daily && daily[k].Single? :: SliceDaily(daily, limit)[k] == daily[k]
  {
  }

  lemma TruncateTwice(f: Field, a: nat, b: nat)
    ensures Truncate(Truncate(f, a), b) == Truncate(f, Min(a, b))
  {
    if f.Series? {
      var xs := f.items;
      assert Truncate(f, a).items == xs[..Min(|xs|, a)];
      assert Truncate(Truncate(f, a), b).items == xs[..Min(|xs|, Min(a, b))];
    }
  }

  /** Truncating to a and then to b is truncating to the smaller of the two. */
  lemma SliceTwice(daily: DailyMap, a: nat, b: nat)
    ensures SliceDaily(SliceDaily(daily, a), b) == SliceDaily(daily, Min(a, b))
  {
    var once := SliceDaily(daily, a);
    forall k | k in daily
      ensures SliceDaily(once, b)[k] == SliceDaily(daily, Min(a, b))[k]
    {
      TruncateTwice(daily[k], a, b);
    }
  }

  /** Truncation to the same horizon is idempotent. */
  lemma SliceIdempotent(daily: DailyMap, limit: nat)
    ensures SliceDaily(SliceDaily(daily, limit), limit) == SliceDaily(daily, limit)
  {
    SliceTwice(daily, limit, limit);
  }

  /** `daily[key] || []` read as an array; a non-array value is read as no entries */
  function SeriesAt(daily: DailyMap, key: string): seq<Cell> {
    if key in daily && daily[key].Series? then daily[key].items else []
  }

  /** The weather code a cell carries, `None` for `null`, a missing entry or a string */
  function CodeAt(cells: seq<Cell>, i: int): Option<int> {
    if 0 <= i < |cells| && cells[i].Number? then Some(cells[i].n) else None
  }

  /** The array read back after truncation is the truncated array. */
  lemma SeriesAfterSlice(daily: DailyMap, key: string, limit: nat)
    ensures |SeriesAt(SliceDaily(daily, limit), key)| == Min(|SeriesAt(daily, key)|, limit)
    ensures SeriesAt(SliceDaily(daily, limit), key) <= SeriesAt(daily, key)
  {
  }
}
