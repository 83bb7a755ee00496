/** Colour filters over creatures
    (client/src/components/filter/color-filter.ts) and the reducer that
    edits the active filter (client/src/components/filter/filter-context.ts).

    A filter is a JavaScript object, so its keys are strings: a colour is
    stored under its numeric enum value written out ("0" for red). The enum
    object also has the colour names as keys. */
module ColorFilters {
  import Staging

  type Pal = Staging.Pal

  datatype FilterColor = Red | Green | Blue | Purple

  /** The numeric value of a colour in the enum. */
  function Ordinal(c: FilterColor): (n: int)
    ensures 0 <= n < 4
  {
    match c
    case Red => 0
    case Green => 1
    case Blue => 2
    case Purple => 3
  }

  /** The property key a colour is stored under. */
  function Key(c: FilterColor): (k: string)
    ensures |k| == 1 && '0' <= k[0] <= '3'
  {
    match c
    case Red => "0"
    case Green => "1"
    case Blue => "2"
    case Purple => "3"
  }

  /** Different colours have different keys. */
  lemma KeyInjective(c: FilterColor, d: FilterColor)
    ensures Key(c) == Key(d) <==> c == d
  {
  }

  /** Every key of the enum object: the numeric values and the names. */
  function EnumKeys(): set<string> {
    {"0", "1", "2", "3", "Red", "Green", "Blue", "Purple"}
  }

  function ColorKeys(): set<string> {
    {"0", "1", "2", "3"}
  }

  type ColorFilter = map<string, bool>

  /** `initColorFilter`: every colour present and off. */
  function InitColorFilter(): (f: ColorFilter)
    ensures f.Keys == ColorKeys()
    ensures forall c: FilterColor :: Key(c) in f && !f[Key(c)]
  {
    map["0" := false, "1" := false, "2" := false, "3" := false]
  }

  /** A value of the enum object: a name or a colour. */
  datatype EnumValue = Name(name: string) | Value(color: FilterColor)

  /** `Object.values(FilterColor)`: the reverse mapping from the numeric
      keys to the names comes first, then the names' numeric values. */
  function EnumValues(): seq<EnumValue> {
    [Name("Red"), Name("Green"), Name("Blue"), Name("Purple"), Value(Red), Value(Green), Value(Blue), Value(Purple)]
  }

  /** The values that are not strings, in order. */
  function NonStrings(vs: seq<EnumValue>): (r: seq<FilterColor>)
    ensures |r| <= |vs|
  {
    if vs == [] then []
    else if vs[0].Value? then [vs[0].color] + NonStrings(vs[1..])
    else NonStrings(vs[1..])
  }

  /** Names in front of the values are dropped. */
  lemma {:induction false} NamesDropped(names: seq<EnumValue>, rest: seq<EnumValue>)
    requires forall i :: 0 <= i < |names| ==> names[i].Name?
    ensures NonStrings(names + rest) == NonStrings(rest)
  {
    if names != [] {
      assert (names + rest)[1..] == names[1..] + rest;
      NamesDropped(names[1..], rest);
    } else {
      assert names + rest == rest;
    }
  }

  /** Values are kept, in order. */
  lemma {:induction false} ValuesKept(vs: seq<EnumValue>)
    requires forall i :: 0 <= i < |vs| ==> vs[i].Value?
    ensures NonStrings(vs) == seq(|vs|, i requires 0 <= i < |vs| => vs[i].color)
  {
    if vs != [] {
      ValuesKept(vs[1..]);
    }
  }

  /** `enumerateColors`. */
  function EnumerateColors(): seq<FilterColor> {
    NonStrings(EnumValues())
  }

  /** The colours come out once each, in declaration order. */
  lemma EnumerateColorsInOrder()
    ensures EnumerateColors() == [Red, Green, Blue, Purple]
  {
    var names := [Name("Red"), Name("Green"), Name("Blue"), Name("Purple")];
    var values := [Value(Red), Value(Green), Value(Blue), Value(Purple)];
    assert EnumValues() == names + values;
    NamesDropped(names, values);
    ValuesInOrder();
  }

  /** The four enum values are kept in declaration order. */
  lemma ValuesInOrder()
    ensures NonStrings([Value(Red), Value(Green), Value(Blue), Value(Purple)]) == [Red, Green, Blue, Purple]
  {
    var values := [Value(Red), Value(Green), Value(Blue), Value(Purple)];
    assert values[1..] == [Value(Green), Value(Blue), Value(Purple)];
    assert values[1..][1..] == [Value(Blue), Value(Purple)];
    assert values[1..][1..][1..] == [Value(Purple)];
    assert NonStrings([Value(Purple)]) == [Purple];
    assert NonStrings([Value(Blue), Value(Purple)]) == [Blue, Purple];
    assert NonStrings([Value(Green), Value(Blue), Value(Purple)]) == [Green, Blue, Purple];
  }

  /** `asColorFilter`: the stored object spread over the all-off filter,
      keeping only keys of the enum object. Stored values are taken to be
      booleans. */
  function AsColorFilter(stored: map<string, bool>): (f: ColorFilter)
    ensures forall c: FilterColor :: Key(c) in f && f[Key(c)] == (Key(c) in stored && stored[Key(c)])
    ensures forall k :: k in f <==> k in ColorKeys() || (k in stored && k in EnumKeys())
    ensures forall k :: k in f && k in stored ==> f[k] == stored[k]
  {
    var init := InitColorFilter();
    var f := map k | k in (init.Keys + stored.Keys) * EnumKeys() :: if k in stored then stored[k] else init[k];
    assert forall c: FilterColor :: Key(c) in init.Keys * EnumKeys();
    f
  }

  /** Loading a filter that already has every colour and no foreign key
      gives it back. */
  lemma AsColorFilterKeeps(f: ColorFilter)
    requires f.Keys == ColorKeys()
    ensures AsColorFilter(f) == f
  {
  }

  /** `styleColor`: each colour its own background, black for any other
      number. */
  function StyleColor(color: int): (bg: string)
    ensures bg == "black" <==> !(0 <= color < 4)
  {
    if color == 0 then "red"
    else if color == 1 then "green"
    else if color == 2 then "blue"
    else if color == 3 then "purple"
    else "black"
  }

  /** The four colours get four different backgrounds. */
  lemma StyleColorDistinct(c: FilterColor, d: FilterColor)
    ensures StyleColor(Ordinal(c)) == StyleColor(Ordinal(d)) <==> c == d
  {
  }

  /** The filter of each creature type. */
  type PalFilters = map<string, ColorFilter>

  /** Some value of the filter is on (`Object.values(filter).reduce`). */
  predicate AnyActive(filter: ColorFilter) {
    exists k :: k in filter && filter[k]
  }

  /** The `reduce` over `colors`: is some colour on in both filters? A
      colour missing from either is skipped. */
  function SharedAmong(colors: seq<FilterColor>, filter: ColorFilter, palFilter: ColorFilter): bool {
    if colors == [] then false
    else
      var k := Key(colors[0]);
      var here := k in filter && k in palFilter && palFilter[k] && filter[k];
      SharedAmong(colors[1..], filter, palFilter) || here
  }

  /** Both filters have some colour of `colors` on. */
  predicate SharesColor(colors: seq<FilterColor>, filter: ColorFilter, palFilter: ColorFilter) {
    exists i :: (0 <= i < |colors| && Key(colors[i]) in filter && Key(colors[i]) in palFilter
      && palFilter[Key(colors[i])] && filter[Key(colors[i])])
  }

  /** The fold finds a shared colour exactly when there is one. */
  lemma {:induction false} SharedAmongIff(colors: seq<FilterColor>, filter: ColorFilter, palFilter: ColorFilter)
    ensures SharedAmong(colors, filter, palFilter) <==> SharesColor(colors, filter, palFilter)
  {
    if colors != [] {
      SharedAmongIff(colors[1..], filter, palFilter);
      if SharesColor(colors[1..], filter, palFilter) {
        var i :| 0 <= i < |colors[1..]| && Key(colors[1..][i]) in filter && Key(colors[1..][i]) in palFilter
          && palFilter[Key(colors[1..][i])] && filter[Key(colors[1..][i])];
        assert colors[1..][i] == colors[i + 1];
      }
      if SharesColor(colors, filter, palFilter) {
        var i :| 0 <= i < |colors| && Key(colors[i]) in filter && Key(colors[i]) in palFilter
          && palFilter[Key(colors[i])] && filter[Key(colors[i])];
        if i > 0 {
          assert colors[i] == colors[1..][i - 1];
        }
      }
    }
  }

  /** Whether a creature passes the active filter. */
  predicate Matches(pal: Pal, filters: PalFilters, filter: ColorFilter) {
    pal.kind in filters && SharedAmong(EnumerateColors(), filter, filters[pal.kind])
  }

  /** A creature passes exactly when its type has a filter and some colour
      is on in both that filter and the active one. */
  lemma MatchesIff(pal: Pal, filters: PalFilters, filter: ColorFilter)
    ensures Matches(pal, filters, filter) <==>
      (pal.kind in filters && exists c: FilterColor :: (Key(c) in filter && Key(c) in filters[pal.kind]
        && filters[pal.kind][Key(c)] && filter[Key(c)]))
  {
    EnumerateColorsInOrder();
    if pal.kind in filters {
      var colors := EnumerateColors();
      var palFilter := filters[pal.kind];
      SharedAmongIff(colors, filter, palFilter);
      if SharesColor(colors, filter, palFilter) {
        var i :| 0 <= i < |colors| && Key(colors[i]) in filter && Key(colors[i]) in palFilter
          && palFilter[Key(colors[i])] && filter[Key(colors[i])];
        var c := colors[i];
        assert Key(c) in filter && Key(c) in palFilter && palFilter[Key(c)] && filter[Key(c)];
      }
      if exists c: FilterColor :: (Key(c) in filter && Key(c) in palFilter && palFilter[Key(c)] && filter[Key(c)]) {
        var c: FilterColor :| Key(c) in filter && Key(c) in palFilter && palFilter[Key(c)] && filter[Key(c)];
        assert colors[Ordinal(c)] == c;
      }
    }
  }

  /** `pals.filter(keep)`. */
  function KeepWhere(pals: seq<Pal>, keep: Pal -> bool): (r: seq<Pal>)
    ensures |r| <= |pals|
    ensures forall p :: p in r <==> p in pals && keep(p)
    ensures (forall p :: p in pals ==> !keep(p)) ==> r == []
  {
    if pals == [] then []
    else if keep(pals[0]) then [pals[0]] + KeepWhere(pals[1..], keep)
    else KeepWhere(pals[1..], keep)
  }

  /** Filtering keeps the order: the kept creatures of two lists in a row
      are those of the first followed by those of the second. */
  lemma {:induction false} KeepWhereAppend(a: seq<Pal>, b: seq<Pal>, keep: Pal -> bool)
    ensures KeepWhere(a + b, keep) == KeepWhere(a, keep) + KeepWhere(b, keep)
  {
    if a != [] {
      assert (a + b)[0] == a[0] && (a + b)[1..] == a[1..] + b;
      KeepWhereAppend(a[1..], b, keep);
      var restA := KeepWhere(a[1..], keep);
      var keptB := KeepWhere(b, keep);
      if keep(a[0]) {
        assert KeepWhere(a + b, keep) == [a[0]] + (restA + keptB);
        assert KeepWhere(a, keep) == [a[0]] + restA;
        assert [a[0]] + (restA + keptB) == ([a[0]] + restA) + keptB;
      } else {
        assert KeepWhere(a + b, keep) == restA + keptB;
        assert KeepWhere(a, keep) == restA;
      }
    } else {
      assert a + b == b;
    }
  }

  /** Filtering a filtered list changes nothing. */
  lemma {:induction false} KeepWhereIdempotent(pals: seq<Pal>, keep: Pal -> bool)
    ensures KeepWhere(KeepWhere(pals, keep), keep) == KeepWhere(pals, keep)
  {
    if pals != [] {
      KeepWhereIdempotent(pals[1..], keep);
      var rest := KeepWhere(pals[1..], keep);
      if keep(pals[0]) {
        assert ([pals[0]] + rest)[1..] == rest;
      }
    }
  }

  /** `filterPals`: with no colour on, every creature; otherwise the ones
      that match, in their order. */
  function FilterPals(pals: seq<Pal>, filters: PalFilters, filter: ColorFilter): (r: seq<Pal>)
    ensures !AnyActive(filter) ==> r == pals
    ensures AnyActive(filter) ==> r == KeepWhere(pals, p => Matches(p, filters, filter))
  {
    if !AnyActive(filter) then pals else KeepWhere(pals, p => Matches(p, filters, filter))
  }

  /** With some colour on, a creature is listed exactly when its type has
      a filter sharing an active colour with the active filter. */
  lemma FilterPalsKeeps(pals: seq<Pal>, filters: PalFilters, filter: ColorFilter, p: Pal)
    requires AnyActive(filter)
    ensures p in FilterPals(pals, filters, filter) <==> (p in pals && p.kind in filters
      && exists c: FilterColor :: (Key(c) in filter && Key(c) in filters[p.kind]
        && filters[p.kind][Key(c)] && filter[Key(c)]))
  {
    MatchesIff(p, filters, filter);
  }

  /** A filter whose only true value sits under a colour name is active
      but matches no creature, so the list comes out empty. */
  lemma NameKeyHidesAll(pals: seq<Pal>, filters: PalFilters)
    ensures FilterPals(pals, filters, InitColorFilter()["Red" := true]) == []
  {
    var filter := InitColorFilter()["Red" := true];
    assert AnyActive(filter) by { assert "Red" in filter && filter["Red"]; }
    forall p | p in pals ensures !Matches(p, filters, filter) {
      MatchesIff(p, filters, filter);
    }
  }

  // --------------------------------------------------------------- reducer

  datatype ColorFilterAction = Clear | Toggle(color: FilterColor) | Other

  /** `reduceColorFilter`: CLEAR turns everything off; TOGGLE negates one
      colour, a missing one counting as off; anything else copies. */
  function ReduceColorFilter(filter: ColorFilter, action: ColorFilterAction): (r: ColorFilter)
    ensures action.Clear? ==> r == InitColorFilter()
    ensures action.Other? ==> r == filter
    ensures action.Toggle? ==> (Key(action.color) in r
      && r[Key(action.color)] == !(Key(action.color) in filter && filter[Key(action.color)]))
    ensures action.Toggle? ==> forall k :: k != Key(action.color) ==> (k in r <==> k in filter) && (k in r ==> r[k] == filter[k])
  {
    match action
    case Clear => InitColorFilter()
    case Toggle(c) => filter[Key(c) := !(Key(c) in filter && filter[Key(c)])]
    case Other => filter
  }

  /** Clearing twice is clearing once. */
  lemma ClearIdempotent(filter: ColorFilter)
    ensures ReduceColorFilter(ReduceColorFilter(filter, Clear), Clear) == ReduceColorFilter(filter, Clear)
  {
  }

  /** Toggling a present colour twice restores the filter; toggling a
      missing one twice leaves it present and off. */
  lemma ToggleTwice(filter: ColorFilter, c: FilterColor)
    ensures Key(c) in filter ==> ReduceColorFilter(ReduceColorFilter(filter, Toggle(c)), Toggle(c)) == filter
    ensures Key(c) !in filter ==> ReduceColorFilter(ReduceColorFilter(filter, Toggle(c)), Toggle(c)) == filter[Key(c) := false]
  {
    var once := ReduceColorFilter(filter, Toggle(c));
    var twice := ReduceColorFilter(once, Toggle(c));
    if Key(c) in filter {
      assert twice == filter;
    } else {
      assert twice == filter[Key(c) := false];
    }
  }

  /** Applies actions in order. */
  function ReduceAll(filter: ColorFilter, actions: seq<ColorFilterAction>): ColorFilter
    decreases |actions|
  {
    if actions == [] then filter else ReduceAll(ReduceColorFilter(filter, actions[0]), actions[1..])
  }

  /** From the initial filter, every sequence of actions keeps exactly the
      four colour keys: the reducer never adds a foreign key or loses a
      colour. */
  lemma {:induction false} ReachableHasColorKeys(filter: ColorFilter, actions: seq<ColorFilterAction>)
    requires filter.Keys == ColorKeys()
    ensures ReduceAll(filter, actions).Keys == ColorKeys()
    decreases |actions|
  {
    if actions != [] {
      var next := ReduceColorFilter(filter, actions[0]);
      if actions[0].Toggle? {
        assert Key(actions[0].color) in ColorKeys();
        assert next.Keys == filter.Keys + {Key(actions[0].color)};
      }
      ReachableHasColorKeys(next, actions[1..]);
    }
  }
}
