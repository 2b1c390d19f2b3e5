/** The pure logic of the dashboard component (src/App.jsx): reading an
    input box as a number, building a card's payload and rendering its
    result, the category/search filter and its counters, the id lookup, the
    pinned/recent projections of the sidebar, and the effect of focusing a
    calculator on the view. */
module Dashboard {
  import opened Wrappers
  import opened JsNumber
  import opened Text
  import opened FieldNormalizer
  import opened Catalogue
  import opened QuickAccess

  // ---- asNumber ----

  /** A value held for an input box: the text typed into it, or a number. */
  datatype Raw = Str(s: string) | Number(n: Num) | Null | Undefined

  /** `Number(s)` on a string. The empty string reads as 0 and a string of
      decimal digits as its decimal value; every other form (signs,
      fractions, exponents, surrounding blanks, hexadecimal, rubbish) is left
      to the given parser. */
  function ParseNumber(s: string, parseOther: string -> Num): Num {
    if s == "" then Fin(0.0)
    else if AllDigits(s) then Fin(DigitsValue(s) as real)
    else parseOther(s)
  }

  /** `asNumber = (v) => Number(v || 0)`: every falsy value becomes 0. */
  function AsNumber(v: Raw, parseOther: string -> Num): (n: Num)
    ensures v.Null? || v.Undefined? || v == Str("") ==> n == Fin(0.0)
    ensures v.Number? ==> n == (if v.n.NaN? then Fin(0.0) else v.n)
    ensures n.NaN? ==> v.Str? && v.s != "" && !AllDigits(v.s)
    ensures v.Str? && v.s != "" && AllDigits(v.s) ==> n == Fin(DigitsValue(v.s) as real)
  {
    match v
    case Str(s) => if s == "" then Fin(0.0) else ParseNumber(s, parseOther)
    case Number(x) => if x == Fin(0.0) || x.NaN? then Fin(0.0) else x
    case Null => Fin(0.0)
    case Undefined => Fin(0.0)
  }

  /** An empty box and a box holding "0" both read as 0. */
  lemma EmptyAndZeroAgree(parseOther: string -> Num)
    ensures AsNumber(Str(""), parseOther) == Fin(0.0)
    ensures AsNumber(Str("0"), parseOther) == Fin(0.0)
  {
    assert AllDigits("0") && DigitsValue("0") == 0;
  }

  /** Typing the decimal text of a natural number reads back that number. */
  lemma AsNumberOfNatText(n: nat, parseOther: string -> Num)
    ensures AsNumber(Str(NatText(n)), parseOther) == Fin(n as real)
  {
    NatTextRoundTrip(n);
  }

  /** The payload of a card: every held value read by `asNumber`. */
  function PayloadOf(values: map<string, Raw>, parseOther: string -> Num): (p: Payload)
    ensures p.Keys == values.Keys
    ensures forall k | k in values :: p[k] == AsNumber(values[k], parseOther)
  {
    map k | k in values :: AsNumber(values[k], parseOther)
  }

  // ---- result rendering ----

  /** What a card shows as its result: the formatter's text, the number
      with four decimals (`toFixed(4)`, whose digits are not modelled), or
      the infinity glyph. */
  datatype Output = Formatted(text: string) | Fixed4(value: real) | InfinityGlyph

  /** `calc.formatter ? calc.formatter(result) : Number.isFinite(result) ?
      result.toFixed(4) : '∞'`. */
  function Render(formatter: Option<Formatter>, result: Num): (o: Output)
    ensures formatter.Some? <==> o.Formatted?
    ensures formatter.Some? ==> o.text == Format(formatter.value, result)
    ensures formatter.None? ==> (o.Fixed4? <==> result.Fin?)
    ensures o.Fixed4? ==> result == Fin(o.value)
  {
    match formatter
    case Some(f) => Formatted(Format(f, result))
    case None => if IsFinite(result) then Fixed4(result.r) else InfinityGlyph
  }

  /** The text after the result: the unit, except for the unit 'status'. */
  function UnitSuffix(unit: string): (s: string)
    ensures unit == "status" ==> s == ""
    ensures unit != "status" ==> s == unit
  {
    if unit != "status" then unit else ""
  }

  /** A card's result line: the rendered result and the unit suffix. */
  function Card(c: Calculator<FieldSpec>, lib: MathLib, values: map<string, Raw>,
                parseOther: string -> Num): (Output, string)
  {
    (Render(c.formatter, Compute(c.formula, lib, PayloadOf(values, parseOther))), UnitSuffix(c.unit))
  }

  /** The Dose Constraint card (id 48) shows PASS exactly when the delivered
      dose does not exceed the constraint, FAIL otherwise, and never a
      unit. */
  lemma DoseConstraintCardShowsPassFail(lib: MathLib, values: map<string, Raw>, parseOther: string -> Num)
    requires "deliveredDose" in values && "constraintDose" in values
    ensures var card := Card(NormalizeCalculator(Declared[4].calculators[7]), lib, values, parseOther);
      var delivered := AsNumber(values["deliveredDose"], parseOther);
      var constraint := AsNumber(values["constraintDose"], parseOther);
      card.1 == ""
      && (card.0 == Formatted("PASS \U{2705}") <==> Le(delivered, constraint))
      && (card.0 == Formatted("FAIL \U{274C}") <==> !Le(delivered, constraint))
  {
    DoseConstraintCalculator();
    var p := PayloadOf(values, parseOther);
    Formulas.DoseConstraintPassFail(Arg(p, "deliveredDose"), Arg(p, "constraintDose"));
  }

  // ---- filteredCategories ----

  /** A calculator of a category passes the filter when the category
      selection matches and the lower-cased query occurs in the lower-cased
      "name title". */
  predicate Keep(categoryId: string, categoryTitle: string, name: string, query: string, selected: string) {
    (selected == "all" || categoryId == selected) && Contains(Lower(name + " " + categoryTitle), Lower(query))
  }

  predicate KeepEntry(e: Entry, query: string, selected: string) {
    Keep(e.categoryId, e.categoryTitle, e.calculator.name, query, selected)
  }

  /** The calculators of one category that pass the filter, in order. */
  function KeepCalculators(cs: seq<Calculator<FieldSpec>>, categoryId: string, categoryTitle: string,
                           query: string, selected: string): (r: seq<Calculator<FieldSpec>>)
    ensures forall c :: c in r <==> c in cs && Keep(categoryId, categoryTitle, c.name, query, selected)
    ensures |r| <= |cs|
  {
    if cs == [] then []
    else (if Keep(categoryId, categoryTitle, cs[0].name, query, selected) then [cs[0]] else [])
         + KeepCalculators(cs[1..], categoryId, categoryTitle, query, selected)
  }

  function FilterCategory(cat: Category<FieldSpec>, query: string, selected: string): Category<FieldSpec> {
    cat.(calculators := KeepCalculators(cat.calculators, cat.id, cat.title, query, selected))
  }

  /** `filteredCategories`: each category keeps the calculators that pass,
      and categories left empty are dropped. */
  function FilterCategories(cats: seq<Category<FieldSpec>>, query: string, selected: string)
    : (r: seq<Category<FieldSpec>>)
    ensures forall c | c in r :: |c.calculators| > 0
    ensures |r| <= |cats|
  {
    if cats == [] then []
    else
      var head := FilterCategory(cats[0], query, selected);
      (if |head.calculators| > 0 then [head] else []) + FilterCategories(cats[1..], query, selected)
  }

  /** The reference filter on the flat list of tagged calculators. */
  function FilterEntries(es: seq<Entry>, query: string, selected: string): (r: seq<Entry>)
    ensures forall e :: e in r <==> e in es && KeepEntry(e, query, selected)
  {
    if es == [] then []
    else (if KeepEntry(es[0], query, selected) then [es[0]] else []) + FilterEntries(es[1..], query, selected)
  }

  lemma {:induction false} FilterEntriesAppend(a: seq<Entry>, b: seq<Entry>, query: string, selected: string)
    ensures FilterEntries(a + b, query, selected) == FilterEntries(a, query, selected) + FilterEntries(b, query, selected)
  {
    if a == [] {
      assert a + b == b;
    } else {
      assert (a + b)[0] == a[0] && (a + b)[1..] == a[1..] + b;
      FilterEntriesAppend(a[1..], b, query, selected);
      var first := if KeepEntry(a[0], query, selected) then [a[0]] else [];
      assert FilterEntries(a + b, query, selected) == first + FilterEntries(a[1..] + b, query, selected);
      assert FilterEntries(a, query, selected) == first + FilterEntries(a[1..], query, selected);
    }
  }

  lemma {:induction false} TagFilter(cs: seq<Calculator<FieldSpec>>, id: string, title: string, color: string,
                                     query: string, selected: string)
    ensures Tag(Category(id, title, color, KeepCalculators(cs, id, title, query, selected)))
            == FilterEntries(Tag(Category(id, title, color, cs)), query, selected)
  {
    if cs != [] {
      var whole := Tag(Category(id, title, color, cs));
      var rest := Tag(Category(id, title, color, cs[1..]));
      assert whole == [whole[0]] + rest;
      TagFilter(cs[1..], id, title, color, query, selected);
      FilterEntriesAppend([whole[0]], rest, query, selected);
      var kept := KeepCalculators(cs[1..], id, title, query, selected);
      if Keep(id, title, cs[0].name, query, selected) {
        var t := Tag(Category(id, title, color, [cs[0]] + kept));
        assert t == [whole[0]] + Tag(Category(id, title, color, kept));
      }
    }
  }

  /** Filtering the categories and then flattening them gives the flat list
      of tagged calculators filtered by the reference filter. */
  lemma {:induction false} FilterThenFlatten(cats: seq<Category<FieldSpec>>, query: string, selected: string)
    ensures AllCalculators(FilterCategories(cats, query, selected))
            == FilterEntries(AllCalculators(cats), query, selected)
  {
    if cats != [] {
      var head := FilterCategory(cats[0], query, selected);
      var rest := FilterCategories(cats[1..], query, selected);
      FilterThenFlatten(cats[1..], query, selected);
      TagFilter(cats[0].calculators, cats[0].id, cats[0].title, cats[0].color, query, selected);
      assert Category(cats[0].id, cats[0].title, cats[0].color, cats[0].calculators) == cats[0];
      FilterEntriesAppend(Tag(cats[0]), AllCalculators(cats[1..]), query, selected);
      if |head.calculators| > 0 {
        var r := [head] + rest;
        assert r[0] == head && r[1..] == rest;
      } else {
        assert Tag(head) == [];
        assert [] + rest == rest;
      }
    }
  }

  /** A calculator is shown exactly when it is in the catalogue and passes
      the filter. */
  lemma ShownIff(cats: seq<Category<FieldSpec>>, query: string, selected: string, e: Entry)
    ensures e in AllCalculators(FilterCategories(cats, query, selected))
            <==> e in AllCalculators(cats) && KeepEntry(e, query, selected)
  {
    FilterThenFlatten(cats, query, selected);
  }

  /** `stats.visible`: the number of calculators shown. */
  function Visible(cats: seq<Category<FieldSpec>>, query: string, selected: string): nat {
    Count(FilterCategories(cats, query, selected))
  }

  /** The visible counter equals the number of tagged calculators that pass
      the filter. */
  lemma VisibleCountsKept(cats: seq<Category<FieldSpec>>, query: string, selected: string)
    ensures Visible(cats, query, selected) == |FilterEntries(AllCalculators(cats), query, selected)|
  {
    FilterThenFlatten(cats, query, selected);
  }

  lemma {:induction false} KeepAllCalculators(cs: seq<Calculator<FieldSpec>>, id: string, title: string)
    ensures KeepCalculators(cs, id, title, "", "all") == cs
  {
    if cs != [] {
      ContainsEmpty(Lower(cs[0].name + " " + title));
      KeepAllCalculators(cs[1..], id, title);
    }
  }

  /** With an empty query and every category selected, nothing is filtered
      out of a catalogue without empty categories. */
  lemma {:induction false} DefaultFilterKeepsAll(cats: seq<Category<FieldSpec>>)
    requires forall c | c in cats :: |c.calculators| > 0
    ensures FilterCategories(cats, "", "all") == cats
  {
    if cats != [] {
      KeepAllCalculators(cats[0].calculators, cats[0].id, cats[0].title);
      assert FilterCategory(cats[0], "", "all") == cats[0];
      DefaultFilterKeepsAll(cats[1..]);
    }
  }

  // ---- calculatorsById ----

  /** `calculatorsById[id]`: `Object.fromEntries` keeps the last entry with a
      given id. */
  function ById(es: seq<Entry>, id: int): (r: Option<Entry>)
    ensures r.None? <==> forall e | e in es :: e.calculator.id != id
    ensures r.Some? ==> r.value in es && r.value.calculator.id == id
    ensures r.Some? ==> exists k | 0 <= k < |es| :: es[k] == r.value
                          && forall m | k < m < |es| :: es[m].calculator.id != id
  {
    if es == [] then None
    else if es[|es| - 1].calculator.id == id then Some(es[|es| - 1])
    else
      var r := ById(es[..|es| - 1], id);
      assert forall e | e in es :: e in es[..|es| - 1] || e == es[|es| - 1];
      r
  }

  // ---- quickPinned / quickRecent ----

  /** The catalogue entries of the given ids, in order, skipping unknown
      ids. */
  function Known(es: seq<Entry>, ids: seq<int>): (r: seq<Entry>)
    ensures |r| <= |ids|
    ensures forall e | e in r :: e in es && e.calculator.id in ids && ById(es, e.calculator.id) == Some(e)
    ensures forall id | id in ids && ById(es, id).Some? :: ById(es, id).value in r
    ensures (forall id | id in ids :: ById(es, id).Some?) ==>
      |r| == |ids| && forall i | 0 <= i < |ids| :: r[i] == ById(es, ids[i]).value
  {
    if ids == [] then []
    else
      (match ById(es, ids[0]) case Some(e) => [e] case None => []) + Known(es, ids[1..])
  }

  /** Looking up a concatenation of id lists concatenates the lookups, so
      the entries come out in the order of their ids. */
  lemma {:induction false} KnownAppend(es: seq<Entry>, a: seq<int>, b: seq<int>)
    ensures Known(es, a + b) == Known(es, a) + Known(es, b)
  {
    if a != [] {
      assert (a + b)[0] == a[0] && (a + b)[1..] == a[1..] + b;
      KnownAppend(es, a[1..], b);
      var head := match ById(es, a[0]) case Some(e) => [e] case None => [];
      assert Known(es, a + b) == head + Known(es, a[1..] + b);
      assert Known(es, a) == head + Known(es, a[1..]);
    } else {
      assert a + b == b;
    }
  }

  /** `quickPinned`. */
  function QuickPinned(es: seq<Entry>, pinned: seq<int>): seq<Entry> {
    Known(es, pinned)
  }

  /** `recentIds.filter((id) => !pinnedIds.includes(id))`. */
  function Unpinned(recent: seq<int>, pinned: seq<int>): (r: seq<int>)
    ensures forall id :: id in r <==> id in recent && id !in pinned
    ensures |r| <= |recent|
  {
    if recent == [] then []
    else (if recent[0] in pinned then [] else [recent[0]]) + Unpinned(recent[1..], pinned)
  }

  /** The unpinned recent ids keep their order from the recent list. */
  lemma {:induction false} UnpinnedKeepsOrder(recent: seq<int>, pinned: seq<int>)
    ensures SubsequenceOf(Unpinned(recent, pinned), recent)
  {
    if recent != [] {
      UnpinnedKeepsOrder(recent[1..], pinned);
      if recent[0] !in pinned {
        var r := Unpinned(recent, pinned);
        assert r[0] == recent[0] && r[1..] == Unpinned(recent[1..], pinned);
      } else {
        assert Unpinned(recent, pinned) == Unpinned(recent[1..], pinned);
      }
    }
  }

  /** `quickRecent`. */
  function QuickRecent(es: seq<Entry>, recent: seq<int>, pinned: seq<int>): seq<Entry> {
    Known(es, Unpinned(recent, pinned))
  }

  /** `quickRecent.slice(0, 5)`, the recent entries actually shown. */
  function ShownRecent(es: seq<Entry>, recent: seq<int>, pinned: seq<int>): seq<Entry> {
    var r := QuickRecent(es, recent, pinned);
    if |r| <= 5 then r else r[..5]
  }

  /** The pinned group lists catalogue calculators with pinned ids, and
      every pinned id of the catalogue; the recent group shows at most five
      catalogue calculators, none of them pinned. */
  lemma QuickAccessGroups(es: seq<Entry>, recent: seq<int>, pinned: seq<int>)
    ensures forall e | e in QuickPinned(es, pinned) :: e in es && e.calculator.id in pinned
    ensures forall id | id in pinned && ById(es, id).Some? :: ById(es, id).value in QuickPinned(es, pinned)
    ensures |ShownRecent(es, recent, pinned)| <= 5
    ensures ShownRecent(es, recent, pinned) <= QuickRecent(es, recent, pinned)
    ensures forall e | e in ShownRecent(es, recent, pinned) ::
      e in es && e.calculator.id in recent && e.calculator.id !in pinned
  {
    var r := QuickRecent(es, recent, pinned);
    forall e | e in ShownRecent(es, recent, pinned)
      ensures e in es && e.calculator.id in recent && e.calculator.id !in pinned
    {
      assert e in r;
    }
  }

  // ---- focusCalculator ----

  /** The parts of the dashboard state that focusing a calculator changes. */
  datatype View = View(query: string, selectedCategory: string, recent: seq<int>)

  /** `focusCalculator`: an unknown id changes nothing; a known one selects
      its category, clears the search and is touched in the recent list. */
  function FocusCalculator(es: seq<Entry>, v: View, id: int): (w: View)
    ensures ById(es, id).None? ==> w == v
    ensures ById(es, id).Some? ==>
      w.selectedCategory == ById(es, id).value.categoryId && w.query == ""
      && w.recent == TouchRecent(v.recent, id)
  {
    match ById(es, id)
    case None => v
    case Some(e) => View("", e.categoryId, TouchRecent(v.recent, id))
  }

  /** After focusing a calculator of the catalogue it is shown, and it heads
      the recent list. */
  lemma FocusShowsCalculator(cats: seq<Category<FieldSpec>>, v: View, id: int)
    requires ById(AllCalculators(cats), id).Some?
    ensures var w := FocusCalculator(AllCalculators(cats), v, id);
      ById(AllCalculators(cats), id).value in AllCalculators(FilterCategories(cats, w.query, w.selectedCategory))
      && w.recent[0] == id
  {
    var e := ById(AllCalculators(cats), id).value;
    var w := FocusCalculator(AllCalculators(cats), v, id);
    ContainsEmpty(Lower(e.calculator.name + " " + e.categoryTitle));
    assert KeepEntry(e, w.query, w.selectedCategory);
    ShownIff(cats, w.query, w.selectedCategory, e);
  }
}
