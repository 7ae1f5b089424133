/**
 * The quote catalogue (src/data/quotes.ts): 120 quotes with ids "1" to "120",
 * the category view over it, and the quote of the day picked from the date.
 * The text and author of each entry are not part of the model: no operation
 * reads them.
 */
module Quotes {
  import opened Js

  datatype Category = Success | Health | Relationships | PersonalGrowth

  /** The category as the catalogue and the pages write it. */
  function Name(c: Category): string {
    match c
    case Success => "success"
    case Health => "health"
    case Relationships => "relationships"
    case PersonalGrowth => "personal-growth"
  }

  /** Different categories have different names, and none is called "all". */
  lemma NameInjective(c1: Category, c2: Category)
    ensures Name(c1) == Name(c2) <==> c1 == c2
    ensures Name(c1) != "all"
  {
  }

  /** `isFavorite` is absent (None) on every catalogue entry. */
  datatype Quote = Quote(id: string, category: Category, isFavorite: Option<bool>)

  /** The category of each catalogue entry, in catalogue order. */
  const CatalogueCategories: seq<Category> :=
    [
      Success, Success, PersonalGrowth, Success, PersonalGrowth, Health, Health, Health,
      Relationships, PersonalGrowth, PersonalGrowth, Success, PersonalGrowth, PersonalGrowth,
      Relationships, Success, Success, Success, Success, Success, Success, Success, Success,
      Success, Success, Success, Success, Success, Success, Success, Success, Success,
      Success, Success, Success, Success, Success, Success, Success, Success, PersonalGrowth,
      PersonalGrowth, PersonalGrowth, PersonalGrowth, PersonalGrowth, PersonalGrowth,
      PersonalGrowth, PersonalGrowth, PersonalGrowth, PersonalGrowth, PersonalGrowth,
      PersonalGrowth, PersonalGrowth, PersonalGrowth, PersonalGrowth, PersonalGrowth,
      PersonalGrowth, PersonalGrowth, PersonalGrowth, PersonalGrowth, PersonalGrowth,
      PersonalGrowth, PersonalGrowth, PersonalGrowth, PersonalGrowth, PersonalGrowth,
      PersonalGrowth, PersonalGrowth, PersonalGrowth, PersonalGrowth, PersonalGrowth,
      PersonalGrowth, PersonalGrowth, PersonalGrowth, PersonalGrowth, PersonalGrowth,
      PersonalGrowth, PersonalGrowth, PersonalGrowth, PersonalGrowth, Health, Health, Health,
      Health, Health, Health, Health, Health, Health, Health, Health, Health, Health, Health,
      Health, Health, Health, Health, Health, Health, Relationships, Relationships,
      Relationships, Relationships, Relationships, Relationships, Relationships,
      Relationships, Relationships, Relationships, Relationships, Relationships,
      Relationships, Relationships, Relationships, Relationships, Relationships,
      Relationships, Relationships, Relationships
    ]

  const CatalogueSize: nat := 120

  /** `quotes`: entry i has id i + 1 written in decimal. */
  function Catalogue(): (r: seq<Quote>)
    ensures |r| == CatalogueSize
  {
    assert |CatalogueCategories| == CatalogueSize;
    seq(CatalogueSize, i requires 0 <= i < CatalogueSize =>
      Quote(NatToString(i + 1), CatalogueCategories[i], None))
  }

  /** The ids are "1" to "120", each once, and no entry is marked as a favourite. */
  lemma CatalogueIds(i: nat, j: nat)
    requires i < CatalogueSize && j < CatalogueSize
    ensures Catalogue()[i].id == IntToString(i + 1)
    ensures Catalogue()[i].id == Catalogue()[j].id <==> i == j
    ensures Catalogue()[i].isFavorite.None?
  {
    if Catalogue()[i].id == Catalogue()[j].id {
      NatToStringInjective(i + 1, j + 1);
    }
  }

  function HasCategoryName(category: string): Quote -> bool {
    (q: Quote) => Name(q.category) == category
  }

  /** `getQuotesByCategory`: the whole catalogue for "all", otherwise the entries of that
      category in catalogue order. */
  function ByCategory(category: string): (r: seq<Quote>)
    ensures category == "all" ==> r == Catalogue()
    ensures category != "all" ==>
              && (forall i :: 0 <= i < |r| ==> r[i] in Catalogue() && Name(r[i].category) == category)
              && (forall i :: 0 <= i < CatalogueSize && Name(Catalogue()[i].category) == category
                    ==> Catalogue()[i] in r)
  {
    if category == "all" then Catalogue() else Filter(Catalogue(), HasCategoryName(category))
  }

  // ---------------------------------------------------------------------------
  // The quote of the day
  // ---------------------------------------------------------------------------

  /** The local date as `Date` reports it: `getMonth()` counts from 0. */
  datatype CalendarDate = CalendarDate(year: int, month: nat, day: nat)

  predicate ValidDate(d: CalendarDate) {
    d.month < 12 && 1 <= d.day <= 31
  }

  /** `year * 10000 + (month + 1) * 100 + date` */
  function Seed(d: CalendarDate): int {
    d.year * 10000 + (d.month + 1) * 100 + d.day
  }

  /** `quotes[seed % quotes.length]` with JavaScript's remainder, which is negative for a
      negative seed; a negative index reads `undefined` (None). */
  function DailyQuote(d: CalendarDate): (r: Option<Quote>)
    requires ValidDate(d)
    ensures r.None? <==> Seed(d) < 0 && (-Seed(d)) % CatalogueSize != 0
    ensures d.year >= 0 ==> r == Some(Catalogue()[Seed(d) % CatalogueSize])
  {
    var index := JsRem(Seed(d), CatalogueSize);
    if index >= 0 then Some(Catalogue()[index]) else None
  }

  /** From year 0 on there is always a quote of the day, and the next day of the same
      month picks the next catalogue entry, wrapping after the last. */
  lemma NextDayNextQuote(d: CalendarDate)
    requires ValidDate(d) && d.year >= 0 && d.day < 31
    ensures var next := d.(day := d.day + 1);
            var i := Seed(d) % CatalogueSize;
            DailyQuote(next) == Some(Catalogue()[(i + 1) % CatalogueSize])
  {
    var next := d.(day := d.day + 1);
    assert Seed(next) == Seed(d) + 1;
    NextIndex(Seed(d));
  }

  lemma NextIndex(s: nat)
    ensures (s + 1) % CatalogueSize == (s % CatalogueSize + 1) % CatalogueSize
  {
    var q := s / CatalogueSize;
    if s % CatalogueSize + 1 == CatalogueSize {
      assert s + 1 == (q + 1) * CatalogueSize;
    }
  }

  /** Before year 0 the index can be negative, and then there is no quote of the day:
      1 January of year -1 gives the seed -9899 and the index -59. */
  lemma NegativeYearHasNoQuote()
    ensures DailyQuote(CalendarDate(-1, 0, 1)).None?
  {
    assert Seed(CalendarDate(-1, 0, 1)) == -9899;
  }
}
