/**
 * The quote store shared by the pages (src/context/QuoteContext.tsx): the
 * quote of the day, the catalogue with its favourite flags, the favourites
 * list and the selected category, and the two operations that add and remove
 * a favourite. Saving the favourites to local storage is not modelled; the
 * saved list is a constructor parameter.
 */
module QuoteContext {
  import opened Js
  import opened Quotes

  /** The selected category: `'all'` or one of the four. */
  datatype Selection = All | Only(category: Category)

  function InCategory(c: Category): Quote -> bool {
    (q: Quote) => q.category == c
  }

  /** `filteredQuotes` */
  function FilteredQuotes(allQuotes: seq<Quote>, selected: Selection): (r: seq<Quote>)
    ensures selected.All? ==> r == allQuotes
    ensures selected.Only? ==>
              && |r| <= |allQuotes|
              && (forall i :: 0 <= i < |r| ==> r[i] in allQuotes && r[i].category == selected.category)
              && (forall i :: 0 <= i < |allQuotes| && allQuotes[i].category == selected.category
                    ==> allQuotes[i] in r)
  {
    match selected
    case All => allQuotes
    case Only(c) => Filter(allQuotes, InCategory(c))
  }

  function HasId(id: string): Quote -> bool {
    (q: Quote) => q.id == id
  }

  function OtherId(id: string): Quote -> bool {
    (q: Quote) => q.id != id
  }

  /** `favorites.some(fav => fav.id === id)` */
  predicate HasFavorite(favorites: seq<Quote>, id: string) {
    exists i :: 0 <= i < |favorites| && favorites[i].id == id
  }

  /** No id occurs twice. */
  predicate UniqueIds(quotes: seq<Quote>) {
    forall i, j :: 0 <= i < j < |quotes| ==> quotes[i].id != quotes[j].id
  }

  /** `prev.map(q => q.id === id ? { ...q, isFavorite: flag } : q)` */
  function Marked(quotes: seq<Quote>, id: string, flag: bool): (r: seq<Quote>)
    ensures |r| == |quotes|
    ensures forall i :: 0 <= i < |r| ==>
              && r[i].id == quotes[i].id && r[i].category == quotes[i].category
              && (quotes[i].id == id ==> r[i].isFavorite == Some(flag))
              && (quotes[i].id != id ==> r[i] == quotes[i])
  {
    seq(|quotes|, i requires 0 <= i < |quotes| =>
      if quotes[i].id == id then quotes[i].(isFavorite := Some(flag)) else quotes[i])
  }

  /** The quote of the day with its flag set when it is the quote concerned. */
  function MarkedDaily(daily: Quote, id: string, flag: bool): Quote {
    if daily.id == id then daily.(isFavorite := Some(flag)) else daily
  }

  datatype QuoteState = QuoteState(dailyQuote: Quote, allQuotes: seq<Quote>, favorites: seq<Quote>)

  /** `addToFavorites`: the first catalogue quote with the id, when it is not yet a
      favourite, is appended once, flagged, and flagged in the catalogue and in the quote
      of the day; for an unknown id or an existing favourite nothing changes. */
  function AddFavorite(st: QuoteState, id: string): (r: QuoteState)
    ensures !(exists i :: 0 <= i < |st.allQuotes| && st.allQuotes[i].id == id) ==> r == st
    ensures HasFavorite(st.favorites, id) ==> r == st
    ensures (exists i :: 0 <= i < |st.allQuotes| && st.allQuotes[i].id == id)
            && !HasFavorite(st.favorites, id) ==>
              && |r.favorites| == |st.favorites| + 1
              && r.favorites[..|st.favorites|] == st.favorites
              && (exists k :: 0 <= k < |st.allQuotes| && st.allQuotes[k].id == id
                              && (forall j :: 0 <= j < k ==> st.allQuotes[j].id != id)
                              && r.favorites[|st.favorites|] == st.allQuotes[k].(isFavorite := Some(true)))
              && r.allQuotes == Marked(st.allQuotes, id, true)
              && r.dailyQuote == MarkedDaily(st.dailyQuote, id, true)
  {
    var found := Find(st.allQuotes, HasId(id));
    if found.Some? && !HasFavorite(st.favorites, id) then
      QuoteState(MarkedDaily(st.dailyQuote, id, true), Marked(st.allQuotes, id, true),
                 st.favorites + [found.value.(isFavorite := Some(true))])
    else st
  }

  /** `removeFromFavorites`: every favourite with that id goes, the others stay in order,
      and the flag is cleared in the catalogue and in the quote of the day. */
  function RemoveFavorite(st: QuoteState, id: string): (r: QuoteState)
    ensures !HasFavorite(r.favorites, id)
    ensures forall i :: 0 <= i < |st.favorites| && st.favorites[i].id != id ==>
              st.favorites[i] in r.favorites
    ensures forall i :: 0 <= i < |r.favorites| ==> r.favorites[i] in st.favorites
    ensures r.allQuotes == Marked(st.allQuotes, id, false)
    ensures r.dailyQuote == MarkedDaily(st.dailyQuote, id, false)
  {
    QuoteState(MarkedDaily(st.dailyQuote, id, false), Marked(st.allQuotes, id, false),
               Filter(st.favorites, OtherId(id)))
  }

  /** Adding the same quote twice is adding it once. */
  lemma AddIdempotent(st: QuoteState, id: string)
    ensures AddFavorite(AddFavorite(st, id), id) == AddFavorite(st, id)
  {
    var r := AddFavorite(st, id);
    if r != st {
      assert r.favorites[|st.favorites|].id == id;
      assert HasFavorite(r.favorites, id);
    }
  }

  /** Adding keeps the favourite ids unique. */
  lemma AddKeepsIdsUnique(st: QuoteState, id: string)
    requires UniqueIds(st.favorites)
    ensures UniqueIds(AddFavorite(st, id).favorites)
  {
    var r := AddFavorite(st, id);
    if r != st {
      forall i, j | 0 <= i < j < |r.favorites|
        ensures r.favorites[i].id != r.favorites[j].id
      {
        if j == |st.favorites| {
          assert r.favorites[i] == st.favorites[i];
        } else {
          assert r.favorites[i] == st.favorites[i] && r.favorites[j] == st.favorites[j];
        }
      }
    }
  }

  /** With unique ids, the head's id occurs nowhere in the tail. */
  lemma HeadIdUnique(quotes: seq<Quote>, x: Quote)
    requires UniqueIds(quotes) && |quotes| > 0 && x in quotes[1..]
    ensures x.id != quotes[0].id
  {
    var k :| 0 <= k < |quotes| - 1 && quotes[1..][k] == x;
    assert quotes[k + 1] == x;
  }

  lemma TailIdsUnique(quotes: seq<Quote>)
    requires UniqueIds(quotes) && |quotes| > 0
    ensures UniqueIds(quotes[1..])
  {
    var rest := quotes[1..];
    forall i, j | 0 <= i < j < |rest| ensures rest[i].id != rest[j].id {
      assert rest[i] == quotes[i + 1] && rest[j] == quotes[j + 1];
    }
  }

  lemma ConsIdsUnique(x: Quote, quotes: seq<Quote>)
    requires UniqueIds(quotes)
    requires forall k :: 0 <= k < |quotes| ==> quotes[k].id != x.id
    ensures UniqueIds([x] + quotes)
  {
    var r := [x] + quotes;
    forall i, j | 0 <= i < j < |r| ensures r[i].id != r[j].id {
      assert r[j] == quotes[j - 1];
      if i > 0 {
        assert r[i] == quotes[i - 1];
      }
    }
  }

  /** A filter keeps unique ids unique. */
  lemma {:induction false} FilterKeepsIdsUnique(quotes: seq<Quote>, keep: Quote -> bool)
    requires UniqueIds(quotes)
    ensures UniqueIds(Filter(quotes, keep))
  {
    if quotes != [] {
      var rest := quotes[1..];
      TailIdsUnique(quotes);
      FilterKeepsIdsUnique(rest, keep);
      var fr := Filter(rest, keep);
      if keep(quotes[0]) {
        forall k | 0 <= k < |fr| ensures fr[k].id != quotes[0].id {
          HeadIdUnique(quotes, fr[k]);
        }
        ConsIdsUnique(quotes[0], fr);
        assert Filter(quotes, keep) == [quotes[0]] + fr;
      } else {
        assert Filter(quotes, keep) == fr;
      }
    }
  }

  /** Removing keeps the favourite ids unique. */
  lemma RemoveKeepsIdsUnique(st: QuoteState, id: string)
    requires UniqueIds(st.favorites)
    ensures UniqueIds(RemoveFavorite(st, id).favorites)
  {
    FilterKeepsIdsUnique(st.favorites, OtherId(id));
  }

  /** Adding a quote that was not a favourite and removing it again gives back the
      favourites list (the catalogue flag is then false rather than absent). */
  lemma AddThenRemove(st: QuoteState, id: string)
    requires !HasFavorite(st.favorites, id)
    ensures RemoveFavorite(AddFavorite(st, id), id).favorites == st.favorites
  {
    var r := AddFavorite(st, id);
    if r != st {
      var added := r.favorites[|st.favorites|];
      assert r.favorites == st.favorites + [added];
      FilterConcat(st.favorites, [added], OtherId(id));
      FilterKeepsAll(st.favorites, OtherId(id));
      assert Filter([added], OtherId(id)) == [];
    } else {
      FilterKeepsAll(st.favorites, OtherId(id));
    }
  }

  /** Every quote flagged as a favourite, in the catalogue or as the quote of the day, is
      in the favourites list. (The converse fails when the favourites come from storage:
      the catalogue starts unflagged.) */
  predicate FlagsBacked(st: QuoteState) {
    && (forall i :: 0 <= i < |st.allQuotes| && st.allQuotes[i].isFavorite == Some(true)
          ==> HasFavorite(st.favorites, st.allQuotes[i].id))
    && (st.dailyQuote.isFavorite == Some(true) ==> HasFavorite(st.favorites, st.dailyQuote.id))
  }

  lemma AddKeepsFlagsBacked(st: QuoteState, id: string)
    requires FlagsBacked(st)
    ensures FlagsBacked(AddFavorite(st, id))
  {
    var r := AddFavorite(st, id);
    if r != st {
      assert r.favorites[|st.favorites|].id == id;
      forall i | 0 <= i < |r.allQuotes| && r.allQuotes[i].isFavorite == Some(true)
        ensures HasFavorite(r.favorites, r.allQuotes[i].id)
      {
        if st.allQuotes[i].id != id {
          var k :| 0 <= k < |st.favorites| && st.favorites[k].id == st.allQuotes[i].id;
          assert r.favorites[k] == st.favorites[k];
        }
      }
      if r.dailyQuote.isFavorite == Some(true) && st.dailyQuote.id != id {
        var k :| 0 <= k < |st.favorites| && st.favorites[k].id == st.dailyQuote.id;
        assert r.favorites[k] == st.favorites[k];
      }
    }
  }

  lemma RemoveKeepsFlagsBacked(st: QuoteState, id: string)
    requires FlagsBacked(st)
    ensures FlagsBacked(RemoveFavorite(st, id))
  {
    var r := RemoveFavorite(st, id);
    forall i | 0 <= i < |r.allQuotes| && r.allQuotes[i].isFavorite == Some(true)
      ensures HasFavorite(r.favorites, r.allQuotes[i].id)
    {
      var k :| 0 <= k < |st.favorites| && st.favorites[k].id == st.allQuotes[i].id;
      assert st.favorites[k] in r.favorites;
    }
    if r.dailyQuote.isFavorite == Some(true) {
      var k :| 0 <= k < |st.favorites| && st.favorites[k].id == st.dailyQuote.id;
      assert st.favorites[k] in r.favorites;
    }
  }

  /** Favourite flags never change which quotes a category view lists, nor their order. */
  lemma MarkingKeepsView(quotes: seq<Quote>, id: string, flag: bool, c: Category)
    ensures |FilteredQuotes(Marked(quotes, id, flag), Only(c))| == |FilteredQuotes(quotes, Only(c))|
    ensures forall i :: 0 <= i < |FilteredQuotes(quotes, Only(c))| ==>
              FilteredQuotes(Marked(quotes, id, flag), Only(c))[i].id == FilteredQuotes(quotes, Only(c))[i].id
  {
    SameLabelsSameView(Marked(quotes, id, flag), quotes, c);
  }

  /** Lists that agree on every id and category have category views that agree on ids. */
  lemma {:induction false} SameLabelsSameView(a: seq<Quote>, b: seq<Quote>, c: Category)
    requires |a| == |b|
    requires forall i :: 0 <= i < |a| ==> a[i].id == b[i].id && a[i].category == b[i].category
    ensures |Filter(a, InCategory(c))| == |Filter(b, InCategory(c))|
    ensures forall i :: 0 <= i < |Filter(a, InCategory(c))| ==>
              Filter(a, InCategory(c))[i].id == Filter(b, InCategory(c))[i].id
  {
    if a != [] {
      SameLabelsSameView(a[1..], b[1..], c);
      var fa, fb := Filter(a, InCategory(c)), Filter(b, InCategory(c));
      var ta, tb := Filter(a[1..], InCategory(c)), Filter(b[1..], InCategory(c));
      if a[0].category == c {
        assert fa == [a[0]] + ta;
        assert fb == [b[0]] + tb;
        forall i | 0 <= i < |fa|
          ensures fa[i].id == fb[i].id
        {
          if i > 0 {
            assert fa[i] == ta[i - 1] && fb[i] == tb[i - 1];
          }
        }
      } else {
        assert fa == ta;
        assert fb == tb;
      }
    }
  }

  class QuoteStore {
    var dailyQuote: Quote
    var allQuotes: seq<Quote>
    var favorites: seq<Quote>
    var selectedCategory: Selection

    function State(): QuoteState
      reads this
    {
      QuoteState(dailyQuote, allQuotes, favorites)
    }

    /** The provider's initial state on a given day: that day's quote, the whole catalogue,
        the saved favourites (or none) and 'all'. */
    constructor (today: CalendarDate, saved: seq<Quote>)
      requires ValidDate(today) && DailyQuote(today).Some?
      ensures dailyQuote == DailyQuote(today).value
      ensures allQuotes == Catalogue() && favorites == saved
      ensures selectedCategory == All
    {
      dailyQuote, allQuotes, favorites := DailyQuote(today).value, Catalogue(), saved;
      selectedCategory := All;
    }

    function Filtered(): (r: seq<Quote>)
      reads this
      ensures selectedCategory.All? ==> r == allQuotes
    {
      FilteredQuotes(allQuotes, selectedCategory)
    }

    method AddToFavorites(id: string)
      modifies this`dailyQuote, this`allQuotes, this`favorites
      ensures State() == AddFavorite(old(State()), id)
    {
      var quote := Find(allQuotes, HasId(id));
      if quote.Some? && !HasFavorite(favorites, id) {
        favorites := favorites + [quote.value.(isFavorite := Some(true))];
        allQuotes := Marked(allQuotes, id, true);
        if dailyQuote.id == id {
          dailyQuote := dailyQuote.(isFavorite := Some(true));
        }
      }
    }

    method RemoveFromFavorites(id: string)
      modifies this`dailyQuote, this`allQuotes, this`favorites
      ensures State() == RemoveFavorite(old(State()), id)
    {
      favorites := Filter(favorites, OtherId(id));
      allQuotes := Marked(allQuotes, id, false);
      if dailyQuote.id == id {
        dailyQuote := dailyQuote.(isFavorite := Some(false));
      }
    }

    method SetCategory(category: Selection)
      modifies this`selectedCategory
      ensures selectedCategory == category
    {
      selectedCategory := category;
    }
  }
}
