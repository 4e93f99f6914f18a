/**
 * The watchlist slice (`src/store/slices/watchlistSlice.ts`): adding a symbol to a
 * watchlist, removing one, and creating an empty watchlist. The clock and the
 * `Date.now()` id are parameters.
 */
module WatchlistSlice {
  import opened Common
  import opened Types

  function HasWatchlistId(id: string): Watchlist -> bool
  {
    (w: Watchlist) => w.id == id
  }

  /** `watchlists.find(w => w.id === id)`, as an index. */
  function WatchlistIndex(ws: seq<Watchlist>, id: string): (r: Option<nat>)
    ensures r.Some? ==> r.value < |ws| && ws[r.value].id == id
    ensures r.Some? ==> forall j :: 0 <= j < r.value ==> ws[j].id != id
    ensures r.None? <==> forall j :: 0 <= j < |ws| ==> ws[j].id != id
  {
    FirstWhere(ws, HasWatchlistId(id))
  }

  /** What `addToWatchlist` does to the watchlist it finds: append an absent symbol and stamp it. */
  function AddSymbol(symbol: string, now: string): Watchlist -> Watchlist
  {
    (w: Watchlist) => if symbol in w.stocks then w else w.(stocks := w.stocks + [symbol], updatedAt := now)
  }

  function IsNot(symbol: string): string -> bool
  {
    (s: string) => s != symbol
  }

  /** What `removeFromWatchlist` does to the watchlist it finds: drop the symbol, stamp it. */
  function RemoveSymbol(symbol: string, now: string): Watchlist -> Watchlist
  {
    (w: Watchlist) => w.(stocks := Filter(w.stocks, IsNot(symbol)), updatedAt := now)
  }

  /** The watchlists after `addToWatchlist(watchlistId, symbol)` at time `now`. */
  function SymbolAdded(ws: seq<Watchlist>, watchlistId: string, symbol: string, now: string): (r: seq<Watchlist>)
    ensures |r| == |ws|
    ensures forall j :: 0 <= j < |ws| ==>
      r[j].id == ws[j].id && r[j].name == ws[j].name && r[j].createdAt == ws[j].createdAt
    ensures WatchlistIndex(ws, watchlistId).None? ==> r == ws
    ensures WatchlistIndex(ws, watchlistId).Some? ==>
      var i := WatchlistIndex(ws, watchlistId).value;
      && symbol in r[i].stocks
      && (symbol in ws[i].stocks ==> r[i] == ws[i])
      && (symbol !in ws[i].stocks ==> r[i].stocks == ws[i].stocks + [symbol] && r[i].updatedAt == now)
      && forall j :: 0 <= j < |ws| && j != i ==> r[j] == ws[j]
  {
    ReplaceFirstAt(ws, HasWatchlistId(watchlistId), AddSymbol(symbol, now));
    ReplaceFirst(ws, HasWatchlistId(watchlistId), AddSymbol(symbol, now))
  }

  /** The watchlists after `removeFromWatchlist(watchlistId, symbol)` at time `now`. */
  function SymbolRemoved(ws: seq<Watchlist>, watchlistId: string, symbol: string, now: string): (r: seq<Watchlist>)
    ensures |r| == |ws|
    ensures forall j :: 0 <= j < |ws| ==>
      r[j].id == ws[j].id && r[j].name == ws[j].name && r[j].createdAt == ws[j].createdAt
    ensures WatchlistIndex(ws, watchlistId).None? ==> r == ws
    ensures WatchlistIndex(ws, watchlistId).Some? ==>
      var i := WatchlistIndex(ws, watchlistId).value;
      && (forall s :: s in r[i].stocks <==> s in ws[i].stocks && s != symbol)
      && r[i].stocks == Filter(ws[i].stocks, IsNot(symbol))
      && r[i].updatedAt == now
      && forall j :: 0 <= j < |ws| && j != i ==> r[j] == ws[j]
  {
    ReplaceFirstAt(ws, HasWatchlistId(watchlistId), RemoveSymbol(symbol, now));
    ReplaceFirst(ws, HasWatchlistId(watchlistId), RemoveSymbol(symbol, now))
  }

  /** Adding a symbol that is already there changes nothing, whatever the clock says. */
  lemma AddTwice(ws: seq<Watchlist>, watchlistId: string, symbol: string, first: string, second: string)
    ensures SymbolAdded(SymbolAdded(ws, watchlistId, symbol, first), watchlistId, symbol, second)
         == SymbolAdded(ws, watchlistId, symbol, first)
  {
    ReplaceFirstAbsorbs(ws, HasWatchlistId(watchlistId), AddSymbol(symbol, first), AddSymbol(symbol, second));
  }

  /** Removing twice is removing once; the watchlist carries the later stamp. */
  lemma RemoveTwice(ws: seq<Watchlist>, watchlistId: string, symbol: string, first: string, second: string)
    ensures SymbolRemoved(SymbolRemoved(ws, watchlistId, symbol, first), watchlistId, symbol, second)
         == SymbolRemoved(ws, watchlistId, symbol, second)
  {
    var f := RemoveSymbol(symbol, first);
    var g := RemoveSymbol(symbol, second);
    forall w: Watchlist
      ensures g(f(w)) == g(w)
    {
      FilterTwice(w.stocks, IsNot(symbol));
    }
    ReplaceFirstOverrides(ws, HasWatchlistId(watchlistId), f, g);
  }

  /** On one watchlist: dropping a symbol just appended leaves what dropping alone leaves. */
  lemma RemoveUndoesAdd(w: Watchlist, symbol: string, first: string, second: string)
    ensures RemoveSymbol(symbol, second)(AddSymbol(symbol, first)(w)) == RemoveSymbol(symbol, second)(w)
  {
    if symbol !in w.stocks {
      FilterAppend(w.stocks, [symbol], IsNot(symbol));
      assert Filter([symbol], IsNot(symbol)) == [];
      assert AddSymbol(symbol, first)(w).stocks == w.stocks + [symbol];
    }
  }

  /** Removing a symbol right after adding it leaves the lists as removing alone would. */
  lemma AddThenRemove(ws: seq<Watchlist>, watchlistId: string, symbol: string, first: string, second: string)
    ensures SymbolRemoved(SymbolAdded(ws, watchlistId, symbol, first), watchlistId, symbol, second)
         == SymbolRemoved(ws, watchlistId, symbol, second)
  {
    forall w: Watchlist
      ensures RemoveSymbol(symbol, second)(AddSymbol(symbol, first)(w)) == RemoveSymbol(symbol, second)(w)
    {
      RemoveUndoesAdd(w, symbol, first, second);
    }
    ReplaceFirstOverrides(ws, HasWatchlistId(watchlistId), AddSymbol(symbol, first), RemoveSymbol(symbol, second));
  }

  /** No watchlist lists a symbol twice. */
  predicate AllDistinct(ws: seq<Watchlist>)
  {
    forall j :: 0 <= j < |ws| ==> NoDuplicates(ws[j].stocks)
  }

  /** Adding and removing keep every watchlist free of repeated symbols. */
  lemma EditsKeepDistinct(ws: seq<Watchlist>, watchlistId: string, symbol: string, now: string)
    requires AllDistinct(ws)
    ensures AllDistinct(SymbolAdded(ws, watchlistId, symbol, now))
    ensures AllDistinct(SymbolRemoved(ws, watchlistId, symbol, now))
  {
    var found := WatchlistIndex(ws, watchlistId);
    if found.Some? {
      var i := found.value;
      if symbol !in ws[i].stocks {
        AppendFreshNoDuplicates(ws[i].stocks, symbol);
      }
      FilterNoDuplicates(ws[i].stocks, IsNot(symbol));
    }
  }

  /** `WatchlistState` */
  class WatchlistState {
    var watchlists: seq<Watchlist>
    var currentWatchlist: Option<Watchlist>
    var loading: bool
    var error: Option<string>

    ghost predicate Valid()
      reads this
    {
      AllDistinct(watchlists)
    }

    /** `initialState` */
    constructor()
      ensures Valid()
      ensures watchlists == [] && currentWatchlist == None && !loading && error == None
    {
      watchlists := [];
      currentWatchlist := None;
      loading := false;
      error := None;
    }

    /** `addToWatchlist`: no effect on an unknown id or a symbol already listed. */
    method AddToWatchlist(watchlistId: string, symbol: string, now: string)
      requires Valid()
      modifies this
      ensures Valid()
      ensures watchlists == SymbolAdded(old(watchlists), watchlistId, symbol, now)
      ensures currentWatchlist == old(currentWatchlist) && loading == old(loading) && error == old(error)
    {
      ReplaceFirstAt(watchlists, HasWatchlistId(watchlistId), AddSymbol(symbol, now));
      EditsKeepDistinct(watchlists, watchlistId, symbol, now);
      var found := WatchlistIndex(watchlists, watchlistId);
      if found.Some? {
        var w := watchlists[found.value];
        if symbol !in w.stocks {
          watchlists := watchlists[found.value := w.(stocks := w.stocks + [symbol], updatedAt := now)];
        }
      }
    }

    /** `removeFromWatchlist`: stamps the watchlist even when the symbol was absent. */
    method RemoveFromWatchlist(watchlistId: string, symbol: string, now: string)
      requires Valid()
      modifies this
      ensures Valid()
      ensures watchlists == SymbolRemoved(old(watchlists), watchlistId, symbol, now)
      ensures currentWatchlist == old(currentWatchlist) && loading == old(loading) && error == old(error)
    {
      ReplaceFirstAt(watchlists, HasWatchlistId(watchlistId), RemoveSymbol(symbol, now));
      EditsKeepDistinct(watchlists, watchlistId, symbol, now);
      var found := WatchlistIndex(watchlists, watchlistId);
      if found.Some? {
        var w := watchlists[found.value];
        watchlists := watchlists[found.value := w.(stocks := Filter(w.stocks, IsNot(symbol)), updatedAt := now)];
      }
    }

    /**
     * `createWatchlist`: append an empty watchlist named `name`. The source reads the
     * clock once for each stamp, so the two need not be equal.
     */
    method CreateWatchlist(name: string, id: string, createdAt: string, updatedAt: string)
      requires Valid()
      modifies this
      ensures Valid()
      ensures watchlists == old(watchlists) + [Watchlist(id, name, [], createdAt, updatedAt)]
      ensures currentWatchlist == old(currentWatchlist) && loading == old(loading) && error == old(error)
    {
      watchlists := watchlists + [Watchlist(id, name, [], createdAt, updatedAt)];
    }
  }
}
