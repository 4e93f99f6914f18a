/**
 * The news slice (`src/store/slices/newsSlice.ts`): the current list of market news,
 * replaced wholesale, with a stamp of when it was set. The clock is a parameter.
 */
module NewsSlice {
  import opened Common
  import opened Types

  /** `NewsState` */
  class NewsState {
    var news: seq<MarketNews>
    var loading: bool
    var error: Option<string>
    var lastUpdated: Option<string>

    /** `initialState` */
    constructor()
      ensures news == [] && !loading && error == None && lastUpdated == None
    {
      news := [];
      loading := false;
      error := None;
      lastUpdated := None;
    }

    /** `setNews`: replace the list and stamp it. */
    method SetNews(items: seq<MarketNews>, now: string)
      modifies this
      ensures news == items && lastUpdated == Some(now)
      ensures loading == old(loading) && error == old(error)
    {
      news := items;
      lastUpdated := Some(now);
    }

    /** `setLoading` */
    method SetLoading(value: bool)
      modifies this
      ensures loading == value
      ensures news == old(news) && error == old(error) && lastUpdated == old(lastUpdated)
    {
      loading := value;
    }

    /** `setError`: `None` clears the error. */
    method SetError(value: Option<string>)
      modifies this
      ensures error == value
      ensures news == old(news) && loading == old(loading) && lastUpdated == old(lastUpdated)
    {
      error := value;
    }
  }
}
