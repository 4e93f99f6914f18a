/**
 * The price-alert slice (`src/store/slices/alertsSlice.ts`): adding, removing and
 * toggling alerts, and pushing a new market price to every alert on a symbol. The clock
 * and the `Date.now()` id are parameters.
 */
module AlertsSlice {
  import opened Common
  import opened Types

  /** The payload of `addAlert`: an alert without its id and creation stamp. */
  datatype AlertDraft = AlertDraft(
    symbol: string,
    kind: AlertKind,
    targetPrice: real,
    currentPrice: real,
    isActive: bool)

  /** `{ ...payload, id, createdAt }` */
  function NewAlert(draft: AlertDraft, id: string, now: string): (a: PriceAlert)
    ensures a.id == id && a.createdAt == now
    ensures AlertDraft(a.symbol, a.kind, a.targetPrice, a.currentPrice, a.isActive) == draft
  {
    PriceAlert(id, draft.symbol, draft.kind, draft.targetPrice, draft.currentPrice, draft.isActive, now)
  }

  function HasAlertId(id: string): PriceAlert -> bool
  {
    (a: PriceAlert) => a.id == id
  }

  /** `alerts.filter(alert => alert.id !== id)` */
  function WithoutAlert(alerts: seq<PriceAlert>, id: string): (r: seq<PriceAlert>)
    ensures |r| <= |alerts|
    ensures forall a :: a in r <==> a in alerts && a.id != id
    ensures forall a: PriceAlert :: a.id != id ==> multiset(r)[a] == multiset(alerts)[a]
  {
    Filter(alerts, Not(HasAlertId(id)))
  }

  /** Removing an id no alert carries changes nothing. */
  lemma WithoutAbsentAlert(alerts: seq<PriceAlert>, id: string)
    requires forall j :: 0 <= j < |alerts| ==> alerts[j].id != id
    ensures WithoutAlert(alerts, id) == alerts
  {
    FilterKeepsAll(alerts, Not(HasAlertId(id)));
  }

  function Flipped(a: PriceAlert): PriceAlert
  {
    a.(isActive := !a.isActive)
  }

  /** The alerts after `toggleAlert(id)`: the first alert with that id flips its flag. */
  function Toggled(alerts: seq<PriceAlert>, id: string): (r: seq<PriceAlert>)
    ensures |r| == |alerts|
    ensures FirstWhere(alerts, HasAlertId(id)).None? ==> r == alerts
    ensures FirstWhere(alerts, HasAlertId(id)).Some? ==>
      var i := FirstWhere(alerts, HasAlertId(id)).value;
      && r[i].isActive == !alerts[i].isActive
      && r[i].(isActive := alerts[i].isActive) == alerts[i]
      && forall j :: 0 <= j < |alerts| && j != i ==> r[j] == alerts[j]
  {
    ReplaceFirstAt(alerts, HasAlertId(id), Flipped);
    ReplaceFirst(alerts, HasAlertId(id), Flipped)
  }

  /** Toggling the same alert twice restores the list. */
  lemma ToggleTwice(alerts: seq<PriceAlert>, id: string)
    ensures Toggled(Toggled(alerts, id), id) == alerts
  {
    ReplaceFirstTwice(alerts, HasAlertId(id), Flipped);
  }

  /** One step of `updateAlertPrice`'s `forEach`. */
  function PriceUpdated(a: PriceAlert, symbol: string, price: real): PriceAlert
  {
    if a.symbol == symbol then a.(currentPrice := price) else a
  }

  /** The alerts after `updateAlertPrice(symbol, price)`. */
  function PricesUpdated(alerts: seq<PriceAlert>, symbol: string, price: real): (r: seq<PriceAlert>)
    ensures |r| == |alerts|
    ensures forall j :: 0 <= j < |r| ==> r[j].(currentPrice := alerts[j].currentPrice) == alerts[j]
    ensures forall j :: 0 <= j < |r| && alerts[j].symbol == symbol ==> r[j].currentPrice == price
    ensures forall j :: 0 <= j < |r| && alerts[j].symbol != symbol ==> r[j] == alerts[j]
  {
    if |alerts| == 0 then []
    else [PriceUpdated(alerts[0], symbol, price)] + PricesUpdated(alerts[1..], symbol, price)
  }

  /** A later price for the same symbol overrides an earlier one; in particular the update is idempotent. */
  lemma PricesUpdatedTwice(alerts: seq<PriceAlert>, symbol: string, first: real, second: real)
    ensures PricesUpdated(PricesUpdated(alerts, symbol, first), symbol, second) == PricesUpdated(alerts, symbol, second)
  {
  }

  /** Updates for different symbols touch different alerts, so their order does not matter. */
  lemma PricesUpdatedCommute(alerts: seq<PriceAlert>, s: string, p: real, t: string, q: real)
    requires s != t
    ensures PricesUpdated(PricesUpdated(alerts, s, p), t, q) == PricesUpdated(PricesUpdated(alerts, t, q), s, p)
  {
  }

  /** Toggling and repricing never change an alert's symbol, kind or target price. */
  lemma AlertTermsKept(alerts: seq<PriceAlert>, id: string, symbol: string, price: real)
    ensures forall j :: 0 <= j < |alerts| ==>
      var a := alerts[j];
      var t := Toggled(alerts, id)[j];
      var u := PricesUpdated(alerts, symbol, price)[j];
      && t.symbol == a.symbol && t.kind == a.kind && t.targetPrice == a.targetPrice
      && u.symbol == a.symbol && u.kind == a.kind && u.targetPrice == a.targetPrice
  {
  }

  /** `AlertsState` */
  class AlertsState {
    var alerts: seq<PriceAlert>
    var loading: bool
    var error: Option<string>

    /** `initialState` */
    constructor()
      ensures alerts == [] && !loading && error == None
    {
      alerts := [];
      loading := false;
      error := None;
    }

    /** `addAlert` */
    method AddAlert(draft: AlertDraft, id: string, now: string)
      modifies this
      ensures alerts == old(alerts) + [NewAlert(draft, id, now)]
      ensures loading == old(loading) && error == old(error)
    {
      alerts := alerts + [NewAlert(draft, id, now)];
    }

    /** `removeAlert` */
    method RemoveAlert(id: string)
      modifies this
      ensures alerts == WithoutAlert(old(alerts), id)
      ensures loading == old(loading) && error == old(error)
    {
      alerts := WithoutAlert(alerts, id);
    }

    /** `toggleAlert`: no effect on an unknown id. */
    method ToggleAlert(id: string)
      modifies this
      ensures alerts == Toggled(old(alerts), id)
      ensures loading == old(loading) && error == old(error)
    {
      ReplaceFirstAt(alerts, HasAlertId(id), Flipped);
      var found := FirstWhere(alerts, HasAlertId(id));
      if found.Some? {
        alerts := alerts[found.value := Flipped(alerts[found.value])];
      }
    }

    /** `updateAlertPrice`: walk the alerts in order and reprice those on `symbol`. */
    method UpdateAlertPrice(symbol: string, price: real)
      modifies this
      ensures alerts == PricesUpdated(old(alerts), symbol, price)
      ensures loading == old(loading) && error == old(error)
    {
      var i := 0;
      while i < |alerts|
        invariant 0 <= i <= |alerts| == |old(alerts)|
        invariant forall k :: 0 <= k < i ==> alerts[k] == PriceUpdated(old(alerts)[k], symbol, price)
        invariant forall k :: i <= k < |alerts| ==> alerts[k] == old(alerts)[k]
        invariant loading == old(loading) && error == old(error)
      {
        if alerts[i].symbol == symbol {
          alerts := alerts[i := alerts[i].(currentPrice := price)];
        }
        i := i + 1;
      }
    }
  }
}
