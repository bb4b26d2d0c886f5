/** Sequences of user actions on the new-sale screen, and what holds in every
    state they reach. */
module Reachable {
  import opened Wrappers
  import opened Sales
  import opened Ledger
  import opened SaleForm

  /** One handler invocation, taken as a single atomic step. */
  datatype Event =
    | Increment
    | Decrement
    | ShowMenu
    | HideMenu
    | Select(index: nat)
    | Save(granted: bool, id: string, timestamp: string, location: Coords)

  /** The menu only offers catalogue entries. */
  predicate Offered(e: Event) {
    e.Select? ==> e.index < |DefaultProducts|
  }

  predicate AllOffered(events: seq<Event>) {
    forall k :: 0 <= k < |events| ==> Offered(events[k])
  }

  /** The effect of one event on the form and the stored list. */
  function Step(a: App, e: Event): (r: App)
    requires Offered(e)
  {
    match e
    case Increment => a.(form := IncrementQuantity(a.form))
    case Decrement => a.(form := DecrementQuantity(a.form))
    case ShowMenu => a.(form := OpenMenu(a.form))
    case HideMenu => a.(form := DismissMenu(a.form))
    case Select(i) => a.(form := SelectProduct(a.form, i))
    case Save(granted, id, timestamp, location) => SaveSale(a, granted, id, timestamp, location).0
  }

  /** The sale an event records, if any. */
  function RecordedBy(a: App, e: Event): (r: seq<Sale>) {
    if e.Save? then
      match SaveSale(a, e.granted, e.id, e.timestamp, e.location).1
      case Saved(s) => [s]
      case _ => []
    else []
  }

  /** The state after the events, in order. */
  function Run(a: App, events: seq<Event>): (r: App)
    requires AllOffered(events)
    decreases |events|
  {
    if events == [] then a else Run(Step(a, events[0]), events[1..])
  }

  /** The sales the events record, oldest first. */
  function Recorded(a: App, events: seq<Event>): (r: seq<Sale>)
    requires AllOffered(events)
    decreases |events|
  {
    if events == [] then [] else RecordedBy(a, events[0]) + Recorded(Step(a, events[0]), events[1..])
  }

  /** The form invariant, and every stored record is well formed. */
  ghost predicate Inv(a: App) {
    FormInv(a.form) && forall s :: s in LedgerOf(a.stored) ==> WellFormed(s)
  }

  /** One step keeps the invariant, and the stored list changes only by the
      record the step reports. */
  lemma StepKeepsInv(a: App, e: Event)
    requires Offered(e) && Inv(a)
    ensures Inv(Step(a, e))
    ensures LedgerOf(Step(a, e).stored) == SaveAll(LedgerOf(a.stored), RecordedBy(a, e))
  {
    HandlersKeepFormInv(a.form, if e.Select? then e.index else 0);
    if e.Save? {
      var r := SaveSale(a, e.granted, e.id, e.timestamp, e.location);
      if r.1.Saved? {
        var s := r.1.sale;
        FilledIffChosen(a.form);
        CatalogueEntriesAreSellable(Product(a.form.product, a.form.price.value));
        assert WellFormed(s);
        assert LedgerOf(r.0.stored) == [s] + LedgerOf(a.stored);
        assert SaveAll(LedgerOf(a.stored), [s]) == Prepend(s, SaveAll(LedgerOf(a.stored), []));
      }
    }
  }

  /** From any state meeting the invariant, every sequence of offered events
      keeps it, and the stored list is the earlier list with the recorded
      sales prepended one by one. */
  lemma {:induction false} RunKeepsInv(a: App, events: seq<Event>)
    requires AllOffered(events) && Inv(a)
    ensures Inv(Run(a, events))
    ensures LedgerOf(Run(a, events).stored) == SaveAll(LedgerOf(a.stored), Recorded(a, events))
    decreases |events|
  {
    if events != [] {
      var e := events[0];
      StepKeepsInv(a, e);
      assert AllOffered(events[1..]) by {
        forall k | 0 <= k < |events[1..]| ensures Offered(events[1..][k]) {
          assert events[1..][k] == events[k + 1];
        }
      }
      RunKeepsInv(Step(a, e), events[1..]);
      SaveAllConcat(LedgerOf(a.stored), RecordedBy(a, e), Recorded(Step(a, e), events[1..]));
    }
  }

  /** On first use (initial form, nothing stored) every reachable state has a
      quantity of at least 1, passes the save guard exactly when a product is
      chosen, holds only well-formed records, and lists the recorded sales
      newest first. */
  lemma FromFirstUse(events: seq<Event>)
    requires AllOffered(events)
    ensures Run(App(InitialForm, None), events).form.quantity >= 1
    ensures Filled(Run(App(InitialForm, None), events).form) <==> Run(App(InitialForm, None), events).form.product != ""
    ensures forall s :: s in LedgerOf(Run(App(InitialForm, None), events).stored) ==> WellFormed(s)
    ensures LedgerOf(Run(App(InitialForm, None), events).stored) == SaveAll([], Recorded(App(InitialForm, None), events))
  {
    var start := App(InitialForm, None);
    assert Inv(start);
    RunKeepsInv(start, events);
    FilledIffChosen(Run(start, events).form);
  }
}
