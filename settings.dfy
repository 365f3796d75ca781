/** The integration switch of the settings page (pages/Settings.tsx, `toggleIntegration`). */
module Settings {
  import opened Types

  /** `i.status === 'connected' ? 'disconnected' : 'connected'`. */
  function Flipped(s: IntegrationStatus): (r: IntegrationStatus)
    ensures r == Disconnected <==> s == Connected
    ensures r != Error
  {
    if s == Connected then Disconnected else Connected
  }

  /** The item with only its status flipped when its id matches. */
  function ToggleOne(i: Integration, id: string): Integration {
    if i.id == id then i.(status := Flipped(i.status)) else i
  }

  /**
   * `prev.map(...)`: the same items in the same order; an item whose id
   * matches has its status flipped and every other field kept, and every
   * other item is unchanged.
   */
  function ToggleIntegration(items: seq<Integration>, id: string): (r: seq<Integration>)
    ensures |r| == |items|
    ensures forall k :: 0 <= k < |items| && items[k].id != id ==> r[k] == items[k]
    ensures forall k :: 0 <= k < |items| && items[k].id == id ==>
      && r[k].status == (if items[k].status == Connected then Disconnected else Connected)
      && r[k] == items[k].(status := r[k].status)
  {
    if items == [] then []
    else [ToggleOne(items[0], id)] + ToggleIntegration(items[1..], id)
  }

  /** Toggling an id that no item has leaves the list as it was. */
  lemma AbsentIdLeavesListUnchanged(items: seq<Integration>, id: string)
    requires forall k :: 0 <= k < |items| ==> items[k].id != id
    ensures ToggleIntegration(items, id) == items
  {
  }

  /** Toggling twice restores the list when no matching item is in the `error` state. */
  lemma ToggleTwiceRestores(items: seq<Integration>, id: string)
    requires forall k :: 0 <= k < |items| && items[k].id == id ==> items[k].status != Error
    ensures ToggleIntegration(ToggleIntegration(items, id), id) == items
  {
    var once := ToggleIntegration(items, id);
    var twice := ToggleIntegration(once, id);
    forall k | 0 <= k < |items| ensures twice[k] == items[k] {
      if items[k].id == id {
        assert once[k].id == id;
      }
    }
  }

  /** A matching item in the `error` state comes out `connected`, so a second toggle does not restore it. */
  lemma ErrorGoesToConnected(items: seq<Integration>, id: string, k: nat)
    requires k < |items| && items[k].id == id && items[k].status == Error
    ensures ToggleIntegration(items, id)[k].status == Connected
    ensures ToggleIntegration(ToggleIntegration(items, id), id)[k].status == Disconnected
  {
    assert ToggleIntegration(items, id)[k].id == id;
  }
}
