/**
 * The modal registry: a map from modal id to its open flag and the props it
 * was opened with, held by a provider and replaced wholesale by `showModal`
 * and `hideModal`. Consumers read `modalStates[id]?.isOpen`.
 */
module Modal {
  import opened Wrappers

  /** The payload a caller attaches when opening a modal; the values are opaque. */
  type Props<V> = map<string, V>

  /** One registry entry. `props` is `None` when `showModal` was called without any. */
  datatype ModalState<V> = ModalState(isOpen: bool, props: Option<Props<V>>)

  type ModalStates<V> = map<string, ModalState<V>>

  /** The message `useModal` throws outside a provider. */
  const MissingProvider: string := "useModal must be used within a ModalProvider"

  /** The entry `hideModal` writes: closed, props cleared to the empty object. */
  function Closed<V>(): (r: ModalState<V>)
    ensures !r.isOpen && r.props == Some(map[])
  {
    ModalState(false, Some(map[]))
  }

  /** The updater passed by `showModal`: upsert `{isOpen: true, props}`, copy everything else. */
  function Show<V>(states: ModalStates<V>, id: string, props: Option<Props<V>>): (r: ModalStates<V>)
    ensures id in r && r[id] == ModalState(true, props)
    ensures r.Keys == states.Keys + {id}
    ensures forall k :: k in states && k != id ==> r[k] == states[k]
  {
    states[id := ModalState(true, props)]
  }

  /** The updater passed by `hideModal`: upsert `{isOpen: false, props: {}}`, copy everything else. */
  function Hide<V>(states: ModalStates<V>, id: string): (r: ModalStates<V>)
    ensures id in r && !r[id].isOpen && r[id].props == Some(map[])
    ensures r.Keys == states.Keys + {id}
    ensures forall k :: k in states && k != id ==> r[k] == states[k]
  {
    states[id := Closed()]
  }

  /** How a consumer reads its entry: `modalStates[id]?.isOpen`, an absent id being falsy. */
  predicate IsOpen<V>(states: ModalStates<V>, id: string)
    ensures id !in states ==> !IsOpen(states, id)
    ensures id in states ==> (IsOpen(states, id) <==> states[id].isOpen)
  {
    id in states && states[id].isOpen
  }

  /** The context `useModal` finds: the provider, or `undefined` outside one. */
  function UseModal<V>(context: Option<ModalProvider<V>>): (r: Result<ModalProvider<V>>)
    ensures r.Ok? <==> context.Some?
    ensures r.Ok? ==> r.value == context.value
    ensures r.Err? ==> r.message == MissingProvider
  {
    match context
    case None => Err(MissingProvider)
    case Some(provider) => Ok(provider)
  }

  /** The provider and its one state cell. */
  class ModalProvider<V> {
    var modalStates: ModalStates<V>

    /** `useState({})`: the registry starts empty. */
    constructor ()
      ensures modalStates == map[]
      ensures forall id :: !IsOpen(modalStates, id)
    {
      modalStates := map[];
    }

    method ShowModal(id: string, props: Option<Props<V>>)
      modifies this
      ensures modalStates == Show(old(modalStates), id, props)
      ensures IsOpen(modalStates, id) && modalStates[id].props == props
      ensures forall k :: k != id ==> IsOpen(modalStates, k) == IsOpen(old(modalStates), k)
    {
      modalStates := Show(modalStates, id, props);
    }

    method HideModal(id: string)
      modifies this
      ensures modalStates == Hide(old(modalStates), id)
      ensures !IsOpen(modalStates, id) && modalStates[id] == Closed()
      ensures forall k :: k != id ==> IsOpen(modalStates, k) == IsOpen(old(modalStates), k)
    {
      modalStates := Hide(modalStates, id);
    }
  }

  /** A registry nobody has touched reports every id as closed. */
  lemma InitialAllClosed<V>(id: string)
    ensures !IsOpen<V>(map[], id)
  {
  }

  /** Showing one id and hiding another leave a third id's entry, present or absent, as it was. */
  lemma Isolation<V>(states: ModalStates<V>, id: string, other: string, props: Option<Props<V>>)
    requires other != id
    ensures (other in Show(states, id, props)) == (other in states)
    ensures (other in Hide(states, id)) == (other in states)
    ensures other in states ==> Show(states, id, props)[other] == states[other]
    ensures other in states ==> Hide(states, id)[other] == states[other]
    ensures IsOpen(Show(states, id, props), other) == IsOpen(states, other)
    ensures IsOpen(Hide(states, id), other) == IsOpen(states, other)
  {
  }

  /** Hiding twice is hiding once. */
  lemma HideIdempotent<V>(states: ModalStates<V>, id: string)
    ensures Hide(Hide(states, id), id) == Hide(states, id)
  {
  }

  /** Last write wins: show then hide is closed with empty props. */
  lemma ShowThenHide<V>(states: ModalStates<V>, id: string, props: Option<Props<V>>)
    ensures Hide(Show(states, id, props), id) == Hide(states, id)
    ensures !IsOpen(Hide(Show(states, id, props), id), id)
  {
  }

  /** Last write wins: hide then show is open with exactly the new props. */
  lemma HideThenShow<V>(states: ModalStates<V>, id: string, props: Option<Props<V>>)
    ensures Show(Hide(states, id), id, props) == Show(states, id, props)
    ensures IsOpen(Show(Hide(states, id), id, props), id)
  {
  }

  /** Updates to two different ids commute, so their order is unobservable. */
  lemma DistinctUpdatesCommute<V>(states: ModalStates<V>, a: string, b: string, p: Option<Props<V>>, q: Option<Props<V>>)
    requires a != b
    ensures Show(Show(states, a, p), b, q) == Show(Show(states, b, q), a, p)
    ensures Show(Hide(states, a), b, q) == Hide(Show(states, b, q), a)
    ensures Hide(Hide(states, a), b) == Hide(Hide(states, b), a)
  {
  }

  /** A hidden id is in the map and a never-touched id is not, yet both read as closed. */
  lemma HiddenVersusUntouched<V>(states: ModalStates<V>, hidden: string, untouched: string)
    requires untouched !in states && untouched != hidden
    ensures hidden in Hide(states, hidden) && untouched !in Hide(states, hidden)
    ensures !IsOpen(Hide(states, hidden), hidden) && !IsOpen(Hide(states, hidden), untouched)
  {
  }

  /** Outside a provider `useModal` never yields a context, default or otherwise. */
  lemma NoProviderFails<V>()
    ensures UseModal<V>(None).Err?
    ensures forall p: ModalProvider<V> :: UseModal(None) != Ok(p)
  {
  }

  /**
   * The logout flow of the application shell: mount the provider, the button
   * calls `showModal("logout")` with no props, the consumer reports open; the
   * "No thanks" link calls `hideModal("logout")` and the consumer reports
   * closed, with the props cleared.
   */
  method LogoutFlow() returns (openAfterShow: bool, propsAfterShow: Option<Props<int>>, openAfterHide: bool, propsAfterHide: Option<Props<int>>)
    ensures openAfterShow && propsAfterShow == None
    ensures !openAfterHide && propsAfterHide == Some(map[])
  {
    var provider := new ModalProvider<int>();
    var context := UseModal(Some(provider));
    var registry := context.value;
    registry.ShowModal("logout", None);
    openAfterShow := IsOpen(registry.modalStates, "logout");
    propsAfterShow := registry.modalStates["logout"].props;
    registry.HideModal("logout");
    openAfterHide := IsOpen(registry.modalStates, "logout");
    propsAfterHide := registry.modalStates["logout"].props;
  }
}
