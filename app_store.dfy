/** The UI-state store of `src/store/appStore.js` as an object holding the
    store's state; each method's postcondition is the matching transition of
    AppModel. The clock read by `addToast` is the parameter `nowMs`. */
module AppStore {
  import opened Js
  import opened AppModel

  class Store {
    var state: AppState

    constructor ()
      ensures state == Initial()
    {
      state := Initial();
    }

    method OpenModal(modalId: Prim, modalProps: Option<Props>)
      modifies this
      ensures state == AppModel.OpenModal(old(state), modalId, modalProps)
    {
      var props := if modalProps.Some? then modalProps.value else map[];
      state := state.(modals := state.modals[PropertyKey(modalId) := Modal(true, props)]);
    }

    /** Copies the modal object, deletes the key from the copy and stores it. */
    method CloseModal(modalId: Prim)
      modifies this
      ensures state == AppModel.CloseModal(old(state), modalId)
    {
      var newModals := state.modals;
      newModals := newModals - {PropertyKey(modalId)};
      state := state.(modals := newModals);
    }

    method SetLoading(value: Prim)
      modifies this
      ensures state == AppModel.SetLoading(old(state), value)
    {
      state := state.(isLoading := value);
    }

    method AddToast(t: ToastFields, nowMs: int)
      modifies this
      ensures state == AppModel.AddToast(old(state), t, nowMs)
    {
      var id := if t.id.Some? then t.id.value else Num(nowMs);
      state := state.(toasts := state.toasts + [Toast(id, t.title, t.message, t.kind, t.duration)]);
    }

    method RemoveToast(id: Prim)
      modifies this
      ensures state == AppModel.RemoveToast(old(state), id)
    {
      state := state.(toasts := Filter(state.toasts, ToastIdIsNot(id)));
    }

    method OpenDialog(d: Option<Dialog>)
      modifies this
      ensures state == AppModel.OpenDialog(old(state), d)
    {
      state := state.(dialog := d);
    }

    method CloseDialog()
      modifies this
      ensures state == AppModel.CloseDialog(old(state))
    {
      state := state.(dialog := None);
    }
  }
}
