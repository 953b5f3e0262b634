/** The UI-state store of `src/store/appStore.js` as values: a plain object
    of modals keyed by the string form of the modal id, a list of toasts, a
    loading flag and a single dialog slot. */
module AppModel {
  import opened Js

  /** Props are modelled as an object of primitive values. */
  type Props = map<string, Prim>

  datatype Modal = Modal(isOpen: bool, props: Props)

  /** The argument of `addToast`; `None` is a key the object does not have.
      `kind` is the toast's `type` key. */
  datatype ToastFields = ToastFields(id: Option<Prim>, title: Option<Prim>, message: Option<Prim>,
                                     kind: Option<Prim>, duration: Option<Prim>)

  /** A stored toast: it always has an `id`; the other keys are present
      exactly when the argument had them. */
  datatype Toast = Toast(id: Prim, title: Option<Prim>, message: Option<Prim>, kind: Option<Prim>,
                         duration: Option<Prim>)

  /** The object `openDialog` stores, by its `title` and `message` keys. */
  datatype Dialog = Dialog(title: Prim, message: Prim)

  datatype AppState = AppState(
    modals: map<string, Modal>,
    toasts: seq<Toast>,
    isLoading: Prim,
    dialog: Option<Dialog>)   // None is `null`

  function Initial(): AppState {
    AppState(map[], [], Bool(false), None)
  }

  /** `modals[modalId]`, read as the component that shows a modal does. */
  predicate IsOpen(s: AppState, modalId: Prim) {
    PropertyKey(modalId) in s.modals && s.modals[PropertyKey(modalId)].isOpen
  }

  /** `modalProps = {}`: an omitted argument (`None`) defaults to no props. */
  function OpenModal(s: AppState, modalId: Prim, modalProps: Option<Props>): AppState {
    s.(modals := s.modals[PropertyKey(modalId) := Modal(true, modalProps.GetOr(map[]))])
  }

  function CloseModal(s: AppState, modalId: Prim): AppState {
    s.(modals := s.modals - {PropertyKey(modalId)})
  }

  function SetLoading(s: AppState, value: Prim): AppState {
    s.(isLoading := value)
  }

  /** `{ id: Date.now(), ...toast }`: an `id` key of the argument, even one
      holding `undefined`, overrides the clock value `nowMs`. */
  function NewToast(t: ToastFields, nowMs: int): Toast {
    Toast(t.id.GetOr(Num(nowMs)), t.title, t.message, t.kind, t.duration)
  }

  function AddToast(s: AppState, t: ToastFields, nowMs: int): AppState {
    s.(toasts := s.toasts + [NewToast(t, nowMs)])
  }

  function ToastIdIsNot(id: Prim): Toast -> bool {
    (t: Toast) => t.id != id
  }

  function RemoveToast(s: AppState, id: Prim): AppState {
    s.(toasts := Filter(s.toasts, ToastIdIsNot(id)))
  }

  function OpenDialog(s: AppState, d: Option<Dialog>): AppState {
    s.(dialog := d)
  }

  function CloseDialog(s: AppState): AppState {
    s.(dialog := None)
  }

  // ---------------------------------------------------------------------
  // Modals

  /** `openModal` opens that modal with the given props (or none), replacing
      an earlier entry, and leaves every other modal and field as it was. */
  lemma OpenModalEffect(s: AppState, modalId: Prim, modalProps: Option<Props>, other: Prim)
    ensures var s' := OpenModal(s, modalId, modalProps);
      && IsOpen(s', modalId)
      && s'.modals[PropertyKey(modalId)].props == (if modalProps.Some? then modalProps.value else map[])
      && (PropertyKey(other) != PropertyKey(modalId) ==>
            (PropertyKey(other) in s'.modals <==> PropertyKey(other) in s.modals)
            && (PropertyKey(other) in s.modals ==> s'.modals[PropertyKey(other)] == s.modals[PropertyKey(other)]))
      && s'.toasts == s.toasts && s'.isLoading == s.isLoading && s'.dialog == s.dialog
  {
  }

  /** Opening and then closing a modal is the same as closing it, and a
      modal that had no entry leaves no trace. */
  lemma OpenThenCloseModal(s: AppState, modalId: Prim, modalProps: Option<Props>)
    ensures CloseModal(OpenModal(s, modalId, modalProps), modalId) == CloseModal(s, modalId)
    ensures PropertyKey(modalId) !in s.modals ==> CloseModal(OpenModal(s, modalId, modalProps), modalId) == s
  {
    var k := PropertyKey(modalId);
    assert s.modals[k := Modal(true, modalProps.GetOr(map[]))] - {k} == s.modals - {k};
    if k !in s.modals {
      assert s.modals - {k} == s.modals;
    }
  }

  /** `closeModal` removes that one key; a modal that was never opened
      changes nothing. */
  lemma CloseModalEffect(s: AppState, modalId: Prim)
    ensures !IsOpen(CloseModal(s, modalId), modalId)
    ensures CloseModal(s, modalId).modals.Keys == s.modals.Keys - {PropertyKey(modalId)}
    ensures PropertyKey(modalId) !in s.modals ==> CloseModal(s, modalId) == s
  {
    if PropertyKey(modalId) !in s.modals {
      assert s.modals - {PropertyKey(modalId)} == s.modals;
    }
  }

  /** Object keys are strings: the number 1 and the string "1" name the
      same modal, while different numbers name different modals. */
  lemma ModalIdsAreStringKeys(s: AppState, a: int, b: int)
    ensures IsOpen(OpenModal(s, Num(1), None), Str("1"))
    ensures !IsOpen(CloseModal(OpenModal(s, Num(1), None), Str("1")), Num(1))
    ensures a != b ==> IsOpen(s, Num(b)) == IsOpen(OpenModal(s, Num(a), None), Num(b))
  {
    assert PropertyKey(Num(1)) == "1";
    if a != b && PropertyKey(Num(a)) == PropertyKey(Num(b)) {
      NumKeyInjective(a, b);
    }
  }

  // ---------------------------------------------------------------------
  // Toasts

  /** `addToast` appends exactly one toast and keeps the others in order;
      its id is the argument's `id` key when there is one and the clock
      value otherwise. */
  lemma AddToastEffect(s: AppState, t: ToastFields, nowMs: int)
    ensures var ts := AddToast(s, t, nowMs).toasts;
      && |ts| == |s.toasts| + 1
      && ts[..|s.toasts|] == s.toasts
      && ts[|s.toasts|].id == (if t.id.Some? then t.id.value else Num(nowMs))
      && ts[|s.toasts|].title == t.title
      && ts[|s.toasts|].message == t.message && ts[|s.toasts|].kind == t.kind
      && ts[|s.toasts|].duration == t.duration
  {
  }

  /** Adding a toast under a fresh id and removing that id restores the list. */
  lemma AddThenRemoveToast(s: AppState, t: ToastFields, nowMs: int)
    requires forall i :: 0 <= i < |s.toasts| ==> s.toasts[i].id != NewToast(t, nowMs).id
    ensures RemoveToast(AddToast(s, t, nowMs), NewToast(t, nowMs).id) == s
  {
    var keep := ToastIdIsNot(NewToast(t, nowMs).id);
    FilterConcat(s.toasts, [NewToast(t, nowMs)], keep);
    assert Filter([NewToast(t, nowMs)], keep) == [];
    FilterKeepsAll(s.toasts, keep);
  }

  /** `removeToast` drops every toast with that id, wherever it is, and
      keeps the others in their order. */
  lemma RemoveToastEffect(s: AppState, a: seq<Toast>, t: Toast, b: seq<Toast>)
    requires s.toasts == a + [t] + b
    ensures RemoveToast(s, t.id).toasts == Filter(a, ToastIdIsNot(t.id)) + Filter(b, ToastIdIsNot(t.id))
    ensures forall x :: x in RemoveToast(s, t.id).toasts ==> x.id != t.id
  {
    var keep := ToastIdIsNot(t.id);
    assert !keep(t) && [t][1..] == [];
    assert Filter([t], keep) == [];
    FilterConcat(a + [t], b, keep);
    FilterConcat(a, [t], keep);
    calc {
      RemoveToast(s, t.id).toasts;
      Filter(a + [t] + b, keep);
      Filter(a + [t], keep) + Filter(b, keep);
      (Filter(a, keep) + []) + Filter(b, keep);
      { assert Filter(a, keep) + [] == Filter(a, keep); }
      Filter(a, keep) + Filter(b, keep);
    }
  }

  /** Two toasts without ids added in the same millisecond share the id, so
      removing one removes both. */
  lemma SameMillisecondToasts(nowMs: int)
    ensures var t := ToastFields(None, None, Some(Str("saved")), Some(Str("success")), None);
      var s := AddToast(AddToast(Initial(), t, nowMs), t, nowMs);
      |s.toasts| == 2 && RemoveToast(s, Num(nowMs)).toasts == []
  {
    var t := ToastFields(None, None, Some(Str("saved")), Some(Str("success")), None);
    var s := AddToast(AddToast(Initial(), t, nowMs), t, nowMs);
    assert s.toasts == [NewToast(t, nowMs)] + [NewToast(t, nowMs)];
    FilterConcat([NewToast(t, nowMs)], [NewToast(t, nowMs)], ToastIdIsNot(Num(nowMs)));
  }

  // ---------------------------------------------------------------------
  // Dialog

  /** The dialog is one slot: opening replaces whatever was there, closing
      empties it, and neither touches the rest of the state. */
  lemma DialogSlot(s: AppState, d: Dialog, e: Dialog)
    ensures OpenDialog(OpenDialog(s, Some(d)), Some(e)).dialog == Some(e)
    ensures CloseDialog(OpenDialog(s, Some(d))) == CloseDialog(s)
    ensures CloseDialog(s).dialog == None && CloseDialog(s) == s.(dialog := None)
  {
  }
}
