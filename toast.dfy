/** The toast queue (shared/ui/toast.tsx): toasts are appended by
    `addToast` and dropped by id, either by the close button or by the timer
    `addToast` starts. The random id and the timer are outside the model:
    the id is a parameter, and the timer's callback is `Queue.RemoveToast`
    with the id it was started for. */
module Toast {
  import opened Common

  datatype ToastKind = Success | Error | Info

  datatype Toast = Toast(id: string, message: string, kind: ToastKind)

  function IdOtherThan(id: string): Toast -> bool {
    (t: Toast) => t.id != id
  }

  /** `toasts.filter(t => t.id !== id)`: every toast with that id goes, the
      others stay, in order. */
  function Without(toasts: seq<Toast>, id: string): (r: seq<Toast>)
    ensures forall i :: 0 <= i < |r| ==> r[i].id != id && r[i] in toasts
    ensures forall i :: 0 <= i < |toasts| && toasts[i].id != id ==> toasts[i] in r
  {
    Filter(IdOtherThan(id), toasts)
  }

  /** Each toast with another id keeps its number of occurrences; none with
      the id is left. */
  lemma WithoutCounts(toasts: seq<Toast>, id: string, t: Toast)
    ensures multiset(Without(toasts, id))[t] == if t.id == id then 0 else multiset(toasts)[t]
  {
    FilterMultiset(IdOtherThan(id), toasts, t);
  }

  /** Removing an id that no toast has changes nothing. */
  lemma WithoutAbsentId(toasts: seq<Toast>, id: string)
    requires forall i :: 0 <= i < |toasts| ==> toasts[i].id != id
    ensures Without(toasts, id) == toasts
  {
    FilterKeepsAll(IdOtherThan(id), toasts);
  }

  /** Removal keeps the other toasts in their relative order: removing from
      a concatenation is removing from each part. */
  lemma WithoutAppend(a: seq<Toast>, b: seq<Toast>, id: string)
    ensures Without(a + b, id) == Without(a, id) + Without(b, id)
  {
    FilterAppend(IdOtherThan(id), a, b);
  }

  /** When the timer of a toast with a fresh id fires, the queue is what it
      was before that toast was added, whatever its message and kind. */
  lemma ExpiryUndoesAdd(toasts: seq<Toast>, t: Toast)
    requires forall i :: 0 <= i < |toasts| ==> toasts[i].id != t.id
    ensures Without(toasts + [t], t.id) == toasts
  {
    WithoutAppend(toasts, [t], t.id);
    WithoutAbsentId(toasts, t.id);
    assert Without([t], t.id) == [] by { assert [t][1..] == []; }
  }

  class Queue {
    var toasts: seq<Toast>

    constructor ()
      ensures toasts == []
    {
      toasts := [];
    }

    /** `addToast`, with the id it draws as a parameter. */
    method AddToast(message: string, kind: ToastKind, id: string)
      modifies this
      ensures toasts == old(toasts) + [Toast(id, message, kind)]
    {
      toasts := toasts + [Toast(id, message, kind)];
    }

    /** `removeToast`, and the timer's callback. */
    method RemoveToast(id: string)
      modifies this
      ensures toasts == Without(old(toasts), id)
    {
      toasts := Without(toasts, id);
    }

    /** `useToast().success`. */
    method ShowSuccess(message: string, id: string)
      modifies this
      ensures toasts == old(toasts) + [Toast(id, message, Success)]
    {
      AddToast(message, Success, id);
    }

    /** `useToast().error`. */
    method ShowError(message: string, id: string)
      modifies this
      ensures toasts == old(toasts) + [Toast(id, message, Error)]
    {
      AddToast(message, Error, id);
    }

    /** `useToast().info`. */
    method ShowInfo(message: string, id: string)
      modifies this
      ensures toasts == old(toasts) + [Toast(id, message, Info)]
    {
      AddToast(message, Info, id);
    }
  }
}
