/** The notification list of components/toast.tsx: each "show-toast" event
    appends a toast stamped with the current time, and a toast is removed once
    its duration has passed since the list last changed: every change of the
    list gives each toast a new removal callback, which clears and restarts its
    timer. Timers are left to the caller, who calls `Remove` when one fires. */
module Toasts {
  import opened Common
  import opened Strings

  datatype ToastType = Success | Failure | Notice

  datatype Toast = Toast(id: string, kind: ToastType, title: string, message: Option<string>, duration: Option<int>)

  /** A toast as `showToast` sends it, without an id. */
  datatype ToastDetail = ToastDetail(kind: ToastType, title: string, message: Option<string>, duration: Option<int>)

  /** `{ ...detail, id: Date.now().toString() }`. */
  function Stamp(d: ToastDetail, now: nat): Toast {
    Toast(NatToString(now), d.kind, d.title, d.message, d.duration)
  }

  /** `prev.filter(t => t.id !== id)`. */
  function Removed(ts: seq<Toast>, id: string): seq<Toast> {
    Keep(ts, (t: Toast) => t.id != id)
  }

  /** Removal drops exactly the toasts with the id, keeps the others in order,
      and leaves the list as it is when no toast has the id. */
  lemma RemovedCorrect(ts: seq<Toast>, id: string)
    ensures forall t :: t in Removed(ts, id) <==> t in ts && t.id != id
    ensures (forall t :: t in ts ==> t.id != id) ==> Removed(ts, id) == ts
    ensures |Removed(ts, id)| < |ts| <==> exists t :: t in ts && t.id == id
  {
    var p := (t: Toast) => t.id != id;
    KeepLengthIff(ts, p);
    if forall t :: t in ts ==> t.id != id {
      KeepAll(ts, p);
    }
  }

  /** A toast whose stamp no earlier toast shares is gone again after its own
      removal, and the list is as before it was shown. */
  lemma ShowThenRemove(ts: seq<Toast>, d: ToastDetail, now: nat)
    requires forall t :: t in ts ==> t.id != NatToString(now)
    ensures Removed(ts + [Stamp(d, now)], NatToString(now)) == ts
  {
    var p := (t: Toast) => t.id != NatToString(now);
    KeepAppend(ts, [Stamp(d, now)], p);
    KeepAll(ts, p);
    assert Keep([Stamp(d, now)], p) == [];
  }

  /** The delay before a toast asks to be removed: `duration || 3000`. */
  function RemovalDelay(t: Toast): (ms: int)
    ensures t.duration.Some? && t.duration.value != 0 ==> ms == t.duration.value
    ensures t.duration.None? || t.duration.value == 0 ==> ms == 3000
  {
    if t.duration.Some? && t.duration.value != 0 then t.duration.value else 3000
  }

  /** The colours of each kind of toast. */
  function ToastColor(k: ToastType): string {
    match k
    case Success => "bg-green-50 border-green-200 text-green-800"
    case Failure => "bg-red-50 border-red-200 text-red-800"
    case Notice => "bg-blue-50 border-blue-200 text-blue-800"
  }

  /** `ToastContainer`'s state. */
  class Container {
    var toasts: seq<Toast>

    constructor()
      ensures toasts == []
    {
      toasts := [];
    }

    /** The "show-toast" handler: append the stamped toast. */
    method Show(d: ToastDetail, now: nat) returns (t: Toast)
      modifies this
      ensures t == Stamp(d, now) && toasts == old(toasts) + [t]
    {
      t := Stamp(d, now);
      toasts := toasts + [t];
    }

    /** `removeToast`, called by the close button and by the timer of the toast. */
    method Remove(id: string)
      modifies this
      ensures toasts == Removed(old(toasts), id)
    {
      toasts := Removed(toasts, id);
    }
  }
}
