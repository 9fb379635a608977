/**
 * The global toast queue (app/composables/useToast.ts). Toast ids, which the
 * source draws from the clock and a random number, are inputs here, and each
 * `setTimeout(() => removeToast(id), duration)` is recorded as a pending timer.
 */
module Toasts {
  import opened Wrappers
  import opened Removal

  datatype ToastType = Success | Error | Info | Warning

  datatype Toast = Toast(id: string, message: string, toastType: ToastType, duration: int)

  /** A scheduled automatic removal of the toast `toastId` after `delay` ms. */
  datatype Timer = Timer(toastId: string, delay: int)

  const DefaultType := Info
  const DefaultDuration := 3000

  function ToastId(t: Toast): string {
    t.id
  }

  /** The timer `addToast` schedules: one exactly when the duration is positive. */
  function TimersFor(id: string, duration: int): (timers: seq<Timer>)
    ensures |timers| <= 1
    ensures timers != [] <==> duration > 0
    ensures forall t :: t in timers ==> t == Timer(id, duration)
  {
    if duration > 0 then [Timer(id, duration)] else []
  }

  class ToastQueue {
    var toasts: seq<Toast>
    var timers: seq<Timer>

    constructor()
      ensures toasts == [] && timers == []
    {
      toasts := [];
      timers := [];
    }

    /** `addToast(message, type?, duration?)` with the generated id passed in. */
    method AddToast(id: string, message: string, toastType: Option<ToastType>, duration: Option<int>) returns (newId: string)
      modifies this
      ensures newId == id
      ensures toasts == old(toasts) + [Toast(id, message, toastType.GetOr(DefaultType), duration.GetOr(DefaultDuration))]
      ensures timers == old(timers) + TimersFor(id, duration.GetOr(DefaultDuration))
    {
      var d := duration.GetOr(DefaultDuration);
      var toast := Toast(id, message, toastType.GetOr(DefaultType), d);
      toasts := toasts + [toast];
      if d > 0 {
        timers := timers + [Timer(id, d)];
      }
      newId := id;
    }

    /** `removeToast(id)`: every toast with that id goes, the rest keep their order. */
    method RemoveToast(id: string)
      modifies this
      ensures toasts == Without(old(toasts), ToastId, id)
      ensures timers == old(timers)
    {
      toasts := Without(toasts, ToastId, id);
    }

    method ShowSuccess(id: string, message: string, duration: Option<int>) returns (newId: string)
      modifies this
      ensures newId == id
      ensures toasts == old(toasts) + [Toast(id, message, Success, duration.GetOr(DefaultDuration))]
      ensures timers == old(timers) + TimersFor(id, duration.GetOr(DefaultDuration))
    {
      newId := AddToast(id, message, Some(Success), duration);
    }

    method ShowError(id: string, message: string, duration: Option<int>) returns (newId: string)
      modifies this
      ensures newId == id
      ensures toasts == old(toasts) + [Toast(id, message, Error, duration.GetOr(DefaultDuration))]
      ensures timers == old(timers) + TimersFor(id, duration.GetOr(DefaultDuration))
    {
      newId := AddToast(id, message, Some(Error), duration);
    }

    method ShowInfo(id: string, message: string, duration: Option<int>) returns (newId: string)
      modifies this
      ensures newId == id
      ensures toasts == old(toasts) + [Toast(id, message, Info, duration.GetOr(DefaultDuration))]
      ensures timers == old(timers) + TimersFor(id, duration.GetOr(DefaultDuration))
    {
      newId := AddToast(id, message, Some(Info), duration);
    }

    method ShowWarning(id: string, message: string, duration: Option<int>) returns (newId: string)
      modifies this
      ensures newId == id
      ensures toasts == old(toasts) + [Toast(id, message, Warning, duration.GetOr(DefaultDuration))]
      ensures timers == old(timers) + TimersFor(id, duration.GetOr(DefaultDuration))
    {
      newId := AddToast(id, message, Some(Warning), duration);
    }
  }

  /** Adding a toast under an unused id and then removing that id restores the queue. */
  method AddThenRemove(q: ToastQueue, id: string, message: string)
    requires !HasKey(q.toasts, ToastId, id)
    modifies q
    ensures q.toasts == old(q.toasts)
  {
    var newId := q.AddToast(id, message, None, None);
    RemoveAppendedFresh(old(q.toasts), Toast(id, message, DefaultType, DefaultDuration), ToastId);
    q.RemoveToast(newId);
  }

  /** Removing the same id twice leaves the queue as removing it once. */
  method RemoveTwice(q: ToastQueue, id: string)
    modifies q
    ensures q.toasts == Without(old(q.toasts), ToastId, id)
  {
    q.RemoveToast(id);
    q.RemoveToast(id);
    WithoutIdempotent(old(q.toasts), ToastId, id);
  }
}
