/** Toast notifications: the per-type display configuration and the
    `useToast` queue, whose ids come from one counter shared by every
    queue on the page. */
module Toast {
  import opened Wrappers
  import opened Board

  /** One queued toast. */
  datatype ToastItem = ToastItem(id: int, message: string, kind: string, duration: int)

  const SuccessType: string := "success"
  const ErrorType: string := "error"
  const InfoType: string := "info"
  const DefaultDuration: int := 4000

  /** The configuration of one toast type: its icon and its dark and light colour classes. */
  datatype ToastConfig = ToastConfig(icon: string, dark: string, light: string)

  const ToastTypes: map<string, ToastConfig> := map[
    SuccessType := ToastConfig("CheckCircle", "bg-neon-green/10 border-neon-green/30 text-neon-green",
                               "bg-green-50 border-green-200 text-green-600"),
    ErrorType := ToastConfig("AlertCircle", "bg-neon-red/10 border-neon-red/30 text-neon-red",
                             "bg-red-50 border-red-200 text-red-600"),
    InfoType := ToastConfig("Info", "bg-neon-blue/10 border-neon-blue/30 text-neon-blue",
                            "bg-blue-50 border-blue-200 text-blue-600")
  ]

  /** `TOAST_TYPES[type] || TOAST_TYPES.info`, with an absent type meaning `info`. */
  function ConfigFor(kind: Option<string>): (c: ToastConfig)
    ensures kind.Some? && kind.value in ToastTypes ==> c == ToastTypes[kind.value]
    ensures kind.None? || kind.value !in ToastTypes ==> c == ToastTypes[InfoType]
  {
    var k := kind.GetOr(InfoType);
    if k in ToastTypes then ToastTypes[k] else ToastTypes[InfoType]
  }

  /** The three types render differently, and every other type renders as `info`. */
  lemma ConfigsDistinct(kind: string)
    ensures ConfigFor(Some(SuccessType)) != ConfigFor(Some(InfoType))
    ensures ConfigFor(Some(ErrorType)) != ConfigFor(Some(InfoType))
    ensures ConfigFor(Some(SuccessType)) != ConfigFor(Some(ErrorType))
    ensures kind != SuccessType && kind != ErrorType ==> ConfigFor(Some(kind)) == ConfigFor(Some(InfoType))
  {
  }

  /** The toast `addToast(message, type, duration)` queues under `id`;
      an absent type or duration takes its default. */
  function NewToast(id: int, message: string, kind: Option<string>, duration: Option<int>): (t: ToastItem)
    ensures t.id == id && t.message == message
    ensures kind.None? ==> t.kind == InfoType
    ensures kind.Some? ==> t.kind == kind.value
    ensures duration.None? ==> t.duration == DefaultDuration
    ensures duration.Some? ==> t.duration == duration.value
  {
    ToastItem(id, message, kind.GetOr(InfoType), duration.GetOr(DefaultDuration))
  }

  /** `prev.filter(t => t.id !== id)`. */
  function WithoutToast(toasts: seq<ToastItem>, id: int): (r: seq<ToastItem>)
    ensures forall t :: t in r <==> t in toasts && t.id != id
  {
    Filter(toasts, OtherThan(id))
  }

  /** The filter's test: `t => t.id !== id`. */
  function OtherThan(id: int): ToastItem -> bool {
    (t: ToastItem) => t.id != id
  }

  /** Ids strictly increase along the queue. */
  predicate Increasing(toasts: seq<ToastItem>) {
    forall i, j :: 0 <= i < j < |toasts| ==> toasts[i].id < toasts[j].id
  }

  /** Every id in the queue is at most `bound`. */
  predicate IdsAtMost(toasts: seq<ToastItem>, bound: int) {
    forall t :: t in toasts ==> t.id <= bound
  }

  /** Removing keeps the rest in their order: a queue with increasing ids
      still has increasing ids afterwards. */
  lemma {:induction false} WithoutToastKeepsOrder(toasts: seq<ToastItem>, id: int)
    requires Increasing(toasts)
    ensures Increasing(WithoutToast(toasts, id))
    decreases |toasts|
  {
    if toasts != [] {
      var init, last := toasts[..|toasts| - 1], toasts[|toasts| - 1];
      assert Increasing(init);
      WithoutToastKeepsOrder(init, id);
      var r := WithoutToast(init, id);
      assert WithoutToast(toasts, id) == r + (if OtherThan(id)(last) then [last] else []);
      forall t | t in r
        ensures t.id < last.id
      {
        var i :| 0 <= i < |init| && init[i] == t;
        assert toasts[i] == t;
      }
    }
  }

  /** Removing an id that is not queued changes nothing. */
  lemma WithoutAbsentToast(toasts: seq<ToastItem>, id: int)
    requires forall t :: t in toasts ==> t.id != id
    ensures WithoutToast(toasts, id) == toasts
  {
    FilterKeepsAll(toasts, OtherThan(id));
  }

  /** Appending a toast whose id exceeds the bound keeps the ids increasing
      and under the new bound. */
  lemma AppendKeepsIncreasing(toasts: seq<ToastItem>, bound: int, t: ToastItem)
    requires Increasing(toasts) && IdsAtMost(toasts, bound) && bound < t.id
    ensures Increasing(toasts + [t]) && IdsAtMost(toasts + [t], t.id)
  {
    assert forall i :: 0 <= i < |toasts| ==> toasts[i] in toasts;
  }

  /** The module-level `toastId` counter, shared by every queue. */
  class IdCounter {
    var last: int

    constructor()
      ensures last == 0
    {
      last := 0;
    }

    /** `++toastId`. */
    method Next() returns (id: int)
      modifies this
      ensures id == old(last) + 1 && last == id
    {
      last := last + 1;
      id := last;
    }
  }

  /** The `useToast` hook: its queue and the shared counter. */
  class ToastQueue {
    var toasts: seq<ToastItem>
    const counter: IdCounter

    /** Ids increase along the queue and none is ahead of the counter. */
    predicate Valid()
      reads this, counter
    {
      Increasing(toasts) && IdsAtMost(toasts, counter.last)
    }

    constructor(counter: IdCounter)
      ensures toasts == [] && this.counter == counter
      ensures Valid()
    {
      toasts := [];
      this.counter := counter;
    }

    /** `addToast(message, type, duration)`: the id is the next counter
        value, above every id issued before, and the toast joins the end. */
    method AddToast(message: string, kind: Option<string>, duration: Option<int>) returns (id: int)
      requires Valid()
      modifies this, counter
      ensures id == old(counter.last) + 1 && counter.last == id
      ensures forall t :: t in old(toasts) ==> t.id < id
      ensures toasts == old(toasts) + [NewToast(id, message, kind, duration)]
      ensures Valid()
    {
      id := counter.Next();
      AppendKeepsIncreasing(toasts, id - 1, NewToast(id, message, kind, duration));
      toasts := toasts + [NewToast(id, message, kind, duration)];
    }

    /** `removeToast(id)`. */
    method RemoveToast(id: int)
      requires Valid()
      modifies this
      ensures toasts == WithoutToast(old(toasts), id)
      ensures Valid()
    {
      WithoutToastKeepsOrder(toasts, id);
      toasts := WithoutToast(toasts, id);
    }

    /** `success(message, duration)`. */
    method Success(message: string, duration: Option<int>) returns (id: int)
      requires Valid()
      modifies this, counter
      ensures id == old(counter.last) + 1
      ensures toasts == old(toasts) + [NewToast(id, message, Some(SuccessType), duration)]
      ensures Valid()
    {
      id := AddToast(message, Some(SuccessType), duration);
    }

    /** `error(message, duration)`. */
    method Error(message: string, duration: Option<int>) returns (id: int)
      requires Valid()
      modifies this, counter
      ensures id == old(counter.last) + 1
      ensures toasts == old(toasts) + [NewToast(id, message, Some(ErrorType), duration)]
      ensures Valid()
    {
      id := AddToast(message, Some(ErrorType), duration);
    }

    /** `info(message, duration)`. */
    method Info(message: string, duration: Option<int>) returns (id: int)
      requires Valid()
      modifies this, counter
      ensures id == old(counter.last) + 1
      ensures toasts == old(toasts) + [NewToast(id, message, Some(InfoType), duration)]
      ensures Valid()
    {
      id := AddToast(message, Some(InfoType), duration);
    }
  }

  /** Two queues sharing the counter never hand out the same id: two
      toasts added one after the other, to the same queue or to two, get
      increasing ids, and a toast removed by id takes no other with it. */
  method SharedCounterIds(c: IdCounter) returns (a: int, b: int, left: seq<ToastItem>)
    modifies c
    ensures a < b
    ensures left == [NewToast(b, "saved", Some(SuccessType), None)]
  {
    var q1 := new ToastQueue(c);
    var q2 := new ToastQueue(c);
    assert q1.Valid() && q2.Valid();
    a := q1.AddToast("hello", None, None);
    var a2 := q2.AddToast("saved", Some(SuccessType), None);
    b := a2;
    left := WithoutToast(q2.toasts, a);
  }
}
