/** The browser's interval timers as one component sees them through its
    `pollingIntervalRef`: the set of running intervals (each holding the
    request id its callback captured), the handle the ref currently holds,
    and the next handle `setInterval` will hand out. Handles start at 1, so
    every handle the ref can hold is truthy. */
module Intervals {
  import opened JsText
  import opened JsValue

  datatype Table = Table(live: map<nat, Value>, current: Option<nat>, next: nat)

  /** No timers yet; the ref is `null`. */
  const Quiet: Table := Table(map[], None, 1)

  /** Every handle in use was handed out before `next`, and none is 0. */
  predicate Valid(t: Table) {
    && 1 <= t.next
    && (forall h :: h in t.live ==> 1 <= h < t.next)
    && (t.current.Some? ==> 1 <= t.current.value < t.next)
  }

  /** At most one interval runs, and the ref holds it. */
  predicate Single(t: Table) {
    forall h :: h in t.live ==> t.current == Some(h)
  }

  /** `ref.current = setInterval(callback, …)` with a callback that captured
      `id`: a fresh timer starts and the ref is overwritten. Whatever the ref
      held before keeps running. */
  function Start(t: Table, id: Value): (r: Table)
    requires Valid(t)
    ensures Valid(r)
    ensures t.next !in t.live && r.current == Some(t.next)
    ensures r.live == t.live[t.next := id]
  {
    Table(t.live[t.next := id], Some(t.next), t.next + 1)
  }

  /** `if (ref.current) clearInterval(ref.current)`. The ref keeps its value. */
  function ClearCurrent(t: Table): (r: Table)
    requires Valid(t)
    ensures Valid(r) && r.current == t.current && r.next == t.next
    ensures forall h :: h in r.live <==> h in t.live && t.current != Some(h)
    ensures forall h :: h in r.live ==> r.live[h] == t.live[h]
  {
    if t.current.Some? then t.(live := t.live - {t.current.value}) else t
  }

  /** Clearing twice is clearing once: `clearInterval` on a stopped timer
      does nothing. */
  lemma ClearCurrentIdempotent(t: Table)
    requires Valid(t)
    ensures ClearCurrent(ClearCurrent(t)) == ClearCurrent(t)
  {
    var once := ClearCurrent(t);
    assert once.live.Keys == ClearCurrent(once).live.Keys;
  }

  /** Under the one-timer discipline, clearing the ref stops everything. */
  lemma ClearSingleStopsAll(t: Table)
    requires Valid(t) && Single(t)
    ensures ClearCurrent(t).live == map[]
    ensures Single(ClearCurrent(t))
  {
    var r := ClearCurrent(t);
    assert r.live.Keys == {};
  }

  /** Starting with nothing running leaves exactly one timer, the ref's. */
  lemma StartQuietIsSingle(t: Table, id: Value)
    requires Valid(t) && t.live == map[]
    ensures Single(Start(t, id)) && Start(t, id).live.Keys == {t.next}
  {
  }

  /** Starting while a timer runs loses that timer: it keeps running, and no
      `ClearCurrent` reaches it any more. */
  lemma {:induction false} StartWhileLiveLeaks(t: Table, id: Value, h: nat)
    requires Valid(t) && h in t.live
    ensures !Single(Start(t, id))
    ensures h in ClearCurrent(Start(t, id)).live
  {
    var r := Start(t, id);
    assert h != t.next;
    assert h in r.live && r.current != Some(h);
  }
}
