/**
 * The client's `useRefresh` hook: one slot (`refreshTimeout.current`) holding
 * the id of the timer that will call POST /auth/refresh, the effect that
 * re-arms it whenever `me` or `loading` changes, and the effect's cleanup.
 * The browser's timer table (`setTimeout` / `clearTimeout`), its id counter
 * and the log of fetches the timers issue are part of the object, so that
 * what is pending can be stated.
 */
module Scheduler {
  import opened Wrappers
  import Controller

  /** The timer delay: one minute. */
  const REFRESH_INTERVAL: nat := 1000 * 60 * 1

  /** The refresh call a firing timer makes. */
  datatype FetchCall = FetchCall(url: string, httpMethod: string, credentials: string)

  const REFRESH_CALL := FetchCall("http://localhost:8000/auth/refresh", "POST", "include")

  /** What `useMe` reports about the signed-in user. */
  datatype User = User(id: string, email: string)

  /** How the refresh fetch ends: a response of any status, or a rejected promise. */
  datatype FetchOutcome = Answered(status: nat) | NetworkError

  /**
   * The slot, the pending timers (id to delay), the next id `setTimeout` hands
   * out, and the fetches made so far.
   */
  datatype Timers = Timers(slot: Option<nat>, pending: map<nat, nat>, nextId: nat, fetches: seq<FetchCall>)

  /**
   * At most one timer is pending and it is the one in the slot; ids are
   * positive, so a non-null slot is truthy, and all were handed out already.
   */
  ghost predicate Inv(t: Timers)
  {
    && 1 <= t.nextId
    && (forall id :: id in t.pending ==> t.slot == Some(id))
    && (t.slot.Some? ==> 1 <= t.slot.value < t.nextId)
  }

  /** The effect body: cancel and forget the slot's timer, then arm a new one when signed in. */
  function EffectStep(t: Timers, me: Option<User>, loading: bool): Timers
  {
    var cleared := if t.slot.Some? then t.(pending := t.pending - {t.slot.value}, slot := None) else t;
    if !loading && me.Some? then
      cleared.(pending := cleared.pending[cleared.nextId := REFRESH_INTERVAL],
               slot := Some(cleared.nextId),
               nextId := cleared.nextId + 1)
    else cleared
  }

  /** The cleanup: cancel the slot's timer, leaving the slot as it is. */
  function CleanupStep(t: Timers): Timers
  {
    if t.slot.Some? then t.(pending := t.pending - {t.slot.value}) else t
  }

  /** A pending timer fires: it leaves the table and issues one refresh fetch. */
  function FireStep(t: Timers, id: nat): Timers
  {
    if id in t.pending then t.(pending := t.pending - {id}, fetches := t.fetches + [REFRESH_CALL]) else t
  }

  datatype Event =
    | EffectRun(me: Option<User>, loading: bool)
    | CleanupRun
    | TimerFired(id: nat, outcome: FetchOutcome)

  function Step(t: Timers, e: Event): Timers
  {
    match e
    case EffectRun(me, loading) => EffectStep(t, me, loading)
    case CleanupRun => CleanupStep(t)
    case TimerFired(id, _) => FireStep(t, id)
  }

  function Run(t: Timers, events: seq<Event>): Timers
    decreases |events|
  {
    if events == [] then t else Run(Step(t, events[0]), events[1..])
  }

  /** The inputs of the last effect run in a sequence of events, if any. */
  function LastEffect(events: seq<Event>): Option<(Option<User>, bool)>
    decreases |events|
  {
    if events == [] then None
    else match LastEffect(events[1..])
      case Some(inputs) => Some(inputs)
      case None => if events[0].EffectRun? then Some((events[0].me, events[0].loading)) else None
  }

  /** One effect run keeps the invariant; a timer is then pending exactly when signed in, with the refresh delay. */
  lemma EffectArmsIffSignedIn(t: Timers, me: Option<User>, loading: bool)
    requires Inv(t)
    ensures var t' := EffectStep(t, me, loading);
      && Inv(t')
      && (t.slot.Some? ==> t.slot.value !in t'.pending)
      && (t'.pending != map[] <==> !loading && me.Some?)
      && (!(!loading && me.Some?) ==> t'.slot == None)
      && (!loading && me.Some? ==> t'.slot == Some(t.nextId))
      && (forall id :: id in t'.pending ==> t'.pending[id] == REFRESH_INTERVAL && id !in t.pending)
      && t'.fetches == t.fetches
  {
    var t' := EffectStep(t, me, loading);
    if !loading && me.Some? {
      assert t'.nextId - 1 in t'.pending;
    }
  }

  /** A cleanup keeps the invariant and leaves nothing pending. */
  lemma CleanupCancels(t: Timers)
    requires Inv(t)
    ensures var t' := CleanupStep(t);
      Inv(t') && t'.pending == map[] && t'.slot == t.slot && t'.fetches == t.fetches
  {
  }

  /** Every step keeps the invariant. */
  lemma StepKeepsInv(t: Timers, e: Event)
    requires Inv(t)
    ensures Inv(Step(t, e))
  {
    match e
    case EffectRun(me, loading) => EffectArmsIffSignedIn(t, me, loading);
    case CleanupRun =>
    case TimerFired(id, _) =>
  }

  /** After any sequence of effect runs, cleanups and firings, at most one timer is pending: the slot's. */
  lemma {:induction false} RunKeepsInv(t: Timers, events: seq<Event>)
    requires Inv(t)
    ensures Inv(Run(t, events))
    decreases |events|
  {
    if events != [] {
      StepKeepsInv(t, events[0]);
      RunKeepsInv(Step(t, events[0]), events[1..]);
    }
  }

  /** A step never adds a pending timer unless it is an effect run with a signed-in user. */
  lemma StepPendingOnlyWhenSignedIn(t: Timers, e: Event)
    requires Inv(t)
    ensures var t' := Step(t, e);
      && (t'.pending != map[] ==>
            if e.EffectRun? then !e.loading && e.me.Some? else t.pending != map[])
      && (forall id :: id in t'.pending && id !in t.pending ==> SignedInEffect(e))
  {
    match e
    case EffectRun(me, loading) => EffectArmsIffSignedIn(t, me, loading);
    case CleanupRun =>
    case TimerFired(id, _) =>
  }

  /**
   * A timer is pending after a run of events only if the last effect run saw a
   * signed-in, loaded user (or, with no effect run, one was pending before).
   */
  lemma {:induction false} PendingOnlyWhenSignedIn(t: Timers, events: seq<Event>)
    requires Inv(t)
    ensures Run(t, events).pending != map[] ==>
      match LastEffect(events)
      case Some((me, loading)) => !loading && me.Some?
      case None => t.pending != map[]
    decreases |events|
  {
    if events != [] {
      var t1 := Step(t, events[0]);
      StepKeepsInv(t, events[0]);
      StepPendingOnlyWhenSignedIn(t, events[0]);
      PendingOnlyWhenSignedIn(t1, events[1..]);
    }
  }

  /** How many timer firings a sequence of events holds. */
  function Firings(events: seq<Event>): nat
    decreases |events|
  {
    if events == [] then 0 else (if events[0].TimerFired? then 1 else 0) + Firings(events[1..])
  }

  /**
   * Fetches are only ever appended, each one a refresh call, at most one per
   * firing, whatever the earlier fetches' outcomes were.
   */
  lemma {:induction false} FetchesOnlyFromFirings(t: Timers, events: seq<Event>)
    ensures |t.fetches| <= |Run(t, events).fetches| <= |t.fetches| + Firings(events)
    ensures Run(t, events).fetches[..|t.fetches|] == t.fetches
    ensures forall i :: |t.fetches| <= i < |Run(t, events).fetches| ==> Run(t, events).fetches[i] == REFRESH_CALL
    decreases |events|
  {
    if events != [] {
      var t1 := Step(t, events[0]);
      FetchesOnlyFromFirings(t1, events[1..]);
      var r := Run(t, events).fetches;
      assert r == Run(t1, events[1..]).fetches;
      assert t1.fetches[..|t.fetches|] == t.fetches;
      assert r[..|t.fetches|] == r[..|t1.fetches|][..|t.fetches|];
    }
  }

  /** How many events of a run fire a timer that is still pending when it fires. */
  function PendingFirings(t: Timers, events: seq<Event>): nat
    decreases |events|
  {
    if events == [] then 0
    else (if events[0].TimerFired? && events[0].id in t.pending then 1 else 0) + PendingFirings(Step(t, events[0]), events[1..])
  }

  /**
   * Exactly one fetch per firing of a pending timer: a firing of a cancelled
   * or already fired id fetches nothing.
   */
  lemma {:induction false} FetchesCountPendingFirings(t: Timers, events: seq<Event>)
    ensures |Run(t, events).fetches| == |t.fetches| + PendingFirings(t, events)
    ensures PendingFirings(t, events) <= Firings(events)
    decreases |events|
  {
    if events != [] {
      FetchesCountPendingFirings(Step(t, events[0]), events[1..]);
    }
  }

  /** An effect run that arms a timer: the user is loaded and signed in. */
  predicate SignedInEffect(e: Event)
  {
    e.EffectRun? && !e.loading && e.me.Some?
  }

  /** With nothing pending and no signed-in effect run, nothing becomes pending and nothing is fetched. */
  lemma {:induction false} IdleRun(t: Timers, events: seq<Event>)
    requires t.pending == map[]
    requires forall k :: 0 <= k < |events| ==> !SignedInEffect(events[k])
    ensures Run(t, events).pending == map[]
    ensures Run(t, events).fetches == t.fetches
    decreases |events|
  {
    if events != [] {
      var t1 := Step(t, events[0]);
      assert !SignedInEffect(events[0]);
      assert t1.pending == map[] && t1.fetches == t.fetches;
      assert forall k :: 0 <= k < |events[1..]| ==> events[1..][k] == events[k + 1];
      IdleRun(t1, events[1..]);
    }
  }

  /**
   * Once the cleanup has run (on unmount, or before the next effect), no timer
   * fetches again until an effect run sees a signed-in user.
   */
  lemma NoFetchAfterCleanup(t: Timers, events: seq<Event>)
    requires Inv(t)
    requires forall k :: 0 <= k < |events| ==> !SignedInEffect(events[k])
    ensures Run(CleanupStep(t), events).fetches == t.fetches
    ensures Run(CleanupStep(t), events).pending == map[]
  {
    CleanupCancels(t);
    IdleRun(CleanupStep(t), events);
  }

  /**
   * A firing never re-arms the timer: once the armed timer has fired and its
   * one refresh fetch is made, nothing more is fetched until an effect run
   * sees a loaded, signed-in user.
   */
  lemma OneFetchPerArming(t: Timers, id: nat, fired: Timers, events: seq<Event>)
    requires Inv(t) && id in t.pending && fired == FireStep(t, id)
    requires forall k :: 0 <= k < |events| ==> !SignedInEffect(events[k])
    ensures fired.fetches == t.fetches + [REFRESH_CALL]
    ensures Run(fired, events).fetches == fired.fetches
    ensures Run(fired, events).pending == map[]
  {
    FireEmpties(t, id);
    IdleRun(fired, events);
  }

  /** Firing the one pending timer leaves nothing pending and logs its fetch. */
  lemma FireEmpties(t: Timers, id: nat)
    requires Inv(t) && id in t.pending
    ensures FireStep(t, id).pending == map[]
    ensures FireStep(t, id).fetches == t.fetches + [REFRESH_CALL]
  {
    assert forall i :: i in t.pending ==> i == id;
    assert FireStep(t, id).pending.Keys == {};
  }

  /** The timer fires well before the one-hour access and identity token cookies expire. */
  lemma RefreshesBeforeExpiry()
    ensures REFRESH_INTERVAL == 60_000
    ensures REFRESH_INTERVAL < Controller.ONE_HOUR_MS
  {
  }

  class RefreshHook {
    /** `refreshTimeout.current`. */
    var slot: Option<nat>
    /** The browser's pending timers, id to delay. */
    var pending: map<nat, nat>
    /** The id the next `setTimeout` returns. */
    var nextId: nat
    /** The fetches fired timers issued, oldest first. */
    var fetches: seq<FetchCall>

    function State(): Timers
      reads this
    {
      Timers(slot, pending, nextId, fetches)
    }

    ghost predicate Valid()
      reads this
    {
      Inv(State())
    }

    /** `useRef(null)` on first render, with no timers pending. */
    constructor ()
      ensures Valid() && State() == Timers(None, map[], 1, [])
    {
      slot := None;
      pending := map[];
      nextId := 1;
      fetches := [];
    }

    /** `setTimeout(callback, delay)`. */
    method SetTimeout(delay: nat) returns (id: nat)
      requires forall i :: i in pending ==> i < nextId
      modifies this
      ensures id == old(nextId) && id !in old(pending) && nextId == old(nextId) + 1
      ensures pending == old(pending)[id := delay]
      ensures slot == old(slot) && fetches == old(fetches)
    {
      id := nextId;
      pending := pending[id := delay];
      nextId := nextId + 1;
    }

    /** `clearTimeout(id)`: a no-op for an id that is not pending. */
    method ClearTimeout(id: nat)
      modifies this
      ensures pending == old(pending) - {id}
      ensures slot == old(slot) && nextId == old(nextId) && fetches == old(fetches)
    {
      pending := pending - {id};
    }

    /** The effect, run after a render whose `me` or `loading` changed. */
    method Effect(me: Option<User>, loading: bool)
      requires Valid()
      modifies this
      ensures Valid()
      ensures State() == EffectStep(old(State()), me, loading)
      ensures old(slot).Some? ==> old(slot).value !in pending
      ensures pending != map[] <==> !loading && me.Some?
      ensures forall id :: id in pending ==> slot == Some(id) && pending[id] == REFRESH_INTERVAL
    {
      EffectArmsIffSignedIn(State(), me, loading);
      if slot.Some? {
        ClearTimeout(slot.value);
        slot := None;
      }
      if !loading && me.Some? {
        var id := SetTimeout(REFRESH_INTERVAL);
        slot := Some(id);
      }
    }

    /** The function the effect returns, run before the next effect and on unmount. */
    method Cleanup()
      requires Valid()
      modifies this
      ensures Valid()
      ensures State() == CleanupStep(old(State()))
      ensures pending == map[] && slot == old(slot)
    {
      CleanupCancels(State());
      if slot.Some? {
        ClearTimeout(slot.value);
      }
    }

    /** The browser runs pending timer `id`; the refresh fetch it issues ends with `outcome`. */
    method Fire(id: nat, outcome: FetchOutcome)
      requires Valid() && id in pending
      modifies this
      ensures Valid()
      ensures State() == FireStep(old(State()), id)
      ensures pending == map[] && fetches == old(fetches) + [REFRESH_CALL]
    {
      pending := pending - {id};
      fetches := fetches + [REFRESH_CALL];
      match outcome
      case NetworkError =>
        // the rejection is logged and swallowed
      case Answered(_) =>
    }
  }
}
