/**
 * The forest module's callback registry: a map from event name to the
 * callbacks registered for it, created on first use with four empty lists.
 * Callbacks are opaque values of type C; triggering an event reports the
 * callbacks it calls, in the order they are called.
 */
module ForestEvents {

  /** The four events the registry knows after initialisation, each with no
      callbacks. */
  function FreshRegistry<C>(): (m: map<string, seq<C>>)
    ensures m.Keys == {"error", "results", "reset", "dataUpdated"}
    ensures forall e :: e in m ==> m[e] == []
  {
    map["error" := [], "results" := [], "reset" := [], "dataUpdated" := []]
  }

  /** The callbacks an event has: none when it has no list. */
  function Listeners<C>(m: map<string, seq<C>>, event: string): seq<C>
  {
    if event in m then m[event] else []
  }

  /** The registry an operation works on: the current one once initialised,
      a fresh one otherwise (every operation initialises first). */
  function Effective<C>(initialized: bool, m: map<string, seq<C>>): map<string, seq<C>>
  {
    if initialized then m else FreshRegistry()
  }

  /** Registration: the event's list (created empty if missing) gets the
      callback at its end. */
  function Register<C>(m: map<string, seq<C>>, event: string, callback: C): map<string, seq<C>>
  {
    m[event := Listeners(m, event) + [callback]]
  }

  class EventSystem<C> {
    var callbacks: map<string, seq<C>>
    var initialized: bool

    /** A registry that has not been initialised yet. */
    constructor()
      ensures callbacks == map[] && !initialized
    {
      callbacks := map[];
      initialized := false;
    }

    /** Resets the registry to the four events with empty lists. */
    method Init()
      modifies this
      ensures callbacks == FreshRegistry() && initialized
    {
      callbacks := map["error" := [], "results" := [], "reset" := [], "dataUpdated" := []];
      initialized := true;
    }

    /** Registers a callback, initialising the registry first if needed. */
    method On(event: string, callback: C)
      modifies this
      ensures initialized
      ensures callbacks == Register(Effective(old(initialized), old(callbacks)), event, callback)
    {
      if !initialized {
        Init();
      }
      if event !in callbacks {
        callbacks := callbacks[event := []];
      }
      callbacks := callbacks[event := callbacks[event] + [callback]];
    }

    /** Triggers an event: returns the callbacks invoked, in registration
        order, initialising the registry first if needed. */
    method Trigger(event: string) returns (invoked: seq<C>)
      modifies this
      ensures initialized
      ensures callbacks == Effective(old(initialized), old(callbacks))
      ensures invoked == Listeners(callbacks, event)
    {
      if !initialized {
        Init();
      }
      invoked := [];
      if event in callbacks {
        var list := callbacks[event];
        var i := 0;
        while i < |list|
          invariant 0 <= i <= |list|
          invariant invoked == list[..i]
        {
          invoked := invoked + [list[i]];
          i := i + 1;
        }
      }
    }
  }

  // ---------------------------------------------------------------------
  // Properties of the registry

  /** Registering adds the callback at the end of its event's list and
      leaves every other event's list as it was. */
  lemma RegisterAppends<C>(m: map<string, seq<C>>, event: string, callback: C, other: string)
    ensures Listeners(Register(m, event, callback), event) == Listeners(m, event) + [callback]
    ensures other != event ==> Listeners(Register(m, event, callback), other) == Listeners(m, other)
  {
  }

  /** A fresh registry calls nothing, whatever the event. */
  lemma FreshRegistryIsSilent<C>(event: string)
    ensures Listeners(FreshRegistry<C>(), event) == []
  {
  }

  /** Callbacks are triggered in the order they were registered. */
  lemma {:induction false} TriggerOrder<C>(m: map<string, seq<C>>, event: string, cbs: seq<C>)
    ensures Listeners(RegisterAll(m, event, cbs), event) == Listeners(m, event) + cbs
  {
    if |cbs| > 0 {
      TriggerOrder(m, event, cbs[..|cbs| - 1]);
      assert cbs == cbs[..|cbs| - 1] + [cbs[|cbs| - 1]];
    }
  }

  /** Registration of several callbacks for one event, one after another. */
  function RegisterAll<C>(m: map<string, seq<C>>, event: string, cbs: seq<C>): map<string, seq<C>>
  {
    if |cbs| == 0 then m else Register(RegisterAll(m, event, cbs[..|cbs| - 1]), event, cbs[|cbs| - 1])
  }
}
