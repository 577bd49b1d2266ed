/**
 * Agents as the webhook sees them, and the registry that maps agent names to
 * factories.
 */
module Agents {
  import opened Wrappers
  import opened Text
  import opened Events
  import opened Stream
  import opened Conversation

  /** What a message handler does: its effect on the stream, and the messages it returns. */
  datatype Reply = Reply(handler: Handler, messages: seq<ModelMessage>)

  /**
   * An agent instance: its class name, its `name` attribute when the class
   * defines one, the model it was created with, and its two stream handlers.
   * A handler is described by what it does to the stream (`Handler`), which is
   * what the response pipeline runs.
   */
  datatype Agent = Agent(
    className: string,
    name: Option<string>,
    model: string,
    onSessionStart: Payload -> Handler,
    onMessage: (Payload, seq<ModelMessage>) -> Reply)

  /** `display_name`: the class's `name`, or else its class name in lower case. */
  function DisplayName(a: Agent): (r: string)
    ensures a.name.Some? ==> r == a.name.value
    ensures a.name.None? ==> r == Lower(a.className) && Lower(r) == r
  {
    match a.name
    case Some(n) => n
    case None => LowerIdempotent(a.className); Lower(a.className)
  }

  /** `Callable[[str], BaseLayercodeAgent]`: builds an agent for a model name. */
  type Factory = string -> Agent

  /** The message of the error for an unknown agent name. */
  function UnknownAgent(name: string, available: seq<string>): string {
    "Unknown agent '" + name + "'. Available: " + Join(available, ", ")
  }

  /** The module-level `_REGISTRY`: registered names are stored in lower case. */
  class Registry {
    var entries: map<string, Factory>

    constructor ()
      ensures entries == map[]
    {
      entries := map[];
    }

    /** Every key is in lower case. */
    predicate Valid()
      reads this
    {
      forall k | k in entries :: Lower(k) == k
    }

    /** `register_agent`: store under the lower-cased name, replacing any earlier factory. */
    method Register(name: string, factory: Factory)
      requires Valid()
      modifies this
      ensures Valid()
      ensures entries == old(entries)[Lower(name) := factory]
    {
      LowerIdempotent(name);
      entries := entries[Lower(name) := factory];
    }

    /**
     * `create_agent`: call the factory registered under the lower-cased name;
     * an unknown name is an error listing the registered names in sorted order.
     */
    method Create(name: string, model: string) returns (r: Result<Agent, string>)
      ensures Lower(name) in entries ==> r == Success(entries[Lower(name)](model))
      ensures Lower(name) !in entries ==> r == Failure(UnknownAgent(name, Sorted(entries.Keys)))
    {
      var key := Lower(name);
      if key !in entries {
        var available := SortSet(entries.Keys);
        return Failure(UnknownAgent(name, available));
      }
      return Success(entries[key](model));
    }

    /** `available_agents`: a copy of the mapping (a value, so later changes do not reach it). */
    method Available() returns (r: map<string, Factory>)
      ensures r == entries
    {
      r := entries;
    }

    /** The `agent(name)` decorator: register the factory and hand it back unchanged. */
    method Decorate(name: string, factory: Factory) returns (r: Factory)
      requires Valid()
      modifies this
      ensures Valid()
      ensures r == factory
      ensures entries == old(entries)[Lower(name) := factory]
    {
      Register(name, factory);
      r := factory;
    }
  }

  /** Lookup ignores case: after registering under one spelling, any other spelling finds it. */
  method RegisterThenCreate(registry: Registry, registered: string, asked: string,
                            factory: Factory, model: string) returns (r: Result<Agent, string>)
    requires registry.Valid() && Lower(registered) == Lower(asked)
    modifies registry
    ensures r == Success(factory(model))
  {
    registry.Register(registered, factory);
    r := registry.Create(asked, model);
  }

  /** Registering a name again replaces the earlier factory. */
  method RegisterTwice(registry: Registry, name: string, first: Factory, second: Factory, model: string)
    returns (r: Result<Agent, string>)
    requires registry.Valid()
    modifies registry
    ensures r == Success(second(model))
    ensures registry.entries == old(registry.entries)[Lower(name) := second]
  {
    registry.Register(name, first);
    registry.Register(name, second);
    r := registry.Create(name, model);
  }

  /** The error for an unknown name lists every registered name once, in ascending order. */
  lemma UnknownAgentListsSorted(name: string, entries: map<string, Factory>)
    ensures var names := Sorted(entries.Keys);
            StrictlySorted(names) && Elems(names) == entries.Keys
            && UnknownAgent(name, Sorted(entries.Keys)) == "Unknown agent '" + name + "'. Available: " + Join(names, ", ")
    ensures forall names :: StrictlySorted(names) && Elems(names) == entries.Keys ==> names == Sorted(entries.Keys)
  {
    forall names | StrictlySorted(names) && Elems(names) == entries.Keys
      ensures names == Sorted(entries.Keys)
    {
      SortedEnumerationUnique(names, Sorted(entries.Keys));
    }
  }
}
