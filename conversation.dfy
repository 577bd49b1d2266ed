/**
 * In-memory conversation state: per-conversation message histories and
 * per-conversation locks that are created on first use.
 *
 * A lock is modelled by whether it is held. Acquiring a held lock would
 * suspend the caller until another task releases it; with one task at a time
 * the caller must find it free.
 */
module Conversation {

  /** A message of the model history; the store never looks inside one. */
  datatype ModelMessage = ModelRequest(text: string) | ModelResponse(text: string)

  class ConversationStore {
    /** `_histories`: a `defaultdict(list)`, only filled by `append`. */
    var histories: map<string, seq<ModelMessage>>
    /** `_locks`: for each id seen so far, whether its lock is held. */
    var locks: map<string, bool>

    constructor ()
      ensures histories == map[] && locks == map[]
    {
      histories := map[];
      locks := map[];
    }

    /** The history of `id` as `get` returns it: empty for an unknown id. */
    function History(id: string): seq<ModelMessage>
      reads this`histories
    {
      if id in histories then histories[id] else []
    }

    /** The lock of `id` exists and is held. */
    predicate Held(id: string)
      reads this`locks
    {
      id in locks && locks[id]
    }

    /** Only ids that received messages have a history entry. */
    predicate Valid()
      reads this`histories
    {
      forall id | id in histories :: histories[id] != []
    }

    /** `acquire_lock`: create the lock on first use, then hold it. */
    method AcquireLock(id: string)
      requires !Held(id)
      modifies this
      ensures locks == old(locks)[id := true]
      ensures histories == old(histories)
    {
      locks := locks[id := true];
    }

    /** `release_lock`: free the lock when it exists and is held; otherwise nothing. */
    method ReleaseLock(id: string)
      modifies this
      ensures locks == if old(Held(id)) then old(locks)[id := false] else old(locks)
      ensures histories == old(histories)
    {
      if id in locks && locks[id] {
        locks := locks[id := false];
      }
    }

    /** `append`: extend the history of `id` in order; an empty list changes nothing. */
    method Append(id: string, messages: seq<ModelMessage>)
      requires Valid()
      modifies this
      ensures Valid()
      ensures History(id) == old(History(id)) + messages
      ensures forall other :: other != id ==> History(other) == old(History(other))
      ensures messages == [] ==> histories == old(histories)
      ensures locks == old(locks)
    {
      if messages != [] {
        histories := histories[id := History(id) + messages];
      }
    }

    /** `get`: a copy of the history, with no entry created for an unknown id. */
    method Get(id: string) returns (history: seq<ModelMessage>)
      ensures history == History(id)
      ensures id !in histories ==> history == []
      ensures Valid() ==> (history == [] <==> id !in histories)
    {
      history := if id in histories then histories[id] else [];
    }
  }

  /** Acquiring and then releasing a lock leaves it existing and free, and histories untouched. */
  method LockRoundTrip(store: ConversationStore, id: string)
    requires !store.Held(id)
    modifies store
    ensures store.locks == old(store.locks)[id := false]
    ensures store.histories == old(store.histories)
  {
    store.AcquireLock(id);
    store.ReleaseLock(id);
  }
}
