/** The supervisor's states and its broadcast stream (`crates/openvhost-proc/src/events.rs`). */
module Events {
  import opened Prelude

  type Id = string

  datatype ServiceState =
    | Stopped
    | Starting
    | Running
    | Failed(exit: Option<int>, stderrTail: seq<string>)
  {
    /** A child of ours may be alive under the id. */
    predicate Live() {
      Starting? || Running?
    }
  }

  datatype Event =
    | StateChanged(id: Id, state: ServiceState)
    | Log(id: Id)
    | Registered(id: Id)
    | Unregistered(id: Id)

  type Table = map<Id, ServiceState>

  /** What one event tells an observer that keeps one row per id. */
  function Observe(v: Table, e: Event): Table {
    match e
    case StateChanged(id, state) => v[id := state]
    case Log(_) => v
    case Registered(id) => v[id := Stopped]
    case Unregistered(id) => v - {id}
  }

  /** The rows of an observer that replayed the whole stream from empty. */
  function Replay(log: seq<Event>): Table {
    if |log| == 0 then map[] else Observe(Replay(log[..|log| - 1]), log[|log| - 1])
  }

  /** The events the supervisor may write next when its rows are `v`. */
  predicate Admissible(v: Table, e: Event) {
    match e
    case Log(_) => true
    case Registered(id) => id in v ==> !v[id].Live()
    case Unregistered(id) => id in v && !v[id].Live()
    case StateChanged(id, state) =>
      id in v &&
      match state
      case Starting => !v[id].Live()
      case Running => v[id].Starting?
      case Stopped => v[id].Live()
      case Failed(_, _) => v[id].Live()
  }

  /** Every event of the stream was admissible where it stands. */
  predicate Legal(log: seq<Event>) {
    |log| == 0 ||
    (Legal(log[..|log| - 1]) && Admissible(Replay(log[..|log| - 1]), log[|log| - 1]))
  }

  lemma ReplaySnoc(log: seq<Event>, e: Event)
    ensures Replay(log + [e]) == Observe(Replay(log), e)
    ensures Legal(log + [e]) == (Legal(log) && Admissible(Replay(log), e))
  {
    assert (log + [e])[..|log|] == log;
  }

  /** Legality is closed under taking prefixes. */
  lemma {:induction false} LegalPrefix(log: seq<Event>, n: nat)
    requires Legal(log) && n <= |log|
    ensures Legal(log[..n])
    decreases |log|
  {
    if n == |log| {
      assert log[..n] == log;
    } else {
      LegalPrefix(log[..|log| - 1], n);
      assert log[..|log| - 1][..n] == log[..n];
    }
  }

  /** How many starts of `id` the stream shows: the number of its latest run. */
  function Starts(log: seq<Event>, id: Id): nat {
    if |log| == 0 then 0
    else Starts(log[..|log| - 1], id) + (if log[|log| - 1] == StateChanged(id, Starting) then 1 else 0)
  }

  lemma StartsSnoc(log: seq<Event>, e: Event, id: Id)
    ensures Starts(log + [e], id) == Starts(log, id) + (if e == StateChanged(id, Starting) then 1 else 0)
  {
    assert (log + [e])[..|log|] == log;
  }
}
