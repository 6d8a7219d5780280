// NetworkGUIStateMachine: the network menu's three GUI states (offline, client, server),
// each a bundle of three UnityEvents. Transit leaves the current state through its
// OnExit and enters the next one through its OnEnter; Update picks the state from the
// network manager's status every frame and then fires the current state's OnUpdate.
// The model logs the invocations of those events, in order.
module NetworkGUIStateMachineModel {

  /** A serialized State: known only by its identity (Transit compares references). */
  class State {
    constructor ()
    {
    }
  }

  /** One invocation of a state's UnityEvent. */
  datatype Invocation = OnEnter(state: State) | OnUpdate(state: State) | OnExit(state: State)

  /** What the NetworkManager reports in a frame (a host is both client and server). */
  datatype NetworkStatus = NetworkStatus(isClient: bool, isServer: bool)

  /** The invocations of Transit(next) from `current`: none when the state does not
      change; otherwise the old state's OnExit (if there is an old state), then the new
      state's OnEnter (if there is a new state). */
  function TransitEvents(current: State?, next: State?): (r: seq<Invocation>)
    ensures |r| <= 2
  {
    if current == next then []
    else (if current != null then [OnExit(current)] else []) +
         (if next != null then [OnEnter(next)] else [])
  }

  /** What a transition fires: nothing exactly when the state stays; never an
      OnUpdate; an Exit only of the old state, first, and an Enter only of the new
      one, last. */
  lemma TransitEventsShape(current: State?, next: State?)
    ensures TransitEvents(current, next) == [] <==> current == next
    ensures forall e :: e in TransitEvents(current, next) ==> !e.OnUpdate?
    ensures forall e :: e in TransitEvents(current, next) && e.OnExit? ==> e.state == current
    ensures forall e :: e in TransitEvents(current, next) && e.OnEnter? ==> e.state == next
    ensures current != next && current != null ==> TransitEvents(current, next)[0] == OnExit(current)
    ensures current != next && next != null ==>
              TransitEvents(current, next)[|TransitEvents(current, next)| - 1] == OnEnter(next)
  {
  }

  /** The state Update selects: client (which includes host) first, then server, then
      offline. */
  function Selected(status: NetworkStatus, offline: State, client: State, server: State): (r: State)
    ensures status.isClient ==> r == client
    ensures !status.isClient && status.isServer ==> r == server
    ensures !status.isClient && !status.isServer ==> r == offline
  {
    if status.isClient then client else if status.isServer then server else offline
  }

  /** The invocations of one Update from `current` under `status`: the transition to the
      selected state, then that state's OnUpdate. */
  function UpdateEvents(current: State?, status: NetworkStatus, offline: State, client: State, server: State): (r: seq<Invocation>)
  {
    var next := Selected(status, offline, client, server);
    TransitEvents(current, next) + [OnUpdate(next)]
  }

  /** The invocations of a run of Updates, one per status, starting from `current`. */
  function Run(current: State?, statuses: seq<NetworkStatus>, offline: State, client: State, server: State): (r: seq<Invocation>)
    decreases |statuses|
  {
    if statuses == [] then []
    else
      UpdateEvents(current, statuses[0], offline, client, server) +
      Run(Selected(statuses[0], offline, client, server), statuses[1..], offline, client, server)
  }

  /** How many of the invocations are OnUpdate. */
  function UpdateCount(r: seq<Invocation>): (n: nat)
    ensures n <= |r|
  {
    if r == [] then 0 else (if r[0].OnUpdate? then 1 else 0) + UpdateCount(r[1..])
  }

  lemma {:induction false} UpdateCountAppend(a: seq<Invocation>, b: seq<Invocation>)
    ensures UpdateCount(a + b) == UpdateCount(a) + UpdateCount(b)
  {
    if a == [] {
      assert a + b == b;
    } else {
      assert (a + b)[1..] == a[1..] + b;
      UpdateCountAppend(a[1..], b);
    }
  }

  lemma UpdateCountQuiet(a: seq<Invocation>)
    requires forall e :: e in a ==> !e.OnUpdate?
    ensures UpdateCount(a) == 0
  {
    if a != [] {
      assert a[0] in a;
      UpdateCountQuiet(a[1..]);
    }
  }

  /** Every Update of a run fires exactly one OnUpdate. */
  lemma {:induction false} RunUpdatesOncePerFrame(current: State?, statuses: seq<NetworkStatus>, offline: State, client: State, server: State)
    ensures UpdateCount(Run(current, statuses, offline, client, server)) == |statuses|
    decreases |statuses|
  {
    if statuses != [] {
      var next := Selected(statuses[0], offline, client, server);
      var t := TransitEvents(current, next);
      TransitEventsShape(current, next);
      UpdateCountQuiet(t);
      UpdateCountAppend(t, [OnUpdate(next)]);
      assert UpdateCount([OnUpdate(next)]) == 1;
      RunUpdatesOncePerFrame(next, statuses[1..], offline, client, server);
      UpdateCountAppend(UpdateEvents(current, statuses[0], offline, client, server),
                        Run(next, statuses[1..], offline, client, server));
    }
  }

  /** While the network status stays the one that selected the current state, a run of
      Updates fires only that state's OnUpdate, once per frame, and no Enter or Exit. */
  lemma {:induction false} SteadyRunQuiet(current: State, status: NetworkStatus, statuses: seq<NetworkStatus>, offline: State, client: State, server: State)
    requires current == Selected(status, offline, client, server)
    requires forall i :: 0 <= i < |statuses| ==> statuses[i] == status
    ensures Run(current, statuses, offline, client, server) == seq(|statuses|, _ => OnUpdate(current))
    decreases |statuses|
  {
    if statuses != [] {
      assert statuses[0] == status;
      SteadyRunQuiet(current, status, statuses[1..], offline, client, server);
    }
  }

  /** The current state after a run of Updates: the state the last status selects. */
  function Final(current: State?, statuses: seq<NetworkStatus>, offline: State, client: State, server: State): (r: State?)
    ensures statuses != [] ==> r == Selected(statuses[|statuses| - 1], offline, client, server)
    ensures statuses == [] ==> r == current
    decreases |statuses|
  {
    if statuses == [] then current
    else Final(Selected(statuses[0], offline, client, server), statuses[1..], offline, client, server)
  }

  /** A run with one more Update is the run so far followed by that Update's events,
      starting from the state the run so far ends in. */
  lemma {:induction false} RunSplit(current: State?, statuses: seq<NetworkStatus>, status: NetworkStatus, offline: State, client: State, server: State)
    ensures Run(current, statuses + [status], offline, client, server) ==
            Run(current, statuses, offline, client, server) +
            UpdateEvents(Final(current, statuses, offline, client, server), status, offline, client, server)
    decreases |statuses|
  {
    if statuses == [] {
      assert [] + [status] == [status];
    } else {
      var next := Selected(statuses[0], offline, client, server);
      var rest := statuses[1..];
      assert statuses == [statuses[0]] + rest;
      assert statuses + [status] == [statuses[0]] + (rest + [status]);
      RunSplit(next, rest, status, offline, client, server);
    }
  }

  class NetworkGUIStateMachine {
    /** m_currentState: null until the first Update. */
    var current: State?
    const offline: State
    const client: State
    const server: State
    /** The invocations of the states' events so far. */
    var events: seq<Invocation>

    constructor (offline: State, client: State, server: State)
      ensures this.offline == offline && this.client == client && this.server == server
      ensures current == null && events == []
    {
      this.offline := offline;
      this.client := client;
      this.server := server;
      current := null;
      events := [];
    }

    /** Transit: nothing when `next` is already current; otherwise exit, switch, enter. */
    method Transit(next: State?)
      modifies this`current, this`events
      ensures current == next
      ensures events == old(events) + TransitEvents(old(current), next)
    {
      if current == next {
        return;
      }
      if current != null {
        events := events + [OnExit(current)];
      }
      current := next;
      if current != null {
        events := events + [OnEnter(current)];
      }
    }

    /** Update: the transition the status selects, then the OnUpdate of the (new)
        current state. */
    method Update(status: NetworkStatus)
      modifies this`current, this`events
      ensures current == Selected(status, offline, client, server)
      ensures events == old(events) + UpdateEvents(old(current), status, offline, client, server)
    {
      if status.isClient {
        Transit(client);
      } else if status.isServer {
        Transit(server);
      } else {
        Transit(offline);
      }
      events := events + [OnUpdate(current)];
    }
  }
}
