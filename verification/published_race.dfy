/** CreatePublishedPort and DeletePublishedPort calls that run at the same time,
    step by step, under their locks. */
module PublishedRace {
  import opened Wrappers
  import opened Model
  import opened Worlds

  datatype Call = Creating(machine: MachineID, id: PortID, port: Port16) | Deleting(machine: MachineID, id: PortID)

  /** Where a call stands. Everything between Locked and Releasing runs under the
      machine's lock; Guarded to Undoing also under publishedPortAllocMu. */
  datatype Place =
    | Waiting
    | Locked
    | Checked
    | Guarded
    | Allocated(hostPort: Port16)
    | Listening(hostPort: Port16)
    | Undoing
    | Found
    | Closed
    | Releasing
    | Finished

  datatype Thread = Thread(call: Call, place: Place)

  datatype State = State(
    ports: map<PortID, PublishedPortRecord>,
    listeners: map<PortID, Port16>,
    guard: Option<nat>,
    locks: map<MachineID, nat>,
    threads: seq<Thread>)

  datatype StoreAnswer = Stored | DuplicateID | HostPortTaken

  /** The store's own check, in its order. */
  ghost function StoreCreate(ports: map<PortID, PublishedPortRecord>, r: PublishedPortRecord): StoreAnswer {
    if r.id in ports then DuplicateID
    else if HostPortStored(ports, r.hostPort) then HostPortTaken
    else Stored
  }

  /** allocatePublishedHostPort: the lowest port of the range nobody stored. */
  ghost predicate LowestFree(ports: map<PortID, PublishedPortRecord>, hostPort: Port16) {
    && MIN_PUBLISHED_PORT <= hostPort <= MAX_PUBLISHED_PORT
    && !HostPortStored(ports, hostPort)
    && forall lower :: MIN_PUBLISHED_PORT <= lower < hostPort ==> HostPortStored(ports, lower)
  }

  function MoveTo(s: State, t: nat, place: Place): (v: State)
    requires t < |s.threads|
    ensures |v.threads| == |s.threads|
    ensures forall u :: 0 <= u < |s.threads| ==> v.threads[u].call == s.threads[u].call
  {
    s.(threads := s.threads[t := s.threads[t].(place := place)])
  }

  function RecordOf(call: Call, hostPort: Port16): PublishedPortRecord
    requires call.Creating?
  {
    PublishedPortRecord(call.id, call.machine, call.port, hostPort)
  }

  /** One step of call `t`. A call may also give up at any step that can fail. */
  ghost predicate Step(s: State, v: State, t: nat) {
    && t < |s.threads|
    && (var call := s.threads[t].call;
        match s.threads[t].place
        case Waiting => call.machine !in s.locks && v == MoveTo(s, t, Locked).(locks := s.locks[call.machine := t])
        case Locked =>
          || v == MoveTo(s, t, Releasing)
          || (call.Creating? && call.id !in s.ports && v == MoveTo(s, t, Checked))
          || (call.Deleting? && call.id in s.ports && s.ports[call.id].machineID == call.machine && v == MoveTo(s, t, Found))
        case Checked => s.guard.None? && v == MoveTo(s, t, Guarded).(guard := Some(t))
        case Guarded =>
          || v == MoveTo(s, t, Releasing).(guard := None)
          || exists hostPort :: LowestFree(s.ports, hostPort) && v == MoveTo(s, t, Allocated(hostPort))
        case Allocated(hostPort) =>
          || v == MoveTo(s, t, Releasing).(guard := None)
          || (call.id in s.listeners && v == MoveTo(s, t, Listening(hostPort)))
          || (call.id !in s.listeners && hostPort !in s.listeners.Values
              && v == MoveTo(s, t, Listening(hostPort)).(listeners := s.listeners[call.id := hostPort]))
        case Listening(hostPort) =>
          call.Creating? && (
            || v == MoveTo(s, t, Undoing)
            || (StoreCreate(s.ports, RecordOf(call, hostPort)).Stored?
                && v == MoveTo(s, t, Releasing).(guard := None, ports := s.ports[call.id := RecordOf(call, hostPort)])))
        case Undoing => v == MoveTo(s, t, Releasing).(guard := None, listeners := s.listeners - {call.id})
        case Found => v == MoveTo(s, t, Closed).(listeners := s.listeners - {call.id})
        case Closed => v == MoveTo(s, t, Releasing) || v == MoveTo(s, t, Releasing).(ports := s.ports - {call.id})
        case Releasing => v == MoveTo(s, t, Finished).(locks := s.locks - {call.machine})
        case Finished => false)
  }

  ghost predicate Start(s: State) {
    && PortsInOrder(s.ports)
    && s.guard.None?
    && s.locks == map[]
    && forall t :: 0 <= t < |s.threads| ==> s.threads[t].place.Waiting?
  }

  // ------------------------------------------------------------- invariant

  predicate Guards(place: Place) {
    place.Guarded? || place.Allocated? || place.Listening? || place.Undoing?
  }

  predicate HoldsLock(place: Place) {
    !place.Waiting? && !place.Finished?
  }

  /** The call in the mutex, and only that one, may hold a host port that is not
      stored yet; it stays free until the store write. */
  ghost predicate ThreadInOrder(s: State, t: nat)
    requires t < |s.threads|
  {
    var thread := s.threads[t];
    && (Guards(thread.place) <==> s.guard == Some(t))
    && (Guards(thread.place) || thread.place.Checked? ==> thread.call.Creating?)
    && (HoldsLock(thread.place) ==> thread.call.machine in s.locks && s.locks[thread.call.machine] == t)
    && (thread.place.Allocated? || thread.place.Listening? ==>
          MIN_PUBLISHED_PORT <= thread.place.hostPort <= MAX_PUBLISHED_PORT && !HostPortStored(s.ports, thread.place.hostPort))
  }

  ghost predicate InOrder(s: State) {
    && PortsInOrder(s.ports)
    && (forall t :: 0 <= t < |s.threads| ==> ThreadInOrder(s, t))
  }

  lemma StartIsInOrder(s: State)
    requires Start(s)
    ensures InOrder(s)
  {
  }

  /** Storing a free host port under a free id. */
  lemma StoringKeepsOrder(ports: map<PortID, PublishedPortRecord>, r: PublishedPortRecord)
    requires PortsInOrder(ports) && StoreCreate(ports, r).Stored? && MIN_PUBLISHED_PORT <= r.hostPort <= MAX_PUBLISHED_PORT
    ensures PortsInOrder(ports[r.id := r])
  {
  }

  /** What a step does to the parts other calls look at. */
  lemma PortsAfterStep(s: State, v: State, t: nat)
    requires InOrder(s) && Step(s, v, t)
    ensures PortsInOrder(v.ports)
    ensures v.ports != s.ports && !(forall p :: p in v.ports ==> p in s.ports && v.ports[p] == s.ports[p]) ==> s.guard == Some(t)
  {
    assert ThreadInOrder(s, t);
    var thread := s.threads[t];
    if thread.place.Listening? && v.ports != s.ports {
      StoringKeepsOrder(s.ports, RecordOf(thread.call, thread.place.hostPort));
    }
  }

  lemma OthersStayInOrder(s: State, v: State, t: nat, u: nat)
    requires InOrder(s) && Step(s, v, t) && u < |s.threads| && u != t
    ensures u < |v.threads| && ThreadInOrder(v, u)
  {
    assert ThreadInOrder(s, u) && ThreadInOrder(s, t);
    PortsAfterStep(s, v, t);
    assert v.threads[u] == s.threads[u];
  }

  lemma StepperStaysInOrder(s: State, v: State, t: nat)
    requires InOrder(s) && Step(s, v, t)
    ensures t < |v.threads| && ThreadInOrder(v, t)
  {
    assert ThreadInOrder(s, t);
  }

  lemma StepKeepsOrder(s: State, v: State, t: nat)
    requires InOrder(s) && Step(s, v, t)
    ensures InOrder(v)
  {
    hide Step, ThreadInOrder, PortsInOrder;
    StepperStaysInOrder(s, v, t);
    PortsAfterStep(s, v, t);
    SameThreads(s, v, t);
    forall u | 0 <= u < |v.threads| ensures ThreadInOrder(v, u) {
      if u != t {
        OthersStayInOrder(s, v, t, u);
      }
    }
  }

  lemma SameThreads(s: State, v: State, t: nat)
    requires Step(s, v, t)
    ensures |v.threads| == |s.threads| > t
  {
    hide LowestFree, StoreCreate, MoveTo;
  }

  // ------------------------------------------------------------- listeners

  /** The port is listened on, on the host port its record says. */
  predicate Served(s: State, p: PortID)
    requires p in s.ports
  {
    p in s.listeners && s.listeners[p] == s.ports[p].hostPort
  }

  /** The call in the mutex is creating this port and answers for its listener. */
  ghost predicate GuardListens(s: State, p: PortID)
    requires p in s.listeners
  {
    && s.guard.Some?
    && s.guard.value < |s.threads|
    && s.threads[s.guard.value].call.id == p
    && (var place := s.threads[s.guard.value].place;
        place.Undoing? || (place.Listening? && place.hostPort == s.listeners[p]))
  }

  ghost predicate ListenerAccounted(s: State, p: PortID)
    requires p in s.listeners
  {
    (p in s.ports && Served(s, p)) || GuardListens(s, p)
  }

  /** A call about to delete a port still finds its record, and once it has closed
      the listener only the call in the mutex may have opened another. */
  ghost predicate DeletingInOrder(s: State, t: nat)
    requires t < |s.threads|
  {
    var call := s.threads[t].call;
    && (s.threads[t].place.Found? || s.threads[t].place.Closed? ==>
          call.Deleting? && call.id in s.ports && s.ports[call.id].machineID == call.machine)
    && (s.threads[t].place.Closed? && call.id in s.listeners ==> GuardListens(s, call.id))
  }

  ghost predicate ListenersInOrder(s: State) {
    && (forall p :: p in s.listeners ==> ListenerAccounted(s, p))
    && (forall t :: 0 <= t < |s.threads| ==> DeletingInOrder(s, t))
  }

  /** Before the first call, no listener serves anything but a stored port. */
  ghost predicate CleanStart(s: State) {
    Start(s) && forall p :: p in s.listeners ==> p in s.ports && Served(s, p)
  }

  lemma StartHasListenersInOrder(s: State)
    requires CleanStart(s)
    ensures ListenersInOrder(s)
  {
  }

  lemma ListenerStaysAccounted(s: State, v: State, t: nat, p: PortID)
    requires InOrder(s) && ListenersInOrder(s) && Step(s, v, t) && p in v.listeners
    ensures ListenerAccounted(v, p)
  {
    assert ThreadInOrder(s, t) && DeletingInOrder(s, t);
    assert p in s.listeners ==> ListenerAccounted(s, p);
    if p in s.listeners && GuardListens(s, p) {
      assert ThreadInOrder(s, s.guard.value);
    }
  }

  lemma DeleterStaysInOrder(s: State, v: State, t: nat)
    requires InOrder(s) && ListenersInOrder(s) && Step(s, v, t)
    ensures t < |v.threads| && DeletingInOrder(v, t)
  {
    hide PortsInOrder, HostPortStored;
    assert ThreadInOrder(s, t) && DeletingInOrder(s, t);
    var p := s.threads[t].call.id;
    assert p in s.listeners ==> ListenerAccounted(s, p);
  }

  /** Nobody else can delete the record a deletion has found. */
  lemma FoundStaysStored(s: State, v: State, t: nat, u: nat)
    requires InOrder(s) && ListenersInOrder(s) && Step(s, v, t) && u < |s.threads| && u != t
    requires s.threads[u].place.Found? || s.threads[u].place.Closed?
    ensures s.threads[u].call.id in s.ports && s.threads[u].call.id in v.ports
    ensures v.ports[s.threads[u].call.id] == s.ports[s.threads[u].call.id]
  {
    hide PortsInOrder, HostPortStored, LowestFree, ListenerAccounted;
    assert ThreadInOrder(s, t) && DeletingInOrder(s, t) && ThreadInOrder(s, u) && DeletingInOrder(s, u);
  }

  /** While a record is there, only the call in the mutex opens its listener again. */
  lemma ReopenedByGuard(s: State, v: State, t: nat, p: PortID)
    requires InOrder(s) && Step(s, v, t) && p in s.ports && p in v.listeners
    requires p in s.listeners ==> GuardListens(s, p)
    ensures GuardListens(v, p)
  {
    hide PortsInOrder, HostPortStored, LowestFree;
    assert ThreadInOrder(s, t);
    if p in s.listeners {
      assert ThreadInOrder(s, s.guard.value);
    }
  }

  lemma OthersStayDeleting(s: State, v: State, t: nat, u: nat)
    requires InOrder(s) && ListenersInOrder(s) && Step(s, v, t) && u < |s.threads| && u != t
    ensures u < |v.threads| && DeletingInOrder(v, u)
  {
    hide InOrder, PortsInOrder, HostPortStored, LowestFree, StoreCreate, ListenerAccounted, GuardListens;
    SameThreads(s, v, t);
    assert DeletingInOrder(s, u);
    assert v.threads[u] == s.threads[u];
    if s.threads[u].place.Found? || s.threads[u].place.Closed? {
      FoundStaysStored(s, v, t, u);
      if s.threads[u].place.Closed? && s.threads[u].call.id in v.listeners {
        ReopenedByGuard(s, v, t, s.threads[u].call.id);
      }
    }
  }

  lemma StepKeepsListeners(s: State, v: State, t: nat)
    requires InOrder(s) && ListenersInOrder(s) && Step(s, v, t)
    ensures ListenersInOrder(v)
  {
    hide Step, InOrder, ListenerAccounted, DeletingInOrder;
    SameThreads(s, v, t);
    forall p | p in v.listeners ensures ListenerAccounted(v, p) {
      ListenerStaysAccounted(s, v, t, p);
    }
    forall u | 0 <= u < |v.threads| ensures DeletingInOrder(v, u) {
      if u == t {
        DeleterStaysInOrder(s, v, t);
      } else {
        OthersStayDeleting(s, v, t, u);
      }
    }
  }

  /** The steps of call `t` that leave a stored port without its listener: a
      deletion closes it; a refused creation closes the one it found; or a
      creation stores the port after the listener it found was closed by the
      deletion of the record before. */
  ghost predicate LosesBy(s: State, t: nat, p: PortID)
    requires t < |s.threads|
  {
    var place := s.threads[t].place;
    && s.threads[t].call.id == p
    && (place.Found? || (place.Undoing? && p in s.ports) || (place.Listening? && p !in s.ports && p !in s.listeners))
  }

  /** One step, exactly: a port that is stored afterwards is served if it was, or
      is new, and the step is not one of those. */
  lemma ServedAfterStep(s: State, v: State, t: nat, p: PortID)
    requires InOrder(s) && ListenersInOrder(s) && Step(s, v, t) && p in v.ports
    ensures Served(v, p) <==> (p in s.ports ==> Served(s, p)) && !LosesBy(s, t, p)
  {
    assert ThreadInOrder(s, t) && DeletingInOrder(s, t);
    assert p in s.listeners ==> ListenerAccounted(s, p);
  }

  // ------------------------------------------------------------------ runs

  /** Any interleaving: at each position some call takes a step. */
  ghost predicate Run(states: seq<State>) {
    && |states| > 0
    && Start(states[0])
    && forall i, j :: 0 <= i < j == i + 1 < |states| ==> SomeoneSteps(states[i], states[j])
  }

  ghost predicate SomeoneSteps(s: State, v: State) {
    exists t: nat :: Step(s, v, t)
  }

  lemma {:induction false} RunsStayInOrder(states: seq<State>, i: nat)
    requires Run(states) && i < |states|
    ensures InOrder(states[i])
  {
    hide Step, InOrder, Start;
    if i == 0 {
      StartIsInOrder(states[0]);
    } else {
      RunsStayInOrder(states, i - 1);
      assert SomeoneSteps(states[i - 1], states[i]);
      var t: nat :| Step(states[i - 1], states[i], t);
      StepKeepsOrder(states[i - 1], states[i], t);
    }
  }

  /** In every reachable state the stored host ports are pairwise distinct and in
      range, calls on one machine exclude each other, and the store write of a
      creation can fail on its id but never on its host port. */
  lemma PublishedPortsAreSafe(states: seq<State>, i: nat)
    requires Run(states) && i < |states|
    ensures var s := states[i];
            && PortsInOrder(s.ports)
            && (forall t :: 0 <= t < |s.threads| && s.threads[t].place.Listening? ==>
                  s.threads[t].call.Creating?
                  && !StoreCreate(s.ports, RecordOf(s.threads[t].call, s.threads[t].place.hostPort)).HostPortTaken?)
            && (forall t, u :: 0 <= t < u < |s.threads| && HoldsLock(s.threads[t].place) && HoldsLock(s.threads[u].place)
                  ==> s.threads[t].call.machine != s.threads[u].call.machine)
  {
    hide Run;
    RunsStayInOrder(states, i);
    var s := states[i];
    forall t | 0 <= t < |s.threads|
      ensures s.threads[t].place.Listening? ==>
                s.threads[t].call.Creating?
                && !StoreCreate(s.ports, RecordOf(s.threads[t].call, s.threads[t].place.hostPort)).HostPortTaken?
    {
      assert ThreadInOrder(s, t);
    }
    forall t, u | 0 <= t < u < |s.threads| && HoldsLock(s.threads[t].place) && HoldsLock(s.threads[u].place)
      ensures s.threads[t].call.machine != s.threads[u].call.machine
    {
      assert ThreadInOrder(s, t) && ThreadInOrder(s, u);
    }
  }

  lemma {:induction false} RunsKeepListeners(states: seq<State>, i: nat)
    requires Run(states) && CleanStart(states[0]) && i < |states|
    ensures InOrder(states[i]) && ListenersInOrder(states[i])
  {
    hide Step, InOrder, ListenersInOrder, CleanStart;
    RunsStayInOrder(states, i);
    if i == 0 {
      StartHasListenersInOrder(states[0]);
    } else {
      RunsKeepListeners(states, i - 1);
      assert SomeoneSteps(states[i - 1], states[i]);
      var t: nat :| Step(states[i - 1], states[i], t);
      StepKeepsListeners(states[i - 1], states[i], t);
    }
  }

  ghost predicate Loses(s: State, v: State, p: PortID) {
    exists t: nat :: Step(s, v, t) && LosesBy(s, t, p)
  }

  ghost predicate StoredThrough(states: seq<State>, p: PortID, i: nat, k: nat)
    requires i <= k < |states|
  {
    forall m :: i <= m <= k ==> p in states[m].ports
  }

  /** Since the port was last stored, some step has cost it its listener. */
  ghost predicate LostSince(states: seq<State>, p: PortID, k: nat)
    requires k < |states|
  {
    exists i: nat, j: nat :: i < j == i + 1 <= k && Loses(states[i], states[j], p) && StoredThrough(states, p, j, k)
  }

  lemma LostOneLater(states: seq<State>, p: PortID, k: nat)
    requires k + 1 < |states| && p in states[k + 1].ports
    ensures LostSince(states, p, k + 1) <==>
              Loses(states[k], states[k + 1], p) || (p in states[k].ports && LostSince(states, p, k))
  {
    hide Loses;
    if LostSince(states, p, k + 1) {
      var i: nat, j: nat :| i < j == i + 1 <= k + 1 && Loses(states[i], states[j], p) && StoredThrough(states, p, j, k + 1);
      assert i != k ==> StoredThrough(states, p, j, k);
    }
    if Loses(states[k], states[k + 1], p) {
      assert StoredThrough(states, p, k + 1, k + 1);
    }
    if p in states[k].ports && LostSince(states, p, k) {
      var i: nat, j: nat :| i < j == i + 1 <= k && Loses(states[i], states[j], p) && StoredThrough(states, p, j, k);
      assert StoredThrough(states, p, j, k + 1);
    }
  }

  /** In every reachable state of every interleaving, a stored port is listened
      on, on its own host port, exactly if no such step has come since it was
      stored. */
  lemma {:induction false} ServedUnlessLost(states: seq<State>, p: PortID, k: nat)
    requires Run(states) && CleanStart(states[0]) && (p in states[0].ports ==> Served(states[0], p))
    requires k < |states| && p in states[k].ports
    ensures Served(states[k], p) <==> !LostSince(states, p, k)
  {
    hide Step, InOrder, ListenersInOrder, CleanStart, LosesBy, LostSince, Served;
    if k > 0 {
      var s, v := states[k - 1], states[k];
      RunsKeepListeners(states, k - 1);
      assert SomeoneSteps(s, v);
      var t: nat :| Step(s, v, t);
      ServedAfterStep(s, v, t, p);
      LosingIsNotServing(s, v, t, p);
      if p in s.ports {
        ServedUnlessLost(states, p, k - 1);
      }
      LostOneLater(states, p, k - 1);
    } else {
      NothingLostYet(states, p);
    }
  }

  lemma LosingIsNotServing(s: State, v: State, t: nat, p: PortID)
    requires InOrder(s) && ListenersInOrder(s) && Step(s, v, t) && p in v.ports
    ensures t < |s.threads| && (LosesBy(s, t, p) ==> Loses(s, v, p))
    ensures Loses(s, v, p) ==> !Served(v, p)
  {
    hide InOrder, ListenersInOrder, LosesBy, Served, LowestFree, StoreCreate, MoveTo;
    if Loses(s, v, p) {
      var u: nat :| Step(s, v, u) && LosesBy(s, u, p);
      ServedAfterStep(s, v, u, p);
    }
  }

  lemma NothingLostYet(states: seq<State>, p: PortID)
    requires |states| > 0
    ensures !LostSince(states, p, 0)
  {
  }

  // ------------------------------------------- one creation for every id

  /** No two creations name the same port. */
  ghost predicate CreatorsDiffer(s: State) {
    forall t, u :: 0 <= t < u < |s.threads| && s.threads[t].call.Creating? && s.threads[u].call.Creating? ==>
      s.threads[t].call.id != s.threads[u].call.id
  }

  predicate Building(place: Place) {
    place.Checked? || Guards(place)
  }

  /** A creation under way finds its id unused, and its listener stays. */
  ghost predicate BuildsAlone(s: State, t: nat)
    requires t < |s.threads|
  {
    Building(s.threads[t].place) ==>
      && s.threads[t].call.id !in s.ports
      && (s.threads[t].place.Listening? ==> s.threads[t].call.id in s.listeners)
  }

  ghost predicate AllBuildAlone(s: State) {
    CreatorsDiffer(s) && forall t :: 0 <= t < |s.threads| ==> BuildsAlone(s, t)
  }

  lemma BuilderStaysAlone(s: State, v: State, t: nat)
    requires InOrder(s) && AllBuildAlone(s) && Step(s, v, t)
    ensures t < |v.threads| && BuildsAlone(v, t)
  {
    hide PortsInOrder, HostPortStored, LowestFree, CreatorsDiffer;
    assert ThreadInOrder(s, t) && BuildsAlone(s, t);
  }

  lemma OthersStayAlone(s: State, v: State, t: nat, u: nat)
    requires InOrder(s) && ListenersInOrder(s) && AllBuildAlone(s) && Step(s, v, t) && u < |s.threads| && u != t
    ensures u < |v.threads| && BuildsAlone(v, u)
  {
    hide PortsInOrder, HostPortStored, ListenerAccounted, LowestFree, StoreCreate;
    assert ThreadInOrder(s, t) && ThreadInOrder(s, u) && DeletingInOrder(s, t) && BuildsAlone(s, t) && BuildsAlone(s, u);
    assert v.threads[u] == s.threads[u];
  }

  lemma StepKeepsCreatorsApart(s: State, v: State, t: nat)
    requires CreatorsDiffer(s) && Step(s, v, t)
    ensures CreatorsDiffer(v)
  {
    SameThreads(s, v, t);
    SameCalls(s, v, t);
    forall a, b | 0 <= a < b < |v.threads| && v.threads[a].call.Creating? && v.threads[b].call.Creating?
      ensures v.threads[a].call.id != v.threads[b].call.id
    {
      assert v.threads[a].call == s.threads[a].call && v.threads[b].call == s.threads[b].call;
    }
  }

  lemma SameCalls(s: State, v: State, t: nat)
    requires Step(s, v, t)
    ensures |v.threads| == |s.threads| && forall u :: 0 <= u < |s.threads| ==> v.threads[u].call == s.threads[u].call
  {
    hide LowestFree, StoreCreate, MoveTo;
  }

  lemma {:induction false} RunsBuildAlone(states: seq<State>, i: nat)
    requires Run(states) && CleanStart(states[0]) && CreatorsDiffer(states[0]) && i < |states|
    ensures AllBuildAlone(states[i])
  {
    hide Step, InOrder, ListenersInOrder, BuildsAlone, CreatorsDiffer;
    if i == 0 {
      WaitingBuildsNothing(states[0]);
    } else {
      var s, v := states[i - 1], states[i];
      RunsBuildAlone(states, i - 1);
      RunsKeepListeners(states, i - 1);
      assert SomeoneSteps(s, v);
      var t: nat :| Step(s, v, t);
      StepKeepsCreatorsApart(s, v, t);
      SameThreads(s, v, t);
      forall u | 0 <= u < |v.threads| ensures BuildsAlone(v, u) {
        if u == t {
          BuilderStaysAlone(s, v, t);
        } else {
          OthersStayAlone(s, v, t, u);
        }
      }
    }
  }

  lemma WaitingBuildsNothing(s: State)
    requires Start(s) && CreatorsDiffer(s)
    ensures AllBuildAlone(s)
  {
  }

  /** If no two creations name the same port, a port that no call deletes is
      served from the moment it is stored, in every interleaving. */
  lemma {:induction false} DistinctCreationsStayServed(states: seq<State>, p: PortID, k: nat)
    requires Run(states) && CleanStart(states[0]) && (p in states[0].ports ==> Served(states[0], p))
    requires CreatorsDiffer(states[0]) && NobodyDeletes(states[0], p)
    requires k < |states| && p in states[k].ports
    ensures Served(states[k], p)
  {
    hide Step, InOrder, ListenersInOrder, CleanStart, LosesBy, Served, BuildsAlone, CreatorsDiffer, NobodyDeletes;
    if k > 0 {
      var s, v := states[k - 1], states[k];
      RunsKeepListeners(states, k - 1);
      RunsBuildAlone(states, k - 1);
      RunsDeleteNothing(states, p, k - 1);
      assert SomeoneSteps(s, v);
      var t: nat :| Step(s, v, t);
      SameThreads(s, v, t);
      AloneLosesNothing(s, t, p);
      ServedAfterStep(s, v, t, p);
      if p in s.ports {
        DistinctCreationsStayServed(states, p, k - 1);
      }
    }
  }

  ghost predicate NobodyDeletes(s: State, p: PortID) {
    forall t :: 0 <= t < |s.threads| && s.threads[t].call.Deleting? ==> s.threads[t].call.id != p
  }

  lemma {:induction false} RunsDeleteNothing(states: seq<State>, p: PortID, i: nat)
    requires Run(states) && NobodyDeletes(states[0], p) && i < |states|
    ensures NobodyDeletes(states[i], p)
  {
    hide Step;
    if i > 0 {
      RunsDeleteNothing(states, p, i - 1);
      assert SomeoneSteps(states[i - 1], states[i]);
      var t: nat :| Step(states[i - 1], states[i], t);
      SameCalls(states[i - 1], states[i], t);
    }
  }

  lemma AloneLosesNothing(s: State, t: nat, p: PortID)
    requires ListenersInOrder(s) && AllBuildAlone(s) && NobodyDeletes(s, p) && t < |s.threads|
    ensures !LosesBy(s, t, p)
  {
    assert BuildsAlone(s, t) && DeletingInOrder(s, t);
  }

  // ------------------------------------------------ where listeners diverge

  function Twice(first: Place, second: Place): seq<Thread> {
    [Thread(Creating("a", "p", 80), first), Thread(Creating("b", "p", 80), second)]
  }

  /** Two creations of one id on two machines: both find the id free, the first
      one stores it, the second is refused by the store. */
  ghost function Collision(): seq<State> {
    var none: map<PortID, PublishedPortRecord> := map[];
    var stored := map["p" := PublishedPortRecord("p", "a", 80, MIN_PUBLISHED_PORT)];
    var open := map["p" := MIN_PUBLISHED_PORT];
    var a: map<MachineID, nat> := map["a" := 0];
    var both := map["a" := 0]["b" := 1];
    [State(none, map[], None, map[], Twice(Waiting, Waiting)),
     State(none, map[], None, a, Twice(Locked, Waiting)),
     State(none, map[], None, both, Twice(Locked, Locked)),
     State(none, map[], None, both, Twice(Checked, Locked)),
     State(none, map[], None, both, Twice(Checked, Checked)),
     State(none, map[], Some(0), both, Twice(Guarded, Checked)),
     State(none, map[], Some(0), both, Twice(Allocated(MIN_PUBLISHED_PORT), Checked)),
     State(none, open, Some(0), both, Twice(Listening(MIN_PUBLISHED_PORT), Checked)),
     State(stored, open, None, both, Twice(Releasing, Checked)),
     State(stored, open, Some(1), both, Twice(Releasing, Guarded)),
     State(stored, open, Some(1), both, Twice(Releasing, Allocated(MIN_PUBLISHED_PORT + 1))),
     State(stored, open, Some(1), both, Twice(Releasing, Listening(MIN_PUBLISHED_PORT + 1))),
     State(stored, open, Some(1), both, Twice(Releasing, Undoing)),
     State(stored, map[], None, both, Twice(Releasing, Releasing))]
  }

  lemma CollisionLocks()
    ensures forall i, j :: 0 <= i < j == i + 1 <= 2 ==> SomeoneSteps(Collision()[i], Collision()[j])
  {
    var states := Collision();
    assert Step(states[0], states[1], 0);
    assert Step(states[1], states[2], 1);
  }

  lemma CollisionBegins()
    ensures forall i, j :: 2 <= i < j == i + 1 <= 5 ==> SomeoneSteps(Collision()[i], Collision()[j])
  {
    var states := Collision();
    assert Step(states[2], states[3], 0);
    assert Step(states[3], states[4], 1);
    assert Step(states[4], states[5], 0);
  }

  lemma CollisionListens()
    ensures forall i, j :: 5 <= i < j == i + 1 <= 7 ==> SomeoneSteps(Collision()[i], Collision()[j])
  {
    var states := Collision();
    assert LowestFree(map[], MIN_PUBLISHED_PORT);
    assert Step(states[5], states[6], 0);
    assert Step(states[6], states[7], 0);
  }

  lemma CollisionStores()
    ensures forall i, j :: 7 <= i < j == i + 1 <= 9 ==> SomeoneSteps(Collision()[i], Collision()[j])
  {
    var states := Collision();
    assert Step(states[7], states[8], 0);
    assert Step(states[8], states[9], 1);
  }

  lemma CollisionEnds()
    ensures forall i, j :: 9 <= i < j == i + 1 <= 13 ==> SomeoneSteps(Collision()[i], Collision()[j])
  {
    var states := Collision();
    var stored := map["p" := PublishedPortRecord("p", "a", 80, MIN_PUBLISHED_PORT)];
    assert stored["p"].hostPort == MIN_PUBLISHED_PORT;
    assert map["p" := MIN_PUBLISHED_PORT] - {"p"} == map[];
    assert LowestFree(stored, MIN_PUBLISHED_PORT + 1);
    assert Step(states[9], states[10], 1);
    assert Step(states[10], states[11], 1);
    assert Step(states[11], states[12], 1);
    assert Step(states[12], states[13], 1);
  }

  /** The refused call takes down the listener it found, which was the first
      one's: the port is stored and nobody listens. */
  lemma RefusedCreationClosesTheOther()
    ensures Run(Collision())
    ensures var last := Collision()[|Collision()| - 1];
            "p" in last.ports && "p" !in last.listeners
            && last.threads[0].place.Releasing? && last.threads[1].place.Releasing?
  {
    hide Step, SomeoneSteps;
    CollisionLocks();
    CollisionBegins();
    CollisionListens();
    CollisionStores();
    CollisionEnds();
    assert |Collision()| == 14 && Start(Collision()[0]);
  }
}
