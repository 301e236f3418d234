/** The pull connection (usePolling.js): one request now and one per interval,
    each aborting the one before it.

    Request `g` is the g-th request issued since the hook was created; the
    abort-controller reference always holds the latest one, so it is
    `issued - 1` once any request exists. Aborted requests are recorded in
    `aborted`. A request's completion is an explicit event carrying its
    generation and its outcome. Intervals are handles with their periods.

    A request that has settled is not retired: it stays live until a later
    request or a stop aborts it, so the model also admits a second outcome
    for the same request, which a real fetch never delivers. The properties
    below are stated for distinct requests. */
module PollConnection {
  import opened Telemetry
  import Text

  const DefaultInterval: nat := 3000

  /** How a request ended, when it was not aborted. */
  datatype Outcome =
    | Success(data: Snapshot)       // 2xx and a body that decoded
    | NotOk(code: nat)              // a response whose status is not ok
    | Rejected(message: string)     // a network error, or a body that did not decode

  datatype PollState = PollState(
    snapshot: Option<Snapshot>,
    conn: ConnState,
    error: Option<string>,
    hasConnected: bool,
    issued: nat,                 // requests issued so far
    aborted: set<nat>,           // requests whose controller was aborted
    interval: Option<nat>,       // the interval reference
    intervals: map<nat, nat>,    // intervals still running: handle -> period
    nextInterval: nat)

  datatype PollEvent =
    | Activate(period: nat)
    | Tick(handle: nat)
    | Complete(gen: nat, outcome: Outcome)
    | Stop

  function Initial(): (s: PollState)
    ensures s.snapshot == None && s.conn == Connecting && s.error == None && !s.hasConnected
    ensures s.issued == 0 && s.interval == None && s.intervals == map[]
  {
    PollState(None, Connecting, None, false, 0, {}, None, map[], 0)
  }

  /** The abort-controller reference: the latest request, if any. */
  function Latest(s: PollState): Option<nat> {
    if s.issued == 0 then None else Some(s.issued - 1)
  }

  /** The message a failed request leaves in the error slot. */
  function ErrorMessage(o: Outcome): (m: string)
    requires !o.Success?
    ensures o.NotOk? ==> m == "HTTP " + Text.NatToString(o.code)
    ensures o.Rejected? ==> m == o.message
  {
    match o
    case NotOk(code) => "HTTP " + Text.NatToString(code)
    case Rejected(message) => message
  }

  /** The invariant the machine keeps: every request but the latest is
      aborted, only issued requests are, and the indicator reads
      `disconnected` only after a success. */
  ghost predicate Consistent(s: PollState) {
    && (forall g :: g in s.aborted ==> g < s.issued)
    && (forall g :: 0 <= g < s.issued - 1 ==> g in s.aborted)
    && (s.interval.Some? ==> s.interval.value < s.nextInterval)
    && (forall h :: h in s.intervals ==> h < s.nextInterval)
    && (!s.hasConnected ==> s.conn == Connecting)
  }

  /** A request's outcome is heard only when it was issued and never aborted. */
  predicate Live(s: PollState, gen: nat) {
    gen < s.issued && gen !in s.aborted
  }

  /** The synchronous start of a fetch: abort the latest request, issue a new one. */
  function Issue(s: PollState): PollState {
    var aborted := if s.issued > 0 then s.aborted + {s.issued - 1} else s.aborted;
    s.(aborted := aborted, issued := s.issued + 1)
  }

  function Finish(s: PollState, gen: nat, o: Outcome): PollState {
    if !Live(s, gen) then s
    else match o
      case Success(data) =>
        s.(snapshot := Some(data), error := None, hasConnected := true, conn := Connected)
      case _ =>
        s.(error := Some(ErrorMessage(o)),
           conn := if s.hasConnected then Disconnected else s.conn)
  }

  function StopStep(s: PollState): PollState {
    var t := if s.interval.Some? then s.(intervals := s.intervals - {s.interval.value}, interval := None) else s;
    if s.issued > 0 then t.(aborted := t.aborted + {s.issued - 1}) else t
  }

  function Step(s: PollState, e: PollEvent): PollState {
    match e
    case Activate(period) =>
      var t := Issue(s.(hasConnected := false, conn := Connecting));
      t.(interval := Some(t.nextInterval), intervals := t.intervals[t.nextInterval := period],
         nextInterval := t.nextInterval + 1)
    case Tick(h) => if h in s.intervals then Issue(s) else s
    case Complete(gen, o) => Finish(s, gen, o)
    case Stop => StopStep(s)
  }

  class PollMachine {
    var snapshot: Option<Snapshot>
    var conn: ConnState
    var error: Option<string>
    var hasConnected: bool
    var issued: nat
    var aborted: set<nat>
    var interval: Option<nat>
    var intervals: map<nat, nat>
    var nextInterval: nat

    function State(): PollState
      reads this
    {
      PollState(snapshot, conn, error, hasConnected, issued, aborted, interval, intervals, nextInterval)
    }

    ghost predicate Valid()
      reads this
    {
      Consistent(State())
    }

    constructor ()
      ensures Valid() && State() == Initial()
    {
      snapshot, conn, error, hasConnected := None, Connecting, None, false;
      issued, aborted, interval, intervals, nextInterval := 0, {}, None, map[], 0;
    }

    /** Start of a fetch: the previous request is aborted before the new one
        exists, so at most one request is ever live. */
    method BeginFetch() returns (gen: nat)
      requires Valid()
      modifies this
      ensures Valid()
      ensures gen == old(issued) && issued == gen + 1
      ensures aborted == if gen > 0 then old(aborted) + {gen - 1} else old(aborted)
      ensures forall g :: Live(State(), g) <==> g == gen
      ensures State() == Issue(old(State()))
    {
      if issued > 0 {
        aborted := aborted + {issued - 1};
      }
      gen := issued;
      issued := issued + 1;
    }

    /** End of a fetch. An aborted request returns without touching anything;
        otherwise a success replaces the snapshot and a failure records its
        message and reads `disconnected` only after an earlier success. */
    method FinishFetch(gen: nat, outcome: Outcome)
      requires Valid()
      modifies this
      ensures Valid()
      ensures !Live(old(State()), gen) ==> State() == old(State())
      ensures Live(old(State()), gen) && outcome.Success? ==>
        snapshot == Some(outcome.data) && error == None && hasConnected && conn == Connected
      ensures Live(old(State()), gen) && !outcome.Success? ==>
        && error == Some(ErrorMessage(outcome))
        && snapshot == old(snapshot) && hasConnected == old(hasConnected)
        && conn == (if old(hasConnected) then Disconnected else old(conn))
      ensures issued == old(issued) && aborted == old(aborted)
      ensures interval == old(interval) && intervals == old(intervals)
      ensures State() == Step(old(State()), Complete(gen, outcome))
    {
      if gen >= issued || gen in aborted {
        return;
      }
      match outcome
      case Success(data) =>
        snapshot := Some(data);
        error := None;
        hasConnected := true;
        conn := Connected;
      case _ =>
        error := Some(ErrorMessage(outcome));
        if hasConnected {
          conn := Disconnected;
        }
    }

    /** The activation effect: reset, fetch at once, then every `period` ms. */
    method Activate(period: nat := DefaultInterval)
      requires Valid()
      modifies this
      ensures Valid()
      ensures !hasConnected && conn == Connecting
      ensures issued == old(issued) + 1 && forall g :: Live(State(), g) <==> g == old(issued)
      ensures interval == Some(old(nextInterval)) && intervals == old(intervals)[old(nextInterval) := period]
      ensures snapshot == old(snapshot) && error == old(error)
      ensures State() == Step(old(State()), PollEvent.Activate(period))
    {
      hasConnected := false;
      conn := Connecting;
      var _ := BeginFetch();
      interval := Some(nextInterval);
      intervals := intervals[nextInterval := period];
      nextInterval := nextInterval + 1;
    }

    /** An interval firing starts a fetch, as long as it has not been cleared. */
    method OnTick(handle: nat)
      requires Valid()
      modifies this
      ensures Valid()
      ensures handle !in intervals ==> State() == old(State())
      ensures handle in intervals ==> State() == Issue(old(State()))
      ensures State() == Step(old(State()), Tick(handle))
    {
      if handle in intervals {
        var _ := BeginFetch();
      }
    }

    /** Clear and drop the interval, abort the latest request. */
    method StopPolling()
      requires Valid()
      modifies this
      ensures Valid()
      ensures interval == None && forall g :: !Live(State(), g)
      ensures old(interval).Some? ==> intervals == old(intervals) - {old(interval).value}
      ensures old(interval).None? ==> intervals == old(intervals)
      ensures snapshot == old(snapshot) && conn == old(conn) && error == old(error)
      ensures hasConnected == old(hasConnected) && issued == old(issued)
      ensures State() == Step(old(State()), Stop)
    {
      if interval.Some? {
        intervals := intervals - {interval.value};
        interval := None;
      }
      if issued > 0 {
        aborted := aborted + {issued - 1};
      }
    }
  }

  // ---------------------------------------------------------------------
  // Properties of single steps and of runs

  lemma StepKeepsConsistent(s: PollState, e: PollEvent)
    requires Consistent(s)
    ensures Consistent(Step(s, e))
  {
  }

  /** Only the latest request can change anything. */
  lemma OnlyLatestChangesState(s: PollState, gen: nat, o: Outcome)
    requires Consistent(s)
    requires Step(s, Complete(gen, o)) != s
    ensures Latest(s) == Some(gen)
  {
  }

  /** Stopping twice is stopping once. */
  lemma StopIdempotent(s: PollState)
    ensures StopStep(StopStep(s)) == StopStep(s)
  {
  }

  function Run(s: PollState, evs: seq<PollEvent>): PollState
    decreases |evs|
  {
    if evs == [] then s else Run(Step(s, evs[0]), evs[1..])
  }

  lemma {:induction false} RunKeepsConsistent(s: PollState, evs: seq<PollEvent>)
    requires Consistent(s)
    ensures Consistent(Run(s, evs))
    decreases |evs|
  {
    if evs != [] {
      StepKeepsConsistent(s, evs[0]);
      RunKeepsConsistent(Step(s, evs[0]), evs[1..]);
    }
  }

  /** Once aborted, always aborted. */
  lemma {:induction false} RunKeepsAborted(s: PollState, evs: seq<PollEvent>, gen: nat)
    requires gen in s.aborted
    ensures gen in Run(s, evs).aborted
    decreases |evs|
  {
    if evs != [] {
      RunKeepsAborted(Step(s, evs[0]), evs[1..], gen);
    }
  }

  /** No stale overwrite: a request that has been superseded can arrive at any
      later point and still changes nothing. */
  lemma StaleResponseIgnored(s: PollState, gen: nat, evs: seq<PollEvent>, o: Outcome)
    requires Consistent(s) && gen < s.issued
    requires Latest(s) != Some(gen)
    ensures Step(Run(s, evs), Complete(gen, o)) == Run(s, evs)
  {
    RunKeepsAborted(s, evs, gen);
  }

  /** No success in a run leaves the "has connected" flag false and the
      indicator at `connecting`, however many requests fail on the way. */
  lemma {:induction false} ConnectingUntilFirstSuccess(s: PollState, evs: seq<PollEvent>)
    requires Consistent(s) && !s.hasConnected
    requires forall j :: 0 <= j < |evs| ==> !(evs[j].Complete? && evs[j].outcome.Success?)
    ensures !Run(s, evs).hasConnected && Run(s, evs).conn == Connecting
    decreases |evs|
  {
    if evs != [] {
      StepKeepsConsistent(s, evs[0]);
      ConnectingUntilFirstSuccess(Step(s, evs[0]), evs[1..]);
    }
  }

  /** From the hook's creation, the indicator reads `connecting` until the
      first success. */
  lemma ConnectingFromStart(evs: seq<PollEvent>)
    requires forall j :: 0 <= j < |evs| ==> !(evs[j].Complete? && evs[j].outcome.Success?)
    ensures Run(Initial(), evs).conn == Connecting
  {
    ConnectingUntilFirstSuccess(Initial(), evs);
  }

  /** Only activation clears the "has connected" flag. */
  lemma {:induction false} ConnectedUntilActivate(s: PollState, evs: seq<PollEvent>)
    requires s.hasConnected
    requires forall i :: 0 <= i < |evs| ==> !evs[i].Activate?
    ensures Run(s, evs).hasConnected
    decreases |evs|
  {
    if evs != [] {
      ConnectedUntilActivate(Step(s, evs[0]), evs[1..]);
    }
  }

  /** A success reads `connected`; a later request that fails, after any
      events other than a new activation, reads `disconnected`. */
  lemma FailureAfterSuccessDisconnects(s: PollState, gen: nat, data: Snapshot,
                                       evs: seq<PollEvent>, later: nat, o: Outcome)
    requires Consistent(s) && Live(s, gen) && !o.Success?
    requires forall i :: 0 <= i < |evs| ==> !evs[i].Activate?
    requires gen < later && Live(Run(Step(s, Complete(gen, Success(data))), evs), later)
    ensures Step(s, Complete(gen, Success(data))).conn == Connected
    ensures Step(Run(Step(s, Complete(gen, Success(data))), evs), Complete(later, o)).conn == Disconnected
  {
    ConnectedUntilActivate(Step(s, Complete(gen, Success(data))), evs);
  }

  /** The usual shape of the above: a success, then the interval fires and
      the request it issues fails. */
  lemma NextPollFailureDisconnects(s: PollState, gen: nat, data: Snapshot, h: nat, o: Outcome)
    requires Consistent(s) && Live(s, gen) && h in s.intervals && !o.Success?
    ensures var u := Step(Step(s, Complete(gen, Success(data))), Tick(h));
            u.issued == s.issued + 1 && Step(u, Complete(s.issued, o)).conn == Disconnected
  {
  }

  /** The activation leaves exactly its own request live. */
  lemma ActivationIssuesOne(s: PollState, period: nat)
    requires Consistent(s)
    ensures var t := Step(s, Activate(period));
            forall g :: Live(t, g) <==> g == s.issued
  {
  }
}
