/** The stream manager as steps that interleave (internal/streaming/stream.go). */
module Stream {
  import opened Results
  import opened Backoff

  /** Where the reconnection loop stands between two of its steps. */
  datatype LoopAt =
    | Idle
    | Looking
    | Attempting
    | Waiting(current: int)
    | Dialing(current: int)
    | Dialed
    | Installed
    | Rejected
    | Notifying(was: bool)
    | Resetting
    | Stopped

  /**
   * `conn` tells whether there is a connection object and `closed` whether Close has been called. `callers` holds the
   * MarkDisconnected calls that are past their lock section and before their callback, with what each of them saw.
   * `backoff` is the variable of the loop.
   */
  datatype StreamState = StreamState(
    conn: bool,
    closed: bool,
    connected: bool,
    retryCount: nat,
    backoff: int,
    loop: LoopAt,
    callers: map<int, bool>)

  /** The stream after the one Connect call that starts the loop. */
  function Connected(cfg: Config): StreamState {
    StreamState(true, false, true, 0, cfg.initial, Idle, map[])
  }

  datatype Event =
    | Timer                   // the loop has waited its second
    | Tick                    // lock: it looks whether the stream is connected
    | Begin                   // lock: check the limit, count the attempt, read the backoff
    | Wake(stopped: bool)     // the wait before the dial ends, by the timer or because the manager is closed
    | Dial(ok: bool)
    | Install                 // lock: the new connection is in place
    | Callback(ok: bool)      // onConnected; ok also stands for none being set
    | LoopMark                // lock: the loop's own markDisconnected
    | LoopNotify              // its callback
    | Reset                   // the backoff is the initial one again
    | Stop                    // the loop sees that the manager is closed
    | Mark(caller: int)       // lock: some other call of MarkDisconnected
    | Notify(caller: int)     // its callback
    | Close                   // lock: the manager is closed and drops its connection

  /** The event is not one of the loop's. */
  predicate ByOthers(e: Event) {
    e.Mark? || e.Notify? || e.Close?
  }

  predicate Exhausted(cfg: Config, s: StreamState) {
    cfg.maxRetries > 0 && s.retryCount >= cfg.maxRetries
  }

  /**
   * An event that does not fit where the loop or the caller stands does not happen. A select whose timer has fired can
   * take the timer also when the manager is closed: it picks any case that is ready.
   */
  function StreamStep(cfg: Config, s: StreamState, e: Event): StreamState {
    match (e, s.loop)
    case (Timer, Idle) => s.(loop := Looking)
    case (Stop, Idle) => if s.closed then s.(loop := Stopped) else s
    case (Tick, Looking) => s.(loop := if s.connected then Idle else Attempting)
    case (Begin, Attempting) =>
      if Exhausted(cfg, s) then s.(loop := Idle)
      else s.(retryCount := s.retryCount + 1, loop := Waiting(s.backoff))
    case (Wake(stopped), Waiting(current)) =>
      if !stopped then s.(loop := Dialing(current)) else if s.closed then s.(loop := Stopped) else s
    case (Dial(ok), Dialing(current)) =>
      if ok then s.(loop := Dialed) else s.(backoff := Next(cfg, current), loop := Idle)
    case (Install, Dialed) => s.(conn := true, connected := true, retryCount := 0, loop := Installed)
    case (Callback(ok), Installed) => s.(loop := if ok then Resetting else Rejected)
    case (LoopMark, Rejected) => s.(connected := false, loop := Notifying(s.connected))
    case (LoopNotify, Notifying(_)) => s.(loop := Resetting)
    case (Reset, Resetting) => s.(backoff := cfg.initial, loop := Idle)
    case (Mark(c), _) =>
      if c in s.callers then s else s.(connected := false, callers := s.callers[c := s.connected])
    case (Notify(c), _) => s.(callers := s.callers - {c})
    case (Close, _) => if s.closed then s else s.(closed := true, conn := false)
    case _ => s
  }

  function StreamRun(cfg: Config, s: StreamState, es: seq<Event>): StreamState {
    if es == [] then s else StreamStep(cfg, StreamRun(cfg, s, es[..|es| - 1]), es[|es| - 1])
  }

  lemma {:induction false} StreamRunConcat(cfg: Config, s: StreamState, a: seq<Event>, b: seq<Event>)
    ensures StreamRun(cfg, s, a + b) == StreamRun(cfg, StreamRun(cfg, s, a), b)
  {
    if b == [] {
      assert a + b == a;
    } else {
      StreamRunConcat(cfg, s, a, b[..|b| - 1]);
      assert (a + b)[..|a + b| - 1] == a + b[..|b| - 1];
    }
  }

  // ---------------------------------------------------------------- what is counted

  /** The event calls onDisconnected, which is set. */
  predicate Fires(s: StreamState, e: Event) {
    (e.Notify? && e.caller in s.callers && s.callers[e.caller]) || (e.LoopNotify? && s.loop == Notifying(true))
  }

  function Fired(cfg: Config, es: seq<Event>): nat {
    if es == [] then 0 else
      var before := es[..|es| - 1];
      Fired(cfg, before) + if Fires(StreamRun(cfg, Connected(cfg), before), es[|es| - 1]) then 1 else 0
  }

  /** How often the stream went from connected to disconnected. */
  function Edges(cfg: Config, es: seq<Event>): nat {
    if es == [] then 0 else
      var before := es[..|es| - 1];
      var s, s' := StreamRun(cfg, Connected(cfg), before), StreamRun(cfg, Connected(cfg), es);
      Edges(cfg, before) + if s.connected && !s'.connected then 1 else 0
  }

  /** The calls that will fire their callback when they get to it. */
  function Owing(callers: map<int, bool>): set<int> {
    set c | c in callers && callers[c]
  }

  function Owed(s: StreamState): nat {
    if s.loop == Notifying(true) then 1 else 0
  }

  function Pending(s: StreamState): nat {
    |Owing(s.callers)| + Owed(s)
  }

  /** Dials since the last one that succeeded and was installed. */
  function Dials(cfg: Config, es: seq<Event>): nat {
    if es == [] then 0 else
      var before, e := es[..|es| - 1], es[|es| - 1];
      var s := StreamRun(cfg, Connected(cfg), before);
      if e.Install? && s.loop.Dialed? then 0
      else Dials(cfg, before) + if e.Dial? && s.loop.Dialing? then 1 else 0
  }

  // ---------------------------------------------------------------- one callback per disconnection

  lemma OwingAfter(callers: map<int, bool>, c: int, connected: bool)
    ensures c !in callers ==> Owing(callers[c := connected]) == Owing(callers) + if connected then {c} else {}
    ensures Owing(callers - {c}) == Owing(callers) - {c}
  {
  }

  lemma CallerBalances(cfg: Config, s: StreamState, e: Event)
    requires ByOthers(e)
    ensures var s' := StreamStep(cfg, s, e);
            && s'.loop == s.loop
            && |Owing(s'.callers)| + (if Fires(s, e) then 1 else 0)
               == |Owing(s.callers)| + if s.connected && !s'.connected then 1 else 0
  {
    if e.Mark? || e.Notify? {
      OwingAfter(s.callers, e.caller, s.connected);
    }
  }

  lemma LoopBalances(cfg: Config, s: StreamState, e: Event)
    requires !ByOthers(e)
    ensures var s' := StreamStep(cfg, s, e);
            && s'.callers == s.callers
            && Owed(s') + (if Fires(s, e) then 1 else 0) == Owed(s) + if s.connected && !s'.connected then 1 else 0
  {
  }

  /** One step pays for itself: an edge adds a pending callback, a callback removes one. */
  lemma StepBalances(cfg: Config, s: StreamState, e: Event)
    ensures var s' := StreamStep(cfg, s, e);
            Pending(s') + (if Fires(s, e) then 1 else 0) == Pending(s) + if s.connected && !s'.connected then 1 else 0
  {
    if ByOthers(e) {
      CallerBalances(cfg, s, e);
    } else {
      LoopBalances(cfg, s, e);
    }
  }

  /**
   * For any number of interleaved MarkDisconnected calls and reconnections, the callbacks that ran and those still
   * to come are exactly as many as the disconnections.
   */
  lemma {:induction false} OneCallbackPerEdge(cfg: Config, es: seq<Event>)
    ensures Fired(cfg, es) + Pending(StreamRun(cfg, Connected(cfg), es)) == Edges(cfg, es)
  {
    if es == [] {
      assert Owing(map[]) == {};
    } else {
      OneCallbackPerEdge(cfg, es[..|es| - 1]);
      StepBalances(cfg, StreamRun(cfg, Connected(cfg), es[..|es| - 1]), es[|es| - 1]);
    }
  }

  // ---------------------------------------------------------------- retries

  /** Where the loop stands decides how the backoff, the retry count and the dials belong together. */
  ghost predicate RetryInv(cfg: Config, s: StreamState, dials: nat) {
    && (cfg.maxRetries > 0 ==> s.retryCount <= cfg.maxRetries)
    && dials <= s.retryCount
    && (s.connected ==> s.retryCount == 0)
    && match s.loop
       case Idle => s.backoff == After(cfg, s.retryCount) && dials == s.retryCount
       case Looking => s.backoff == After(cfg, s.retryCount) && dials == s.retryCount
       case Attempting => s.backoff == After(cfg, s.retryCount) && dials == s.retryCount && !s.connected
       case Waiting(current) =>
         s.retryCount > 0 && current == s.backoff == After(cfg, s.retryCount - 1) && dials == s.retryCount - 1
       case Dialing(current) =>
         s.retryCount > 0 && current == s.backoff == After(cfg, s.retryCount - 1) && dials == s.retryCount - 1
       case Dialed => s.retryCount > 0 && dials == s.retryCount
       case Stopped => true
       case _ => s.retryCount == 0 && dials == 0
  }

  /**
   * Over every sequence of outcomes: between two attempts the backoff is the step function iterated retryCount times
   * from the initial one, the retry count is the number of dials since the last success, and never above the limit.
   */
  lemma {:induction false} RetryAccounting(cfg: Config, es: seq<Event>)
    ensures RetryInv(cfg, StreamRun(cfg, Connected(cfg), es), Dials(cfg, es))
  {
    if es != [] {
      RetryAccounting(cfg, es[..|es| - 1]);
      RetryStep(cfg, StreamRun(cfg, Connected(cfg), es[..|es| - 1]), es[|es| - 1], Dials(cfg, es[..|es| - 1]));
    }
  }

  lemma RetryStep(cfg: Config, s: StreamState, e: Event, dials: nat)
    requires RetryInv(cfg, s, dials)
    ensures RetryInv(cfg, StreamStep(cfg, s, e),
                     if e.Install? && s.loop.Dialed? then 0
                     else dials + if e.Dial? && s.loop.Dialing? then 1 else 0)
  {
  }

  /**
   * In every life an attempt gives up exactly when as many dials as the limit allows have failed in a row; before that
   * it waits for the backoff that so many failures lead to.
   */
  lemma {:induction false} GivesUpIff(cfg: Config, es: seq<Event>)
    requires StreamRun(cfg, Connected(cfg), es).loop == Attempting
    ensures var dials, next := Dials(cfg, es), StreamRun(cfg, Connected(cfg), es + [Begin]).loop;
            next == if cfg.maxRetries > 0 && dials == cfg.maxRetries then Idle else Waiting(After(cfg, dials))
  {
    RetryAccounting(cfg, es);
    assert (es + [Begin])[..|es|] == es;
  }

  // ---------------------------------------------------------------- connected or not

  /** What an event adds: an installation makes good, a mark loses the stream, and so does an onConnected that fails. */
  predicate LostAfter(s: StreamState, e: Event, lost: bool) {
    match e
    case Install => lost && !s.loop.Dialed?
    case Mark(c) => lost || c !in s.callers
    case Callback(ok) => lost || (!ok && s.loop.Installed?)
    case _ => lost
  }

  /** Since the last installation somebody has marked the stream disconnected, or onConnected has failed. */
  ghost predicate LostSince(cfg: Config, es: seq<Event>) {
    es != [] &&
    var before := es[..|es| - 1];
    LostAfter(StreamRun(cfg, Connected(cfg), before), es[|es| - 1], LostSince(cfg, before))
  }

  ghost predicate LostInv(s: StreamState, lost: bool) {
    if s.loop.Rejected? then lost else s.connected <==> !lost
  }

  lemma LostStep(cfg: Config, s: StreamState, e: Event, lost: bool)
    requires LostInv(s, lost)
    ensures LostInv(StreamStep(cfg, s, e), LostAfter(s, e, lost))
  {
  }

  /** In every life the stream counts as connected exactly until it is lost, save until the loop has marked it so. */
  lemma {:induction false} ConnectedIff(cfg: Config, es: seq<Event>)
    ensures LostInv(StreamRun(cfg, Connected(cfg), es), LostSince(cfg, es))
  {
    if es != [] {
      var before := es[..|es| - 1];
      ConnectedIff(cfg, before);
      LostStep(cfg, StreamRun(cfg, Connected(cfg), before), es[|es| - 1], LostSince(cfg, before));
    }
  }

  /** In every life the loop ends only when the manager is closed. */
  lemma {:induction false} OnlyCloseStops(cfg: Config, es: seq<Event>)
    ensures var s := StreamRun(cfg, Connected(cfg), es); s.loop.Stopped? ==> s.closed
  {
    if es != [] {
      OnlyCloseStops(cfg, es[..|es| - 1]);
      StopStep(cfg, StreamRun(cfg, Connected(cfg), es[..|es| - 1]), es[|es| - 1]);
    }
  }

  lemma StopStep(cfg: Config, s: StreamState, e: Event)
    requires s.loop.Stopped? ==> s.closed
    ensures var s' := StreamStep(cfg, s, e); s'.loop.Stopped? ==> s'.closed
  {
  }

  // ---------------------------------------------------------------- coming back

  /** GetConnection answers a connection. */
  predicate Serves(s: StreamState) {
    s.conn && s.connected
  }

  /** GetConnection fails, no attempt is under way that has passed the limit check, and no later one will pass it. */
  ghost predicate Doomed(cfg: Config, s: StreamState) {
    !Serves(s) &&
    match s.loop
    case Stopped => true
    case Dialing(_) => false
    case Dialed => false
    case Waiting(_) => false
    case _ => Exhausted(cfg, s)
  }

  lemma {:induction false} DoomedStays(cfg: Config, s: StreamState, es: seq<Event>)
    requires Doomed(cfg, s)
    ensures Doomed(cfg, StreamRun(cfg, s, es))
  {
    if es != [] {
      DoomedStays(cfg, s, es[..|es| - 1]);
    }
  }

  /** Some sequence of steps leads to a state in which GetConnection answers. */
  ghost predicate CanServe(cfg: Config, s: StreamState) {
    exists es :: Serves(StreamRun(cfg, s, es))
  }

  lemma ServesNow(cfg: Config, s: StreamState)
    requires Serves(s)
    ensures CanServe(cfg, s)
  {
    assert Serves(StreamRun(cfg, s, []));
  }

  lemma CanServeOneEarlier(cfg: Config, s: StreamState, e: Event)
    requires CanServe(cfg, StreamStep(cfg, s, e))
    ensures CanServe(cfg, s)
  {
    var es :| Serves(StreamRun(cfg, StreamStep(cfg, s, e), es));
    assert [e][..0] == [];
    StreamRunConcat(cfg, s, [e], es);
    assert Serves(StreamRun(cfg, s, [e] + es));
  }

  lemma ServesAfterDial(cfg: Config, s: StreamState)
    requires s.loop.Dialing? || s.loop.Dialed?
    ensures CanServe(cfg, s)
    decreases s.loop.Dialing?
  {
    if s.loop.Dialed? {
      ServesNow(cfg, StreamStep(cfg, s, Install));
      CanServeOneEarlier(cfg, s, Install);
    } else {
      ServesAfterDial(cfg, StreamStep(cfg, s, Dial(true)));
      CanServeOneEarlier(cfg, s, Dial(true));
    }
  }

  lemma ServesAfterAttempt(cfg: Config, s: StreamState)
    requires s.loop.Waiting? || (s.loop.Attempting? && !Exhausted(cfg, s))
    ensures CanServe(cfg, s)
    decreases s.loop.Attempting?
  {
    if s.loop.Waiting? {
      ServesAfterDial(cfg, StreamStep(cfg, s, Wake(false)));
      CanServeOneEarlier(cfg, s, Wake(false));
    } else {
      ServesAfterAttempt(cfg, StreamStep(cfg, s, Begin));
      CanServeOneEarlier(cfg, s, Begin);
    }
  }

  /** A number no caller has. */
  lemma FreshCaller(callers: map<int, bool>) returns (unused: int)
    ensures unused !in callers
  {
    unused := 0;
    var rest := callers.Items;
    while rest != {}
      invariant rest <= callers.Items
      invariant forall item :: item in callers.Items && item !in rest ==> item.0 < unused
      decreases rest
    {
      var item :| item in rest;
      rest := rest - {item};
      unused := if item.0 < unused then unused else item.0 + 1;
    }
    assert forall c :: c in callers ==> (c, callers[c]) in callers.Items;
  }

  lemma ServesAfterLook(cfg: Config, s: StreamState)
    requires s.loop.Looking? && !Exhausted(cfg, s)
    ensures CanServe(cfg, s)
    decreases s.connected
  {
    if s.connected {
      var caller := FreshCaller(s.callers);
      ServesAfterLook(cfg, StreamStep(cfg, s, Mark(caller)));
      CanServeOneEarlier(cfg, s, Mark(caller));
    } else {
      ServesAfterAttempt(cfg, StreamStep(cfg, s, Tick));
      CanServeOneEarlier(cfg, s, Tick);
    }
  }

  /** The steps that remain of an attempt that dialed lead back to Idle. */
  function Remaining(loop: LoopAt): nat {
    match loop
    case Installed => 4
    case Rejected => 3
    case Notifying(_) => 2
    case Resetting => 1
    case _ => 0
  }

  lemma ServesAfterRound(cfg: Config, s: StreamState)
    requires s.loop.Idle? || Remaining(s.loop) > 0
    requires !Exhausted(cfg, s)
    ensures CanServe(cfg, s)
    decreases Remaining(s.loop)
  {
    if s.loop.Idle? {
      ServesAfterLook(cfg, StreamStep(cfg, s, Timer));
      CanServeOneEarlier(cfg, s, Timer);
    } else {
      var e := match s.loop
               case Installed => Callback(true)
               case Rejected => LoopMark
               case Notifying(_) => LoopNotify
               case _ => Reset;
      ServesAfterRound(cfg, StreamStep(cfg, s, e));
      CanServeOneEarlier(cfg, s, e);
    }
  }

  /**
   * From any state GetConnection can answer, now or later, exactly when the stream is not doomed. The retry count is
   * reset by a success only, so once the limit is reached the stream stays down whatever happens. Close alone dooms
   * nothing before the loop has seen it: every select on the way may take its timer.
   */
  lemma ComesBackIff(cfg: Config, s: StreamState)
    ensures CanServe(cfg, s) <==> !Doomed(cfg, s)
  {
    if Doomed(cfg, s) {
      forall es ensures !Serves(StreamRun(cfg, s, es)) {
        DoomedStays(cfg, s, es);
      }
    } else if Serves(s) {
      ServesNow(cfg, s);
    } else {
      match s.loop {
        case Dialing(_) => ServesAfterDial(cfg, s);
        case Dialed => ServesAfterDial(cfg, s);
        case Waiting(_) => ServesAfterAttempt(cfg, s);
        case Attempting => ServesAfterAttempt(cfg, s);
        case Looking => ServesAfterLook(cfg, s);
        case _ => ServesAfterRound(cfg, s);
      }
    }
  }

  // ---------------------------------------------------------------- after Close

  /** IsConnected says yes and GetConnection fails. */
  predicate Disagree(s: StreamState) {
    s.connected && !Serves(s)
  }

  /** The event marks the stream disconnected. */
  predicate Marks(s: StreamState, e: Event) {
    (e.Mark? && e.caller !in s.callers) || (e.LoopMark? && s.loop == Rejected)
  }

  predicate Installs(s: StreamState, e: Event) {
    e.Install? && s.loop == Dialed
  }

  /** The event settles the matter: the stream counts as disconnected from here on, or has a connection. */
  predicate Settles(s: StreamState, e: Event) {
    Marks(s, e) || Installs(s, e)
  }

  /** The event at position j settles the matter, or marks the stream. */
  ghost predicate SettledAt(cfg: Config, es: seq<Event>, j: int) {
    0 <= j < |es| && Settles(StreamRun(cfg, Connected(cfg), es[..j]), es[j])
  }

  ghost predicate MarkedAt(cfg: Config, es: seq<Event>, j: int) {
    0 <= j < |es| && Marks(StreamRun(cfg, Connected(cfg), es[..j]), es[j])
  }

  lemma SameBefore(cfg: Config, es: seq<Event>, before: seq<Event>, j: int)
    requires before <= es && j < |before|
    ensures SettledAt(cfg, es, j) <==> SettledAt(cfg, before, j)
    ensures MarkedAt(cfg, es, j) <==> MarkedAt(cfg, before, j)
  {
    if 0 <= j {
      assert before[..j] == es[..j];
    }
  }

  /** The first Close came at position k and found the stream connected, and nothing has settled the matter since. */
  ghost predicate ClosedWhileConnected(cfg: Config, es: seq<Event>, k: nat) {
    && k < |es| && es[k].Close?
    && StreamRun(cfg, Connected(cfg), es[..k]).connected && !StreamRun(cfg, Connected(cfg), es[..k]).closed
    && forall j :: k < j < |es| ==> !SettledAt(cfg, es, j)
  }

  lemma StepDisagrees(cfg: Config, s: StreamState, e: Event)
    requires !s.conn ==> s.closed
    ensures var s' := StreamStep(cfg, s, e);
            && (!s'.conn ==> s'.closed)
            && (Disagree(s') <==> (e.Close? && !s.closed && s.connected) || (Disagree(s) && !Settles(s, e)))
  {
  }

  lemma ClosedBefore(cfg: Config, es: seq<Event>, k: nat)
    requires es != [] && k < |es| - 1
    ensures var last := |es| - 1;
            ClosedWhileConnected(cfg, es, k) <==>
            && ClosedWhileConnected(cfg, es[..last], k)
            && !Settles(StreamRun(cfg, Connected(cfg), es[..last]), es[last])
  {
    var before := es[..|es| - 1];
    assert before[..k] == es[..k];
    forall j | j < |before|
      ensures SettledAt(cfg, es, j) <==> SettledAt(cfg, before, j)
    {
      SameBefore(cfg, es, before, j);
    }
    assert SettledAt(cfg, es, |before|) <==> Settles(StreamRun(cfg, Connected(cfg), before), es[|before|]);
  }

  /**
   * In every life of a manager there is no connection only after Close, and IsConnected and GetConnection disagree
   * exactly when the first Close found the stream connected and it has since neither been marked disconnected nor got
   * a new connection.
   */
  lemma {:induction false} DisagreeIff(cfg: Config, es: seq<Event>)
    ensures var s := StreamRun(cfg, Connected(cfg), es);
            && (!s.conn ==> s.closed)
            && (Disagree(s) <==> exists k :: ClosedWhileConnected(cfg, es, k))
  {
    if es != [] {
      var before, last := es[..|es| - 1], |es| - 1;
      var s := StreamRun(cfg, Connected(cfg), before);
      DisagreeIff(cfg, before);
      StepDisagrees(cfg, s, es[last]);
      forall k: nat | k < last
        ensures ClosedWhileConnected(cfg, es, k) <==>
                ClosedWhileConnected(cfg, before, k) && !Settles(s, es[last])
      {
        ClosedBefore(cfg, es, k);
      }
      assert ClosedWhileConnected(cfg, es, last) <==> es[last].Close? && s.connected && !s.closed;
    }
  }

  /** A connection was installed at position k, when the manager was closed, and nobody has marked it since. */
  ghost predicate InstalledWhenClosed(cfg: Config, es: seq<Event>, k: nat) {
    && k < |es| && Installs(StreamRun(cfg, Connected(cfg), es[..k]), es[k])
    && StreamRun(cfg, Connected(cfg), es[..k]).closed
    && forall j :: k < j < |es| ==> !MarkedAt(cfg, es, j)
  }

  lemma StepServesClosed(cfg: Config, s: StreamState, e: Event)
    ensures var s' := StreamStep(cfg, s, e);
            s'.closed && Serves(s') <==> (s.closed && Installs(s, e)) || (s.closed && Serves(s) && !Marks(s, e))
  {
  }

  lemma InstalledBefore(cfg: Config, es: seq<Event>, k: nat)
    requires es != [] && k < |es| - 1
    ensures var last := |es| - 1;
            InstalledWhenClosed(cfg, es, k) <==>
            InstalledWhenClosed(cfg, es[..last], k) && !Marks(StreamRun(cfg, Connected(cfg), es[..last]), es[last])
  {
    var before := es[..|es| - 1];
    assert before[..k] == es[..k];
    forall j | j < |before|
      ensures MarkedAt(cfg, es, j) <==> MarkedAt(cfg, before, j)
    {
      SameBefore(cfg, es, before, j);
    }
    assert MarkedAt(cfg, es, |before|) <==> Marks(StreamRun(cfg, Connected(cfg), before), es[|before|]);
  }

  lemma InstalledIff(cfg: Config, es: seq<Event>, s: StreamState)
    requires es != [] && s == StreamRun(cfg, Connected(cfg), es[..|es| - 1])
    ensures var before, e := es[..|es| - 1], es[|es| - 1];
            (exists k :: InstalledWhenClosed(cfg, es, k)) <==>
            (Installs(s, e) && s.closed) || (!Marks(s, e) && exists k :: InstalledWhenClosed(cfg, before, k))
  {
    var before, last := es[..|es| - 1], |es| - 1;
    assert InstalledWhenClosed(cfg, es, last) <==> Installs(s, es[last]) && s.closed;
    if k: nat :| k < last && InstalledWhenClosed(cfg, es, k) {
      InstalledBefore(cfg, es, k);
    }
    if k :| InstalledWhenClosed(cfg, before, k) {
      InstalledBefore(cfg, es, k);
    }
  }

  /**
   * In every life of a manager, a closed manager answers a connection exactly when an attempt that was under way
   * installed one after Close and it has not been marked disconnected since.
   */
  lemma {:induction false} ServesClosedIff(cfg: Config, es: seq<Event>)
    ensures var s := StreamRun(cfg, Connected(cfg), es);
            s.closed && Serves(s) <==> exists k :: InstalledWhenClosed(cfg, es, k)
  {
    if es != [] {
      var before := es[..|es| - 1];
      var s := StreamRun(cfg, Connected(cfg), before);
      ServesClosedIff(cfg, before);
      StepServesClosed(cfg, s, es[|es| - 1]);
      InstalledIff(cfg, es, s);
    }
  }

  // ---------------------------------------------------------------- the manager

  /**
   * What a round of the loop meets: whether its select and the one of the wait before the dial, when they find the
   * manager closed, take that case; whether the dial succeeds; whether onConnected does.
   */
  datatype Meets = Meets(ended: bool, stopped: bool, dial: bool, callback: bool)

  /** The lock section and the callback of other MarkDisconnected calls, and calls of Close. */
  datatype Turn = Locks(caller: int) | Calls(caller: int) | Closes

  function ToEvent(t: Turn): Event {
    match t
    case Locks(c) => Mark(c)
    case Calls(c) => Notify(c)
    case Closes => Event.Close
  }

  /** What turns of the others leave to the loop: its own part, and whether the manager is closed. */
  ghost predicate SameLoop(s: StreamState, s': StreamState, turns: seq<Turn>) {
    && s'.loop == s.loop && s'.backoff == s.backoff && s'.retryCount == s.retryCount
    && s'.closed == (s.closed || Closes in turns)
  }

  function ToEvents(turns: seq<Turn>): seq<Event> {
    if turns == [] then [] else ToEvents(turns[..|turns| - 1]) + [ToEvent(turns[|turns| - 1])]
  }

  /** The steps of the loop among all steps. */
  function LoopPart(es: seq<Event>): seq<Event> {
    if es == [] then [] else
      LoopPart(es[..|es| - 1]) + if ByOthers(es[|es| - 1]) then [] else [es[|es| - 1]]
  }

  /** The steps after a successful dial. */
  function FinishEvents(callback: bool): seq<Event> {
    if callback then [Install, Callback(true), Reset] else [Install, Callback(false), LoopMark, LoopNotify, Reset]
  }

  function DialEvents(meets: Meets): seq<Event> {
    [Dial(meets.dial)] + if meets.dial then FinishEvents(meets.callback) else []
  }

  /** The wait is over, of a manager that is closed or not, and the loop stops instead of dialing. */
  predicate Stops(closed: bool, meets: Meets) {
    closed && meets.stopped
  }

  /** The end of the wait, and what follows. */
  function WaitEvents(stopped: bool, meets: Meets): seq<Event> {
    [Wake(stopped)] + if stopped then [] else DialEvents(meets)
  }

  /** The steps of one attempt: nothing after the limit check when no retry is left. */
  function AttemptEvents(exhausted: bool, stopped: bool, meets: Meets): seq<Event> {
    [Begin] + if exhausted then [] else WaitEvents(stopped, meets)
  }

  class StreamManager {
    const config: Config
    var conn: bool
    var done: bool
    var isConnected: bool
    var retryCount: nat
    var callbacks: nat           // how often onDisconnected has run
    var marks: map<int, bool>    // the local variable wasConnected of each call under way
    ghost var trace: seq<Event>  // every step so far

    ghost function State(): StreamState
      reads this
    {
      StreamRun(config, Connected(config), trace)
    }

    /** Whether the stream is connected after the steps `es` more. */
    ghost function ConnectedAfter(es: seq<Event>): bool
      reads this
    {
      StreamRun(config, Connected(config), trace + es).connected
    }

    /** The fields are what the steps so far make of them. */
    ghost predicate Valid()
      reads this
    {
      && conn == State().conn && done == State().closed
      && isConnected == State().connected
      && retryCount == State().retryCount
      && marks == State().callers
      && callbacks == Fired(config, trace)
    }

    /** A manager whose Connect has succeeded and has started the loop. */
    constructor Connect(config: Config)
      ensures Valid() && this.config == config && trace == []
    {
      this.config := config;
      conn, done, isConnected, retryCount := true, false, true, 0;
      callbacks, marks, trace := 0, map[], [];
    }

    ghost method Note(e: Event)
      modifies `trace
      ensures trace == old(trace) + [e]
      ensures State() == StreamStep(config, old(State()), e)
      ensures LoopPart(trace) == old(LoopPart(trace)) + if ByOthers(e) then [] else [e]
      ensures Fired(config, trace) == old(Fired(config, trace)) + if Fires(old(State()), e) then 1 else 0
    {
      assert (trace + [e])[..|trace|] == trace;
      trace := trace + [e];
    }

    /** In every life of a manager onDisconnected has run, or is about to run, once per disconnection. */
    lemma CallbacksMatchEdges()
      requires Valid()
      ensures callbacks + Pending(State()) == Edges(config, trace)
    {
      OneCallbackPerEdge(config, trace);
    }

    /** In every life of a manager, between two attempts, the backoff is what the retry count says. */
    lemma BackoffMatchesRetries()
      requires Valid() && State().loop == Idle
      ensures State().backoff == After(config, retryCount)
      ensures config.maxRetries > 0 ==> retryCount <= config.maxRetries
    {
      RetryAccounting(config, trace);
    }

    /** In every life of a manager, when the fields make IsConnected and GetConnection disagree. */
    lemma DisagreementFollowsClose()
      requires Valid()
      ensures isConnected && !conn <==> exists k :: ClosedWhileConnected(config, trace, k)
      ensures !conn ==> done
    {
      DisagreeIff(config, trace);
    }

    /** The lock section of markDisconnected, for one of the other callers. */
    method Lock(caller: int)
      requires Valid()
      modifies this
      ensures Valid() && trace == old(trace) + [Mark(caller)] && LoopPart(trace) == old(LoopPart(trace))
      ensures SameLoop(old(State()), State(), [Locks(caller)])
    {
      if caller !in marks {
        marks := marks[caller := isConnected];
        isConnected := false;
      }
      Note(Mark(caller));
    }

    /** The rest of markDisconnected: the callback, if the lock section found the stream connected. */
    method CallBack(caller: int)
      requires Valid()
      modifies this
      ensures Valid() && trace == old(trace) + [Notify(caller)] && LoopPart(trace) == old(LoopPart(trace))
      ensures SameLoop(old(State()), State(), [Calls(caller)])
    {
      if caller in marks && marks[caller] {
        callbacks := callbacks + 1;
      }
      marks := marks - {caller};
      Note(Notify(caller));
    }

    /** Drops the connection, but leaves isConnected as it is. */
    method Close()
      requires Valid()
      modifies this
      ensures Valid() && trace == old(trace) + [Event.Close] && LoopPart(trace) == old(LoopPart(trace))
      ensures SameLoop(old(State()), State(), [Closes])
    {
      if !done {
        done, conn := true, false;
      }
      Note(Event.Close);
    }

    method Other(turn: Turn)
      requires Valid()
      modifies this
      ensures Valid() && trace == old(trace) + [ToEvent(turn)] && LoopPart(trace) == old(LoopPart(trace))
      ensures SameLoop(old(State()), State(), [turn])
    {
      match turn {
        case Locks(c) => Lock(c);
        case Calls(c) => CallBack(c);
        case Closes => Close();
      }
    }

    /** Other callers take some turns. */
    method Others(turns: seq<Turn>)
      requires Valid()
      modifies this
      ensures Valid() && trace == old(trace) + ToEvents(turns) && LoopPart(trace) == old(LoopPart(trace))
      ensures SameLoop(old(State()), State(), turns)
    {
      for i := 0 to |turns|
        invariant Valid() && trace == old(trace) + ToEvents(turns[..i]) && LoopPart(trace) == old(LoopPart(trace))
        invariant SameLoop(old(State()), State(), turns[..i])
      {
        assert turns[..i + 1] == turns[..i] + [turns[i]] && turns[..i + 1][..i] == turns[..i];
        Other(turns[i]);
      }
      assert turns[..|turns|] == turns;
    }

    /** The first lock section of attemptReconnect. */
    method BeginAttempt(backoff: int) returns (proceed: bool)
      requires Valid() && State().loop == Attempting && State().backoff == backoff
      modifies this
      ensures Valid() && LoopPart(trace) == old(LoopPart(trace)) + [Begin]
      ensures proceed == !Exhausted(config, old(State()))
      ensures State().loop == (if proceed then Waiting(backoff) else Idle) && State().backoff == backoff
      ensures State().closed == old(State()).closed
    {
      proceed := !(config.maxRetries > 0 && retryCount >= config.maxRetries);
      if proceed {
        retryCount := retryCount + 1;
      }
      Note(Begin);
    }

    /** The end of the wait. */
    method WakeUp(backoff: int, meets: Meets) returns (stopped: bool)
      requires Valid() && State().loop == Waiting(backoff) && State().backoff == backoff
      modifies `trace
      ensures stopped == Stops(old(State()).closed, meets)
      ensures Valid() && LoopPart(trace) == old(LoopPart(trace)) + [Wake(stopped)]
      ensures State().loop == (if stopped then Stopped else Dialing(backoff)) && State().backoff == backoff
    {
      stopped := Stops(done, meets);
      Note(Wake(stopped));
    }

    /** The second lock section. */
    method InstallConnection()
      requires Valid() && State().loop == Dialed
      modifies this
      ensures Valid() && State().loop == Installed && LoopPart(trace) == old(LoopPart(trace)) + [Install]
    {
      conn, isConnected, retryCount := true, true, 0;
      Note(Install);
    }

    /** The lock section of the loop's own markDisconnected. */
    method LoopLock() returns (wasConnected: bool)
      requires Valid() && State().loop == Rejected
      modifies this
      ensures Valid() && State().loop == Notifying(wasConnected) && LoopPart(trace) == old(LoopPart(trace)) + [LoopMark]
    {
      wasConnected := isConnected;
      isConnected := false;
      Note(LoopMark);
    }

    method LoopCallBack(wasConnected: bool)
      requires Valid() && State().loop == Notifying(wasConnected)
      modifies this
      ensures Valid() && State().loop == Resetting && LoopPart(trace) == old(LoopPart(trace)) + [LoopNotify]
    {
      if wasConnected {
        callbacks := callbacks + 1;
      }
      Note(LoopNotify);
    }

    /** onConnected, which the source runs without the lock. */
    ghost method RunOnConnected(ok: bool)
      requires Valid() && State().loop == Installed
      modifies `trace
      ensures Valid() && LoopPart(trace) == old(LoopPart(trace)) + [Callback(ok)]
      ensures State().loop == if ok then Resetting else Rejected
    {
      Note(Callback(ok));
    }

    method ResetBackoff() returns (newBackoff: int)
      requires Valid() && State().loop == Resetting
      modifies `trace
      ensures Valid() && LoopPart(trace) == old(LoopPart(trace)) + [Reset]
      ensures State().loop == Idle && newBackoff == State().backoff == config.initial
    {
      newBackoff := config.initial;
      Note(Reset);
    }

    /** markDisconnected, called by the loop. */
    method Reject(others: nat -> seq<Turn>)
      requires Valid() && State().loop == Rejected
      modifies this
      ensures Valid() && State().loop == Resetting
      ensures LoopPart(trace) == old(LoopPart(trace)) + [LoopMark, LoopNotify]
    {
      Others(others(1));
      var wasConnected := LoopLock();
      Others(others(2));
      LoopCallBack(wasConnected);
    }

    method InstallAndCall(callback: bool, turns: seq<Turn>)
      requires Valid() && State().loop == Dialed
      modifies this
      ensures Valid() && State().loop == (if callback then Resetting else Rejected)
      ensures LoopPart(trace) == old(LoopPart(trace)) + [Install, Callback(callback)]
    {
      InstallConnection();
      Others(turns);
      RunOnConnected(callback);
    }

    /** A successful dial: install it, run onConnected, and mark the stream disconnected if that fails. */
    method FinishAttempt(callback: bool, others: nat -> seq<Turn>) returns (newBackoff: int)
      requires Valid() && State().loop == Dialed
      modifies this
      ensures Valid() && State().loop == Idle && newBackoff == State().backoff
      ensures LoopPart(trace) == old(LoopPart(trace)) + FinishEvents(callback)
    {
      InstallAndCall(callback, others(0));
      if !callback {
        Reject(others);
      }
      newBackoff := ResetBackoff();
    }

    method FinishLater(callback: bool, others: nat -> seq<Turn>) returns (newBackoff: int)
      requires Valid() && State().loop == Dialed
      modifies this
      ensures Valid() && State().loop == Idle && newBackoff == State().backoff
      ensures LoopPart(trace) == old(LoopPart(trace)) + FinishEvents(callback)
    {
      Others(others(0));
      newBackoff := FinishAttempt(callback, (i: nat) => others(1 + i));
    }

    /** The dial and what it leads to. */
    method DialOnce(backoff: int, meets: Meets, others: nat -> seq<Turn>) returns (newBackoff: int)
      requires Valid() && State().loop == Dialing(backoff) && State().backoff == backoff
      modifies this
      ensures Valid() && State().loop == Idle && newBackoff == State().backoff
      ensures LoopPart(trace) == old(LoopPart(trace)) + DialEvents(meets)
    {
      Note(Dial(meets.dial));
      if meets.dial {
        newBackoff := FinishLater(meets.callback, others);
      } else {
        newBackoff := Next(config, backoff);
      }
    }

    method DialLater(backoff: int, meets: Meets, others: nat -> seq<Turn>) returns (newBackoff: int)
      requires Valid() && State().loop == Dialing(backoff) && State().backoff == backoff
      modifies this
      ensures Valid() && State().loop == Idle && newBackoff == State().backoff
      ensures LoopPart(trace) == old(LoopPart(trace)) + DialEvents(meets)
    {
      Others(others(0));
      newBackoff := DialOnce(backoff, meets, (i: nat) => others(1 + i));
    }

    /** The wait, during which the others take some turns. */
    method WaitOut(backoff: int, meets: Meets, turns: seq<Turn>) returns (stopped: bool)
      requires Valid() && State().loop == Waiting(backoff) && State().backoff == backoff
      modifies this
      ensures stopped == Stops(old(State()).closed || Closes in turns, meets)
      ensures Valid() && LoopPart(trace) == old(LoopPart(trace)) + [Wake(stopped)]
      ensures State().loop == (if stopped then Stopped else Dialing(backoff)) && State().backoff == backoff
    {
      Others(turns);
      stopped := WakeUp(backoff, meets);
    }

    /** The wait, which closing the manager ends early, and the dial. */
    method WaitAndDial(backoff: int, meets: Meets, others: nat -> seq<Turn>) returns (newBackoff: int)
      requires Valid() && State().loop == Waiting(backoff) && State().backoff == backoff
      modifies this
      ensures Valid() && State().loop in {Idle, Stopped} && newBackoff == State().backoff
      ensures Stops(old(State()).closed || Closes in others(0), meets) ==>
                LoopPart(trace) == old(LoopPart(trace)) + WaitEvents(true, meets)
      ensures !Stops(old(State()).closed || Closes in others(0), meets) ==>
                LoopPart(trace) == old(LoopPart(trace)) + WaitEvents(false, meets)
    {
      newBackoff := backoff;
      var stopped := WaitOut(backoff, meets, others(0));
      if !stopped {
        newBackoff := DialLater(backoff, meets, (i: nat) => others(1 + i));
      }
    }

    /**
     * attemptReconnect, with `others` for what other callers of MarkDisconnected and Close do whenever the lock is
     * free. The backoff pointer is a parameter that comes back. Whatever happens, it is a run of the steps above.
     */
    method AttemptReconnect(backoff: int, meets: Meets, others: nat -> seq<Turn>) returns (newBackoff: int)
      requires Valid() && State().loop == Attempting && State().backoff == backoff
      modifies this
      ensures Valid() && State().loop in {Idle, Stopped} && newBackoff == State().backoff
      ensures var stopped := Stops(old(State()).closed || Closes in others(0), meets);
              LoopPart(trace) == old(LoopPart(trace)) + AttemptEvents(Exhausted(config, old(State())), stopped, meets)
    {
      newBackoff := backoff;
      var proceed := BeginAttempt(backoff);
      if proceed {
        newBackoff := WaitAndDial(backoff, meets, others);
      }
    }

    method AttemptLater(backoff: int, meets: Meets, turns: seq<Turn>, others: nat -> seq<Turn>)
      returns (newBackoff: int)
      requires Valid() && State().loop == Attempting && State().backoff == backoff
      modifies this
      ensures Valid() && State().loop in {Idle, Stopped} && newBackoff == State().backoff
      ensures var stopped := Stops(old(State()).closed || Closes in turns || Closes in others(0), meets);
              LoopPart(trace) == old(LoopPart(trace)) + AttemptEvents(Exhausted(config, old(State())), stopped, meets)
    {
      Others(turns);
      newBackoff := AttemptReconnect(backoff, meets, others);
    }

    /** The others take some turns, and then the loop looks at isConnected, under the lock. */
    method Look(backoff: int, turns: seq<Turn>) returns (connected: bool)
      requires Valid() && State().loop == Looking && State().backoff == backoff
      modifies this
      ensures Valid() && LoopPart(trace) == old(LoopPart(trace)) + [Tick]
      ensures connected == old(ConnectedAfter(ToEvents(turns)))
      ensures State().loop == (if connected then Idle else Attempting) && State().backoff == backoff
      ensures State().retryCount == old(State()).retryCount
      ensures State().closed == (old(State()).closed || Closes in turns)
    {
      Others(turns);
      connected := isConnected;
      Note(Tick);
    }

    /** The branch of the select for a closed manager: the loop ends. */
    ghost method EndLoop()
      requires Valid() && State().loop == Idle && State().closed
      modifies `trace
      ensures Valid() && State().loop == Stopped && State().backoff == old(State()).backoff
      ensures LoopPart(trace) == old(LoopPart(trace)) + [Stop]
    {
      Note(Stop);
    }

    /** The branch of the select for the timer. */
    ghost method PassSecond()
      requires Valid() && State().loop == Idle
      modifies `trace
      ensures Valid() && State() == old(State()).(loop := Looking)
      ensures trace == old(trace) + [Timer] && LoopPart(trace) == old(LoopPart(trace)) + [Timer]
    {
      Note(Timer);
    }

    /** What the loop does after its second. */
    method LookAndAttempt(backoff: int, meets: Meets, turns: seq<Turn>, more: seq<Turn>, others: nat -> seq<Turn>)
      returns (newBackoff: int)
      requires Valid() && State().loop == Looking && State().backoff == backoff
      modifies this
      ensures Valid() && State().loop in {Idle, Stopped} && newBackoff == State().backoff
      ensures old(ConnectedAfter(ToEvents(turns))) ==> LoopPart(trace) == old(LoopPart(trace)) + [Tick]
      ensures !old(ConnectedAfter(ToEvents(turns))) ==>
                var s := old(State());
                var closed := s.closed || Closes in turns || Closes in more || Closes in others(0);
                LoopPart(trace) == old(LoopPart(trace)) + [Tick]
                                   + AttemptEvents(Exhausted(config, s), Stops(closed, meets), meets)
    {
      newBackoff := backoff;
      var connected := Look(backoff, turns);
      if !connected {
        newBackoff := AttemptLater(backoff, meets, more, others);
      }
    }

    method WaitAndLook(backoff: int, meets: Meets, turns: seq<Turn>, more: seq<Turn>, others: nat -> seq<Turn>)
      returns (newBackoff: int)
      requires Valid() && State().loop == Idle && State().backoff == backoff
      modifies this
      ensures Valid() && State().loop in {Idle, Stopped} && newBackoff == State().backoff
      ensures old(ConnectedAfter([Timer] + ToEvents(turns))) ==>
                LoopPart(trace) == old(LoopPart(trace)) + [Timer] + [Tick]
      ensures !old(ConnectedAfter([Timer] + ToEvents(turns))) ==>
                var s := old(State());
                var closed := s.closed || Closes in turns || Closes in more || Closes in others(0);
                LoopPart(trace) == old(LoopPart(trace)) + [Timer] + [Tick]
                                   + AttemptEvents(Exhausted(config, s), Stops(closed, meets), meets)
    {
      PassSecond();
      assert trace + ToEvents(turns) == old(trace) + ([Timer] + ToEvents(turns));
      newBackoff := LookAndAttempt(backoff, meets, turns, more, others);
    }

    /**
     * One round of the loop, from the end of its wait in the select. The others take `turns` before the loop looks,
     * `more` turns before an attempt, and `others` during it.
     */
    method CheckConnection(backoff: int, meets: Meets, turns: seq<Turn>, more: seq<Turn>, others: nat -> seq<Turn>)
      returns (newBackoff: int)
      requires Valid() && State().loop == Idle && State().backoff == backoff
      modifies this
      ensures Valid() && State().loop in {Idle, Stopped} && newBackoff == State().backoff
      ensures old(State()).closed && meets.ended ==> LoopPart(trace) == old(LoopPart(trace)) + [Stop]
      ensures !(old(State()).closed && meets.ended) && old(ConnectedAfter([Timer] + ToEvents(turns))) ==>
                LoopPart(trace) == old(LoopPart(trace)) + [Timer] + [Tick]
      ensures !(old(State()).closed && meets.ended) && !old(ConnectedAfter([Timer] + ToEvents(turns))) ==>
                var s := old(State());
                var closed := s.closed || Closes in turns || Closes in more || Closes in others(0);
                LoopPart(trace) == old(LoopPart(trace)) + [Timer] + [Tick]
                                   + AttemptEvents(Exhausted(config, s), Stops(closed, meets), meets)
    {
      if done && meets.ended {
        EndLoop();
        return backoff;
      }
      newBackoff := WaitAndLook(backoff, meets, turns, more, others);
    }

    /** Answers a connection exactly while there is one and the stream counts as connected. */
    method GetConnection() returns (answer: Result<()>)
      requires Valid()
      ensures answer.Success? <==> Serves(State())
    {
      if !conn || !isConnected {
        return Failure(NotConnected);
      }
      return Success(());
    }

    /** Answers yes also after Close, until somebody marks the stream disconnected. */
    method IsConnected() returns (connected: bool)
      requires Valid()
      ensures connected == State().connected
    {
      connected := isConnected;
    }
  }
}
