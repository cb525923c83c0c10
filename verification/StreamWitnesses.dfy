/** Lives of a stream manager that end in the states its results are about. */
module StreamWitnesses {
  import opened Backoff
  import opened Stream

  /** A failed attempt, from the select to the next select. */
  const FAILURE := [Timer, Tick, Begin, Wake(false), Dial(false)]

  /** The stream is down between attempts, n of which have failed, and nobody has closed the manager. */
  predicate Down(s: StreamState, n: nat) {
    s.loop == Idle && !s.connected && !s.closed && s.retryCount == n
  }

  lemma FailureFails(cfg: Config, s: StreamState, n: nat)
    requires Down(s, n) && !Exhausted(cfg, s)
    ensures Down(StreamRun(cfg, s, FAILURE), n + 1)
  {
    var es := FAILURE;
    assert es[..4][..3] == es[..3] && es[..3][..2] == es[..2] && es[..2][..1] == es[..1] && es[..1][..0] == [];
    assert StreamRun(cfg, s, es[..1]) == s.(loop := Looking);
    assert StreamRun(cfg, s, es[..2]) == s.(loop := Attempting);
    assert StreamRun(cfg, s, es[..3]).loop == Waiting(s.backoff);
    assert StreamRun(cfg, s, es[..4]).loop == Dialing(s.backoff);
  }

  lemma {:induction false} FailsOften(cfg: Config, n: nat) returns (es: seq<Event>)
    requires cfg.maxRetries > 0 ==> n <= cfg.maxRetries
    ensures Down(StreamRun(cfg, Connected(cfg), es), n)
  {
    if n == 0 {
      es := [Mark(0)];
      assert es[..0] == [];
    } else {
      var before := FailsOften(cfg, n - 1);
      FailureFails(cfg, StreamRun(cfg, Connected(cfg), before), n - 1);
      StreamRunConcat(cfg, Connected(cfg), before, FAILURE);
      es := before + FAILURE;
    }
  }

  /** With a limit on the retries, whatever it is, an open manager can lose its stream for good. */
  lemma {:induction false} RetriesCanRunOut(cfg: Config)
    requires cfg.maxRetries > 0
    ensures exists es ::
              var s := StreamRun(cfg, Connected(cfg), es); !s.closed && Doomed(cfg, s)
  {
    var es := FailsOften(cfg, cfg.maxRetries);
    assert Doomed(cfg, StreamRun(cfg, Connected(cfg), es));
  }

  /** A closed manager still counts as connected, while GetConnection fails. */
  lemma {:induction false} ClosedButConnected(cfg: Config)
    ensures exists es ::
              var s := StreamRun(cfg, Connected(cfg), es); s.closed && s.connected && !Serves(s)
  {
    var es := [Close];
    assert es[..0] == [];
    assert StreamRun(cfg, Connected(cfg), es) == Connected(cfg).(closed := true, conn := false);
  }

  lemma AttemptOutlivesClose(cfg: Config, s: StreamState)
    requires s.loop.Dialing? && !s.closed
    ensures var s' := StreamRun(cfg, s, [Close, Dial(true), Install]); s'.closed && Serves(s')
  {
    var es := [Close, Dial(true), Install];
    assert es[..2][..1] == es[..1] && es[..1][..0] == [];
    assert StreamRun(cfg, s, es[..1]).loop == s.loop && StreamRun(cfg, s, es[..1]).closed;
    assert StreamRun(cfg, s, es[..2]).loop == Dialed && StreamRun(cfg, s, es[..2]).closed;
  }

  lemma ReachesDial(cfg: Config, s: StreamState)
    requires Down(s, 0)
    ensures var s' := StreamRun(cfg, s, FAILURE[..4]); s'.loop.Dialing? && !s'.closed
  {
    var es := FAILURE;
    assert es[..4][..3] == es[..3] && es[..3][..2] == es[..2] && es[..2][..1] == es[..1] && es[..1][..0] == [];
    assert StreamRun(cfg, s, es[..1]) == s.(loop := Looking);
    assert StreamRun(cfg, s, es[..2]) == s.(loop := Attempting);
    assert StreamRun(cfg, s, es[..3]).loop == Waiting(s.backoff) && !StreamRun(cfg, s, es[..3]).closed;
  }

  /** An attempt that is past its wait when the manager is closed installs a connection afterwards. */
  lemma {:induction false} ServesAfterClose(cfg: Config)
    ensures exists es ::
              var s := StreamRun(cfg, Connected(cfg), es); s.closed && Serves(s)
  {
    var down := FailsOften(cfg, 0);
    var s := StreamRun(cfg, Connected(cfg), down);
    ReachesDial(cfg, s);
    StreamRunConcat(cfg, Connected(cfg), down, FAILURE[..4]);
    AttemptOutlivesClose(cfg, StreamRun(cfg, s, FAILURE[..4]));
    StreamRunConcat(cfg, Connected(cfg), down + FAILURE[..4], [Close, Dial(true), Install]);
  }
}
