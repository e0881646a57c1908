/** The probe order of `_try_bind_server_port`: which remote ports it asks
    the transport to listen on, in which order, and when it stops. The
    transport's answer to one request is an oracle from port to reply. */
module PortBinder {

  /** `bind_port_min`, `bind_port_max` and `bind_port_try`, as integers. */
  datatype PortRange = PortRange(min: int, max: int, tryPort: int)

  /** What `transport.request_port_forward('', port)` does: return, raise
      `paramiko.SSHException` (the port is refused), or raise anything else. */
  datatype BindReply = Accept | Reject | OtherError

  /** How the loop ends: the port it bound, the "forward port min ~ max
      already used!" exception, or the other exception re-raised (carrying
      the port whose request raised it). */
  datatype BindOutcome = Bound(port: int) | Exhausted | Failed(port: int)

  /** An outcome together with the ports requested, in order. */
  datatype BindRun = BindRun(outcome: BindOutcome, requested: seq<int>)

  /** The candidate that follows a refused port `p`: add one if `p` is below
      the maximum, then wrap to the minimum if the result is the maximum. */
  function Next(r: PortRange, p: int): int {
    var q := if p < r.max then p + 1 else p;
    if q == r.max then r.min else q
  }

  /** The `k`-th port the loop would request if every request were
      refused and it never stopped. */
  function Candidate(r: PortRange, k: nat): int {
    if k == 0 then r.tryPort else Next(r, Candidate(r, k - 1))
  }

  /** The ranges on which the loop stops even if every port is refused. */
  predicate Terminates(r: PortRange) {
    (r.min <= r.tryPort < r.max) || (r.min == r.tryPort == r.max) || r.tryPort > r.max
  }

  /** How many ports are requested when every request is refused. */
  function ProbeCount(r: PortRange): nat
    requires Terminates(r)
  {
    if r.min <= r.tryPort < r.max then r.max - r.min else 1
  }

  /** On an ordinary range the candidates climb from the preferred port to
      `max - 1` and then continue from `min`. */
  lemma {:induction false} CandidateWraps(r: PortRange, k: nat)
    requires r.min <= r.tryPort < r.max && k <= r.max - r.min
    ensures Candidate(r, k) ==
            if r.tryPort + k < r.max then r.tryPort + k else r.min + (r.tryPort + k - r.max)
  {
    if k > 0 {
      CandidateWraps(r, k - 1);
    }
  }

  /** On a terminating range the candidates come back to the preferred port
      after exactly `ProbeCount(r)` steps and not before. */
  lemma CandidateReturns(r: PortRange)
    requires Terminates(r)
    ensures Candidate(r, ProbeCount(r)) == r.tryPort
    ensures forall k :: 0 < k < ProbeCount(r) ==> Candidate(r, k) != r.tryPort
  {
    if r.min <= r.tryPort < r.max {
      forall k | 0 < k <= ProbeCount(r)
        ensures Candidate(r, k) == r.tryPort <==> k == ProbeCount(r)
      {
        CandidateWraps(r, k);
      }
    }
  }

  /** The loop leaves after its `k`-th request: the request was not
      refused, or it was and the next candidate is the preferred port again
      (the "already used" exit). */
  predicate StopsAt(r: PortRange, transport: int -> BindReply, k: nat) {
    transport(Candidate(r, k)) != Reject || Next(r, Candidate(r, k)) == r.tryPort
  }

  /** The loop returns at all. */
  ghost predicate Halts(r: PortRange, transport: int -> BindReply) {
    exists k: nat :: StopsAt(r, transport, k)
  }

  /** The run of the loop from its `k`-th request on: ask for the candidate;
      stop on success or on any error but a refusal; after a refusal, stop
      with "already used" when the next candidate is the preferred port,
      else go on. `stop` is some later request at which the loop is known to
      leave; the run ends at the first such request, whichever `stop` is
      given (BindFromAnyStop). */
  function BindFrom(r: PortRange, transport: int -> BindReply, k: nat, stop: nat): (run: BindRun)
    requires k <= stop && StopsAt(r, transport, stop)
    ensures 1 <= |run.requested|
    ensures forall j: nat :: k <= j && StopsAt(r, transport, j) ==> k + |run.requested| <= j + 1
    ensures forall i :: 0 <= i < |run.requested| ==> run.requested[i] == Candidate(r, k + i)
    ensures forall i :: 0 <= i < |run.requested| - 1 ==>
              transport(run.requested[i]) == Reject && Next(r, run.requested[i]) != r.tryPort
    ensures var last := run.requested[|run.requested| - 1];
            match transport(last)
            case Accept => run.outcome == Bound(last)
            case OtherError => run.outcome == Failed(last)
            case Reject => run.outcome == Exhausted && Next(r, last) == r.tryPort
    decreases stop - k
  {
    var port := Candidate(r, k);
    match transport(port)
    case Accept => BindRun(Bound(port), [port])
    case OtherError => BindRun(Failed(port), [port])
    case Reject =>
      if Next(r, port) == r.tryPort then BindRun(Exhausted, [port])
      else
        var rest := BindFrom(r, transport, k + 1, stop);
        BindRun(rest.outcome, [port] + rest.requested)
  }

  lemma {:induction false} BindFromAnyStop(r: PortRange, transport: int -> BindReply, k: nat, s1: nat, s2: nat)
    requires k <= s1 && StopsAt(r, transport, s1)
    requires k <= s2 && StopsAt(r, transport, s2)
    ensures BindFrom(r, transport, k, s1) == BindFrom(r, transport, k, s2)
    decreases s1 - k
  {
    if !StopsAt(r, transport, k) {
      BindFromAnyStop(r, transport, k + 1, s1, s2);
    }
  }

  /** The whole run of `_try_bind_server_port`, for a transport on which the
      loop returns. */
  ghost function Bind(r: PortRange, transport: int -> BindReply): BindRun
    requires Halts(r, transport)
  {
    var stop: nat :| StopsAt(r, transport, stop);
    BindFrom(r, transport, 0, stop)
  }

  /** Any request at which the loop is known to leave gives the same run. */
  lemma BindIsBindFrom(r: PortRange, transport: int -> BindReply, stop: nat)
    requires StopsAt(r, transport, stop)
    ensures Halts(r, transport)
    ensures Bind(r, transport) == BindFrom(r, transport, 0, stop)
  {
    var s: nat :| StopsAt(r, transport, s) && Bind(r, transport) == BindFrom(r, transport, 0, s);
    BindFromAnyStop(r, transport, 0, s, stop);
  }

  /** What the loop returns after its `k`-th request, if it leaves there. */
  function OutcomeAt(r: PortRange, transport: int -> BindReply, k: nat): BindOutcome {
    var port := Candidate(r, k);
    match transport(port)
    case Accept => Bound(port)
    case OtherError => Failed(port)
    case Reject => Exhausted
  }

  /** A declarative description of a run: the candidates in order, up to
      and including the first request at which the loop leaves, and the
      outcome of that request. */
  predicate IsRun(r: PortRange, transport: int -> BindReply, run: BindRun) {
    && |run.requested| >= 1
    && (forall i :: 0 <= i < |run.requested| ==> run.requested[i] == Candidate(r, i))
    && (forall i: nat :: i < |run.requested| - 1 ==> !StopsAt(r, transport, i))
    && StopsAt(r, transport, |run.requested| - 1)
    && run.outcome == OutcomeAt(r, transport, |run.requested| - 1)
  }

  /** `Bind` meets the description. */
  lemma BindIsRun(r: PortRange, transport: int -> BindReply)
    requires Halts(r, transport)
    ensures IsRun(r, transport, Bind(r, transport))
  {
    var run := Bind(r, transport);
    var n := |run.requested|;
    forall i: nat | i < n - 1
      ensures !StopsAt(r, transport, i)
    {
      assert run.requested[i] == Candidate(r, i);
    }
    assert run.requested[n - 1] == Candidate(r, n - 1);
  }

  /** At most one run meets the description, so it pins `Bind` down. */
  lemma {:induction false} RunUnique(r: PortRange, transport: int -> BindReply, a: BindRun, b: BindRun)
    requires IsRun(r, transport, a) && IsRun(r, transport, b)
    ensures a == b
  {
    assert a.requested == b.requested;
  }

  /** The requests so far, all refused without reaching the exit test:
      the loop's state before its next request. */
  predicate RefusedPrefix(r: PortRange, transport: int -> BindReply, reqs: seq<int>) {
    && (forall i :: 0 <= i < |reqs| ==> reqs[i] == Candidate(r, i))
    && (forall i: nat :: i < |reqs| ==> !StopsAt(r, transport, i))
  }

  lemma ExtendPrefix(r: PortRange, transport: int -> BindReply, reqs: seq<int>)
    requires RefusedPrefix(r, transport, reqs) && !StopsAt(r, transport, |reqs|)
    ensures RefusedPrefix(r, transport, reqs + [Candidate(r, |reqs|)])
  {
  }

  lemma FinishRun(r: PortRange, transport: int -> BindReply, reqs: seq<int>)
    requires RefusedPrefix(r, transport, reqs) && StopsAt(r, transport, |reqs|)
    ensures IsRun(r, transport, BindRun(OutcomeAt(r, transport, |reqs|), reqs + [Candidate(r, |reqs|)]))
  {
  }

  /** A run that meets the description is the run `Bind` gives. */
  lemma RunIsBind(r: PortRange, transport: int -> BindReply, run: BindRun)
    requires IsRun(r, transport, run)
    ensures Halts(r, transport) && run == Bind(r, transport)
  {
    assert StopsAt(r, transport, |run.requested| - 1);
    BindIsRun(r, transport);
    RunUnique(r, transport, run, Bind(r, transport));
  }

  /** On a terminating range the loop leaves at the latest after its
      `ProbeCount(r)`-th request, whatever the transport answers. */
  lemma TerminatesStops(r: PortRange, transport: int -> BindReply)
    requires Terminates(r)
    ensures StopsAt(r, transport, ProbeCount(r) - 1)
    ensures Halts(r, transport)
  {
    CandidateReturns(r);
    assert Candidate(r, ProbeCount(r)) == Next(r, Candidate(r, ProbeCount(r) - 1));
    assert StopsAt(r, transport, ProbeCount(r) - 1);
  }

  /** The loop returns exactly when the range is a terminating one or some
      candidate gets an answer other than a refusal. */
  lemma HaltsIff(r: PortRange, transport: int -> BindReply)
    ensures Halts(r, transport) <==>
            Terminates(r) || exists k :: transport(Candidate(r, k)) != Reject
  {
    if Terminates(r) {
      TerminatesStops(r, transport);
    } else if exists k :: transport(Candidate(r, k)) != Reject {
      var k :| transport(Candidate(r, k)) != Reject;
      assert StopsAt(r, transport, k);
    } else if Halts(r, transport) {
      var k: nat :| StopsAt(r, transport, k);
      assert Candidate(r, k + 1) == Next(r, Candidate(r, k));
      NeverExhausts(r, k + 1);
    }
  }

  /** The first request is for the preferred port; the run ends at the first
      request that is not refused, binding that port on success, so nothing
      after an accepted or otherwise failing request is asked for. */
  lemma BindStopsAtFirstAnswer(r: PortRange, transport: int -> BindReply)
    requires Halts(r, transport)
    ensures var run := Bind(r, transport);
            && run.requested != [] && run.requested[0] == r.tryPort
            && (forall i :: 0 <= i < |run.requested| - 1 ==> transport(run.requested[i]) == Reject)
            && (run.outcome.Bound? <==> transport(run.requested[|run.requested| - 1]) == Accept)
            && (run.outcome.Failed? <==> transport(run.requested[|run.requested| - 1]) == OtherError)
            && (!run.outcome.Exhausted? ==> run.outcome.port == run.requested[|run.requested| - 1])
  {
  }

  /** On a terminating range at most `ProbeCount(r)` ports are requested,
      and "already used" is raised only after exactly that many. */
  lemma {:induction false} BindWithinProbeCount(r: PortRange, transport: int -> BindReply)
    requires Terminates(r)
    ensures Halts(r, transport)
    ensures |Bind(r, transport).requested| <= ProbeCount(r)
    ensures Bind(r, transport).outcome == Exhausted ==> |Bind(r, transport).requested| == ProbeCount(r)
  {
    TerminatesStops(r, transport);
    CandidateReturns(r);
    var n := ProbeCount(r);
    var run := Bind(r, transport);
    var m := |run.requested|;
    assert StopsAt(r, transport, n - 1);
    if run.outcome == Exhausted {
      assert Next(r, Candidate(r, m - 1)) == Candidate(r, m);
    }
  }

  /** An ordinary range whose ports are all refused: every port from `min`
      to `max - 1` is requested exactly once, `max` never, and the loop
      raises "already used". */
  lemma {:induction false} ExhaustionCoversRange(r: PortRange, transport: int -> BindReply)
    requires r.min <= r.tryPort < r.max
    requires forall p :: r.min <= p < r.max ==> transport(p) == Reject
    ensures Halts(r, transport)
    ensures var run := Bind(r, transport);
            && run.outcome == Exhausted
            && |run.requested| == r.max - r.min
            && (forall p :: p in run.requested <==> r.min <= p < r.max)
            && (forall i, j :: 0 <= i < j < |run.requested| ==> run.requested[i] != run.requested[j])
  {
    BindWithinProbeCount(r, transport);
    var run := Bind(r, transport);
    var n := |run.requested|;
    forall i | 0 <= i < n
      ensures r.min <= run.requested[i] < r.max
      ensures run.requested[i] ==
              if r.tryPort + i < r.max then r.tryPort + i else r.min + (r.tryPort + i - r.max)
    {
      CandidateWraps(r, i);
    }
    assert transport(run.requested[n - 1]) == Reject;
    assert run.outcome == Exhausted;
    forall p | r.min <= p < r.max
      ensures p in run.requested
    {
      var i := if p >= r.tryPort then p - r.tryPort else p - r.min + r.max - r.tryPort;
      assert run.requested[i] == p;
    }
  }

  /** A one-port range (`min == try == max`), or a preferred port above the
      maximum: one request, and "already used" if it is refused. */
  lemma SinglePortRange(r: PortRange, transport: int -> BindReply)
    requires (r.min == r.tryPort == r.max) || r.tryPort > r.max
    ensures Halts(r, transport)
    ensures Bind(r, transport).requested == [r.tryPort]
    ensures Bind(r, transport).outcome ==
            match transport(r.tryPort)
            case Accept => Bound(r.tryPort)
            case OtherError => Failed(r.tryPort)
            case Reject => Exhausted
  {
    TerminatesStops(r, transport);
  }

  /** On a range of more than one port, `bind_port_max` is requested only
      when it is the preferred port: after the first request the wrap-around
      skips it. */
  lemma {:induction false} MaxRequestedOnlyFirst(r: PortRange, transport: int -> BindReply)
    requires Halts(r, transport) && r.min != r.max
    ensures r.max in Bind(r, transport).requested <==> r.max == r.tryPort
  {
  }

  /** Candidates after the first stay strictly above a preferred port that
      lies below `min`, so they never return to it. */
  lemma {:induction false} CandidatesAboveTry(r: PortRange, k: nat)
    requires r.tryPort < r.min && r.tryPort <= r.max && k >= 1
    ensures Candidate(r, k) > r.tryPort
  {
    if k > 1 {
      CandidatesAboveTry(r, k - 1);
    }
  }

  /** Candidates after the first stay below a preferred port equal to
      `max > min`, so they never return to it. */
  lemma {:induction false} CandidatesBelowMax(r: PortRange, k: nat)
    requires r.min < r.max == r.tryPort && k >= 1
    ensures r.min <= Candidate(r, k) < r.max
  {
    if k > 1 {
      CandidatesBelowMax(r, k - 1);
    }
  }

  /** Off the terminating ranges (for one, `try == max > min`) the exit test
      "the next candidate is the preferred port" never fires: when every port
      is refused the loop runs forever. */
  lemma NeverExhausts(r: PortRange, k: nat)
    requires !Terminates(r) && k >= 1
    ensures Candidate(r, k) != r.tryPort
  {
    if r.tryPort < r.min {
      CandidatesAboveTry(r, k);
    } else {
      CandidatesBelowMax(r, k);
    }
  }

  /** The range `(10000, 10002, 10002)` with only port 10001 free: 10002 is
      refused, the loop wraps to 10000, then binds 10001. The range is not a
      terminating one; this run returns because 10001 is accepted. */
  lemma ExampleWrapFromMax()
    ensures Halts(PortRange(10000, 10002, 10002), p => if p == 10001 then Accept else Reject)
    ensures Bind(PortRange(10000, 10002, 10002), p => if p == 10001 then Accept else Reject)
            == BindRun(Bound(10001), [10002, 10000, 10001])
  {
    var r := PortRange(10000, 10002, 10002);
    var t: int -> BindReply := p => if p == 10001 then Accept else Reject;
    assert Candidate(r, 1) == 10000 && Candidate(r, 2) == 10001;
    assert StopsAt(r, t, 2);
    BindIsBindFrom(r, t, 2);
    assert BindFrom(r, t, 2, 2) == BindRun(Bound(10001), [10001]);
    assert BindFrom(r, t, 1, 2) == BindRun(Bound(10001), [10000, 10001]);
  }

  /** The range `(10000, 10001, 10000)` with both ports taken: after 10000
      is refused the candidate becomes 10001, which equals `max` and wraps
      back to 10000 at once, so 10001 is never requested. */
  lemma ExampleTwoPortsRefused()
    ensures Halts(PortRange(10000, 10001, 10000), p => Reject)
    ensures Bind(PortRange(10000, 10001, 10000), p => Reject) == BindRun(Exhausted, [10000])
  {
    assert StopsAt(PortRange(10000, 10001, 10000), p => Reject, 0);
  }
}
