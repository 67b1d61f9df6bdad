/** The connectivity probe the back-end integration suite runs before its
    tests (`waitForGrpc`), and the suite's setup that depends on it. The
    channel and the clock are an oracle: a trace of rounds, each giving what
    one `check()` observes. */
module GrpcProbe {
  import opened Wrappers

  /** gRPC channel connectivity states. */
  datatype Connectivity = Idle | Connecting | Ready | TransientFailure | Shutdown

  /** One `check()`: the state the channel reports, the clock when the short
      deadline is computed, whether the watch callback received an error, and
      the clock when that callback runs. */
  datatype Round = Round(state: Connectivity, nowAtWatch: int, watchError: bool, nowAtWake: int)

  /** The default overall timeout of `waitForGrpc`, and the one the suite uses. */
  const DefaultTimeoutMs: int := 15000
  const SuiteTimeoutMs: int := 20000
  /** The longest a single watch waits. */
  const WatchSliceMs: int := 300

  function Min(a: int, b: int): int
  {
    if a <= b then a else b
  }

  /** The deadline of one watch: a slice from now, cut at the overall deadline. */
  function WatchDeadline(now: int, deadline: int): (d: int)
    ensures d <= deadline && d <= now + WatchSliceMs
    ensures d == deadline || d == now + WatchSliceMs
  {
    Min(now + WatchSliceMs, deadline)
  }

  /** How the promise settles on a trace: `true` at the first READY, `false`
      at a watch error or a wake at or past the deadline, and unsettled
      (`None`) when the trace ends first. */
  function Probe(rounds: seq<Round>, deadline: int): Option<bool>
    decreases |rounds|
  {
    if |rounds| == 0 then None
    else if rounds[0].state == Ready then Some(true)
    else if rounds[0].watchError then Some(false)
    else if rounds[0].nowAtWake >= deadline then Some(false)
    else Probe(rounds[1..], deadline)
  }

  /** A round after which `check()` runs again. */
  predicate Continues(r: Round, deadline: int)
  {
    r.state != Ready && !r.watchError && r.nowAtWake < deadline
  }

  /** The watch deadlines armed over the first rounds. */
  function Windows(rounds: seq<Round>, deadline: int): seq<int>
  {
    seq(|rounds|, k requires 0 <= k < |rounds| => WatchDeadline(rounds[k].nowAtWatch, deadline))
  }

  /** `waitForGrpc`: `check()` re-armed until the promise settles. Returns
      the settled value, the overall deadline and the watch deadlines armed. */
  method WaitForGrpc(start: int, timeoutMs: int, rounds: seq<Round>)
    returns (result: Option<bool>, deadline: int, windows: seq<int>)
    ensures deadline == start + timeoutMs
    ensures result == Probe(rounds, deadline)
    ensures |windows| <= |rounds| && windows == Windows(rounds[..|windows|], deadline)
    ensures forall k :: 0 <= k < |windows| ==> rounds[k].state != Ready
    ensures forall k :: 0 <= k < |windows| ==> windows[k] <= deadline && windows[k] <= rounds[k].nowAtWatch + WatchSliceMs
  {
    deadline := start + timeoutMs;
    windows := [];
    result := None;
    var i := 0;
    while i < |rounds|
      invariant 0 <= i <= |rounds| && |windows| == i
      invariant windows == Windows(rounds[..i], deadline)
      invariant forall k :: 0 <= k < i ==> Continues(rounds[k], deadline)
      invariant Probe(rounds, deadline) == Probe(rounds[i..], deadline)
    {
      var r := rounds[i];
      assert rounds[i..][1..] == rounds[i + 1..];
      assert rounds[..i + 1] == rounds[..i] + [r];
      if r.state == Ready {
        return Some(true), deadline, windows;
      }
      var shortDeadline := WatchDeadline(r.nowAtWatch, deadline);
      windows := windows + [shortDeadline];
      if r.watchError {
        return Some(false), deadline, windows;
      }
      if r.nowAtWake >= deadline {
        return Some(false), deadline, windows;
      }
      i := i + 1;
    }
    assert rounds[i..] == [];
  }

  /** The probe answers `true` only when some check saw READY, and every
      earlier round had re-armed the check. */
  lemma {:induction false} TrueOnlyIfReady(rounds: seq<Round>, deadline: int)
    requires Probe(rounds, deadline) == Some(true)
    ensures exists k :: 0 <= k < |rounds| && rounds[k].state == Ready &&
                        forall j :: 0 <= j < k ==> Continues(rounds[j], deadline)
    decreases |rounds|
  {
    if rounds[0].state != Ready {
      TrueOnlyIfReady(rounds[1..], deadline);
      var k :| 0 <= k < |rounds[1..]| && rounds[1..][k].state == Ready &&
               forall j :: 0 <= j < k ==> Continues(rounds[1..][j], deadline);
      assert rounds[k + 1] == rounds[1..][k];
      forall j | 0 <= j < k + 1
        ensures Continues(rounds[j], deadline)
      {
        if j > 0 {
          assert rounds[j] == rounds[1..][j - 1];
        }
      }
    }
  }

  /** Conversely, READY at a check reached by re-arming settles `true`. */
  lemma {:induction false} ReadyIsFound(rounds: seq<Round>, deadline: int, k: nat)
    requires k < |rounds| && rounds[k].state == Ready
    requires forall j :: 0 <= j < k ==> Continues(rounds[j], deadline)
    ensures Probe(rounds, deadline) == Some(true)
    decreases k
  {
    if k > 0 {
      assert Continues(rounds[0], deadline);
      forall j | 0 <= j < k - 1
        ensures Continues(rounds[1..][j], deadline)
      {
        assert rounds[1..][j] == rounds[j + 1];
      }
      ReadyIsFound(rounds[1..], deadline, k - 1);
    }
  }

  /** A watch error settles `false` at once, whatever time is left. */
  lemma ErrorSettlesFalse(rounds: seq<Round>, deadline: int, k: nat)
    requires k < |rounds| && rounds[k].state != Ready && rounds[k].watchError
    requires forall j :: 0 <= j < k ==> Continues(rounds[j], deadline)
    ensures Probe(rounds, deadline) == Some(false)
  {
    SettlesAt(rounds, deadline, k);
  }

  /** Waking at or past the deadline without error settles `false`. */
  lemma DeadlineSettlesFalse(rounds: seq<Round>, deadline: int, k: nat)
    requires k < |rounds| && rounds[k].state != Ready && rounds[k].nowAtWake >= deadline
    requires forall j :: 0 <= j < k ==> Continues(rounds[j], deadline)
    ensures Probe(rounds, deadline) == Some(false)
  {
    SettlesAt(rounds, deadline, k);
  }

  /** After rounds that re-arm, the probe is decided from round `k` on. */
  lemma {:induction false} SettlesAt(rounds: seq<Round>, deadline: int, k: nat)
    requires k < |rounds|
    requires forall j :: 0 <= j < k ==> Continues(rounds[j], deadline)
    ensures Probe(rounds, deadline) == Probe(rounds[k..], deadline)
    decreases k
  {
    if k > 0 {
      assert Continues(rounds[0], deadline);
      forall j | 0 <= j < k - 1
        ensures Continues(rounds[1..][j], deadline)
      {
        assert rounds[1..][j] == rounds[j + 1];
      }
      SettlesAt(rounds[1..], deadline, k - 1);
      assert rounds[1..][k - 1..] == rounds[k..];
    }
  }

  /** The address the suite probes: `GRPC_TARGET` when set and non-empty. */
  function Target(grpcTarget: Option<string>): (t: string)
    ensures grpcTarget.Some? && grpcTarget.value != "" ==> t == grpcTarget.value
    ensures grpcTarget.None? || grpcTarget.value == "" ==> t == "localhost:50051"
  {
    if grpcTarget.Some? && grpcTarget.value != "" then grpcTarget.value else "localhost:50051"
  }

  /** How the suite's setup ends: a failed expectation, or a client for the target. */
  datatype Setup = SetupFailed | ClientFor(target: string)

  /** `beforeAll`: the service must be defined and the probe must have settled
      `true` before the client is made. */
  function SetupSuite(serviceDefined: bool, available: Option<bool>, target: string): (s: Setup)
    ensures s.ClientFor? <==> serviceDefined && available == Some(true)
    ensures s.ClientFor? ==> s.target == target
  {
    if !serviceDefined then SetupFailed
    else if available != Some(true) then SetupFailed
    else ClientFor(target)
  }

  /** A client exists only for a target where some check saw READY. */
  lemma ClientOnlyAfterReady(serviceDefined: bool, start: int, rounds: seq<Round>, grpcTarget: Option<string>)
    requires SetupSuite(serviceDefined, Probe(rounds, start + SuiteTimeoutMs), Target(grpcTarget)).ClientFor?
    ensures exists k :: 0 <= k < |rounds| && rounds[k].state == Ready
  {
    TrueOnlyIfReady(rounds, start + SuiteTimeoutMs);
  }
}
