/** The API health monitor both entry scripts keep in their session state:
    a status and the time it was last checked. A probe is sent at most once
    every 300 seconds; in between, the cached status is answered. The clock
    and the probe's outcome are inputs. */
module Health {
  import opened Weather

  datatype ApiStatus = Unknown | Active | Invalid | Error | NetworkError

  /** The value the key takes when no key is set in the environment. */
  const PlaceholderKey: string := "YOUR_API_KEY_HERE"

  /** `check_api_key_configuration()`: a key is configured unless it is empty
      or still the placeholder. */
  function KeyConfigured(key: string): (r: bool)
    ensures !r <==> key == "" || key == PlaceholderKey
    ensures r ==> |key| > 0
  {
    !(key == PlaceholderKey || key == "")
  }

  /** Seconds during which a checked status is reused without probing. */
  const CacheWindow: int := 300

  /** The monitor's two session fields as a value. */
  datatype MonitorState = MonitorState(status: ApiStatus, lastCheck: int)

  /** The state before the first check: status unknown, checked at time 0. */
  const Initial := MonitorState(Unknown, 0)

  /** How the probe's outcome is read: 200 means active, 401 an invalid key,
      any other status an error, and a failed request a network error. */
  function Classify(probe: HttpOutcome<()>): (s: ApiStatus)
    ensures s != Unknown
    ensures s == Active <==> probe.Response? && probe.code == 200
    ensures s == Invalid <==> probe.Response? && probe.code == 401
    ensures s == Error <==> probe.Response? && probe.code != 200 && probe.code != 401
    ensures s == NetworkError <==> !probe.Response?
  {
    match probe
    case Response(code, _) =>
      if code == 200 then Active else if code == 401 then Invalid else Error
    case Timeout => NetworkError
    case TransportError => NetworkError
  }

  /** A probe is due once at least the cache window has passed. */
  predicate ProbeDue(st: MonitorState, now: int) {
    now - st.lastCheck >= CacheWindow
  }

  /** One call of the status check at time `now`, where `probe` is what the
      probe would return if it were sent: the new state and the status
      answered. */
  function Check(st: MonitorState, now: int, probe: HttpOutcome<()>): (r: (MonitorState, ApiStatus))
    ensures r.1 == r.0.status
    ensures !ProbeDue(st, now) ==> r.0 == st
    ensures ProbeDue(st, now) ==> r.0.lastCheck == now && r.0.status == Classify(probe)
  {
    if now - st.lastCheck < CacheWindow then (st, st.status)
    else (MonitorState(Classify(probe), now), Classify(probe))
  }

  /** Since the initial check time is 0, the first check at any real clock
      reading (at least 300 seconds after the epoch) probes. */
  lemma FirstCheckProbes(now: int, probe: HttpOutcome<()>)
    requires now >= CacheWindow
    ensures Check(Initial, now, probe).0 == MonitorState(Classify(probe), now)
  {
  }

  /** One status check as the dashboard makes it: the time and the outcome
      the probe would have. */
  datatype Call = Call(now: int, probe: HttpOutcome<()>)

  /** A run of status checks: the final state and the times at which a
      probe was actually sent. */
  function Run(st: MonitorState, calls: seq<Call>): (MonitorState, seq<int>)
    decreases |calls|
  {
    if calls == [] then (st, [])
    else
      var next := Check(st, calls[0].now, calls[0].probe).0;
      var rest := Run(next, calls[1..]);
      (rest.0, (if ProbeDue(st, calls[0].now) then [calls[0].now] else []) + rest.1)
  }

  /** Every time in `times` is at least a window after `base`, and every
      time is at least a window after each one before it. */
  ghost predicate Spaced(base: int, times: seq<int>) {
    && (forall i :: 0 <= i < |times| ==> times[i] >= base + CacheWindow)
    && (forall i, j :: 0 <= i < j < |times| ==> times[j] >= times[i] + CacheWindow)
  }

  /** Putting a time in front of a spaced sequence that starts a window later. */
  lemma SpacedCons(base: int, t: int, times: seq<int>)
    requires t >= base + CacheWindow && Spaced(t, times)
    ensures Spaced(base, [t] + times)
  {
    var all := [t] + times;
    forall i, j | 0 <= i < j < |all| ensures all[j] >= all[i] + CacheWindow {
      if i > 0 { assert all[i] == times[i - 1] && all[j] == times[j - 1]; }
      else { assert all[j] == times[j - 1]; }
    }
  }

  /** At most one probe per 300-second window, whatever the calls: every
      probe comes at least 300 seconds after the starting check time and
      after every earlier probe. */
  lemma {:induction false} ProbesSpaced(st: MonitorState, calls: seq<Call>)
    ensures Spaced(st.lastCheck, Run(st, calls).1)
    decreases |calls|
  {
    if calls != [] {
      var now := calls[0].now;
      var next := Check(st, now, calls[0].probe).0;
      ProbesSpaced(next, calls[1..]);
      var rest := Run(next, calls[1..]).1;
      if ProbeDue(st, now) {
        assert Run(st, calls).1 == [now] + rest;
        SpacedCons(st.lastCheck, now, rest);
      } else {
        assert Run(st, calls).1 == rest;
      }
    }
  }

  /** Hence no two probes fall inside one window `[from, from + 300)`. */
  lemma OneProbePerWindow(st: MonitorState, calls: seq<Call>, from: int, i: int, j: int)
    requires 0 <= i < j < |Run(st, calls).1|
    requires from <= Run(st, calls).1[i] < from + CacheWindow
    ensures Run(st, calls).1[j] >= from + CacheWindow
  {
    ProbesSpaced(st, calls);
  }

  /** The state after a run was last checked at the latest probe time, or
      at the starting time if nothing was probed. */
  lemma {:induction false} RunRecordsLastProbe(st: MonitorState, calls: seq<Call>)
    ensures var (final, times) := Run(st, calls);
      final.lastCheck == (if times == [] then st.lastCheck else times[|times| - 1])
    decreases |calls|
  {
    if calls != [] {
      var next := Check(st, calls[0].now, calls[0].probe).0;
      RunRecordsLastProbe(next, calls[1..]);
    }
  }

  /** The status check as the scripts run it against their session state. */
  class ApiMonitor {
    var status: ApiStatus
    var lastCheck: int

    function State(): MonitorState
      reads this
    {
      MonitorState(status, lastCheck)
    }

    /** Session start: `api_status = 'unknown'`, `last_api_check = 0`. */
    constructor ()
      ensures State() == Initial
    {
      status := Unknown;
      lastCheck := 0;
    }

    /** `check_api_key_status()` at time `now`. */
    method CheckStatus(now: int, probe: HttpOutcome<()>) returns (s: ApiStatus)
      modifies this
      ensures State() == Check(old(State()), now, probe).0
      ensures s == Check(old(State()), now, probe).1
    {
      if now - lastCheck < CacheWindow {
        return status;
      }
      status := Classify(probe);
      lastCheck := now;
      s := status;
    }
  }
}
