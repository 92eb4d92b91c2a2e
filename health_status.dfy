/**
 * The health poller widget: a small state machine over the latest health
 * snapshot, a loading flag, an error string and the time of the last
 * successful check, driven by the outcome of one `GET /health` poll.
 */
module HealthStatus {
  import opened Fetch
  import opened Decimal

  /**
   * The decoded `/health` body: its `status` and its `checks.storage`
   * labels, each absent when the body does not carry it as a string.
   */
  datatype HealthData = HealthData(status: Option<string>, storage: Option<string>)

  /** The widget's state cells; `lastChecked` is an opaque clock reading. */
  datatype HealthView = HealthView(health: Option<HealthData>, loading: bool, error: Option<string>, lastChecked: nat)

  /** One poll: what `fetch` did, what `response.json()` would do, and the clock at completion. */
  datatype Poll = Poll(fetch: FetchResult, json: Parsed<HealthData>, now: nat)

  const TIMEOUT_MESSAGE := "Request timeout"

  /** The state on mount: no snapshot, loading, no error, checked "now". */
  function Initial(mountedAt: nat): (v: HealthView)
    ensures v.health == None && v.loading && v.error == None && v.lastChecked == mountedAt
  {
    HealthView(None, true, None, mountedAt)
  }

  /**
   * `isHealthy`: the API reports "healthy" and its storage check reports
   * "ok"; never while there is no snapshot.
   */
  function IsHealthy(health: Option<HealthData>): (b: bool)
    ensures b <==> health.Some? && health.value.status == Some("healthy") && health.value.storage == Some("ok")
    ensures health.None? ==> !b
  {
    match health
    case None => false
    case Some(h) => h.status == Some("healthy") && h.storage == Some("ok")
  }

  /**
   * What the `try` block of `fetchHealth` throws, or `None` when it runs to
   * the end: the fetch's own exception, `new Error("HTTP <status>")` for a
   * status outside 200-299, or the exception of `response.json()`.
   */
  function PollThrows(fetch: FetchResult, json: Parsed<HealthData>): (t: Option<Thrown>)
    ensures t.None? <==> fetch.Resolved? && Ok(fetch.status) && json.Parsed?
    ensures fetch.Resolved? && !Ok(fetch.status) ==>
      t == Some(ErrorObject("Error", "HTTP " + NatToString(fetch.status)))
  {
    match fetch
    case Rejected(thrown) => Some(thrown)
    case Resolved(status) =>
      if !Ok(status) then Some(ErrorObject("Error", "HTTP " + NatToString(status)))
      else match json
        case ParseFailed(thrown) => Some(thrown)
        case Parsed(_) => None
  }

  /** The error the `catch` block records for a thrown value. */
  function CatchMessage(t: Thrown): (m: string)
    ensures t.ErrorObject? && t.name == "AbortError" ==> m == TIMEOUT_MESSAGE
    ensures !(t.ErrorObject? && t.name == "AbortError") ==> m == ThrownMessage(t)
  {
    if t.ErrorObject? && t.name == "AbortError" then TIMEOUT_MESSAGE else ThrownMessage(t)
  }

  /**
   * The state after one poll that completes at time `now`. A success
   * replaces the snapshot wholesale, clears the error and updates the
   * check time; any failure keeps the previous snapshot and check time and
   * records an error: "Request timeout" for an abort, "HTTP <status>" for a
   * status outside 200-299, the error's message otherwise (or "Unknown
   * error" for a thrown non-Error). Every path ends with loading off.
   */
  function AfterPoll(v: HealthView, p: Poll): (w: HealthView)
    ensures !w.loading
    ensures w.error == None <==> p.fetch.Resolved? && Ok(p.fetch.status) && p.json.Parsed?
    ensures w.error == None ==> w.health == Some(p.json.value) && w.lastChecked == p.now
    ensures w.error != None ==> w.health == v.health && w.lastChecked == v.lastChecked
    ensures p.fetch.Rejected? ==> w.error == Some(CatchMessage(p.fetch.thrown))
    ensures p.fetch.Rejected? && p.fetch.thrown.ErrorObject? && p.fetch.thrown.name == "AbortError" ==>
      w.error == Some(TIMEOUT_MESSAGE)
    ensures p.fetch.Resolved? && !Ok(p.fetch.status) ==> w.error == Some("HTTP " + NatToString(p.fetch.status))
    ensures p.fetch.Resolved? && Ok(p.fetch.status) && p.json.ParseFailed? ==> w.error == Some(CatchMessage(p.json.thrown))
  {
    match PollThrows(p.fetch, p.json)
    case None => HealthView(Some(p.json.value), false, None, p.now)
    case Some(t) => HealthView(v.health, false, Some(CatchMessage(t)), v.lastChecked)
  }

  /**
   * Polls that fail on two different statuses record two different
   * errors, and neither is the timeout error: the error text tells the
   * statuses apart.
   */
  lemma DistinctStatusesGiveDistinctErrors(v: HealthView, p: Poll, q: Poll)
    requires p.fetch.Resolved? && !Ok(p.fetch.status)
    requires q.fetch.Resolved? && !Ok(q.fetch.status)
    requires p.fetch.status != q.fetch.status
    ensures AfterPoll(v, p).error != AfterPoll(v, q).error
    ensures AfterPoll(v, p).error != Some(TIMEOUT_MESSAGE)
  {
    var a, b := NatToString(p.fetch.status), NatToString(q.fetch.status);
    NatToStringInjective(p.fetch.status, q.fetch.status);
    assert ("HTTP " + a)[5..] == a && ("HTTP " + b)[5..] == b;
    assert ("HTTP " + a)[0] == 'H';
  }

  /** The state after the polls of `ps`, in order. */
  function AfterPolls(v: HealthView, ps: seq<Poll>): HealthView
    decreases |ps|
  {
    if ps == [] then v else AfterPolls(AfterPoll(v, ps[0]), ps[1..])
  }

  predicate Succeeds(p: Poll) {
    p.fetch.Resolved? && Ok(p.fetch.status) && p.json.Parsed?
  }

  /** The index of the last successful poll of `ps`, if any. */
  function LastSuccess(ps: seq<Poll>): (k: Option<nat>)
    ensures k.Some? ==>
      k.value < |ps| && Succeeds(ps[k.value]) && forall j :: k.value < j < |ps| ==> !Succeeds(ps[j])
    ensures k.None? ==> forall j :: 0 <= j < |ps| ==> !Succeeds(ps[j])
  {
    if ps == [] then None
    else if Succeeds(ps[|ps| - 1]) then Some(|ps| - 1)
    else LastSuccess(ps[..|ps| - 1])
  }

  /**
   * After any run of polls the widget shows the body of the last
   * successful poll and its completion time (or the snapshot and time it
   * started from, when none succeeded), and loading is off once at least
   * one poll has completed.
   */
  lemma {:induction false} AfterPollsShowsLastSuccess(v: HealthView, ps: seq<Poll>)
    ensures var w := AfterPolls(v, ps);
      (match LastSuccess(ps)
       case Some(k) => w.health == Some(ps[k].json.value) && w.lastChecked == ps[k].now
       case None => w.health == v.health && w.lastChecked == v.lastChecked) &&
      (ps != [] ==> !w.loading)
    decreases |ps|
  {
    if ps != [] {
      var init, last := ps[..|ps| - 1], ps[|ps| - 1];
      assert ps == init + [last];
      AfterPollsSnoc(v, init, last);
      if !Succeeds(last) {
        AfterPollsShowsLastSuccess(v, init);
        assert LastSuccess(ps) == LastSuccess(init);
        match LastSuccess(init) {
          case Some(k) => assert ps[k] == init[k];
          case None =>
        }
      }
    }
  }

  lemma {:induction false} AfterPollsSnoc(v: HealthView, ps: seq<Poll>, p: Poll)
    ensures AfterPolls(v, ps + [p]) == AfterPoll(AfterPolls(v, ps), p)
    decreases |ps|
  {
    if ps == [] {
      assert [p][1..] == [];
    } else {
      assert (ps + [p])[1..] == ps[1..] + [p];
      AfterPollsSnoc(AfterPoll(v, ps[0]), ps[1..], p);
    }
  }

  /** The widget's state cells, updated in place by `fetchHealth`. */
  class HealthPoller {
    var health: Option<HealthData>
    var loading: bool
    var error: Option<string>
    var lastChecked: nat

    function View(): HealthView
      reads this
    {
      HealthView(health, loading, error, lastChecked)
    }

    constructor (mountedAt: nat)
      ensures View() == Initial(mountedAt)
    {
      health := None;
      loading := true;
      error := None;
      lastChecked := mountedAt;
    }

    /** One run of `fetchHealth`: its `try`, `catch` and `finally` blocks in turn. */
    method FetchHealth(p: Poll)
      modifies this
      ensures View() == AfterPoll(old(View()), p)
    {
      var thrown := PollThrows(p.fetch, p.json);
      match thrown {
        case None =>
          health := Some(p.json.value);
          error := None;
          lastChecked := p.now;
        case Some(t) =>
          error := Some(CatchMessage(t));
      }
      loading := false;
    }
  }
}
