/** The per-IP rate limit of the backend's middleware: one accepted request
    per second per client address, except on a few paths that are always
    forwarded. The clock is a parameter. */
module RateLimit {

  const ExemptPaths: seq<string> := ["/docs", "/openapi.json", "/trips/get_matches", "/auth/token"]

  /** One second, the width of the window. */
  const Window: real := 1.0

  datatype Outcome = Forwarded | RateLimited(status: int, content: string)

  /** The record of an address: the time of its last accepted request, 0.0
      for an address never seen (the defaultdict(float) default). */
  function RecordOf(records: map<string, real>, ip: string): real {
    if ip in records then records[ip] else 0.0
  }

  /** What one request does: the outcome and the records afterwards. */
  datatype Decision = Decision(outcome: Outcome, records: map<string, real>)

  /** The decision of dispatch for a request on path from ip at time now.
      Reading the record of a non-exempt address stores its default. */
  function Decide(records: map<string, real>, path: string, ip: string, now: real): (d: Decision)
    ensures path in ExemptPaths ==> d == Decision(Forwarded, records)
    ensures path !in ExemptPaths ==> (d.outcome.RateLimited? <==> now - RecordOf(records, ip) < Window)
    ensures d.outcome.RateLimited? ==> d.outcome == RateLimited(429, "Rate limit exceeded")
    ensures d.outcome.RateLimited? ==> d.records == records[ip := RecordOf(records, ip)]
    ensures path !in ExemptPaths && d.outcome.Forwarded? ==> d.records == records[ip := now]
    ensures forall other :: other != ip ==> RecordOf(d.records, other) == RecordOf(records, other)
    ensures forall other :: other != ip ==> (other in d.records <==> other in records)
  {
    if path in ExemptPaths then Decision(Forwarded, records)
    else
      var last := RecordOf(records, ip);
      var touched := records[ip := last];
      if now - last < Window then Decision(RateLimited(429, "Rate limit exceeded"), touched)
      else Decision(Forwarded, touched[ip := now])
  }

  /** A request of a run: path, client address and arrival time. */
  datatype Request = Request(path: string, ip: string, time: real)

  /** The records after a run of requests. */
  function RunRecords(records: map<string, real>, reqs: seq<Request>): map<string, real>
    decreases |reqs|
  {
    if reqs == [] then records
    else
      var last := reqs[|reqs| - 1];
      Decide(RunRecords(records, reqs[..|reqs| - 1]), last.path, last.ip, last.time).records
  }

  /** The arrival times of the requests from ip that were accepted, that is
      forwarded on a non-exempt path, in order. */
  function AcceptedTimes(records: map<string, real>, reqs: seq<Request>, ip: string): seq<real>
    decreases |reqs|
  {
    if reqs == [] then []
    else
      var init := reqs[..|reqs| - 1];
      var last := reqs[|reqs| - 1];
      var d := Decide(RunRecords(records, init), last.path, last.ip, last.time);
      AcceptedTimes(records, init, ip) +
      (if last.ip == ip && last.path !in ExemptPaths && d.outcome.Forwarded? then [last.time] else [])
  }

  /** One request: when it is accepted from ip, the record of ip becomes its
      time, a second or more after the old record; otherwise the record of ip
      stays. */
  lemma DecideStep(records: map<string, real>, req: Request, ip: string)
    ensures var d := Decide(records, req.path, req.ip, req.time);
      req.ip == ip && req.path !in ExemptPaths && d.outcome.Forwarded? ==>
        RecordOf(d.records, ip) == req.time && req.time - RecordOf(records, ip) >= Window
    ensures var d := Decide(records, req.path, req.ip, req.time);
      !(req.ip == ip && req.path !in ExemptPaths && d.outcome.Forwarded?) ==>
        RecordOf(d.records, ip) == RecordOf(records, ip)
  {
  }

  /** Over any run, the record of an address is the time of its last accepted
      request (its starting record when none was accepted), and its accepted
      requests are at least one second after the previous accepted one:
      rejected requests never move the window. */
  lemma {:induction false} AcceptedRequestsSpaced(records: map<string, real>, reqs: seq<Request>, ip: string)
    ensures var ts := AcceptedTimes(records, reqs, ip);
      RecordOf(RunRecords(records, reqs), ip) == if ts == [] then RecordOf(records, ip) else ts[|ts| - 1]
    ensures var ts := AcceptedTimes(records, reqs, ip);
      forall j :: 0 < j < |ts| ==> ts[j] - ts[j - 1] >= Window
    ensures var ts := AcceptedTimes(records, reqs, ip);
      |ts| > 0 ==> ts[0] - RecordOf(records, ip) >= Window
    decreases |reqs|
  {
    if reqs != [] {
      var init := reqs[..|reqs| - 1];
      AcceptedRequestsSpaced(records, init, ip);
      var ts0 := AcceptedTimes(records, init, ip);
      var ts := AcceptedTimes(records, reqs, ip);
      var last := reqs[|reqs| - 1];
      var d := Decide(RunRecords(records, init), last.path, last.ip, last.time);
      DecideStep(RunRecords(records, init), last, ip);
      assert RunRecords(records, reqs) == d.records;
      if last.ip == ip && last.path !in ExemptPaths && d.outcome.Forwarded? {
        assert ts == ts0 + [last.time];
      } else {
        assert ts == ts0;
      }
    }
  }

  /** The middleware, with its table of records. */
  class RateLimiter {
    var records: map<string, real>

    constructor ()
      ensures records == map[]
    {
      records := map[];
    }

    /** dispatch: forward, or answer 429 without moving the window. */
    method Dispatch(path: string, ip: string, now: real) returns (o: Outcome)
      modifies this
      ensures Decision(o, records) == Decide(old(records), path, ip, now)
    {
      if path in ExemptPaths {
        return Forwarded;
      }
      var last := RecordOf(records, ip);
      records := records[ip := last];
      if now - last < Window {
        return RateLimited(429, "Rate limit exceeded");
      }
      records := records[ip := now];
      o := Forwarded;
    }
  }
}
