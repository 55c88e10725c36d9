/** The generation client: in offline mode every prompt goes to the shared
    mock; otherwise the call walks a rotated list of candidate models in up
    to two passes, retrying an empty reply once per model, skipping models
    that are missing, rate-limited or silent, and stopping at any other
    error. The remote service is an oracle indexed by the number of
    requests sent so far. */
module Client {
  import opened PyStr
  import opened State
  import opened MockLlm
  import opened Candidates
  import opened Retry

  /** The exceptions the client tells apart. */
  datatype Exc =
    | NotFound(msg: string)           // the model does not exist
    | ResourceExhausted(msg: string)  // the model is rate-limited
    | RuntimeError(msg: string)
    | OtherError(msg: string)

  datatype Result<T> = Ok(value: T) | Err(error: Exc)

  /** One generate_content request. */
  datatype Request = Request(model: string, prompt: string, temperature: real, maxTokens: Option<int>)

  /** What one request yields once the reply's text is extracted: that
      text (possibly empty) or a raised error. */
  datatype Outcome = Text(text: string) | Raise(error: Exc)

  /** The remote service: the outcome of the k-th request. */
  type Service = (nat, Request) -> Outcome

  const NoTextMessage := "Gemini returned no text in candidates."
  const NoCandidatesMessage := "No Gemini model candidates available"

  /** The result of one model attempt and the request count after it. */
  datatype Attempt = Attempt(result: Result<string>, next: nat)

  /** One model: a request, and when its text is empty one more with the
      retry cap; two empty texts raise the no-text error. */
  function ModelAttempt(svc: Service, k: nat, model: string, prompt: string, temp: real,
                        cap: Option<int>): (a: Attempt)
    ensures k + 1 <= a.next <= k + 2
    ensures a.result.Ok? ==> a.result.value != ""
    ensures a.next == k + 2 <==> svc(k, Request(model, prompt, temp, cap)) == Text("")
  {
    var first := svc(k, Request(model, prompt, temp, cap));
    if first.Raise? then Attempt(Err(first.error), k + 1)
    else if first.text != "" then Attempt(Ok(first.text), k + 1)
    else
      var second := svc(k + 1, Request(model, prompt, temp, RetryCap(cap)));
      if second.Raise? then Attempt(Err(second.error), k + 2)
      else if second.text != "" then Attempt(Ok(second.text), k + 2)
      else Attempt(Err(RuntimeError(NoTextMessage)), k + 2)
  }

  /** How a failed model attempt is handled within a pass. */
  datatype Handling = Skip | Wait(seconds: real) | Stop

  function Handle(e: Exc): (h: Handling)
    ensures h.Wait? <==> e.ResourceExhausted?
    ensures e.NotFound? ==> h == Skip
    ensures e.OtherError? ==> h == Stop
    ensures e.RuntimeError? ==> (h == Skip <==> Contains(Lower(e.msg), "no text"))
  {
    match e
    case NotFound(_) => Skip
    case ResourceExhausted(m) => Wait(RateLimitWait(m))
    case RuntimeError(m) => if Contains(Lower(m), "no text") then Skip else Stop
    case OtherError(_) => Stop
  }

  /** The state at the end of a pass over the candidates. */
  datatype PassEnd = PassEnd(reply: Option<string>, waits: seq<real>, lastErr: Option<Exc>, next: nat)

  /** A pass over `cands` from position `i` on, with the waits and last
      error gathered so far. */
  function PassFrom(svc: Service, k: nat, cands: seq<string>, i: nat, prompt: string, temp: real,
                    cap: Option<int>, waits: seq<real>, last: Option<Exc>): (p: PassEnd)
    requires i <= |cands|
    ensures k <= p.next <= k + 2 * (|cands| - i)
    ensures p.reply.Some? ==> p.reply.value != ""
    ensures |waits| <= |p.waits| && p.waits[..|waits|] == waits
    ensures i < |cands| ==> p.reply.Some? || p.lastErr.Some?
    decreases |cands| - i
  {
    if i == |cands| then PassEnd(None, waits, last, k)
    else
      var a := ModelAttempt(svc, k, cands[i], prompt, temp, cap);
      if a.result.Ok? then PassEnd(Some(a.result.value), waits, last, a.next)
      else
        match Handle(a.result.error)
        case Skip => PassFrom(svc, a.next, cands, i + 1, prompt, temp, cap, waits, Some(a.result.error))
        case Wait(s) => PassFrom(svc, a.next, cands, i + 1, prompt, temp, cap, waits + [s], Some(a.result.error))
        case Stop => PassEnd(None, waits, Some(a.result.error), a.next)
  }

  /** The error raised when no pass produced text. */
  function FinalError(last: Option<Exc>): Exc {
    if last.Some? then last.value else RuntimeError(NoCandidatesMessage)
  }

  /** The outcome of a whole call: its result, the request count after it
      and the pauses taken between passes. */
  datatype CallEnd = CallEnd(result: Result<string>, next: nat, pauses: seq<real>)

  /** The passes from pass number `attempt` on: a second pass follows only
      a first pass that produced nothing and met a rate limit. */
  function Passes(svc: Service, k: nat, cands: seq<string>, prompt: string, temp: real,
                  cap: Option<int>, attempt: nat, last: Option<Exc>, pauses: seq<real>): CallEnd
    requires attempt <= 1
    decreases 1 - attempt
  {
    var p := PassFrom(svc, k, cands, 0, prompt, temp, cap, [], last);
    if p.reply.Some? then CallEnd(Ok(p.reply.value), p.next, pauses)
    else if attempt == 0 && p.waits != [] then
      Passes(svc, p.next, cands, prompt, temp, cap, 1, p.lastErr, pauses + [Backoff(p.waits)])
    else CallEnd(Err(FinalError(p.lastErr)), p.next, pauses)
  }

  /** A whole call over an already rotated candidate list. */
  function Generation(svc: Service, k: nat, cands: seq<string>, prompt: string, temp: real,
                      cap: Option<int>): CallEnd
  {
    Passes(svc, k, cands, prompt, temp, cap, 0, None, [])
  }

  // ---------------------------------------------------------------------
  // What a call promises

  /** At most two passes of at most two requests per model; at most one
      pause, which lies in [3, 20]; a successful result is never empty. */
  lemma GenerationBounds(svc: Service, k: nat, cands: seq<string>, prompt: string, temp: real,
                         cap: Option<int>)
    ensures var c := Generation(svc, k, cands, prompt, temp, cap);
      && k <= c.next <= k + 4 * |cands|
      && |c.pauses| <= 1
      && (c.pauses == [] ==> c.next <= k + 2 * |cands|)
      && (forall j :: 0 <= j < |c.pauses| ==> 3.0 <= c.pauses[j] <= 20.0)
      && (c.result.Ok? ==> c.result.value != "")
  {
    var p := PassFrom(svc, k, cands, 0, prompt, temp, cap, [], None);
    if p.reply.None? && p.waits != [] {
      var q := PassFrom(svc, p.next, cands, 0, prompt, temp, cap, [], p.lastErr);
      assert Generation(svc, k, cands, prompt, temp, cap).pauses == [Backoff(p.waits)];
    }
  }

  /** With no candidates the call sends nothing and raises the
      no-candidates error. */
  lemma NoCandidatesError(svc: Service, k: nat, prompt: string, temp: real, cap: Option<int>)
    ensures Generation(svc, k, [], prompt, temp, cap) ==
            CallEnd(Err(RuntimeError(NoCandidatesMessage)), k, [])
  {
  }

  /** A model attempt a call made: the number of its first request, and
      the position and name of the candidate it tried. */
  datatype Tried = Tried(start: nat, index: nat, model: string)

  function AttemptOf(svc: Service, t: Tried, prompt: string, temp: real, cap: Option<int>): Attempt {
    ModelAttempt(svc, t.start, t.model, prompt, temp, cap)
  }

  /** The attempt met a rate limit. */
  predicate RateLimited(svc: Service, t: Tried, prompt: string, temp: real, cap: Option<int>) {
    var a := AttemptOf(svc, t, prompt, temp, cap);
    a.result.Err? && a.result.error.ResourceExhausted?
  }

  /** The model attempts a pass makes from position `i` on, its first
      request numbered `k`. */
  function PassTried(svc: Service, k: nat, cands: seq<string>, i: nat, prompt: string, temp: real,
                     cap: Option<int>): seq<Tried>
    requires i <= |cands|
    decreases |cands| - i
  {
    if i == |cands| then []
    else
      var a := ModelAttempt(svc, k, cands[i], prompt, temp, cap);
      if a.result.Ok? || Handle(a.result.error).Stop? then [Tried(k, i, cands[i])]
      else [Tried(k, i, cands[i])] + PassTried(svc, a.next, cands, i + 1, prompt, temp, cap)
  }

  /** `ts` try the candidates from position `i` on, in order, the first
      starting at request `k` and each one where the one before ended, the
      last ending at `next`; each but the last failed with an error the
      pass moves on from. */
  ghost predicate Chained(svc: Service, ts: seq<Tried>, k: nat, next: nat, cands: seq<string>, i: nat,
                          prompt: string, temp: real, cap: Option<int>)
    decreases |ts|
  {
    if ts == [] then next == k
    else
      i < |cands| && ts[0] == Tried(k, i, cands[i])
      && var a := AttemptOf(svc, ts[0], prompt, temp, cap);
         && (|ts| > 1 ==> a.result.Err? && !Handle(a.result.error).Stop?)
         && Chained(svc, ts[1..], a.next, next, cands, i + 1, prompt, temp, cap)
  }

  /** The last of the attempts `ts` gave `r`. */
  predicate LastGave(svc: Service, ts: seq<Tried>, r: Result<string>, prompt: string, temp: real,
                     cap: Option<int>) {
    ts != [] && AttemptOf(svc, ts[|ts| - 1], prompt, temp, cap).result == r
  }

  /** A pass makes its attempts one after another, and it ends with the
      reply or the error of its last attempt. */
  lemma {:induction false} PassAttempts(svc: Service, k: nat, cands: seq<string>, i: nat, prompt: string,
                                        temp: real, cap: Option<int>, waits: seq<real>, last: Option<Exc>)
    requires i <= |cands|
    ensures var p := PassFrom(svc, k, cands, i, prompt, temp, cap, waits, last);
      var ts := PassTried(svc, k, cands, i, prompt, temp, cap);
      && Chained(svc, ts, k, p.next, cands, i, prompt, temp, cap)
      && (ts == [] <==> i == |cands|)
      && (ts == [] ==> p == PassEnd(None, waits, last, k))
      && (p.reply.Some? ==> LastGave(svc, ts, Ok(p.reply.value), prompt, temp, cap))
      && (ts != [] && p.reply.None? ==>
            p.lastErr.Some? && LastGave(svc, ts, Err(p.lastErr.value), prompt, temp, cap))
    decreases |cands| - i
  {
    if i < |cands| {
      var a := ModelAttempt(svc, k, cands[i], prompt, temp, cap);
      var ts := PassTried(svc, k, cands, i, prompt, temp, cap);
      var p := PassFrom(svc, k, cands, i, prompt, temp, cap, waits, last);
      if a.result.Ok? || Handle(a.result.error).Stop? {
        assert Chained(svc, ts[1..], a.next, p.next, cands, i + 1, prompt, temp, cap);
      } else {
        var e := a.result.error;
        var w := if Handle(e).Wait? then waits + [Handle(e).seconds] else waits;
        var rest := PassTried(svc, a.next, cands, i + 1, prompt, temp, cap);
        assert p == PassFrom(svc, a.next, cands, i + 1, prompt, temp, cap, w, Some(e));
        assert ts[1..] == rest;
        PassAttempts(svc, a.next, cands, i + 1, prompt, temp, cap, w, Some(e));
        if rest != [] {
          assert ts[|ts| - 1] == rest[|rest| - 1];
        }
      }
    }
  }

  /** One of the attempts `ts` met a rate limit. */
  predicate MetRateLimit(svc: Service, ts: seq<Tried>, prompt: string, temp: real, cap: Option<int>) {
    exists j :: 0 <= j < |ts| && RateLimited(svc, ts[j], prompt, temp, cap)
  }

  lemma MetRateLimitCons(svc: Service, t: Tried, rest: seq<Tried>, prompt: string, temp: real,
                         cap: Option<int>)
    ensures MetRateLimit(svc, [t] + rest, prompt, temp, cap)
            <==> RateLimited(svc, t, prompt, temp, cap) || MetRateLimit(svc, rest, prompt, temp, cap)
  {
    var ts := [t] + rest;
    if MetRateLimit(svc, rest, prompt, temp, cap) {
      var j :| 0 <= j < |rest| && RateLimited(svc, rest[j], prompt, temp, cap);
      assert ts[j + 1] == rest[j];
    }
    if MetRateLimit(svc, ts, prompt, temp, cap) && !RateLimited(svc, t, prompt, temp, cap) {
      var j :| 0 <= j < |ts| && RateLimited(svc, ts[j], prompt, temp, cap);
      assert ts[0] == t;
      assert j > 0 && rest[j - 1] == ts[j];
      assert RateLimited(svc, rest[j - 1], prompt, temp, cap);
    }
  }

  /** A pass records a wait exactly when one of its attempts met a rate
      limit. */
  lemma {:induction false} PassWaits(svc: Service, k: nat, cands: seq<string>, i: nat, prompt: string,
                                     temp: real, cap: Option<int>, waits: seq<real>, last: Option<Exc>)
    requires i <= |cands|
    ensures PassFrom(svc, k, cands, i, prompt, temp, cap, waits, last).waits != waits
            <==> MetRateLimit(svc, PassTried(svc, k, cands, i, prompt, temp, cap), prompt, temp, cap)
    decreases |cands| - i
  {
    if i < |cands| {
      var a := ModelAttempt(svc, k, cands[i], prompt, temp, cap);
      var ts := PassTried(svc, k, cands, i, prompt, temp, cap);
      var t := Tried(k, i, cands[i]);
      assert AttemptOf(svc, t, prompt, temp, cap) == a;
      assert RateLimited(svc, t, prompt, temp, cap) <==> a.result.Err? && Handle(a.result.error).Wait?;
      if a.result.Ok? || Handle(a.result.error).Stop? {
        assert ts == [t] + [];
        MetRateLimitCons(svc, t, [], prompt, temp, cap);
      } else {
        var e := a.result.error;
        var w := if Handle(e).Wait? then waits + [Handle(e).seconds] else waits;
        var rest := PassTried(svc, a.next, cands, i + 1, prompt, temp, cap);
        var p := PassFrom(svc, a.next, cands, i + 1, prompt, temp, cap, w, Some(e));
        assert PassFrom(svc, k, cands, i, prompt, temp, cap, waits, last) == p;
        assert ts == [t] + rest;
        MetRateLimitCons(svc, t, rest, prompt, temp, cap);
        PassWaits(svc, a.next, cands, i + 1, prompt, temp, cap, w, Some(e));
        if w != waits {
          assert |p.waits| >= |w|;
        }
      }
    }
  }

  /** A call's attempts: those of its first pass, then, after a pause,
      those of its second. The second pass runs exactly when the first gave
      no reply and met a rate limit; whatever the call returns or raises is
      what its very last attempt gave, and that attempt ends at the call's
      last request. */
  lemma CallAttempts(svc: Service, k: nat, cands: seq<string>, prompt: string, temp: real,
                     cap: Option<int>)
    requires |cands| > 0
    ensures var c := Generation(svc, k, cands, prompt, temp, cap);
      var p := PassFrom(svc, k, cands, 0, prompt, temp, cap, [], None);
      var first := PassTried(svc, k, cands, 0, prompt, temp, cap);
      var second := PassTried(svc, p.next, cands, 0, prompt, temp, cap);
      && Chained(svc, first, k, p.next, cands, 0, prompt, temp, cap)
      && (c.pauses != [] <==>
            p.reply.None? && MetRateLimit(svc, first, prompt, temp, cap))
      && (c.pauses == [] ==> c.next == p.next && LastGave(svc, first, c.result, prompt, temp, cap))
      && (c.pauses != [] ==>
            Chained(svc, second, p.next, c.next, cands, 0, prompt, temp, cap)
            && LastGave(svc, second, c.result, prompt, temp, cap))
  {
    var p := PassFrom(svc, k, cands, 0, prompt, temp, cap, [], None);
    PassAttempts(svc, k, cands, 0, prompt, temp, cap, [], None);
    PassWaits(svc, k, cands, 0, prompt, temp, cap, [], None);
    if p.reply.None? && p.waits != [] {
      PassAttempts(svc, p.next, cands, 0, prompt, temp, cap, [], p.lastErr);
    }
  }

  /** A service that never rate-limits from request `k` on. */
  ghost predicate NeverRateLimits(svc: Service, k: nat) {
    forall j: nat, req: Request :: j >= k && svc(j, req).Raise? ==> !svc(j, req).error.ResourceExhausted?
  }

  lemma {:induction false} PassWithoutRateLimits(svc: Service, k: nat, cands: seq<string>, i: nat,
                                                 prompt: string, temp: real, cap: Option<int>,
                                                 waits: seq<real>, last: Option<Exc>)
    requires i <= |cands| && NeverRateLimits(svc, k)
    ensures PassFrom(svc, k, cands, i, prompt, temp, cap, waits, last).waits == waits
    decreases |cands| - i
  {
    if i < |cands| {
      var a := ModelAttempt(svc, k, cands[i], prompt, temp, cap);
      if a.result.Err? {
        assert !a.result.error.ResourceExhausted? by {
          var first := svc(k, Request(cands[i], prompt, temp, cap));
          if !first.Raise? && first.text == "" {
            var second := svc(k + 1, Request(cands[i], prompt, temp, RetryCap(cap)));
            assert second.Raise? ==> !second.error.ResourceExhausted?;
          }
        }
        if Handle(a.result.error).Skip? {
          PassWithoutRateLimits(svc, a.next, cands, i + 1, prompt, temp, cap, waits, Some(a.result.error));
        }
      }
    }
  }

  /** A service that never rate-limits gets a single pass and no pause. */
  lemma SinglePassWithoutRateLimits(svc: Service, k: nat, cands: seq<string>, prompt: string,
                                    temp: real, cap: Option<int>)
    requires NeverRateLimits(svc, k)
    ensures Generation(svc, k, cands, prompt, temp, cap).pauses == []
    ensures Generation(svc, k, cands, prompt, temp, cap).next <= k + 2 * |cands|
  {
    PassWithoutRateLimits(svc, k, cands, 0, prompt, temp, cap, [], None);
  }

  // ---------------------------------------------------------------------
  // The client object

  /** One call of the client as the callers see it. */
  datatype Exchange = Exchange(prompt: string, temperature: real, maxTokens: Option<int>,
                               result: Result<string>)

  /** Offline-mode calls: the i-th of `E` was answered by the mock with its
      counter at `first + i`. */
  ghost predicate MockAnswers(E: seq<Exchange>, first: int) {
    forall i :: 0 <= i < |E| ==> E[i].result == Ok(MockReply(first + i, E[i].prompt))
  }

  /** A run of calls answered offline, the counter reading `before` ahead
      of the first and `after` once they are done. */
  ghost predicate MockRun(E: seq<Exchange>, before: int, after: int) {
    after == before + |E| && MockAnswers(E, before)
  }

  lemma MockRunOne(x: Exchange, before: int)
    requires x.result == Ok(MockReply(before, x.prompt))
    ensures MockRun([x], before, before + 1)
  {
    MockAnswersOne(x, before);
  }

  /** Consecutive offline runs make one run. */
  lemma MockRunAppend(E: seq<Exchange>, F: seq<Exchange>, a: int, b: int, c: int)
    requires MockRun(E, a, b) && MockRun(F, b, c)
    ensures MockRun(E + F, a, c)
  {
    MockAnswersAppend(E, F, a, b);
  }

  lemma MockAnswersOne(x: Exchange, first: int)
    requires x.result == Ok(MockReply(first, x.prompt))
    ensures MockAnswers([x], first)
  {
    assert first + 0 == first;
  }

  /** Offline answers of consecutive runs of calls chain up. */
  lemma MockAnswersAppend(E: seq<Exchange>, F: seq<Exchange>, first: int, next: int)
    requires MockAnswers(E, first) && MockAnswers(F, next) && next == first + |E|
    ensures MockAnswers(E + F, first)
  {
    forall i | 0 <= i < |E + F|
      ensures (E + F)[i].result == Ok(MockReply(first + i, (E + F)[i].prompt))
    {
      if i >= |E| {
        assert (E + F)[i] == F[i - |E|];
        assert first + |E| + (i - |E|) == first + i;
      }
    }
  }

  class GeminiClient {
    /** USE_MOCK_LLM == "1". */
    const useMock: bool
    /** The shared offline generator. */
    const mock: MockLLM
    /** GEMINI_MODEL and GEMINI_FALLBACK_MODELS. */
    const envModel: Option<string>
    const envFallback: Option<string>
    const service: Service
    /** The round-robin start index shared by all calls. */
    var rotateIdx: nat
    /** Every request sent to the service, in order. */
    var requests: seq<Request>
    /** The pause taken before each second pass, before jitter. */
    var pauses: seq<real>
    /** Every call and its result, in order. */
    ghost var exchanges: seq<Exchange>

    constructor (useMock: bool, envModel: Option<string>, envFallback: Option<string>, service: Service)
      ensures this.useMock == useMock && this.envModel == envModel
      ensures this.envFallback == envFallback && this.service == service
      ensures fresh(mock) && mock.counter == 1
      ensures rotateIdx == 0 && requests == [] && pauses == [] && exchanges == []
    {
      this.useMock := useMock;
      this.envModel := envModel;
      this.envFallback := envFallback;
      this.service := service;
      mock := new MockLLM();
      rotateIdx := 0;
      requests := [];
      pauses := [];
      exchanges := [];
    }

    /** The candidate list for a call naming `model` (or none). */
    function AllCandidates(model: Option<string>): seq<string> {
      CandidateList(Preferred(model, envModel), FallbackItems(envFallback))
    }

    /** Send one request. */
    method Send(req: Request) returns (o: Outcome)
      modifies this`requests
      ensures o == service(|old(requests)|, req)
      ensures requests == old(requests) + [req]
    {
      o := service(|requests|, req);
      requests := requests + [req];
    }

    /** One model, with the empty-reply retry. */
    method TryModel(model: string, prompt: string, temp: real, cap: Option<int>) returns (a: Result<string>)
      modifies this`requests
      ensures Attempt(a, |requests|) == ModelAttempt(service, |old(requests)|, model, prompt, temp, cap)
    {
      var first := Send(Request(model, prompt, temp, cap));
      if first.Raise? {
        return Err(first.error);
      }
      if first.text != "" {
        return Ok(first.text);
      }
      var second := Send(Request(model, prompt, temp, RetryCap(cap)));
      if second.Raise? {
        return Err(second.error);
      }
      if second.text != "" {
        return Ok(second.text);
      }
      return Err(RuntimeError(NoTextMessage));
    }

    /** One pass over the candidates. */
    method RunPass(cands: seq<string>, prompt: string, temp: real, cap: Option<int>, last0: Option<Exc>)
      returns (p: PassEnd)
      modifies this`requests
      ensures p == PassFrom(service, |old(requests)|, cands, 0, prompt, temp, cap, [], last0)
      ensures |requests| == p.next
    {
      ghost var spec := PassFrom(service, |requests|, cands, 0, prompt, temp, cap, [], last0);
      var waits: seq<real> := [];
      var last := last0;
      var i := 0;
      while i < |cands|
        invariant i <= |cands|
        invariant spec == PassFrom(service, |requests|, cands, i, prompt, temp, cap, waits, last)
        decreases |cands| - i
      {
        var a := TryModel(cands[i], prompt, temp, cap);
        if a.Ok? {
          return PassEnd(Some(a.value), waits, last, |requests|);
        }
        last := Some(a.error);
        match Handle(a.error) {
          case Skip =>
          case Wait(s) =>
            waits := waits + [s];
          case Stop =>
            return PassEnd(None, waits, last, |requests|);
        }
        i := i + 1;
      }
      return PassEnd(None, waits, last, |requests|);
    }

    /** The two passes of one call: a second pass only after a first pass
        that produced nothing and met a rate limit, preceded by a pause. */
    method RunPasses(cands: seq<string>, prompt: string, temp: real, cap: Option<int>)
      returns (r: Result<string>)
      modifies this`requests, this`pauses
      ensures var c := Generation(service, |old(requests)|, cands, prompt, temp, cap);
        r == c.result && |requests| == c.next && pauses == old(pauses) + c.pauses
    {
      ghost var spec := Generation(service, |requests|, cands, prompt, temp, cap);
      var last: Option<Exc> := None;
      var found: Option<string> := None;
      for attempt := 0 to 2
        invariant attempt <= 1
        invariant |old(pauses)| <= |pauses| && pauses[..|old(pauses)|] == old(pauses)
        invariant spec == Passes(service, |requests|, cands, prompt, temp, cap, attempt, last,
                                 pauses[|old(pauses)|..])
      {
        var p := RunPass(cands, prompt, temp, cap, last);
        last := p.lastErr;
        if p.reply.Some? {
          found := p.reply;
          break;
        }
        if attempt == 0 && p.waits != [] {
          ghost var before := pauses;
          pauses := pauses + [Backoff(p.waits)];
          assert pauses[|old(pauses)|..] == before[|old(pauses)|..] + [Backoff(p.waits)];
          continue;
        }
        break;
      }
      if found.Some? {
        r := Ok(found.value);
      } else {
        r := Err(FinalError(last));
      }
    }

    /** gemini_text: the mock in offline mode; otherwise rotate the
        candidates, advance the shared index, and run up to two passes. */
    method GeminiText(prompt: string, model: Option<string>, temp: real, cap: Option<int>)
      returns (r: Result<string>)
      modifies this, mock
      ensures exchanges == old(exchanges) + [Exchange(prompt, temp, cap, r)]
      ensures useMock ==> r == Ok(MockReply(old(mock.counter), prompt))
                          && mock.counter == old(mock.counter) + 1
                          && rotateIdx == old(rotateIdx) && requests == old(requests)
                          && pauses == old(pauses)
      ensures !useMock ==>
        var all := AllCandidates(model);
        var cands := if |all| > 0 then Rotate(all, old(rotateIdx)) else [];
        var c := Generation(service, |old(requests)|, cands, prompt, temp, cap);
        && r == c.result
        && |requests| == c.next
        && pauses == old(pauses) + c.pauses
        && rotateIdx == NextRotation(old(rotateIdx), |all|)
        && mock.counter == old(mock.counter)
    {
      if useMock {
        var text := mock.Generate(prompt);
        r := Ok(text);
      } else {
        var all := BuildCandidates(Preferred(model, envModel), FallbackItems(envFallback));
        var cands: seq<string> := [];
        if |all| > 0 {
          var start := rotateIdx % |all|;
          cands := all[start..] + all[..start];
          rotateIdx := (rotateIdx + 1) % |all|;
        }
        r := RunPasses(cands, prompt, temp, cap);
      }
      exchanges := exchanges + [Exchange(prompt, temp, cap, r)];
    }
  }
}
