/**
 The per-session worker of `telethon_worker` (app.py:85-153). Its loop takes
 one queued request at a time, dispatches on the request type, records exactly
 one reply for it and stops after a disconnect. Here one iteration of the loop
 is the pure function `Step`, the loop is the fold `Run` (with the imperative
 `ProcessRequests` as an independent definition of the same loop), and the
 whole thread, from connect to disconnect, is `Lifetime`.
 */
module Worker {
  import opened Telegram
  import opened Replies
  import opened Actions

  /** A queued request: the dictionary's 'type' and its payload. */
  datatype Request =
    | SendCodeReq
    | SignInReq(code: string)
    | SendMessageReq(toPhone: string, text: string)
    | SendMessageToSelfReq(text: string)
    | DisconnectReq
    | UnknownReq(kind: string)

  /** A request together with the service's answers while it is handled. */
  datatype Job = Job(request: Request, world: Oracle)

  /** The worker's variables: `is_authenticated` and whether the loop still runs. */
  datatype State = State(authenticated: bool, running: bool)

  /** A freshly started worker (app.py:91). */
  const Initial: State := State(false, true)

  /** The result of handling one request. */
  datatype Outcome = Outcome(state: State, reply: Reply, calls: seq<Call>)

  /** The loop's catch-all (app.py:138-140): an escaping exception becomes `str(e)`. */
  function Settle(c: Completion): Reply {
    match c
    case Returned(reply) => reply
    case Raised(exc) => Err(exc.message)
  }

  /** A successful sign-in in this job: the only event that sets the flag. */
  predicate SignsIn(job: Job) {
    job.request.SignInReq? && job.world.signIn.Succeeds?
  }

  /** The service answers a 'send_code_request' with success: the client is
      already authorized, or it is not and the code request goes through. */
  predicate CodeAccepted(o: Oracle) {
    o.authorized == Answers(true) || (o.authorized == Answers(false) && o.codeRequest.Succeeds?)
  }

  /** The 'send_code_request' branch (app.py:106-110). */
  function HandleSendCode(s: State, phone: string, o: Oracle): (r: Outcome)
    ensures r.state == s
    ensures |r.calls| > 0 && r.calls[0] == IsUserAuthorized
    // an already-authorized client is answered without a code request
    ensures o.authorized == Answers(true) ==> r.reply == Ok && r.calls == [IsUserAuthorized]
    ensures SendCode(phone) in r.calls <==> o.authorized == Answers(false)
    ensures r.reply.Ok? <==> CodeAccepted(o)
    ensures o.authorized.ProbeRaises? ==> r.reply == Err(o.authorized.exc.message)
    ensures o.authorized == Answers(false) && o.codeRequest.Raises? ==> r.reply == Err(o.codeRequest.exc.message)
  {
    match o.authorized
    case ProbeRaises(exc) => Outcome(s, Err(exc.message), [IsUserAuthorized])
    case Answers(authorized) =>
      if authorized then
        Outcome(s, Ok, [IsUserAuthorized])
      else
        var e := RequestCode(phone, o);
        Outcome(s, Settle(e.completion), [IsUserAuthorized] + e.calls)
  }

  /** The 'sign_in' branch (app.py:112-117): accepted in every state. */
  function HandleSignIn(s: State, phone: string, code: string, o: Oracle): (r: Outcome)
    ensures r.state.running == s.running
    // set exactly when the sign-in call succeeds; otherwise the prior value stays
    ensures r.state.authenticated == (s.authenticated || o.signIn.Succeeds?)
    // the sign-in reply is passed through unchanged
    ensures r.reply == SignInWithCode(phone, code, o).completion.reply
    ensures r.reply.Ok? <==> o.signIn.Succeeds?
    ensures r.calls == [SignIn(phone, code)]
  {
    var e := SignInWithCode(phone, code, o);
    var reply := Settle(e.completion);
    Outcome(State(s.authenticated || reply.Ok?, s.running), reply, e.calls)
  }

  /** The 'send_message' branch (app.py:119-123). */
  function HandleSendMessage(s: State, to: string, text: string, o: Oracle): (r: Outcome)
    ensures r.state == s
    ensures !s.authenticated ==> r.reply == Err(NotAuthenticated) && r.calls == []
    ensures s.authenticated ==> |r.calls| > 0 && r.calls[0] == GetEntity(to)
    ensures r.reply == Ok <==> s.authenticated && Delivered(o)
    // an error the helper returns ('Contact not imported', the retry's message) is the reply
    ensures s.authenticated && SendMessage(to, text, o).completion.Returned? ==>
              r.reply == SendMessage(to, text, o).completion.reply
    ensures s.authenticated && FirstFailsNotFound(o) && o.importContacts == Imported(0) ==>
              r.reply == Err(ContactNotImported)
    // an exception escaping the helper is caught by the loop and reported as str(e)
    ensures s.authenticated && SendMessage(to, text, o).completion.Raised? ==>
              r.reply == Err(SendMessage(to, text, o).completion.exc.message)
  {
    if !s.authenticated then
      Outcome(s, Err(NotAuthenticated), [])
    else
      var e := SendMessage(to, text, o);
      Outcome(s, Settle(e.completion), e.calls)
  }

  /** The 'send_message_to_self' branch (app.py:125-129). */
  function HandleSendMessageToSelf(s: State, text: string, o: Oracle): (r: Outcome)
    ensures r.state == s
    ensures !s.authenticated ==> r.reply == Err(NotAuthenticated) && r.calls == []
    ensures s.authenticated ==> |r.calls| > 0 && r.calls[0] == GetMe
    ensures r.reply.Ok? <==> s.authenticated && o.getMe.Succeeds? && o.sendToSelf.Succeeds?
    ensures s.authenticated ==> r.reply == SendMessageToSelf(text, o).completion.reply
    ensures s.authenticated && o.getMe.Raises? ==> r.reply == Err(o.getMe.exc.message)
    ensures s.authenticated && o.getMe.Succeeds? && o.sendToSelf.Raises? ==> r.reply == Err(o.sendToSelf.exc.message)
  {
    if !s.authenticated then
      Outcome(s, Err(NotAuthenticated), [])
    else
      var e := SendMessageToSelf(text, o);
      Outcome(s, Settle(e.completion), e.calls)
  }

  /** The 'disconnect' branch (app.py:131-133): the log-out reply is recorded
      whether or not it succeeded, and the loop ends either way. */
  function HandleDisconnect(s: State, o: Oracle): (r: Outcome)
    ensures !r.state.running
    ensures r.state.authenticated == s.authenticated
    ensures r.calls == [LogOut]
    ensures r.reply.Ok? <==> o.logOut.Succeeds?
    ensures o.logOut.Raises? ==> r.reply == Err(o.logOut.exc.message)
  {
    var e := LogOutSession(o);
    Outcome(State(s.authenticated, false), Settle(e.completion), e.calls)
  }

  /** One iteration of the loop (app.py:103-142). */
  function Step(s: State, phone: string, job: Job): (r: Outcome)
    // only a disconnect ends the loop
    ensures r.state.running == (s.running && !job.request.DisconnectReq?)
    // only a successful sign-in changes the flag, and it only ever raises it
    ensures r.state.authenticated == (s.authenticated || SignsIn(job))
    ensures job.request.UnknownReq? ==> r == Outcome(s, Err(InvalidRequestType), [])
  {
    match job.request
    case SendCodeReq => HandleSendCode(s, phone, job.world)
    case SignInReq(code) => HandleSignIn(s, phone, code, job.world)
    case SendMessageReq(to, text) => HandleSendMessage(s, to, text, job.world)
    case SendMessageToSelfReq(text) => HandleSendMessageToSelf(s, text, job.world)
    case DisconnectReq => HandleDisconnect(s, job.world)
    case UnknownReq(_) => Outcome(s, Err(InvalidRequestType), [])
  }

  /** What the loop has done after some requests: the worker's state, one
      reply per request taken, and the client calls made, in order. */
  datatype Trace = Trace(state: State, replies: seq<Reply>, calls: seq<Call>)

  /** Nothing was done. */
  function Idle(s: State): Trace {
    Trace(s, [], [])
  }

  /** The loop running `first`'s work and then `second`'s. */
  function Join(first: Trace, second: Trace): Trace {
    Trace(second.state, first.replies + second.replies, first.calls + second.calls)
  }

  /** The trace of handling one request. */
  function Single(o: Outcome): Trace {
    Trace(o.state, [o.reply], o.calls)
  }

  lemma JoinAssociates(x: Trace, y: Trace, z: Trace)
    ensures Join(x, Join(y, z)) == Join(Join(x, y), z)
  {
  }

  predicate NoDisconnect(jobs: seq<Job>) {
    forall i :: 0 <= i < |jobs| ==> !jobs[i].request.DisconnectReq?
  }

  /** The loop over the queue contents `jobs` (app.py:102-142): requests are
      taken front first; a stopped worker takes none. */
  function Run(s: State, phone: string, jobs: seq<Job>): (t: Trace)
    ensures |t.replies| <= |jobs|
    ensures !s.running ==> t == Idle(s)
    // still running: every request was answered and none was a disconnect
    ensures t.state.running ==> |t.replies| == |jobs| && NoDisconnect(jobs)
    ensures s.running && NoDisconnect(jobs) ==> t.state.running
    // stopped: the last request taken was the first disconnect
    ensures s.running && !t.state.running ==>
              && 0 < |t.replies|
              && jobs[|t.replies| - 1].request.DisconnectReq?
              && NoDisconnect(jobs[..|t.replies| - 1])
    decreases |jobs|
  {
    if |jobs| == 0 || !s.running then
      Idle(s)
    else
      var o := Step(s, phone, jobs[0]);
      var rest := Run(o.state, phone, jobs[1..]);
      assert jobs[1..][..|rest.replies|] == jobs[1..|rest.replies| + 1];
      Join(Single(o), rest)
  }

  /** One turn of the loop: the front request is handled, then the rest. */
  lemma RunUnfold(s: State, phone: string, jobs: seq<Job>)
    requires s.running && |jobs| > 0
    ensures Run(s, phone, jobs) == Join(Single(Step(s, phone, jobs[0])), Run(Step(s, phone, jobs[0]).state, phone, jobs[1..]))
  {
  }

  /** Taking the queue in two parts is taking it whole. */
  lemma {:induction false} RunAppend(s: State, phone: string, a: seq<Job>, b: seq<Job>)
    ensures Run(s, phone, a + b) == Join(Run(s, phone, a), Run(Run(s, phone, a).state, phone, b))
    decreases |a|
  {
    if |a| == 0 {
      assert a + b == b;
      assert Run(s, phone, a) == Idle(s);
      var tb := Run(s, phone, b);
      assert [] + tb.replies == tb.replies && [] + tb.calls == tb.calls;
    } else if s.running {
      var o := Step(s, phone, a[0]);
      assert (a + b)[1..] == a[1..] + b;
      RunAppend(o.state, phone, a[1..], b);
      RunUnfold(s, phone, a);
      RunUnfold(s, phone, a + b);
      var ta := Run(o.state, phone, a[1..]);
      JoinAssociates(Single(o), ta, Run(ta.state, phone, b));
    } else {
      assert Idle(s) == Join(Idle(s), Idle(s));
    }
  }

  /** Requests queued behind a disconnect are never taken. */
  lemma StopsAfterDisconnect(s: State, phone: string, a: seq<Job>, b: seq<Job>)
    requires !Run(s, phone, a).state.running
    ensures Run(s, phone, a + b) == Run(s, phone, a)
  {
    RunAppend(s, phone, a, b);
    var t := Run(s, phone, a);
    assert t.replies + [] == t.replies && t.calls + [] == t.calls;
  }

  /** Before the i-th request taken, the worker was still running and had
      answered each of the first i requests. */
  lemma PrefixStillRunning(s: State, phone: string, jobs: seq<Job>, i: nat)
    requires i < |Run(s, phone, jobs).replies|
    ensures Run(s, phone, jobs[..i]).state.running
    ensures |Run(s, phone, jobs[..i]).replies| == i
  {
  }

  /** FIFO, one at a time: the i-th reply is what `Step` answers to the i-th
      request in the state the first i requests left behind. */
  lemma RepliesInOrder(s: State, phone: string, jobs: seq<Job>, i: nat)
    requires i < |Run(s, phone, jobs).replies|
    ensures Run(s, phone, jobs[..i]).state.running
    ensures Run(s, phone, jobs).replies[i] == Step(Run(s, phone, jobs[..i]).state, phone, jobs[i]).reply
  {
    PrefixStillRunning(s, phone, jobs, i);
    var before := Run(s, phone, jobs[..i]);
    assert jobs == jobs[..i] + jobs[i..];
    RunAppend(s, phone, jobs[..i], jobs[i..]);
    RunUnfold(before.state, phone, jobs[i..]);
    assert jobs[i..][0] == jobs[i];
  }

  /** Processing stops right after the first disconnect, which is still
      answered with its log-out reply, successful or not. */
  lemma StopsAtFirstDisconnect(s: State, phone: string, jobs: seq<Job>, k: nat)
    requires s.running
    requires k < |jobs| && jobs[k].request.DisconnectReq? && NoDisconnect(jobs[..k])
    ensures |Run(s, phone, jobs).replies| == k + 1
    ensures !Run(s, phone, jobs).state.running
    ensures Run(s, phone, jobs).replies[k] == LogOutSession(jobs[k].world).completion.reply
  {
    var t := Run(s, phone, jobs);
    assert !NoDisconnect(jobs);
    var n := |t.replies|;
    assert forall j :: 0 <= j < k ==> !jobs[j].request.DisconnectReq? by {
      assert forall j :: 0 <= j < k ==> jobs[j] == jobs[..k][j];
    }
    assert forall j :: 0 <= j < n - 1 ==> !jobs[j].request.DisconnectReq? by {
      assert forall j :: 0 <= j < n - 1 ==> jobs[j] == jobs[..n - 1][j];
    }
    assert n == k + 1;
    RepliesInOrder(s, phone, jobs, k);
  }

  /** The flag after the loop records whether some sign-in among the requests
      taken succeeded (or it was already set). */
  lemma {:induction false} AuthenticatedHistory(s: State, phone: string, jobs: seq<Job>)
    ensures Run(s, phone, jobs).state.authenticated <==>
              s.authenticated || exists i :: 0 <= i < |Run(s, phone, jobs).replies| && SignsIn(jobs[i])
    decreases |jobs|
  {
    var t := Run(s, phone, jobs);
    if |jobs| > 0 && s.running {
      var o := Step(s, phone, jobs[0]);
      var rest := Run(o.state, phone, jobs[1..]);
      AuthenticatedHistory(o.state, phone, jobs[1..]);
      if exists i :: 0 <= i < |rest.replies| && SignsIn(jobs[1..][i]) {
        var i :| 0 <= i < |rest.replies| && SignsIn(jobs[1..][i]);
        assert SignsIn(jobs[i + 1]);
      }
      if exists i :: 0 <= i < |t.replies| && SignsIn(jobs[i]) {
        var i :| 0 <= i < |t.replies| && SignsIn(jobs[i]);
        if i > 0 {
          assert SignsIn(jobs[1..][i - 1]);
        }
      }
    }
  }

  /** A call that reaches the recipient side of the service. */
  predicate Outbound(c: Call) {
    c.GetEntity? || c.ImportContact? || c.SendText? || c.GetMe?
  }

  /** Until a sign-in succeeds, no request makes the worker look up, import
      or message anybody. */
  lemma {:induction false} NoOutboundBeforeSignIn(s: State, phone: string, jobs: seq<Job>)
    requires !s.authenticated
    requires forall i :: 0 <= i < |jobs| ==> !SignsIn(jobs[i])
    ensures forall c :: c in Run(s, phone, jobs).calls ==> !Outbound(c)
    decreases |jobs|
  {
    if |jobs| > 0 && s.running {
      var o := Step(s, phone, jobs[0]);
      assert !SignsIn(jobs[0]);
      assert forall c :: c in o.calls ==> !Outbound(c);
      forall i | 0 <= i < |jobs[1..]|
        ensures !SignsIn(jobs[1..][i])
      {
        assert jobs[1..][i] == jobs[i + 1];
      }
      NoOutboundBeforeSignIn(o.state, phone, jobs[1..]);
    }
  }

  /** Taking one more request while running adds exactly one step. */
  lemma RunSnoc(s: State, phone: string, jobs: seq<Job>, i: nat)
    requires i < |jobs| && Run(s, phone, jobs[..i]).state.running
    ensures var before := Run(s, phone, jobs[..i]);
            Run(s, phone, jobs[..i + 1]) == Join(before, Single(Step(before.state, phone, jobs[i])))
  {
    var before := Run(s, phone, jobs[..i]);
    var o := Step(before.state, phone, jobs[i]);
    RunAppend(s, phone, jobs[..i], [jobs[i]]);
    assert jobs[..i] + [jobs[i]] == jobs[..i + 1];
    RunUnfold(before.state, phone, [jobs[i]]);
    assert Run(o.state, phone, [jobs[i]][1..]) == Idle(o.state);
    assert [o.reply] + [] == [o.reply] && o.calls + [] == o.calls;
  }

  /** The loop as the source writes it: a `while` that takes the front request,
      handles it, records its reply, and leaves on a disconnect. */
  method ProcessRequests(s: State, phone: string, jobs: seq<Job>) returns (t: Trace)
    ensures t == Run(s, phone, jobs)
  {
    var state := s;
    var replies: seq<Reply> := [];
    var calls: seq<Call> := [];
    var i := 0;
    while i < |jobs| && state.running
      invariant 0 <= i <= |jobs|
      invariant Run(s, phone, jobs[..i]) == Trace(state, replies, calls)
    {
      var o := Step(state, phone, jobs[i]);
      RunSnoc(s, phone, jobs, i);
      state, replies, calls := o.state, replies + [o.reply], calls + o.calls;
      i := i + 1;
    }
    RunAppend(s, phone, jobs[..i], jobs[i..]);
    assert jobs[..i] + jobs[i..] == jobs;
    assert replies + [] == replies && calls + [] == calls;
    t := Trace(state, replies, calls);
  }

  /** The whole worker thread (app.py:85-153): connect, run the loop, and on
      leaving it disconnect the client. */
  datatype Life = Life(exited: bool, trace: Trace, calls: seq<Call>)

  function Lifetime(phone: string, connect: Attempt, jobs: seq<Job>): (l: Life)
    ensures |l.calls| > 0 && l.calls[0] == Connect
    // a failed connect leaves the thread without answering any request
    ensures connect.Raises? ==> l.exited && l.trace.replies == [] && l.calls == [Connect, Disconnect]
    // otherwise it leaves exactly when a disconnect request was taken
    ensures connect.Succeeds? ==> (l.exited <==> !NoDisconnect(jobs))
    ensures connect.Succeeds? ==> l.trace == Run(Initial, phone, jobs)
    ensures l.exited ==> l.calls[|l.calls| - 1] == Disconnect
  {
    if connect.Raises? then
      Life(true, Idle(Initial), [Connect, Disconnect])
    else
      var t := Run(Initial, phone, jobs);
      var exited := !t.state.running;
      Life(exited, t, [Connect] + t.calls + (if exited then [Disconnect] else []))
  }
}
