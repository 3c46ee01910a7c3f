/**
 The process-wide `clients_data` registry (app.py:16): client id to the phone
 number its session acts as. Each entry also carries the `is_authenticated`
 flag of the session's worker, so that handing a request to the worker and
 waiting for it (`put` followed by `join`) is one `Worker.Step`. An entry's
 worker is always running: the entry is removed when its loop ends.
 */
module Sessions {
  import opened Telegram
  import opened Replies
  import Worker

  type ClientId = string

  datatype Session = Session(phone: string, authenticated: bool)

  type Registry = map<ClientId, Session>

  /** One element of the `get_clients` listing. */
  datatype ClientInfo = ClientInfo(clientId: ClientId, phoneNumber: string)

  /** The entry for `k` is the same before and after (present in both with the
      same value, or absent from both). */
  predicate Untouched(before: Registry, after: Registry, k: ClientId) {
    (k in before <==> k in after) && (k in before ==> before[k] == after[k])
  }

  /** The worker state behind a registered session. */
  function WorkerOf(s: Session): Worker.State {
    Worker.State(s.authenticated, true)
  }

  /** `get_clients` as a set (app.py:230-231): one element per entry, carrying
      that entry's phone number. */
  function Listing(reg: Registry): (l: set<ClientInfo>)
    ensures forall c :: c in l ==> c.clientId in reg && reg[c.clientId].phone == c.phoneNumber
    ensures forall id :: id in reg ==> ClientInfo(id, reg[id].phone) in l
  {
    set id | id in reg :: ClientInfo(id, reg[id].phone)
  }

  /** Exactly one listed element per registered client. */
  lemma {:induction false} ListingOnePerEntry(reg: Registry)
    ensures |Listing(reg)| == |reg|
    decreases |reg|
  {
    if |reg| > 0 {
      assert reg.Keys != {};
      var id :| id in reg;
      var rest := reg - {id};
      ListingOnePerEntry(rest);
      forall c | c in Listing(reg)
        ensures c in Listing(rest) + {ClientInfo(id, reg[id].phone)}
      {
        if c.clientId != id {
          assert c.clientId in rest;
        }
      }
      assert Listing(reg) == Listing(rest) + {ClientInfo(id, reg[id].phone)};
      assert ClientInfo(id, reg[id].phone) !in Listing(rest);
      assert rest.Keys == reg.Keys - {id};
    }
  }

  /** `get_clients` as the list the route returns (app.py:228-232): each
      registered client exactly once, with its phone number. */
  method GetClients(reg: Registry) returns (clients: seq<ClientInfo>)
    ensures |clients| == |reg|
    ensures forall c :: c in clients <==> c in Listing(reg)
    ensures forall i, j :: 0 <= i < j < |clients| ==> clients[i].clientId != clients[j].clientId
  {
    clients := [];
    var pending := reg.Keys;
    while pending != {}
      invariant pending <= reg.Keys
      invariant |clients| + |pending| == |reg.Keys|
      invariant forall c :: c in clients <==> c in Listing(reg) && c.clientId !in pending
      invariant forall i, j :: 0 <= i < j < |clients| ==> clients[i].clientId != clients[j].clientId
      decreases |pending|
    {
      var id :| id in pending;
      clients := clients + [ClientInfo(id, reg[id].phone)];
      pending := pending - {id};
    }
    assert |reg.Keys| == |reg|;
  }

  /** The result of handing one request to a registered session and waiting for it. */
  datatype Dispatched = Dispatched(registry: Registry, reply: Reply, calls: seq<Call>)

  /** `put` then `join` on a registered session's queue: its worker handles the
      request; if that ends the worker's loop, the worker removes the entry on
      its way out (app.py:153). */
  function Dispatch(reg: Registry, id: ClientId, req: Worker.Request, o: Oracle): (d: Dispatched)
    requires id in reg
    // a disconnect removes the session; nothing else adds or removes one
    ensures req.DisconnectReq? ==> d.registry == reg - {id}
    ensures !req.DisconnectReq? ==> id in d.registry && d.registry.Keys == reg.Keys && d.registry[id].phone == reg[id].phone
    ensures !req.DisconnectReq? ==>
              d.registry[id].authenticated == (reg[id].authenticated || (req.SignInReq? && o.signIn.Succeeds?))
    ensures forall k :: k != id ==> Untouched(reg, d.registry, k)
    // the caller gets the reply the worker recorded, from the session's own state
    ensures d.reply == Worker.Step(WorkerOf(reg[id]), reg[id].phone, Worker.Job(req, o)).reply
  {
    var out := Worker.Step(WorkerOf(reg[id]), reg[id].phone, Worker.Job(req, o));
    var registry :=
      if out.state.running then reg[id := Session(reg[id].phone, out.state.authenticated)]
      else reg - {id};
    Dispatched(registry, out.reply, out.calls)
  }

  /** The result of dispatching a sequence of requests to one session. */
  datatype Drained = Drained(registry: Registry, replies: seq<Reply>)

  /** Requests handed to one session one after another, each waited for before
      the next; once the session is gone, nothing more reaches a worker. */
  function DispatchAll(reg: Registry, id: ClientId, jobs: seq<Worker.Job>): (r: Drained)
    ensures |r.replies| <= |jobs|
    decreases |jobs|
  {
    if |jobs| == 0 || id !in reg then
      Drained(reg, [])
    else
      var d := Dispatch(reg, id, jobs[0].request, jobs[0].world);
      var rest := DispatchAll(d.registry, id, jobs[1..]);
      Drained(rest.registry, [d.reply] + rest.replies)
  }

  /** Dispatching requests one at a time through the registry answers them
      exactly as the session's worker loop does, and leaves the entry
      registered exactly while that loop still runs. */
  lemma {:induction false} DispatchAllIsRun(reg: Registry, id: ClientId, jobs: seq<Worker.Job>)
    requires id in reg
    ensures DispatchAll(reg, id, jobs).replies == Worker.Run(WorkerOf(reg[id]), reg[id].phone, jobs).replies
    ensures id in DispatchAll(reg, id, jobs).registry <==> Worker.Run(WorkerOf(reg[id]), reg[id].phone, jobs).state.running
    ensures id in DispatchAll(reg, id, jobs).registry ==>
              && DispatchAll(reg, id, jobs).registry[id].phone == reg[id].phone
              && DispatchAll(reg, id, jobs).registry[id].authenticated
                 == Worker.Run(WorkerOf(reg[id]), reg[id].phone, jobs).state.authenticated
    ensures forall k :: k != id ==> Untouched(reg, DispatchAll(reg, id, jobs).registry, k)
    decreases |jobs|
  {
    var r := DispatchAll(reg, id, jobs);
    var t := Worker.Run(WorkerOf(reg[id]), reg[id].phone, jobs);
    if |jobs| > 0 {
      var job := jobs[0];
      var d := Dispatch(reg, id, job.request, job.world);
      var out := Worker.Step(WorkerOf(reg[id]), reg[id].phone, job);
      if out.state.running {
        assert d.registry[id] == Session(reg[id].phone, out.state.authenticated);
        assert WorkerOf(d.registry[id]) == out.state;
        DispatchAllIsRun(d.registry, id, jobs[1..]);
        forall k | k != id
          ensures Untouched(reg, r.registry, k)
        {
          assert Untouched(reg, d.registry, k);
          assert Untouched(d.registry, r.registry, k);
        }
      } else {
        assert id !in d.registry;
        assert DispatchAll(d.registry, id, jobs[1..]) == Drained(d.registry, []);
        assert Worker.Run(out.state, reg[id].phone, jobs[1..]) == Worker.Idle(out.state);
      }
    }
  }

  /** The result of a worker thread's whole life. */
  datatype Ended = Ended(registry: Registry, replies: seq<Reply>, calls: seq<Call>)

  /** The worker thread of a just-admitted session (app.py:85-153), over the
      requests its queue receives: when the thread leaves (a failed connect,
      or a disconnect request) it deletes its own entry. */
  function WorkerThread(reg: Registry, id: ClientId, connect: Attempt, jobs: seq<Worker.Job>): (e: Ended)
    requires id in reg && !reg[id].authenticated
    ensures id !in e.registry <==> Worker.Lifetime(reg[id].phone, connect, jobs).exited
    ensures forall k :: k != id ==> Untouched(reg, e.registry, k)
    ensures connect.Raises? ==> e.replies == [] && id !in e.registry
    ensures connect.Succeeds? ==> e.replies == Worker.Run(Worker.Initial, reg[id].phone, jobs).replies
    ensures id in e.registry ==> e.registry[id].phone == reg[id].phone
  {
    var life := Worker.Lifetime(reg[id].phone, connect, jobs);
    var registry :=
      if life.exited then reg - {id}
      else reg[id := Session(reg[id].phone, life.trace.state.authenticated)];
    Ended(registry, life.trace.replies, life.calls)
  }
}
