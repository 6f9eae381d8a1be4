/** The handler that collects one request's body over several calls and passes it on once. */
module HttpRequest {
  import opened Basics
  import opened HttpAccum

  /** The `routes` list of a connector; an entry without path is `None`. */
  type Routes = seq<Option<string>>

  predicate Allowed(cfg: Option<Routes>, path: string) {
    cfg.Some? && (cfg.value == [] || Some(path) in cfg.value)
  }

  method AllowRoute(cfg: Option<Routes>, path: string) returns (ok: bool)
    ensures ok == Allowed(cfg, path)
    ensures ok <==> cfg.Some? && (|cfg.value| == 0 || exists i :: 0 <= i < |cfg.value| && cfg.value[i] == Some(path))
  {
    if cfg == None {
      return false;
    }
    var routes := cfg.value;
    if |routes| == 0 {
      return true;
    }
    var i := 0;
    while i < |routes|
      invariant 0 <= i <= |routes|
      invariant Some(path) !in routes[..i]
    {
      if routes[i].Some? && routes[i].value == path {
        return true;
      }
      i := i + 1;
    }
    assert routes[..|routes|] == routes;
    return false;
  }

  // ---- one call ------------------------------------------------------------------------------------

  /** What a call of the handler brings: a piece of the body (empty at its end), whether `calloc` and
      `realloc` would succeed, and what the receive callback would answer. */
  datatype Call = Call(upload: seq<byte>, calloc: bool, memory: bool, verdict: int)

  /** Go on, with this much of the piece not consumed; or answer the client. */
  datatype Answer = Continue(unread: nat) | Respond(code: int)

  /** The connector's configuration, and whether a receive callback is registered. */
  datatype Server = Server(cfg: Option<Routes>, listening: bool)

  /** One request: its accumulator, the bodies handed to the callback, accumulators made and freed. */
  datatype Request = Request(con: Option<Acc>, rx: seq<seq<byte>>, allocs: nat, frees: nat)

  const FRESH := Request(None, [], 0, 0)

  function Access(srv: Server, url: string, verb: string, q: Request, c: Call): (r: (Answer, Request))
    ensures r.0.Continue? ==> r.0.unread <= |c.upload|
  {
    if q.con == None then
      (Continue(|c.upload|), if c.calloc then q.(con := Some(EMPTY), allocs := q.allocs + 1) else q)
    else if verb != "POST" then (Respond(405), q)
    else if c.upload != [] then
      var a := Append(q.con.value, c.upload, c.memory);
      if a.0 then (Continue(0), q.(con := Some(a.1))) else (Respond(500), q)
    else
      var done := q.(con := None, frees := q.frees + 1);
      if !Allowed(srv.cfg, url) then (Respond(404), done)
      else if !srv.listening then (Respond(500), done)
      else (Respond(if c.verdict == 0 then 200 else 500), done.(rx := q.rx + [q.con.value.body]))
  }

  /** Whatever is called, in whatever order: the accumulators made are those freed plus the one in use. */
  ghost predicate Balanced(q: Request) {
    q.allocs == q.frees + (if q.con.Some? then 1 else 0) && (q.con.Some? ==> AccOk(q.con.value))
  }

  function Calls(srv: Server, url: string, verb: string, q: Request, calls: seq<Call>): Request
    decreases |calls|
  {
    if calls == [] then q else Calls(srv, url, verb, Access(srv, url, verb, q, calls[0]).1, calls[1..])
  }

  lemma {:induction false} NeverFreedTwice(srv: Server, url: string, verb: string, q: Request, calls: seq<Call>)
    requires Balanced(q)
    ensures Balanced(Calls(srv, url, verb, q, calls))
    decreases |calls|
  {
    if calls != [] {
      if q.con.Some? {
        AppendKeeps(q.con.value, calls[0].upload, calls[0].memory);
      }
      NeverFreedTwice(srv, url, verb, Access(srv, url, verb, q, calls[0]).1, calls[1..]);
    }
  }

  // ---- one request -----------------------------------------------------------------------------------

  /** The calls with what was left unread in front of the first. */
  function Again(left: seq<byte>, calls: seq<Call>): seq<Call> {
    if left == [] || calls == [] then calls else [calls[0].(upload := left + calls[0].upload)] + calls[1..]
  }

  /** The request's calls until one of them answers the client: its code (0 if none did). What a call leaves
      unread the library presents again, in front of what the next one brings. */
  function Serve(srv: Server, url: string, verb: string, q: Request, calls: seq<Call>): (int, Request)
    decreases |calls|
  {
    if calls == [] then (0, q)
    else
      var c := calls[0];
      var r := Access(srv, url, verb, q, c);
      match r.0
      case Respond(code) => (code, r.1)
      case Continue(unread) => Serve(srv, url, verb, r.1, Again(c.upload[|c.upload| - unread..], calls[1..]))
  }

  /** How the HTTP library calls the handler after the first call: non-empty pieces, then one empty call. */
  predicate Pieces(calls: seq<Call>)
    decreases |calls|
  {
    calls != [] && (if |calls| == 1 then calls[0].upload == [] else calls[0].upload != [] && Pieces(calls[1..]))
  }

  /** The body those calls bring. */
  function Joined(calls: seq<Call>): seq<byte>
    decreases |calls|
  {
    if calls == [] then [] else calls[0].upload + Joined(calls[1..])
  }

  /** Every piece that needs memory finds some. */
  predicate Stored(a: Acc, calls: seq<Call>)
    decreases |calls|
  {
    calls == [] || calls[0].upload == [] ||
    var r := Append(a, calls[0].upload, calls[0].memory); r.0 && Stored(r.1, calls[1..])
  }

  /** With memory for everything, every piece is stored. */
  lemma {:induction false} MemoryStores(a: Acc, calls: seq<Call>)
    requires forall c :: c in calls ==> c.memory
    ensures Stored(a, calls)
    decreases |calls|
  {
    if calls != [] && calls[0].upload != [] {
      AppendSucceeds(a, calls[0].upload, calls[0].memory);
      MemoryStores(Append(a, calls[0].upload, calls[0].memory).1, calls[1..]);
    }
  }

  function Code(srv: Server, url: string, verdict: int): int {
    if !Allowed(srv.cfg, url) then 404 else if srv.listening && verdict == 0 then 200 else 500
  }

  /** How a POST whose accumulator exists must end. */
  predicate Ends(srv: Server, url: string, q: Request, calls: seq<Call>, code: int, r: Request)
    requires q.con.Some? && calls != []
  {
    if Stored(q.con.value, calls) then
      && code == Code(srv, url, calls[|calls| - 1].verdict)
      && r == Request(None, q.rx + Delivered(srv, url, q.con.value.body + Joined(calls)), q.allocs, q.frees + 1)
    else code == 500 && r.con.Some? && r.rx == q.rx && r.allocs == q.allocs && r.frees == q.frees
  }

  function Delivered(srv: Server, url: string, body: seq<byte>): seq<seq<byte>> {
    if srv.listening && Allowed(srv.cfg, url) then [body] else []
  }

  lemma {:induction false} PiecesDelivered(srv: Server, url: string, q: Request, calls: seq<Call>)
    requires q.con.Some? && Pieces(calls)
    ensures var r := Serve(srv, url, "POST", q, calls); Ends(srv, url, q, calls, r.0, r.1)
    decreases |calls|
  {
    var a := q.con.value;
    if |calls| == 1 {
      assert a.body + Joined(calls) == a.body;
      assert q.rx + [] == q.rx;
    } else {
      var r := Append(a, calls[0].upload, calls[0].memory);
      if r.0 {
        assert calls[0].upload[|calls[0].upload|..] == [];
        PiecesDelivered(srv, url, q.(con := Some(r.1)), calls[1..]);
        ConcatAssoc(a.body, calls[0].upload, Joined(calls[1..]));
      }
    }
  }

  /** The first call only makes the accumulator: whatever it brings comes again. */
  lemma FirstCall(srv: Server, url: string, verb: string, first: Call, calls: seq<Call>)
    requires first.calloc
    ensures Serve(srv, url, verb, FRESH, [first] + calls) ==
            Serve(srv, url, verb, Request(Some(EMPTY), [], 1, 0), Again(first.upload, calls))
  {
    assert ([first] + calls)[1..] == calls;
    assert first.upload[|first.upload| - |first.upload|..] == first.upload;
  }

  lemma JoinedAgain(left: seq<byte>, calls: seq<Call>)
    requires calls != []
    ensures Joined(Again(left, calls)) == left + Joined(calls)
  {
    if left == [] {
      assert left + Joined(calls) == Joined(calls);
    } else {
      assert Again(left, calls)[1..] == calls[1..];
      ConcatAssoc(left, calls[0].upload, Joined(calls[1..]));
    }
  }

  /** A complete POST whose pieces could all be stored: the callback gets the concatenated body, with anything
      the first call brought, exactly once if one is registered and the route is allowed, and never otherwise;
      the accumulator is freed exactly once. When a piece could not be stored the client gets a 500 and the
      callback nothing. */
  lemma PostDeliversOnce(srv: Server, url: string, first: Call, calls: seq<Call>)
    requires first.calloc && Pieces(Again(first.upload, calls))
    ensures calls != []
    ensures var r := Serve(srv, url, "POST", FRESH, [first] + calls); var all := Again(first.upload, calls);
      if Stored(EMPTY, all) then
        r == (Code(srv, url, all[|all| - 1].verdict),
              Request(None, Delivered(srv, url, first.upload + Joined(calls)), 1, 1))
      else r.0 == 500 && r.1.rx == []
  {
    var all := Again(first.upload, calls);
    FirstCall(srv, url, "POST", first, calls);
    PiecesDelivered(srv, url, Request(Some(EMPTY), [], 1, 0), all);
    JoinedAgain(first.upload, calls);
    assert [] + Joined(all) == Joined(all);
    assert [] + Delivered(srv, url, Joined(all)) == Delivered(srv, url, Joined(all));
  }

  /** The accumulator of an answered request is freed if and only if the request was a POST and no piece
      ran out of memory; otherwise it is leaked. A request that is no POST never reaches the callback. */
  lemma FreedExactlyWhen(srv: Server, url: string, verb: string, first: Call, calls: seq<Call>)
    requires first.calloc && Pieces(Again(first.upload, calls))
    ensures var r := Serve(srv, url, verb, FRESH, [first] + calls);
      && r.1.allocs == 1 && r.1.frees <= 1
      && (r.1.frees == 1 <==> verb == "POST" && Stored(EMPTY, Again(first.upload, calls)))
      && (verb != "POST" ==> r.0 == 405 && r.1.rx == [])
  {
    var all := Again(first.upload, calls);
    FirstCall(srv, url, verb, first, calls);
    var q := Request(Some(EMPTY), [], 1, 0);
    if verb == "POST" {
      PiecesDelivered(srv, url, q, all);
    } else {
      assert Access(srv, url, verb, q, all[0]) == (Respond(405), q);
    }
  }

  // ---- the handler -----------------------------------------------------------------------------------

  /** The server's receiving side, with the request at hand: `con` is what `*con_cls` points to. */
  class Handler {
    const cfg: Option<Routes>
    var listening: bool
    var con: PostAccum?
    ghost var rx: seq<seq<byte>>
    ghost var allocs: nat
    ghost var frees: nat

    ghost predicate Valid()
      reads this, con, if con == null then {} else {con.data}
    {
      con != null ==> con.Valid()
    }

    ghost function Value(): Request
      reads this, con, if con == null then {} else {con.data}
    {
      Request(if con == null then None else Some(con.Value()), rx, allocs, frees)
    }

    constructor (cfg: Option<Routes>)
      ensures Valid() && Value() == FRESH && this.cfg == cfg && !listening
    {
      this.cfg, listening, con, rx, allocs, frees := cfg, false, null, [], 0, 0;
    }

    method Free()
      requires con != null
      modifies this`con, this`frees
      ensures con == null && frees == old(frees) + 1
    {
      con := null;
      frees := frees + 1;
    }

    /** The end of the body: hand it over and free it. */
    method Finish(url: string, c: Call) returns (a: Answer)
      requires Valid() && con != null && c.upload == []
      modifies this`con, this`frees, this`rx
      ensures Valid() && con == null
      ensures (a, Value()) == Access(Server(cfg, listening), url, "POST", old(Value()), c)
    {
      var ok := AllowRoute(cfg, url);
      if !ok {
        Free();
        return Respond(404);
      }
      var rc := -1;
      if listening {
        rx := rx + [con.Value().body];
        rc := c.verdict;
      }
      Free();
      a := Respond(if rc == 0 then 200 else 500);
    }

    method OnAccess(url: string, verb: string, c: Call) returns (a: Answer)
      requires Valid()
      requires con != null ==> con.len + |c.upload| + 1 <= HALF
      modifies this`con, this`frees, this`rx, this`allocs, con, if con == null then {} else {con.data}
      ensures Valid()
      ensures (a, Value()) == Access(Server(cfg, listening), url, verb, old(Value()), c)
    {
      if con == null {
        if c.calloc {
          con := new PostAccum();
          allocs := allocs + 1;
        }
        return Continue(|c.upload|);
      }
      if verb == "POST" {
        if |c.upload| > 0 {
          var ok := con.AccumAppend(c.upload, c.memory);
          return if ok then Continue(0) else Respond(500);
        }
        a := Finish(url, c);
        return;
      }
      return Respond(405);
    }
  }
}
