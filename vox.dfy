/**
 * The Application container (application.go, lines 8-47): the ordered list of
 * middlewares, the configuration map, and ServeHTTP, the per-request entry
 * point that runs the composed chain and then finalises the response unless a
 * middleware set DontRespond.
 */
module Vox {
  import opened Wrappers
  import opened Http
  import opened Chain
  import opened Responder
  import opened Config

  /** The number of WriteHeader events in s. */
  function Headers(s: seq<Event>): nat
  {
    if s == [] then 0 else (if s[0].WriteHeader? then 1 else 0) + Headers(s[1..])
  }

  /**
   * One dispatch (lines 38-47) on values: run the chain from its first link,
   * then respond unless DontRespond is set.  `start` is the fresh request and
   * response: req.Next still at the no-op, nothing entered yet.
   */
  function Serve(hs: seq<Handler>, start: Ctx,
                 resolve: (int, Body) -> int, marshal: Value -> Option<seq<byte>>): (r: Finished)
    ensures var m := Call(hs, 0, start);
      && m.out <= r.out
      && (m.dontRespond ==> r == Finished(m.status, m.out, false))
      && (!m.dontRespond ==>
            && Headers(r.out[|m.out|..]) == 1
            && r.out[|m.out|] == WriteHeader(r.status)
            && r.status == resolve(m.status, m.body)
            && (r.panicked <==> Payload(m.body, marshal).None?)
            && (r.panicked ==> r.out == m.out + [WriteHeader(r.status)])
            && (!r.panicked ==> r.out == m.out + [WriteHeader(r.status), Write(Payload(m.body, marshal).value)]))
  {
    var m := Call(hs, 0, start);
    if m.dontRespond then Finished(m.status, m.out, false)
    else
      var r := Finalize(m.status, m.body, m.out, resolve, marshal);
      assert r.out == m.out + r.out[|m.out|..];
      var tail := r.out[|m.out|..];
      assert tail[1..] == if r.panicked then [] else [Write(Payload(m.body, marshal).value)];
      assert Headers(tail[1..]) == 0 by {
        if !r.panicked { assert tail[1..][1..] == []; }
      }
      r
  }

  /**
   * When the last word of the chain on DontRespond is true, the dispatcher
   * itself sends nothing: everything the writer received came from middlewares.
   */
  lemma SuppressedDispatchWritesNothing(hs: seq<Handler>, start: Ctx,
                                        resolve: (int, Body) -> int, marshal: Value -> Option<seq<byte>>)
    requires Call(hs, 0, start).dontRespond
    ensures Serve(hs, start, resolve, marshal).out == Call(hs, 0, start).out
    ensures !Serve(hs, start, resolve, marshal).panicked
  {
  }

  class Application {
    var middlewares: seq<Handler>
    var configs: map<string, string>

    /** New (lines 14-21): no middlewares, no configuration. */
    constructor ()
      ensures middlewares == [] && configs == map[]
    {
      middlewares := [];
      configs := map[];
    }

    /** Use (lines 23-26): append one middleware; it will run after every earlier one. */
    method Use(handler: Handler)
      modifies this
      ensures middlewares == old(middlewares) + [handler]
      ensures configs == old(configs)
    {
      middlewares := middlewares + [handler];
    }

    /** SetConfig (lines 28-31): bind key to value; no other key changes. */
    method SetConfig(key: string, value: string)
      modifies this
      ensures configs == old(configs)[key := value]
      ensures middlewares == old(middlewares)
      ensures GetConfig(key) == value
    {
      configs := configs[key := value];
    }

    /** GetConfig (lines 33-36): the bound value, or "" for a key never set. */
    function GetConfig(key: string): (v: string)
      reads this
      ensures key in configs ==> v == configs[key]
      ensures key !in configs ==> v == ""
    {
      Lookup(configs, key)
    }

    /**
     * ServeHTTP (lines 38-47) for one request whose writer is rw.  The initial
     * status, body and DontRespond flag are createResponse's choice; the result
     * says whether respond panicked on a failed JSON encoding.
     */
    method ServeHTTP(rw: Writer, status0: int, body0: Body, dontRespond0: bool,
                     resolve: (int, Body) -> int, marshal: Value -> Option<seq<byte>>)
      returns (panicked: bool)
      modifies rw
      ensures var r := Serve(middlewares, Ctx(|middlewares|, status0, body0, dontRespond0, old(rw.events), []),
                             resolve, marshal);
        rw.events == r.out && panicked == r.panicked
    {
      var req := new Request();
      var res := new Response(rw, status0, body0, dontRespond0);
      res.request := req;
      ChainLink(|middlewares|, |middlewares|);
      Handle(middlewares, req, res);
      if !res.dontRespond {
        panicked := Respond(res, resolve, marshal);
      } else {
        panicked := false;
      }
    }
  }
}
