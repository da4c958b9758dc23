/**
 * The live side of an MCP-Link session (`MCPClient._connect_sse` and
 * `MCPClient._send_request`): a reader that sorts each line of the
 * server-sent event stream into the reverse-call queue or into the slot of a
 * pending request, and the request correlator that opens a slot for a fresh
 * request id, posts a JSON-RPC 2.0 request and waits on that slot.
 *
 * The reader thread and the caller run concurrently in the add-on; here the
 * lines that arrive while a request waits are handed to the reader in order,
 * and a wait that times out is a wait during which no matching line arrives.
 */
module Stream {
  import opened Wrappers
  import opened Text
  import opened Json

  /** What the reader does with one line of the stream. */
  datatype Event =
    | Ignore                       // comment, non-data line, unparseable or unkeyed payload
    | Reverse(msg: Json)           // a reverse call for the tool
    | Response(id: Json, msg: Json) // a reply carrying `id`, for the slot of that id if pending
    | Fatal                        // a TypeError inside the loop: the reader thread ends

  /** The payload of a `data:` line, once stripped; `None` for any other line. */
  function DataPayload(line: string): (r: Option<string>)
    ensures r.Some? <==> StartsWith(Strip(line), "data:")
  {
    var s := Strip(line);
    if StartsWith(s, "data:") then Some(Strip(s[5..])) else None
  }

  /**
   * The body of the reader loop for one line: `:` comments are skipped, a
   * `data:` payload that does not parse is ignored, `'reverse' in` is checked
   * before `'id' in`, and the `in` tests, `json_data['id']` and the dictionary
   * membership test raise TypeError on values they do not apply to.
   */
  function Classify(line: string, parse: string -> Option<Json>): (e: Event)
    ensures e.Reverse? ==> DataPayload(line).Some? && parse(DataPayload(line).value) == Some(e.msg)
    ensures e.Reverse? ==> In("reverse", e.msg) == Some(true)
    ensures e.Response? ==> DataPayload(line).Some? && parse(DataPayload(line).value) == Some(e.msg)
    ensures e.Response? ==> e.msg.JObj? && !HasKey(e.msg.fields, "reverse")
    ensures e.Response? ==> Lookup(e.msg.fields, "id") == Some(e.id) && Hashable(e.id)
  {
    var s := Strip(line);
    if StartsWith(s, ":") then Ignore
    else match DataPayload(line)
      case None => Ignore
      case Some(payload) =>
        match parse(payload)
        case None => Ignore
        case Some(j) =>
          match In("reverse", j)
          case None => Fatal
          case Some(true) => Reverse(j)
          case Some(false) =>
            match In("id", j)
            case None => Fatal
            case Some(false) => Ignore
            case Some(true) =>
              if !j.JObj? then Fatal
              else
                var id := Lookup(j.fields, "id").value;
                if Hashable(id) then Response(id, j) else Fatal
  }

  /** A `data:` line is not a comment. */
  lemma DataNotComment(line: string)
    requires DataPayload(line).Some?
    ensures !StartsWith(Strip(line), ":")
  {
    DataPrefixNotColon(Strip(line));
  }

  /** Text that starts with `data:` does not start with `:`. */
  lemma DataPrefixNotColon(s: string)
    requires StartsWith(s, "data:")
    ensures !StartsWith(s, ":")
  {
    assert s[..5] == "data:";
    assert s[0] == 'd';
  }

  /** A comment line never changes anything. */
  lemma CommentIgnored(line: string, parse: string -> Option<Json>)
    requires StartsWith(Strip(line), ":")
    ensures Classify(line, parse) == Ignore
  {
  }

  /** A `data:` payload that does not parse as JSON is ignored and the reader goes on. */
  lemma UnparseableIgnored(line: string, parse: string -> Option<Json>)
    requires DataPayload(line).Some? && parse(DataPayload(line).value).None?
    ensures Classify(line, parse) == Ignore
  {
  }

  /** An object with a `reverse` member is a reverse call, whether or not it also has an `id`. */
  lemma ReverseBeforeId(line: string, parse: string -> Option<Json>, fields: seq<(string, Json)>)
    requires DataPayload(line).Some? && parse(DataPayload(line).value) == Some(JObj(fields))
    requires HasKey(fields, "reverse")
    ensures Classify(line, parse) == Reverse(JObj(fields))
  {
    DataNotComment(line);
    assert In("reverse", JObj(fields)) == Some(true);
  }

  /** An object without `reverse` whose `id` is a string is a reply for that id. */
  lemma ReplyRouted(line: string, parse: string -> Option<Json>, fields: seq<(string, Json)>, k: string)
    requires DataPayload(line).Some? && parse(DataPayload(line).value) == Some(JObj(fields))
    requires !HasKey(fields, "reverse") && Lookup(fields, "id") == Some(JStr(k))
    ensures Classify(line, parse) == Response(JStr(k), JObj(fields))
  {
    DataNotComment(line);
    assert In("reverse", JObj(fields)) == Some(false);
    assert In("id", JObj(fields)) == Some(true);
  }

  /** A payload that is a number, a boolean or null makes `'reverse' in` raise: the reader ends. */
  lemma ScalarEndsReader(line: string, parse: string -> Option<Json>)
    requires DataPayload(line).Some? && parse(DataPayload(line).value).Some?
    requires var j := parse(DataPayload(line).value).value; j.JNull? || j.JBool? || j.JNum?
    ensures Classify(line, parse) == Fatal
  {
    DataNotComment(line);
  }

  /** The reader's state: the reverse-call queue, the pending slots and whether the thread still runs. */
  datatype Mailboxes = Mailboxes(reverse: seq<Json>, pending: map<string, seq<Json>>, alive: bool)

  /** The effect of one event on a running reader. */
  function Deliver(m: Mailboxes, e: Event): (r: Mailboxes)
    ensures r.pending.Keys == m.pending.Keys
    ensures r.reverse == if e.Reverse? then m.reverse + [e.msg] else m.reverse
    ensures r.alive <==> m.alive && !e.Fatal?
  {
    match e
    case Ignore => m
    case Reverse(msg) => m.(reverse := m.reverse + [msg])
    case Response(id, msg) =>
      if id.JStr? && id.s in m.pending then m.(pending := m.pending[id.s := m.pending[id.s] + [msg]])
      else m
    case Fatal => m.(alive := false)
  }

  /** The event of each line of `lines`, in order. */
  function Events(lines: seq<string>, parse: string -> Option<Json>): (es: seq<Event>)
    ensures |es| == |lines|
    decreases |lines|
  {
    if lines == [] then [] else [Classify(lines[0], parse)] + Events(lines[1..], parse)
  }

  /** The events of two runs of lines are the events of each run. */
  lemma {:induction false} EventsAppend(a: seq<string>, b: seq<string>, parse: string -> Option<Json>)
    ensures Events(a + b, parse) == Events(a, parse) + Events(b, parse)
    decreases |a|
  {
    if a == [] {
      assert a + b == b;
    } else {
      assert (a + b)[0] == a[0] && (a + b)[1..] == a[1..] + b;
      EventsAppend(a[1..], b, parse);
      calc {
        Events(a + b, parse);
        [Classify(a[0], parse)] + Events(a[1..] + b, parse);
        [Classify(a[0], parse)] + (Events(a[1..], parse) + Events(b, parse));
        ([Classify(a[0], parse)] + Events(a[1..], parse)) + Events(b, parse);
      }
    }
  }

  /** The reader loop over a run of events, until they run out or one ends the thread. */
  function Demux(m: Mailboxes, es: seq<Event>): Mailboxes
    decreases |es|
  {
    if es == [] || !m.alive then m
    else Demux(Deliver(m, es[0]), es[1..])
  }

  /** Reading `a` and then `b` is reading `a + b`. */
  lemma {:induction false} DemuxAppend(m: Mailboxes, a: seq<Event>, b: seq<Event>)
    ensures Demux(m, a + b) == Demux(Demux(m, a), b)
    decreases |a|
  {
    if a == [] {
      assert a + b == b;
    } else if m.alive {
      assert (a + b)[1..] == a[1..] + b;
      DemuxAppend(Deliver(m, a[0]), a[1..], b);
    }
  }

  /** One more line read by a running reader is one more event delivered. */
  lemma DemuxNextLine(m: Mailboxes, lines: seq<string>, i: nat, parse: string -> Option<Json>)
    requires i < |lines| && Demux(m, Events(lines[..i], parse)).alive
    ensures Demux(m, Events(lines[..i + 1], parse))
            == Deliver(Demux(m, Events(lines[..i], parse)), Classify(lines[i], parse))
  {
    EventsSnoc(lines, i, parse);
    DemuxSnoc(m, Events(lines[..i], parse), Classify(lines[i], parse));
  }

  lemma EventsSnoc(lines: seq<string>, i: nat, parse: string -> Option<Json>)
    requires i < |lines|
    ensures Events(lines[..i + 1], parse) == Events(lines[..i], parse) + [Classify(lines[i], parse)]
  {
    assert lines[..i + 1] == lines[..i] + [lines[i]];
    EventsAppend(lines[..i], [lines[i]], parse);
    assert [lines[i]][1..] == [];
  }

  lemma DemuxSnoc(m: Mailboxes, es: seq<Event>, e: Event)
    requires Demux(m, es).alive
    ensures Demux(m, es + [e]) == Deliver(Demux(m, es), e)
  {
    DemuxAppend(m, es, [e]);
    assert [e][1..] == [];
  }

  /** A reader that stopped early has already reached its final state. */
  lemma ReaderDrained(m: Mailboxes, lines: seq<string>, consumed: nat, parse: string -> Option<Json>)
    requires consumed <= |lines|
    requires consumed == |lines| || !Demux(m, Events(lines[..consumed], parse)).alive
    ensures Demux(m, Events(lines[..consumed], parse)) == Demux(m, Events(lines, parse))
  {
    var n := Demux(m, Events(lines[..consumed], parse));
    if consumed < |lines| {
      EventsAppend(lines[..consumed], lines[consumed..], parse);
      assert lines[..consumed] + lines[consumed..] == lines;
      DemuxAppend(m, Events(lines[..consumed], parse), Events(lines[consumed..], parse));
      DemuxGrows(n, Events(lines[consumed..], parse));
    } else {
      assert lines[..consumed] == lines;
    }
  }

  /**
   * Where the reader of `_send_request` leaves the mailboxes: a reader that
   * stopped early has stopped for good, so it ends where reading every line
   * would have left it, and a closed stream ends it.
   */
  lemma ReaderEnd(m: Mailboxes, lines: seq<string>, consumed: nat, closed: bool, parse: string -> Option<Json>)
    requires consumed <= |lines|
    requires consumed < |lines| ==> !Demux(m, Events(lines[..consumed], parse)).alive
    ensures var n := Demux(m, Events(lines[..consumed], parse));
            var read := Demux(m, Events(lines, parse));
            && (if closed && consumed == |lines| then n.(alive := false) else n) == (if closed then read.(alive := false) else read)
            && read.pending.Keys == m.pending.Keys
  {
    ReaderDrained(m, lines, consumed, parse);
    DemuxGrows(m, Events(lines, parse));
  }

  /**
   * The reader neither opens nor closes slots; the reverse queue and every
   * slot only grow at their ends; and a stopped reader changes nothing.
   */
  lemma {:induction false} DemuxGrows(m: Mailboxes, es: seq<Event>)
    ensures Demux(m, es).pending.Keys == m.pending.Keys
    ensures IsPrefix(m.reverse, Demux(m, es).reverse)
    ensures forall k | k in m.pending :: IsPrefix(m.pending[k], Demux(m, es).pending[k])
    ensures !m.alive ==> Demux(m, es) == m
    decreases |es|
  {
    if es != [] && m.alive {
      var n := Deliver(m, es[0]);
      DemuxGrows(n, es[1..]);
    }
  }

  /** `p` is a prefix of `s`. */
  predicate IsPrefix<T(==)>(p: seq<T>, s: seq<T>) {
    |p| <= |s| && s[..|p|] == p
  }

  /** The replies carrying id `k` among the events, up to the first one that ends the reader. */
  function RepliesFor(es: seq<Event>, k: string): seq<Json>
    decreases |es|
  {
    if es == [] || es[0].Fatal? then []
    else if es[0].Response? && es[0].id == JStr(k) then [es[0].msg] + RepliesFor(es[1..], k)
    else RepliesFor(es[1..], k)
  }

  /** Every reply the reader routes to slot `k` is an object whose `id` is `k`. */
  lemma {:induction false} RepliesCarryId(lines: seq<string>, parse: string -> Option<Json>, k: string)
    ensures forall r | r in RepliesFor(Events(lines, parse), k) :: r.JObj? && Lookup(r.fields, "id") == Some(JStr(k))
    decreases |lines|
  {
    if lines != [] {
      RepliesCarryId(lines[1..], parse, k);
      assert Events(lines, parse)[1..] == Events(lines[1..], parse);
    }
  }

  /** A pending slot of a running reader receives exactly the replies carrying its id, in arrival order. */
  lemma {:induction false} DemuxSlot(m: Mailboxes, es: seq<Event>, k: string)
    requires k in m.pending
    ensures k in Demux(m, es).pending
    ensures Demux(m, es).pending[k] == m.pending[k] + (if m.alive then RepliesFor(es, k) else [])
    decreases |es|
  {
    if es != [] && m.alive {
      var n := Deliver(m, es[0]);
      DemuxSlot(n, es[1..], k);
      if es[0].Response? && es[0].id == JStr(k) {
        assert n.pending[k] == m.pending[k] + [es[0].msg];
      } else {
        assert n.pending[k] == m.pending[k];
      }
    }
  }

  /**
   * The whole of one `_send_request` call from the reader's state `m`: open
   * slot `requestId`, post, and on status 202 let the reader handle `arrivals`
   * before taking the first message of the slot; the slot is closed on every path.
   * `status` is `None` when the POST itself raised; `closed` says that the
   * stream ends after `arrivals`, which ends the reader thread.
   */
  function AfterRequest(m: Mailboxes, requestId: string, status: Option<int>, arrivals: seq<string>,
                        closed: bool, parse: string -> Option<Json>): (Mailboxes, Option<Json>)
  {
    var withSlot := m.(pending := m.pending[requestId := []]);
    if status != Some(202) then (withSlot.(pending := withSlot.pending - {requestId}), None)
    else
      var read := Demux(withSlot, Events(arrivals, parse));
      var after := if closed then read.(alive := false) else read;
      // the reader never closes a slot (`DemuxGrows`), so the lookup always finds it
      var slot := if requestId in after.pending then after.pending[requestId] else [];
      (after.(pending := after.pending - {requestId}), if slot == [] then None else Some(slot[0]))
  }

  /**
   * On status 202 the answer is the head of the request's slot as the reader
   * leaves it (`n`), and the mailboxes are `n` with that slot closed.
   */
  lemma AnswerFromSlot(m: Mailboxes, requestId: string, arrivals: seq<string>, closed: bool,
                       parse: string -> Option<Json>, n: Mailboxes)
    requires var read := Demux(m.(pending := m.pending[requestId := []]), Events(arrivals, parse));
             n == if closed then read.(alive := false) else read
    ensures requestId in n.pending
    ensures AfterRequest(m, requestId, Some(202), arrivals, closed, parse)
         == (n.(pending := n.pending - {requestId}),
             if n.pending[requestId] == [] then None else Some(n.pending[requestId][0]))
  {
    DemuxGrows(m.(pending := m.pending[requestId := []]), Events(arrivals, parse));
  }

  /**
   * The reader of `_send_request` never sees the stop event while the caller
   * waits, so where it stops (`consumed`, state `n`) the answer and the
   * mailboxes are those of `AfterRequest`.
   */
  lemma ReadAnswer(m: Mailboxes, requestId: string, arrivals: seq<string>, closed: bool,
                   parse: string -> Option<Json>, consumed: nat, n: Mailboxes)
    requires consumed <= |arrivals|
    requires consumed < |arrivals| ==> !n.alive
    requires var d := Demux(m.(pending := m.pending[requestId := []]), Events(arrivals[..consumed], parse));
             n == if consumed == |arrivals| + 1 || (closed && consumed == |arrivals|) then d.(alive := false) else d
    ensures requestId in n.pending
    ensures AfterRequest(m, requestId, Some(202), arrivals, closed, parse)
         == (n.(pending := n.pending - {requestId}),
             if n.pending[requestId] == [] then None else Some(n.pending[requestId][0]))
  {
    var withSlot := m.(pending := m.pending[requestId := []]);
    ReaderEnd(withSlot, arrivals, consumed, closed, parse);
    AnswerFromSlot(m, requestId, arrivals, closed, parse, n);
  }

  /**
   * The slot map comes back with the request's own slot closed and no other
   * slot opened or closed; with a fresh id it has the same keys as before.
   */
  lemma RequestClosesSlot(m: Mailboxes, requestId: string, status: Option<int>, arrivals: seq<string>,
                          closed: bool, parse: string -> Option<Json>)
    ensures AfterRequest(m, requestId, status, arrivals, closed, parse).0.pending.Keys == m.pending.Keys - {requestId}
    ensures requestId !in m.pending ==>
      AfterRequest(m, requestId, status, arrivals, closed, parse).0.pending.Keys == m.pending.Keys
    ensures status != Some(202) ==>
      AfterRequest(m, requestId, status, arrivals, closed, parse).0 == m.(pending := m.pending - {requestId})
    ensures status == Some(202) && closed ==> !AfterRequest(m, requestId, status, arrivals, closed, parse).0.alive
  {
    var withSlot := m.(pending := m.pending[requestId := []]);
    if status != Some(202) {
      assert withSlot.pending - {requestId} == m.pending - {requestId};
    } else {
      DemuxGrows(withSlot, Events(arrivals, parse));
    }
  }

  /**
   * A request answers with the first reply that carries its id and that the
   * reader meets before it ends; with none (a timeout) or with a status other
   * than 202 it answers `None`.
   */
  lemma RequestAnswer(m: Mailboxes, requestId: string, status: Option<int>, arrivals: seq<string>,
                      closed: bool, parse: string -> Option<Json>)
    ensures var r := AfterRequest(m, requestId, status, arrivals, closed, parse).1;
            var replies := if m.alive then RepliesFor(Events(arrivals, parse), requestId) else [];
            && (status != Some(202) ==> r == None)
            && (status == Some(202) ==> (r.Some? <==> replies != []))
            && (status == Some(202) && replies != [] ==> r == Some(replies[0]))
            && (r.Some? ==> r.value.JObj? && Lookup(r.value.fields, "id") == Some(JStr(requestId)))
  {
    var withSlot := m.(pending := m.pending[requestId := []]);
    if status == Some(202) {
      DemuxSlot(withSlot, Events(arrivals, parse), requestId);
      RepliesCarryId(arrivals, parse, requestId);
    }
  }

  /** The session that the handshake opened, seen from the reader and the correlator. */
  class Session {
    var reverseQueue: seq<Json>
    var pending: map<string, seq<Json>>
    var readerAlive: bool

    function State(): Mailboxes
      reads this
    {
      Mailboxes(reverseQueue, pending, readerAlive)
    }

    /** A freshly connected session: empty queues, no pending request, the reader running. */
    constructor ()
      ensures State() == Mailboxes([], map[], true)
    {
      reverseQueue := [];
      pending := map[];
      readerAlive := true;
    }

    /** One pass of the reader loop body (lines 587-604). */
    method HandleLine(line: string, parse: string -> Option<Json>)
      requires readerAlive
      modifies this
      ensures State() == Deliver(old(State()), Classify(line, parse))
    {
      match Classify(line, parse) {
        case Ignore =>
        case Reverse(msg) =>
          reverseQueue := reverseQueue + [msg];
        case Response(id, msg) =>
          if id.JStr? && id.s in pending {
            pending := pending[id.s := pending[id.s] + [msg]];
          }
        case Fatal =>
          readerAlive := false;
      }
    }

    /**
     * The reader loop over the lines the stream delivers; the stop event is
     * seen after `stopAfter` lines, and `closed` says that the stream ends
     * after `lines` (the next `readline` gives the empty line). Returns how many
     * lines were read. The thread ends when the reader sees the stop event,
     * and when it reaches the end of a closed stream before that.
     */
    method RunReader(lines: seq<string>, stopAfter: nat, closed: bool, parse: string -> Option<Json>)
      returns (consumed: nat)
      modifies this
      ensures consumed <= |lines| && consumed <= stopAfter
      ensures var m := Demux(old(State()), Events(lines[..consumed], parse));
              State() == if consumed == stopAfter || (closed && consumed == |lines|) then m.(alive := false) else m
      ensures consumed < |lines| && consumed < stopAfter ==> !readerAlive
      ensures closed || consumed == stopAfter ==> !readerAlive
    {
      consumed := 0;
      while consumed < |lines| && consumed < stopAfter && readerAlive
        invariant consumed <= |lines| && consumed <= stopAfter
        invariant State() == Demux(old(State()), Events(lines[..consumed], parse))
      {
        DemuxNextLine(old(State()), lines, consumed, parse);
        HandleLine(lines[consumed], parse);
        consumed := consumed + 1;
      }
      if consumed == stopAfter || (closed && consumed == |lines|) {
        readerAlive := false;
      }
    }

    /**
     * `_send_request`: the slot for `requestId` is opened before the POST and
     * closed in the `finally`; on status 202 the reader handles `arrivals`
     * while the caller waits, and the first message of the slot is the answer.
     * Also returns the request object that was posted.
     */
    method SendRequest(requestId: string, rpcMethod: string, params: Json, status: Option<int>,
                       arrivals: seq<string>, closed: bool, parse: string -> Option<Json>)
      returns (r: Option<Json>, sent: Json)
      modifies this
      ensures (State(), r) == AfterRequest(old(State()), requestId, status, arrivals, closed, parse)
      ensures sent == RpcRequest(JStr(requestId), rpcMethod, params)
    {
      ghost var m := State();
      pending := pending[requestId := []];
      sent := RpcRequest(JStr(requestId), rpcMethod, params);
      if status != Some(202) {
        r := None;
      } else {
        var consumed := RunReader(arrivals, |arrivals| + 1, closed, parse);
        ReadAnswer(m, requestId, arrivals, closed, parse, consumed, State());
        var slot := pending[requestId];
        r := if slot == [] then None else Some(slot[0]);
      }
      pending := pending - {requestId};
    }
  }
}
