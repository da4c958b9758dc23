/**
 * The endpoint handshake of `MCPClient._connect_sse` (a subset of the
 * server-sent events format of the WHATWG HTML Standard, section 9.2): at most
 * ten lines of the event stream are read, each stripped; `event:` lines set the
 * current event type, and the first `data:` line under event type `endpoint`
 * gives the message endpoint and ends the scan. The session id is the text
 * after the first `session_id=` of the endpoint, cut at the next `&` (or at a
 * second `session_id=`, since Python's `split` cuts at every occurrence).
 */
module Handshake {
  import opened Wrappers
  import opened Text

  const MaxHandshakeLines: nat := 10
  const SessionMarker: string := "session_id="

  datatype Endpoint = Endpoint(sessionId: string, messageEndpoint: string)

  /**
   * The i-th `response.readline().decode('utf-8').strip()`; once the stream has
   * ended, `readline` returns an empty line.
   */
  function LineAt(lines: seq<string>, i: nat): string {
    if i < |lines| then Strip(lines[i]) else ""
  }

  /** What one stripped line does to the scan: a new event type, or the endpoint found. */
  datatype Step = Continue(eventType: Option<string>) | Found(data: string)

  function LineStep(line: string, eventType: Option<string>): Step {
    if StartsWith(line, "event:") then Continue(Some(Strip(line[6..])))
    else if StartsWith(line, "data:") && eventType == Some("endpoint") then Found(Strip(line[5..]))
    else Continue(eventType)
  }

  /**
   * The `data:` payload that completes the scan from line `i` on, with the
   * current event type `eventType` (`None` before any `event:` line).
   */
  function ScanEndpoint(lines: seq<string>, i: nat, eventType: Option<string>): Option<string>
    requires i <= MaxHandshakeLines
    decreases MaxHandshakeLines - i
  {
    if i == MaxHandshakeLines then None
    else
      match LineStep(LineAt(lines, i), eventType)
      case Found(data) => Some(data)
      case Continue(next) => ScanEndpoint(lines, i + 1, next)
  }

  /** `endpoint.split('session_id=')[1].split('&')[0]`, when the marker occurs. */
  function SessionIdOf(data: string): (r: Option<string>)
    ensures r.Some? <==> FindFrom(data, SessionMarker, 0).Some?
    ensures r.Some? ==>
      var rest := data[FindFrom(data, SessionMarker, 0).value + |SessionMarker|..];
      && StartsWith(rest, r.value)
      && (forall j :: 0 <= j < |r.value| ==> rest[j] != '&' && !OccursAt(rest, SessionMarker, j))
      && (|r.value| == |rest| || rest[|r.value|] == '&' || OccursAt(rest, SessionMarker, |r.value|))
  {
    match FindFrom(data, SessionMarker, 0)
    case None => None
    case Some(k) =>
      var rest := data[k + |SessionMarker|..];
      var part := CutAt(rest, SessionMarker);
      var sid := CutAt(part, "&");
      SessionIdBounds(rest, part, sid);
      Some(sid)
  }

  lemma SessionIdBounds(rest: string, part: string, sid: string)
    requires part == CutAt(rest, SessionMarker) && sid == CutAt(part, "&")
    ensures StartsWith(rest, sid)
    ensures forall j :: 0 <= j < |sid| ==> rest[j] != '&' && !OccursAt(rest, SessionMarker, j)
    ensures |sid| == |rest| || rest[|sid|] == '&' || OccursAt(rest, SessionMarker, |sid|)
  {
    assert part == rest[..|part|] && sid == part[..|sid|];
    forall j | 0 <= j < |sid| ensures rest[j] != '&' {
      OccursChar(part, '&', j);
    }
    if |sid| < |part| {
      OccursChar(part, '&', |sid|);
    }
  }

  /**
   * The outcome of the handshake: the endpoint and its session id, or `None`
   * when no endpoint event arrives within ten lines or either value is empty.
   */
  function Handshake(lines: seq<string>): (r: Option<Endpoint>)
    ensures r.Some? ==> r.value.sessionId != "" && r.value.messageEndpoint != ""
    ensures r.Some? ==> SessionIdOf(r.value.messageEndpoint) == Some(r.value.sessionId)
    ensures r.Some? ==> ScanEndpoint(lines, 0, None) == Some(r.value.messageEndpoint)
    ensures var e := ScanEndpoint(lines, 0, None);
      r.Some? <==> e.Some? && e.value != "" && SessionIdOf(e.value).Some? && SessionIdOf(e.value).value != ""
  {
    match ScanEndpoint(lines, 0, None)
    case None => None
    case Some(data) =>
      if data == "" then None
      else
        match SessionIdOf(data)
        case Some(sid) => if sid == "" then None else Some(Endpoint(sid, data))
        case None => None
  }

  lemma {:induction false} ScanReadsTenLines(lines: seq<string>, i: nat, eventType: Option<string>)
    requires i <= MaxHandshakeLines <= |lines|
    ensures ScanEndpoint(lines, i, eventType) == ScanEndpoint(lines[..MaxHandshakeLines], i, eventType)
    decreases MaxHandshakeLines - i
  {
    if i < MaxHandshakeLines {
      assert LineAt(lines, i) == LineAt(lines[..MaxHandshakeLines], i);
      match LineStep(LineAt(lines, i), eventType)
      case Found(_) =>
      case Continue(next) => ScanReadsTenLines(lines, i + 1, next);
    }
  }

  /** Only the first ten lines of the stream can influence the handshake. */
  lemma {:induction false} HandshakeReadsTenLines(lines: seq<string>)
    requires |lines| >= MaxHandshakeLines
    ensures Handshake(lines) == Handshake(lines[..MaxHandshakeLines])
  {
    ScanReadsTenLines(lines, 0, None);
  }

  lemma {:induction false} NoEventScan(lines: seq<string>, i: nat)
    requires i <= MaxHandshakeLines
    requires forall j :: i <= j < MaxHandshakeLines ==> !StartsWith(LineAt(lines, j), "event:")
    ensures ScanEndpoint(lines, i, None) == None
    decreases MaxHandshakeLines - i
  {
    if i < MaxHandshakeLines {
      NoEventScan(lines, i + 1);
    }
  }

  /** Without an `event:` line among the first ten, no endpoint is ever accepted. */
  lemma {:induction false} EndpointNeedsEvent(lines: seq<string>)
    requires forall j :: 0 <= j < MaxHandshakeLines ==> !StartsWith(LineAt(lines, j), "event:")
    ensures Handshake(lines) == None
  {
    NoEventScan(lines, 0);
  }

  /**
   * The loop of lines 555-574 over the stream `lines`: returns the same
   * endpoint as the scan above.
   */
  method ReadEndpoint(lines: seq<string>) returns (r: Option<Endpoint>)
    ensures r == Handshake(lines)
  {
    var messageEndpoint, sessionId := ScanLines(lines);
    if messageEndpoint.None? || messageEndpoint.value == "" || sessionId.None? || sessionId.value == "" {
      return None;
    }
    r := Some(Endpoint(sessionId.value, messageEndpoint.value));
  }

  /** The `for _ in range(10)` loop itself: the endpoint found and its session id. */
  method ScanLines(lines: seq<string>) returns (messageEndpoint: Option<string>, sessionId: Option<string>)
    ensures messageEndpoint == ScanEndpoint(lines, 0, None)
    ensures messageEndpoint.Some? ==> sessionId == SessionIdOf(messageEndpoint.value)
    ensures messageEndpoint.None? ==> sessionId.None?
  {
    sessionId := None;
    messageEndpoint := None;
    var eventType: Option<string> := None;
    ghost var scan := ScanEndpoint(lines, 0, None);
    var i := 0;
    while i < MaxHandshakeLines
      invariant i <= MaxHandshakeLines
      invariant messageEndpoint == None && sessionId == None
      invariant ScanEndpoint(lines, i, eventType) == scan
    {
      var line := LineAt(lines, i);
      match LineStep(line, eventType) {
        case Found(data) =>
          messageEndpoint := Some(data);
          // `session_id` stays unset when the marker is absent, which is `SessionIdOf`'s `None`
          sessionId := SessionIdOf(data);
          return;
        case Continue(next) =>
          ScanContinues(lines, i, eventType, next);
          eventType := next;
      }
      i := i + 1;
    }
  }

  /** A line that does not complete the scan hands it on to the next line. */
  lemma ScanContinues(lines: seq<string>, i: nat, eventType: Option<string>, next: Option<string>)
    requires i < MaxHandshakeLines
    requires LineStep(LineAt(lines, i), eventType) == Continue(next)
    ensures ScanEndpoint(lines, i, eventType) == ScanEndpoint(lines, i + 1, next)
  {
  }
}
