/**
 * `moveCamera` (src/cameraControl.ts:3-75): turns a pan/tilt direction into
 * the PTZ command of the configured camera brand and, for a Tiandy camera,
 * sends it with a fallback from the ISAPI to the CGI endpoint, then schedules
 * a stop command.
 *
 * The brand and the camera's base URL (the two environment variables) are
 * parameters. The network is a parameter `send` from a PUT request to the
 * response it gets, or to a rejection, which escapes the handler; the method
 * returns the requests it awaited, in order, and the stop request it leaves
 * to the timer. The Elysia `set` object is a
 * class whose `status` and `headers` the method updates.
 */
module Camera {

  import opened Wrappers
  import opened Decimal
  import opened Strings

  datatype Direction = Direction(pan: int, tilt: Option<int>)

  /** A PUT request: where it goes and the XML it carries. */
  datatype Put = Put(url: string, body: string)

  /** What an awaited `fetch` gives: a response, or a rejection (a network error) that the handler does not catch. */
  datatype HttpResponse = Response(ok: bool, status: int) | Rejected

  /** `response.ok` of a response that arrived. */
  predicate Ok(r: HttpResponse) {
    r.Response? && r.ok
  }

  /** `{ success }` or `{ success, message }`. */
  datatype CameraResult = CameraResult(success: bool, message: Option<string>)

  const Hikvision := "hikvision"
  const Tiandy := "tiandy"

  // ---------------------------------------------------------------------
  // the pieces of the XML bodies (line breaks and indentation as written)

  const Nl14 := "\n              "
  const Nl16 := "\n                "
  const Nl18 := "\n                  "
  const TiltTag := "<tilt>"

  const HikOpenTag := "<PTZData version=\"2.0\" "
  const HikOpenNs := "xmlns=\"http://www.isapi.org/"
  const HikOpenSchema := "ver20/XMLSchema\">"
  const HikPanOpen := "<pan> "
  const HikPanClose := " </pan>"
  const HikTiltClose := " </tilt>"
  const HikMomentary := "<Momentary>"
  const HikDuration := "<duration> 1000 </duration>"
  const HikMomentaryClose := "</Momentary>"
  const PtzClose := "</PTZData>"

  const TiandyOpen := "<PTZData>"
  const TiandyPanOpen := "<pan>"
  const TiandyPanClose := "</pan>"
  const TiandyTiltClose := "</tilt>"
  const TiandyZoom := "<zoom/>"

  const StopPan := "<PTZData><pan>0</pan>"
  const StopTilt := "<tilt>0</tilt>"
  const StopZoom := "<zoom/></PTZData>"

  /** The Tiandy stop command: pan 0, tilt 0. */
  const StopBody := StopPan + StopTilt + StopZoom

  const IsapiPtz := "/ISAPI/PTZCtrl"
  const CgiPtz := "/CGI/PTZCtrl"
  const Momentary := "/channels/1/momentary"
  const Continuous := "/channels/1/continuous"

  const FailurePrefix := "Request failed with status code: "
  const Unsupported := "Kamera tidak ditemukan atau tidak didukung."

  const JsonHeaders := map["Content-Type" := "application/json"]

  // ---------------------------------------------------------------------
  // the bodies

  /** JavaScript truthiness of `direction.tilt`: present and not zero. */
  predicate Truthy(tilt: Option<int>) {
    tilt.Some? && tilt.value != 0
  }

  /** `direction.tilt || 0`. */
  function TiltOrZero(tilt: Option<int>): int {
    if Truthy(tilt) then tilt.value else 0
  }

  /** The opening tag with its namespace. */
  const HikOpen := HikOpenTag + HikOpenNs + HikOpenSchema

  function HikPanElement(pan: int): string {
    HikPanOpen + IntToString(pan) + HikPanClose
  }

  function HikvisionHead(pan: int): string {
    HikOpen + Nl16 + HikPanElement(pan) + Nl16
  }

  function HikTiltElement(tilt: int): string {
    TiltTag + HikTiltValue(tilt)
  }

  function HikTiltValue(tilt: int): string {
    " " + IntToString(tilt) + HikTiltClose
  }

  /** The tilt line's content: the tilt element only for a truthy tilt. */
  function HikvisionTilt(tilt: Option<int>): string {
    if Truthy(tilt) then HikTiltElement(tilt.value) else ""
  }

  const HikvisionTail := Nl16 + HikMomentary + Nl18 + HikDuration + Nl16 + HikMomentaryClose + Nl14 + PtzClose

  /** The Hikvision momentary command (src/cameraControl.ts:10-16). */
  function HikvisionBody(d: Direction): string {
    HikvisionHead(d.pan) + HikvisionTilt(d.tilt) + HikvisionTail
  }

  function TiandyPanElement(pan: int): string {
    TiandyPanOpen + IntToString(pan) + TiandyPanClose
  }

  function TiandyHead(pan: int): string {
    TiandyOpen + Nl16 + TiandyPanElement(pan) + Nl16
  }

  function TiandyTiltElement(tilt: int): string {
    TiltTag + IntToString(tilt) + TiandyTiltClose
  }

  const TiandyTail := Nl16 + TiandyZoom + Nl14 + PtzClose

  /** The Tiandy continuous command (src/cameraControl.ts:19-23). */
  function TiandyBody(d: Direction): string {
    TiandyHead(d.pan) + TiandyTiltElement(TiltOrZero(d.tilt)) + TiandyTail
  }

  /** The error message when both Tiandy endpoints refuse the command. */
  function FailureMessage(status: int): (m: string)
    ensures |m| > |FailurePrefix|
    ensures m[..|FailurePrefix|] == FailurePrefix
    ensures ParseInteger(m[|FailurePrefix|..]) == Some(status)
  {
    IntToStringRoundTrip(status);
    var m := FailurePrefix + IntToString(status);
    assert m[|FailurePrefix|..] == IntToString(status);
    m
  }

  // ---------------------------------------------------------------------
  // what the bodies contain

  /** Every `<` is followed by a character other than `t`: no element of `s` starts with a t. */
  predicate NoTTag(s: string) {
    forall i :: 0 <= i < |s| && s[i] == '<' ==> i + 1 < |s| && s[i + 1] != 't'
  }

  lemma NoTTagAppend(a: string, b: string)
    requires NoTTag(a) && NoTTag(b)
    ensures NoTTag(a + b)
  {
    forall i | 0 <= i < |a + b| && (a + b)[i] == '<'
      ensures i + 1 < |a + b| && (a + b)[i + 1] != 't'
    {
      if i < |a| {
        assert a[i] == '<';
      } else {
        assert b[i - |a|] == '<';
      }
    }
  }

  lemma NoTTagExcludesTilt(s: string)
    requires NoTTag(s)
    ensures !Contains(s, TiltTag)
  {
    forall i | 0 <= i <= |s| ensures !OccursAt(s, TiltTag, i) {
      if i + |TiltTag| <= |s| {
        var w := s[i..i + |TiltTag|];
        assert w[0] == s[i] && w[1] == s[i + 1];
      }
    }
  }

  lemma NumberNoTTag(n: int)
    ensures NoTTag(IntToString(n))
  {
    var s := IntToString(n);
    forall i | 0 <= i < |s| ensures s[i] != '<' {
      if i > 0 {
        assert IsDigit(s[i]);
      } else if n >= 0 {
        assert IsDigit(s[0]);
      }
    }
  }

  lemma ContainsExtended(s: string, p: string, c: string)
    requires Contains(s, p)
    ensures Contains(s + c, p)
  {
    var i :| 0 <= i <= |s| && OccursAt(s, p, i);
    assert (s + c)[i..i + |p|] == s[i..i + |p|];
    assert OccursAt(s + c, p, i);
  }

  lemma ContainsFront(a: string, p: string, r: string, b: string)
    ensures Contains(a + (p + r) + b, p)
  {
    assert a + (p + r) + b == a + p + (r + b);
    ContainsInMiddle(a, p, r + b);
  }

  /**
   * Dropping an empty middle piece, stated over plain variables so that proofs
   * about the literal bodies need no extensionality over their concatenations.
   */
  lemma NoEmptyMiddle(a: string, b: string)
    ensures a + "" + b == a + b
  {
  }

  lemma HikOpenNoTTag()
    ensures NoTTag(HikOpen)
  {
    assert NoTTag(HikOpenTag) && NoTTag(HikOpenNs) && NoTTag(HikOpenSchema);
    NoTTagAppend(HikOpenTag, HikOpenNs);
    NoTTagAppend(HikOpenTag + HikOpenNs, HikOpenSchema);
  }

  lemma IndentsNoTTag()
    ensures NoTTag(Nl14) && NoTTag(Nl16) && NoTTag(Nl18)
  {
  }

  lemma HikPanNoTTag(pan: int)
    ensures NoTTag(HikPanElement(pan))
  {
    assert NoTTag(HikPanOpen) && NoTTag(HikPanClose);
    NumberNoTTag(pan);
    NoTTagAppend(HikPanOpen, IntToString(pan));
    NoTTagAppend(HikPanOpen + IntToString(pan), HikPanClose);
  }

  lemma HikTailPiecesNoTTag()
    ensures NoTTag(HikMomentary) && NoTTag(HikDuration) && NoTTag(HikMomentaryClose) && NoTTag(PtzClose)
  {
  }

  lemma HikvisionHeadNoTTag(pan: int)
    ensures NoTTag(HikvisionHead(pan))
  {
    HikOpenNoTTag();
    IndentsNoTTag();
    HikPanNoTTag(pan);
    NoTTagAppend(HikOpen, Nl16);
    NoTTagAppend(HikOpen + Nl16, HikPanElement(pan));
    NoTTagAppend(HikOpen + Nl16 + HikPanElement(pan), Nl16);
  }

  lemma HikvisionTailNoTTag()
    ensures NoTTag(HikvisionTail)
  {
    IndentsNoTTag();
    HikTailPiecesNoTTag();
    NoTTagAppend(Nl16, HikMomentary);
    var s := Nl16 + HikMomentary;
    NoTTagAppend(s, Nl18);
    s := s + Nl18;
    NoTTagAppend(s, HikDuration);
    s := s + HikDuration;
    NoTTagAppend(s, Nl16);
    s := s + Nl16;
    NoTTagAppend(s, HikMomentaryClose);
    s := s + HikMomentaryClose;
    NoTTagAppend(s, Nl14);
    s := s + Nl14;
    NoTTagAppend(s, PtzClose);
  }

  /** The Hikvision body carries a tilt element exactly when the tilt is truthy, and then with that tilt. */
  lemma HikvisionBodyTilt(d: Direction)
    ensures Contains(HikvisionBody(d), TiltTag) <==> Truthy(d.tilt)
    ensures Truthy(d.tilt) ==> Contains(HikvisionBody(d), HikTiltElement(d.tilt.value))
  {
    var head := HikvisionHead(d.pan);
    if Truthy(d.tilt) {
      var t := d.tilt.value;
      ContainsFront(head, TiltTag, HikTiltValue(t), HikvisionTail);
      ContainsInMiddle(head, HikTiltElement(t), HikvisionTail);
    } else {
      NoEmptyMiddle(head, HikvisionTail);
      HikvisionHeadNoTTag(d.pan);
      HikvisionTailNoTTag();
      NoTTagAppend(head, HikvisionTail);
      NoTTagExcludesTilt(head + HikvisionTail);
    }
  }

  /** The Hikvision body carries the pan between `<pan> ` and ` </pan>`. */
  lemma HikvisionBodyPan(d: Direction)
    ensures Contains(HikvisionBody(d), HikPanElement(d.pan))
  {
    var p := HikPanElement(d.pan);
    ContainsInMiddle(HikOpen + Nl16, p, Nl16);
    ContainsExtended(HikvisionHead(d.pan), p, HikvisionTilt(d.tilt));
    ContainsExtended(HikvisionHead(d.pan) + HikvisionTilt(d.tilt), p, HikvisionTail);
  }

  /** The Tiandy body always carries a tilt element, holding `tilt || 0`, and the pan element. */
  lemma TiandyBodyAxes(d: Direction)
    ensures Contains(TiandyBody(d), TiandyTiltElement(TiltOrZero(d.tilt)))
    ensures Contains(TiandyBody(d), TiandyPanElement(d.pan))
  {
    var t := TiandyTiltElement(TiltOrZero(d.tilt));
    ContainsInMiddle(TiandyHead(d.pan), t, TiandyTail);
    var p := TiandyPanElement(d.pan);
    ContainsInMiddle(TiandyOpen + Nl16, p, Nl16);
    ContainsExtended(TiandyHead(d.pan), p, t);
    ContainsExtended(TiandyHead(d.pan) + t, p, TiandyTail);
  }

  /** The fallback goes to a different address than the first attempt. */
  lemma FallbackUrlDiffers(cameraUrl: string)
    ensures cameraUrl + IsapiPtz + Continuous != cameraUrl + CgiPtz + Continuous
  {
    assert (cameraUrl + IsapiPtz + Continuous)[|cameraUrl| + 1] == 'I';
    assert (cameraUrl + CgiPtz + Continuous)[|cameraUrl| + 1] == 'C';
  }

  // ---------------------------------------------------------------------
  // the handler

  /**
   * Everything `moveCamera` leaves behind, as a value. `result` is None when
   * an awaited request was rejected: the handler then ends with that error
   * instead of returning.
   */
  datatype Outcome = Outcome(
    result: Option<CameraResult>,
    xmlData: string,
    url: string,
    sent: seq<Put>,
    stop: Option<Put>,
    status: Option<int>,
    jsonHeaders: bool)

  /** The handler returned `{ success: true }`. */
  predicate Succeeded(o: Outcome) {
    o.result.Some? && o.result.value.success
  }

  /**
   * What `moveCamera` does for a brand, a base URL and a network:
   * an unknown brand is refused with status 400 and nothing is sent; a
   * Hikvision command is only built, never sent; a Tiandy command goes first
   * to the ISAPI endpoint and, only when a response arrives that is not ok,
   * once more to the CGI endpoint; a rejected request ends the handler with
   * nothing more sent or set; when neither response was ok the status is the
   * CGI response's and the message names it, otherwise the stop command goes
   * to the endpoint that answered ok. The JSON content type is set exactly on
   * success.
   */
  function MoveCameraSpec(direction: Direction, brand: string, cameraUrl: string, send: Put -> HttpResponse): (o: Outcome)
    ensures Succeeded(o) <==> o.jsonHeaders
    ensures o.result.Some? ==> (o.result.value.success <==> o.result.value.message.None?)
    ensures brand != Hikvision && brand != Tiandy ==>
              && o.result == Some(CameraResult(false, Some(Unsupported)))
              && o.status == Some(400) && o.sent == [] && o.stop == None
    ensures brand == Hikvision ==>
              && o.result == Some(CameraResult(true, None)) && o.status == None && o.sent == [] && o.stop == None
              && o.xmlData == HikvisionBody(direction) && o.url == cameraUrl + IsapiPtz + Momentary
    ensures brand == Tiandy ==>
              && o.xmlData == TiandyBody(direction)
              && 1 <= |o.sent| <= 2
              && o.sent[0] == Put(cameraUrl + IsapiPtz + Continuous, o.xmlData)
              && (|o.sent| == 2 <==> send(o.sent[0]).Response? && !send(o.sent[0]).ok)
              && (|o.sent| == 2 ==> o.sent[1] == Put(cameraUrl + CgiPtz + Continuous, o.xmlData))
              && o.url == o.sent[|o.sent| - 1].url
              && (o.result.None? <==> send(o.sent[|o.sent| - 1]).Rejected?)
              && (Succeeded(o) <==> Ok(send(o.sent[|o.sent| - 1])))
    ensures brand == Tiandy && Succeeded(o) ==>
              o.status == None && o.stop == Some(Put(o.url, StopBody))
    ensures brand == Tiandy && o.result.None? ==>
              o.status == None && o.stop == None && !o.jsonHeaders
    ensures brand == Tiandy && o.result.Some? && !o.result.value.success ==>
              && |o.sent| == 2 && send(o.sent[1]).Response?
              && o.stop == None
              && o.status == Some(send(o.sent[1]).status)
              && o.result.value.message == Some(FailureMessage(send(o.sent[1]).status))
  {
    if brand == Hikvision then
      Outcome(Some(CameraResult(true, None)), HikvisionBody(direction), cameraUrl + IsapiPtz + Momentary, [], None, None, true)
    else if brand == Tiandy then
      var body := TiandyBody(direction);
      var first := Put(cameraUrl + IsapiPtz + Continuous, body);
      var response := send(first);
      if response.Rejected? then
        Outcome(None, body, first.url, [first], None, None, false)
      else if response.ok then
        Outcome(Some(CameraResult(true, None)), body, first.url, [first], Some(Put(first.url, StopBody)), None, true)
      else
        var second := Put(cameraUrl + CgiPtz + Continuous, body);
        var cgiResponse := send(second);
        if cgiResponse.Rejected? then
          Outcome(None, body, second.url, [first, second], None, None, false)
        else if cgiResponse.ok then
          Outcome(Some(CameraResult(true, None)), body, second.url, [first, second], Some(Put(second.url, StopBody)), None, true)
        else
          Outcome(Some(CameraResult(false, Some(FailureMessage(cgiResponse.status)))), body, second.url, [first, second], None,
                  Some(cgiResponse.status), false)
    else
      Outcome(Some(CameraResult(false, Some(Unsupported))), "", "", [], None, Some(400), false)
  }

  /** The `set` object of an Elysia handler: the response status and headers. */
  class ResponseSettings {
    var status: Option<int>
    var headers: map<string, string>

    constructor ()
      ensures status == None && headers == map[]
    {
      status := None;
      headers := map[];
    }
  }

  /**
   * `moveCamera`: returns the result (None when a request was rejected), the
   * body and URL it ended with, the requests it awaited and the stop request
   * it scheduled, all as MoveCameraSpec describes; `settings` changes only
   * where the handler assigns it.
   */
  method MoveCamera(direction: Direction, brand: string, cameraUrl: string, send: Put -> HttpResponse, settings: ResponseSettings)
      returns (result: Option<CameraResult>, xmlData: string, url: string, sent: seq<Put>, stop: Option<Put>)
    modifies settings
    ensures var o := MoveCameraSpec(direction, brand, cameraUrl, send);
            && result == o.result && xmlData == o.xmlData && url == o.url && sent == o.sent && stop == o.stop
            && settings.status == (if o.status.Some? then o.status else old(settings.status))
            && settings.headers == (if o.jsonHeaders then JsonHeaders else old(settings.headers))
  {
    result := None;
    xmlData := "";
    url := "";
    sent := [];
    stop := None;

    if brand == Hikvision {
      xmlData := HikvisionBody(direction);
      url := cameraUrl + IsapiPtz + Momentary;
    } else if brand == Tiandy {
      xmlData := TiandyBody(direction);
      url := cameraUrl + IsapiPtz + Continuous;
      var response := send(Put(url, xmlData));
      sent := sent + [Put(url, xmlData)];
      if response.Rejected? {
        return;
      }
      if !response.ok {
        url := cameraUrl + CgiPtz + Continuous;
        var cgiResponse := send(Put(url, xmlData));
        sent := sent + [Put(url, xmlData)];
        if cgiResponse.Rejected? {
          return;
        }
        if !cgiResponse.ok {
          settings.status := Some(cgiResponse.status);
          result := Some(CameraResult(false, Some(FailureMessage(cgiResponse.status))));
          return;
        }
      }
      stop := Some(Put(url, StopBody));
    } else {
      settings.status := Some(400);
      result := Some(CameraResult(false, Some(Unsupported)));
      return;
    }

    settings.headers := JsonHeaders;
    result := Some(CameraResult(true, None));
  }
}
