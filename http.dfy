/** The parts of an HTTP response the handlers decide: status, headers and body. */
module Http {
  import opened Mpsc
  import opened Relay

  type StatusCode = nat

  const StatusOk: StatusCode := 200
  const StatusBadRequest: StatusCode := 400
  const StatusUnauthorized: StatusCode := 401
  const StatusNotFound: StatusCode := 404
  const StatusConflict: StatusCode := 409
  const StatusInternalServerError: StatusCode := 500

  datatype HeaderField = HeaderField(name: string, value: string)

  /** The content type the framework adds when a handler answers with a status and a text. */
  const TextPlain := HeaderField("Content-Type", "text/plain; charset=utf-8")

  /** A fixed text body, or a body streamed from the receiving half of a relay channel. */
  datatype Body = Text(text: string) | Stream(receiver: Channel<Item>)

  datatype Response = Response(status: StatusCode, headers: seq<HeaderField>, body: Body)

  /**
   * What the response builder accepts as a header value: visible characters, spaces and tabs,
   * but no other control character and no DEL. (Characters beyond ASCII encode to bytes of
   * 0x80 and above, which are accepted.)
   */
  predicate HeaderValueOk(value: string)
  {
    forall i :: 0 <= i < |value| ==> (32 <= value[i] as int && value[i] as int != 127) || value[i] == '\t'
  }

  lemma {:induction false} HeaderValueOkAppend(a: string, b: string)
    ensures HeaderValueOk(a + b) <==> HeaderValueOk(a) && HeaderValueOk(b)
  {
    if HeaderValueOk(a + b) {
      forall i | 0 <= i < |a| ensures (32 <= a[i] as int && a[i] as int != 127) || a[i] == '\t' {
        assert a[i] == (a + b)[i];
      }
      forall i | 0 <= i < |b| ensures (32 <= b[i] as int && b[i] as int != 127) || b[i] == '\t' {
        assert b[i] == (a + b)[|a| + i];
      }
    }
  }

}
