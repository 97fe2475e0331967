/** The messages exchanged with the job-feed server, after JSON decoding.

    The transport is abstract: what one `recv` plus `json.loads` plus the
    message model's validation produced is a `Reply` — the decoded message, or
    the exception raised on the way. */
module Messages {
  import opened Wrappers
  import opened Uuids
  import opened Cache
  import Base64

  /** `WsData`: one generation job. `imageUrl` is set once the server already
      has an image for it; `promptConfig` may be absent (`= None`). */
  datatype WsData = WsData(
    id: Uuid,
    promptUuid: Uuid,
    promptConfig: Option<CacheConfig>,
    createdAt: int,
    website: string,
    imageUrl: Option<string>)

  /** `WsResponse`: an inbound envelope. */
  datatype WsResponse = WsResponse(
    errors: seq<string>,
    data: Option<WsData>,
    action: string,
    responseStatus: int)

  /** `WsAuthResponse`: the reply to a login. */
  datatype WsAuthResponse = WsAuthResponse(
    errors: seq<string>,
    message: string,
    action: string,
    responseStatus: int)

  /** `Lost`: `recv` itself raised, so no message was bound. `Raised`: a
      message arrived, and decoding, validating or handling it raised. */
  datatype Reply<T> = Received(message: T) | Lost(failure: Failure) | Raised(failure: Failure)

  /** The reply is the exception `f`, at either stage. */
  predicate Fails<T>(reply: Reply<T>, f: Failure) {
    !reply.Received? && reply.failure == f
  }

  /** `{"action": "login", "request_id": time.time(), "token": token}`. */
  datatype LoginRequest = LoginRequest(action: string, requestId: real, token: string)

  /** `{"action": "update", "request_id": time.time(), "pk": str(id), "data": {"image": ...}}`,
      holding the job id and the image bytes; `PkText` and `ImageText` are
      the texts that go on the wire for them. */
  datatype UpdateRequest = UpdateRequest(action: string, requestId: real, pk: Uuid, image: seq<byte>)

  /** The `pk` field: `str(item.id)`. */
  function PkText(r: UpdateRequest): string {
    UuidText(r.pk)
  }

  /** The `data.image` field: `base64.b64encode(image).decode()`. */
  function ImageText(r: UpdateRequest): string {
    Base64.Encode(r.image)
  }

  /** Status code of a successful login. */
  const LoginOk: int := 200

  /** How a receive loop goes on after one message: it keeps receiving, it
      leaves the loop (`break`), or an exception leaves the handler. */
  datatype Fate = Continue | Stop | Raise(failure: Failure)

  /** The result message for a finished job. */
  function Envelope(job: WsData, image: seq<byte>, now: real): UpdateRequest {
    UpdateRequest("update", now, job.id, image)
  }

  /** On the wire, the result message names its job by the 36-character text
      of the job's id, and its image text decodes to exactly the produced
      bytes; different jobs or different images give different texts. */
  lemma EnvelopeWireForm(job: WsData, image: seq<byte>, now: real)
    ensures PkText(Envelope(job, image, now)) == UuidText(job.id)
    ensures |PkText(Envelope(job, image, now))| == 36
    ensures Base64.Decode(ImageText(Envelope(job, image, now))) == Base64.Bytes(image)
  {
    UuidTextShape(job.id);
    Base64.DecodeEncode(image);
  }

  /** The wire texts determine the message: equal key texts mean the same job
      id, equal image texts the same image. */
  lemma WireFormInjective(a: UpdateRequest, b: UpdateRequest)
    requires PkText(a) == PkText(b) && ImageText(a) == ImageText(b)
    ensures a.pk == b.pk && a.image == b.image
  {
    UuidTextInjective(a.pk, b.pk);
    Base64.EncodeInjective(a.image, b.image);
  }
}
