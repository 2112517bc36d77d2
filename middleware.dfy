/**
 * The backend's authentication plumbing: the gRPC interceptor that turns the
 * `x-auth-request-email` metadata entry into a `User` attached to the request,
 * and the lookup the queue service uses to read it back.
 */
module Middleware {
  import opened Common

  /** An octet of a metadata value. */
  type Byte = b: int | 0 <= b < 256

  /** A gRPC metadata value: raw header bytes. */
  datatype MetadataValue = MetadataValue(bytes: seq<Byte>)

  /** The user the interceptor derives from the request. */
  datatype User = User(email: string)

  /** The gRPC status codes the backend answers with. */
  datatype Status =
    | Unauthenticated(message: string)
    | InvalidArgument(message: string)
    | PermissionDenied(message: string)

  const EmailKey: string := "x-auth-request-email"

  /** A byte that `to_str` accepts: visible ASCII or a horizontal tab. */
  predicate IsVisibleAscii(b: Byte)
  {
    (32 <= b < 127) || b == 9
  }

  /** The value as text, or `None` when it holds a byte that is not visible ASCII. */
  function ToStr(v: MetadataValue): (r: Option<string>)
    ensures r.Some? <==> forall i :: 0 <= i < |v.bytes| ==> IsVisibleAscii(v.bytes[i])
    ensures r.Some? ==> |r.value| == |v.bytes| && forall i :: 0 <= i < |v.bytes| ==> r.value[i] as int == v.bytes[i]
  {
    if forall i :: 0 <= i < |v.bytes| ==> IsVisibleAscii(v.bytes[i])
    then Some(seq(|v.bytes|, i requires 0 <= i < |v.bytes| => v.bytes[i] as char))
    else None
  }

  /** The e-mail the interceptor puts into the `User`: the header's text, or "" when it is absent or not valid. */
  function EmailFromMetadata(metadata: map<string, MetadataValue>): (email: string)
    ensures forall i :: 0 <= i < |email| ==> email[i] as int < 256 && IsVisibleAscii(email[i] as int)
    ensures EmailKey !in metadata ==> email == ""
    ensures EmailKey in metadata && ToStr(metadata[EmailKey]).None? ==> email == ""
    ensures email != "" ==> EmailKey in metadata && ToStr(metadata[EmailKey]) == Some(email)
  {
    if EmailKey in metadata && ToStr(metadata[EmailKey]).Some?
    then ToStr(metadata[EmailKey]).value
    else ""
  }

  /** The metadata value a client sends for a text header. */
  function FromStr(s: string): MetadataValue
    requires forall i :: 0 <= i < |s| ==> s[i] as int < 256
  {
    MetadataValue(seq(|s|, i requires 0 <= i < |s| => s[i] as int as Byte))
  }

  /** Any visible-ASCII e-mail a client puts into the header is exactly the e-mail the interceptor reads. */
  lemma EmailRoundTrip(metadata: map<string, MetadataValue>, email: string)
    requires forall i :: 0 <= i < |email| ==> email[i] as int < 256 && IsVisibleAscii(email[i] as int)
    ensures EmailFromMetadata(metadata[EmailKey := FromStr(email)]) == email
  {
    var v := FromStr(email);
    var r := ToStr(v);
    assert r.Some?;
    assert |r.value| == |email|;
    forall i | 0 <= i < |email| ensures r.value[i] == email[i] {
      assert r.value[i] as int == v.bytes[i] == email[i] as int;
    }
  }

  /**
   * A gRPC request as the backend sees it: its metadata, the `User` entry of
   * its extensions, and the decoded message.
   */
  class Request<T> {
    var metadata: map<string, MetadataValue>
    var user: Option<User>
    const message: T

    constructor (metadata: map<string, MetadataValue>, message: T)
      ensures this.metadata == metadata && this.message == message && user == None
    {
      this.metadata := metadata;
      this.message := message;
      this.user := None;
    }
  }

  /** `user_from_request`: the `User` attached to the request, if any. */
  function UserFromRequest<T>(req: Request<T>): (user: Option<User>)
    reads req
    ensures user == req.user
  {
    req.user
  }

  /**
   * `auth_interceptor`: attaches the `User` whose e-mail is read from the
   * metadata and lets the request through; it never rejects one.
   */
  method AuthInterceptor<T>(req: Request<T>) returns (r: Result<Request<T>, Status>)
    modifies req
    ensures r == Ok(req)
    ensures UserFromRequest(req) == Some(User(EmailFromMetadata(old(req.metadata))))
    ensures req.metadata == old(req.metadata)
  {
    var email := EmailFromMetadata(req.metadata);
    req.user := Some(User(email));
    return Ok(req);
  }
}
