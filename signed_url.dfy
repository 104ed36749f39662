/**
 * The backend route `POST /signed-url`: a user may obtain a time-limited
 * download link for a proof file only when the file lies in the user's own
 * top-level folder of the `proofs` bucket.
 *
 * The storage provider is a parameter: given a bucket, a path and a
 * lifetime it answers with a signed payload or an error message. The route
 * reports the calls it makes, so the contracts can say when the provider is
 * consulted and with what.
 */
module SignedUrl {
  import opened Strs
  import opened StoragePath
  import opened Seqs

  /** The request body; `ttl` is in seconds. */
  datatype SignedUrlReq = SignedUrlReq(path: string, ttl: int, userId: string)

  /** What the storage provider answers: a payload, or an error with a message. */
  datatype ProviderReply = Signed(payload: string) | Failed(message: string)

  /** One call made to the storage provider. */
  datatype ProviderCall = ProviderCall(bucket: string, path: string, ttl: int)

  /** The HTTP outcome: an error status with its detail, or the provider's reply as is. */
  datatype Response = HttpError(status: int, detail: string) | Ok(reply: ProviderReply)

  /** The response together with the provider calls made to produce it. */
  datatype Outcome = Outcome(response: Response, calls: seq<ProviderCall>)

  type Provider = (string, string, int) -> ProviderReply

  const DefaultTtl := 600
  const Bucket := "proofs"
  const NotOwned := "path not owned by user"

  /** Building the request body: an omitted `ttl` becomes 600 seconds. */
  function MakeReq(path: string, ttl: Option<int>, userId: string): (r: SignedUrlReq)
    ensures r.path == path && r.userId == userId
    ensures ttl.None? ==> r.ttl == 600
    ensures ttl.Some? ==> r.ttl == ttl.value
  {
    SignedUrlReq(path, if ttl.Some? then ttl.value else DefaultTtl, userId)
  }

  /** The folder a path belongs to: the text before its first `/`, or all of it. */
  function Owner(path: string): (o: string)
    ensures o <= path && '/' !in o
    ensures |o| < |path| ==> path[|o|] == '/'
    ensures '/' !in path ==> o == path
  {
    BeforeFirst(path, '/')
  }

  /** `create_signed_url`: the ownership check, then one provider call. */
  function CreateSignedUrl(req: SignedUrlReq, provider: Provider): (out: Outcome)
    ensures Owner(req.path) != req.userId ==>
      out == Outcome(HttpError(403, "path not owned by user"), [])
    ensures Owner(req.path) == req.userId ==>
      out.calls == [ProviderCall("proofs", req.path, req.ttl)]
    ensures Owner(req.path) == req.userId ==>
      match provider("proofs", req.path, req.ttl)
      case Failed(m) => out.response == HttpError(400, m)
      case Signed(_) => out.response == Ok(provider("proofs", req.path, req.ttl))
  {
    if Owner(req.path) != req.userId then
      Outcome(HttpError(403, NotOwned), [])
    else
      var res := provider(Bucket, req.path, req.ttl);
      var call := ProviderCall(Bucket, req.path, req.ttl);
      match res
      case Failed(m) => Outcome(HttpError(400, m), [call])
      case Signed(_) => Outcome(Ok(res), [call])
  }

  /** The request is refused with 403 exactly when the path lies outside the caller's folder. */
  predicate Refused(out: Outcome) {
    out.response.HttpError? && out.response.status == 403
  }

  /**
   * The decision depends on the owner folder alone: two paths in the same
   * top-level folder are both refused or both forwarded, whatever follows
   * the first `/` and whatever the provider does.
   */
  lemma DecisionIgnoresSuffix(r1: SignedUrlReq, r2: SignedUrlReq, p1: Provider, p2: Provider)
    requires Owner(r1.path) == Owner(r2.path) && r1.userId == r2.userId
    ensures Refused(CreateSignedUrl(r1, p1)) <==> Refused(CreateSignedUrl(r2, p2))
  {
    var o1, o2 := CreateSignedUrl(r1, p1), CreateSignedUrl(r2, p2);
    if Owner(r1.path) == r1.userId {
      match p1("proofs", r1.path, r1.ttl)
      case Failed(m) => assert o1.response == HttpError(400, m);
      case Signed(_) => assert o1.response.Ok?;
      match p2("proofs", r2.path, r2.ttl)
      case Failed(m) => assert o2.response == HttpError(400, m);
      case Signed(_) => assert o2.response.Ok?;
    }
  }

  /** A refused request consults no provider, so every provider gives the same outcome. */
  lemma RefusalIndependentOfProvider(req: SignedUrlReq, p1: Provider, p2: Provider)
    requires Owner(req.path) != req.userId
    ensures CreateSignedUrl(req, p1) == CreateSignedUrl(req, p2)
    ensures CreateSignedUrl(req, p1).calls == []
  {
  }

  /**
   * The round trip with the shared path rule: a path built by `ProofPath`
   * for a user passes that user's ownership check, so the provider is
   * asked for exactly that path.
   */
  lemma ProofPathAccepted(userId: string, taskId: string, fileName: string, ttl: int, provider: Provider)
    requires '/' !in userId
    ensures var req := SignedUrlReq(ProofPath(userId, taskId, fileName), ttl, userId);
      !Refused(CreateSignedUrl(req, provider)) &&
      CreateSignedUrl(req, provider).calls ==
        [ProviderCall("proofs", ProofPath(userId, taskId, fileName), ttl)]
  {
    ProofPathOwner(userId, taskId, fileName);
  }

  /**
   * No other user can obtain a link to a built path: the check refuses every
   * caller whose id differs from the owner's.
   */
  lemma ProofPathRefusedForOthers(userId: string, other: string, taskId: string, fileName: string,
                                  ttl: int, provider: Provider)
    requires '/' !in userId && other != userId
    ensures Refused(CreateSignedUrl(SignedUrlReq(ProofPath(userId, taskId, fileName), ttl, other), provider))
  {
    ProofPathOwner(userId, taskId, fileName);
  }

  /**
   * A user id containing `/` never owns its own built paths: the owner
   * folder is then a proper prefix of the id, and the check refuses it.
   */
  lemma SlashUserRefused(userId: string, taskId: string, fileName: string, ttl: int, provider: Provider)
    requires '/' in userId
    ensures Refused(CreateSignedUrl(SignedUrlReq(ProofPath(userId, taskId, fileName), ttl, userId), provider))
  {
  }
}
