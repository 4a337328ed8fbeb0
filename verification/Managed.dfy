/** Types shared by the managed-execution stores and the protocol that races over them. */
module Managed {

  /** Identifiers and digests are only ever compared for equality. */
  datatype Id = Id(text: string)

  datatype Option<+T> = None | Some(value: T)

  /** The opaque durable identity that every row is scoped to. */
  datatype Owner = Owner(domain: Id, digest: Id)

  /** The operator's execution allowance: a deployment epoch and how many executions it may reserve. */
  datatype Allowance = Allowance(epoch: Id, limit: nat)

  datatype Attribution = Attribution(harness: Id, transport: Id, requestedModel: Id, servedModel: Option<Id>)

  /** A validated execute request; `rest` stands for the input, tool policy, output format and the other hashed fields. */
  datatype Request = Request(
    invocationId: Id, idempotencyKey: Id, executionDigest: Id, policyRevision: Id, sessionId: Id,
    harness: Id, transport: Id, requestedModel: Id, rest: Id)

  /** SHA-256 over canonical JSON is taken to be injective, so a request hash is represented by the request it digests. */
  datatype RequestHash = RequestHash(of: Request)

  function AttributionFromRequest(q: Request, served: Option<Id>): Attribution {
    Attribution(q.harness, q.transport, q.requestedModel, served)
  }

  const DIGITALOCEAN_TRANSPORT: Id := Id("digitalocean-sandbox-exec")
}
