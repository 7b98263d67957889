/** Model of the `reject` module of src/lib.rs: the custom rejection causes the
    handlers raise and the recovery function that turns a rejection into an
    HTTP reply. Status codes are those of RFC 9110. */
module Reject {

  /** The custom rejection types of the server. */
  datatype Cause = InvalidToken | InvalidMasterKey | AlreadyExists | NoGameExists

  /** A warp rejection keeps every custom cause it was built from (rejections of
      the alternative routes are combined). The generic rejection that
      `warp::reject()` produces carries no custom cause: it is the empty set. */
  type Rejection = set<Cause>

  const OK := 200                     // section 15.3.1 of RFC 9110
  const UNAUTHORIZED := 401           // section 15.5.2 of RFC 9110
  const NOT_FOUND := 404              // section 15.5.5 of RFC 9110
  const CONFLICT := 409               // section 15.5.10 of RFC 9110
  const GONE := 410                   // section 15.5.11 of RFC 9110
  const INTERNAL_SERVER_ERROR := 500  // section 15.6.1 of RFC 9110

  datatype Response = Response(status: nat, body: string)

  /** The status a rejection carrying exactly one custom cause is answered with. */
  function StatusOf(c: Cause): nat
  {
    match c
    case InvalidToken => UNAUTHORIZED
    case InvalidMasterKey => UNAUTHORIZED
    case AlreadyExists => CONFLICT
    case NoGameExists => NOT_FOUND
  }

  /** The causes in the order the recovery function looks for them. */
  const PRIORITY: seq<Cause> := [InvalidToken, InvalidMasterKey, AlreadyExists, NoGameExists]

  /** `handle_rejection`: the first cause found in PRIORITY order decides the
      reply (lemma FirstCauseDecides); a rejection with no custom cause is an
      internal server error. */
  function HandleRejection(err: Rejection): (r: Response)
    ensures r.status == INTERNAL_SERVER_ERROR <==> forall c: Cause :: c !in err
    ensures r.status == UNAUTHORIZED <==> InvalidToken in err || InvalidMasterKey in err
  {
    if InvalidToken in err then Response(UNAUTHORIZED, "Invalid token")
    else if InvalidMasterKey in err then Response(UNAUTHORIZED, "Invalid master key")
    else if AlreadyExists in err then Response(CONFLICT, "Game already exists")
    else if NoGameExists in err then Response(NOT_FOUND, "No game exists")
    else
      assert forall c: Cause :: c !in err by {
        forall c: Cause ensures c !in err {
          assert c.InvalidToken? || c.InvalidMasterKey? || c.AlreadyExists? || c.NoGameExists?;
        }
      }
      Response(INTERNAL_SERVER_ERROR, "Internal server error")
  }

  /** The cause that comes first in PRIORITY decides the status, whatever
      lower-priority causes the rejection also carries. */
  lemma FirstCauseDecides(err: Rejection, k: nat)
    requires k < |PRIORITY| && PRIORITY[k] in err
    requires forall j :: 0 <= j < k ==> PRIORITY[j] !in err
    ensures HandleRejection(err).status == StatusOf(PRIORITY[k])
  {
    if k > 0 { assert PRIORITY[0] !in err; }
    if k > 1 { assert PRIORITY[1] !in err; }
    if k > 2 { assert PRIORITY[2] !in err; }
  }

  /** A rejection raised with a single custom cause gets that cause's status,
      a client error. */
  lemma SingleCauseStatus(c: Cause)
    ensures HandleRejection({c}).status == StatusOf(c)
    ensures 400 <= HandleRejection({c}).status < 500
  {
  }
}
