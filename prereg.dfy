/** The pre-registration endpoint (src/app/api/pre-reg/route.ts): a plan remembered per email. */
module PreRegistration {
  import opened Wrappers
  import opened Store
  import Text

  /** The JSON body of a POST; a field that is missing or not a string is `None`. */
  datatype PostRequest = PostRequest(email: Option<string>, plan: Option<string>)

  /** A JSON response body. */
  datatype Body = ErrorBody(error: string) | Saved(message: string) | Found(data: PreRegDoc)

  /** An HTTP response. */
  datatype Response = Reply(status: int, body: Body)

  /** The record key: the digest (`hash`, standing for hex SHA-256) of the lower-cased email. */
  function KeyFor(hash: string -> string, email: string): string
  {
    hash(Text.Lower(email))
  }

  /** Emails that differ only in letter case share one record. */
  lemma KeyIgnoresCase(hash: string -> string, a: string, b: string)
    requires Text.SameIgnoringCase(a, b)
    ensures KeyFor(hash, a) == KeyFor(hash, b)
  {
    Text.LowerIdentifiesCase(a, b);
  }

  /** The record a POST writes; only a record that did not exist gets `createdAt`. */
  function Upserted(existing: bool, email: string, plan: string, now: int): (d: PreRegDoc)
    ensures !d.used && d.email == Text.Lower(email) && d.plan == plan && d.updatedAt == now
    ensures d.createdAt.Some? <==> !existing
    ensures d.createdAt.Some? ==> d.createdAt.value == now
  {
    PreRegDoc(Text.Lower(email), plan, if existing then None else Some(now), now, false)
  }

  /** `POST`: validates the body, then overwrites the record under the email's key. */
  method Post(db: Firestore, hash: string -> string, body: Option<PostRequest>, now: int) returns (resp: Response)
    modifies db
    ensures body.None? ==> resp == Reply(500, ErrorBody("Failed to save pre-registration"))
    ensures (body.Some? && !(Present(body.value.email) && Present(body.value.plan)))
            ==> resp == Reply(400, ErrorBody("Email and plan are required"))
    ensures (body.Some? && Present(body.value.email) && Present(body.value.plan)
             && body.value.plan.value != "standard" && body.value.plan.value != "pro")
            ==> resp == Reply(400, ErrorBody("Invalid plan. Must be standard or pro"))
    ensures resp.status == 200 <==>
              && body.Some? && Present(body.value.email) && old(db.reachable)
              && body.value.plan in {Some("standard"), Some("pro")}
    ensures resp.status == 200 ==>
              var key := KeyFor(hash, body.value.email.value);
              && resp.body == Saved("Pre-registration saved successfully")
              && db.preReg == old(db.preReg)[key := Upserted(key in old(db.preReg), body.value.email.value, body.value.plan.value, now)]
    ensures resp.status != 200 ==> db.preReg == old(db.preReg)
    ensures (resp.status != 200 && resp.status != 400) ==> resp == Reply(500, ErrorBody("Failed to save pre-registration"))
    ensures db.users == old(db.users) && db.reachable == old(db.reachable)
  {
    var failed := Reply(500, ErrorBody("Failed to save pre-registration"));
    if body.None? {
      return failed;
    }
    var req := body.value;
    if !Present(req.email) || !Present(req.plan) {
      return Reply(400, ErrorBody("Email and plan are required"));
    }
    var plan := req.plan.value;
    if plan != "standard" && plan != "pro" {
      return Reply(400, ErrorBody("Invalid plan. Must be standard or pro"));
    }
    var key := KeyFor(hash, req.email.value);
    var snap := db.ReadPreReg(key);
    if snap.Err? {
      return failed;
    }
    var written := db.SetPreReg(key, Upserted(snap.value.Some?, req.email.value, plan, now));
    if written.Raised? {
      return failed;
    }
    resp := Reply(200, Saved("Pre-registration saved successfully"));
  }

  /** `GET`: the record stored under the key of the `email` query parameter. */
  function Get(db: Firestore, hash: string -> string, email: Option<string>): (resp: Response)
    reads db
    ensures !Present(email) ==> resp == Reply(400, ErrorBody("Email parameter is required"))
    ensures resp.status == 200 <==> Present(email) && db.reachable && KeyFor(hash, email.value) in db.preReg
    ensures resp.status == 200 ==> resp.body == Found(db.preReg[KeyFor(hash, email.value)])
    ensures (Present(email) && db.reachable && KeyFor(hash, email.value) !in db.preReg)
            ==> resp == Reply(404, ErrorBody("Pre-registration not found"))
    ensures (Present(email) && !db.reachable) ==> resp == Reply(500, ErrorBody("Failed to retrieve pre-registration"))
  {
    if !Present(email) then Reply(400, ErrorBody("Email parameter is required"))
    else
      match db.ReadPreReg(KeyFor(hash, email.value))
      case Err(_) => Reply(500, ErrorBody("Failed to retrieve pre-registration"))
      case Ok(None) => Reply(404, ErrorBody("Pre-registration not found"))
      case Ok(Some(d)) => Reply(200, Found(d))
  }

  /**
   * A GET for any casing of a posted email finds the posted plan, unused, with the email lower-cased.
   * The precondition is the state `Post` leaves on success.
   */
  lemma GetFindsPosted(db: Firestore, hash: string -> string, posted: string, asked: string,
                       plan: string, existing: bool, now: int)
    requires db.reachable && posted != ""
    requires KeyFor(hash, posted) in db.preReg
    requires db.preReg[KeyFor(hash, posted)] == Upserted(existing, posted, plan, now)
    requires Text.SameIgnoringCase(posted, asked)
    ensures Get(db, hash, Some(asked)) == Reply(200, Found(Upserted(existing, posted, plan, now)))
    ensures var d := Get(db, hash, Some(asked)).body.data;
            d.plan == plan && !d.used && d.email == Text.Lower(asked)
  {
    KeyIgnoresCase(hash, posted, asked);
    Text.LowerIdentifiesCase(posted, asked);
  }
}
