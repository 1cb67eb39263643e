/**
 * The Firestore database the Firebase side of the application talks to, reduced to the
 * two collections the core uses: `users` (one schemaless document per user id) and
 * `pre_reg` (one record per email hash).
 */
module Store {
  import opened Wrappers
  import Text

  /** The field names the core reads or writes on a `users` document. */
  datatype Field =
    | Uid | Email | Name | Tier | ClaimsUsed | ClaimsRemaining | Timezone | PipFocus
    | PendingPlan | Plan | Paid | PaidAt | StripeCustomerId | StripeSubscriptionId
    | SubscriptionStatus | CancelledAt | CreatedAt | UpdatedAt | CreatedAtSnake | UpdatedAtSnake

  /** A field value: JSON scalars, a timestamp (milliseconds since the epoch) and a list of strings. */
  datatype Value = Null | Bool(b: bool) | Str(s: string) | Num(n: int) | Time(ms: int) | StrList(items: seq<string>)

  /** A `users` document: only the fields present are keys. */
  type Doc = map<Field, Value>

  /** Reading a field: an absent field reads as `Null`, as `undefined` does. */
  function Get(d: Doc, f: Field): Value
  {
    if f in d then d[f] else Null
  }

  /** JavaScript truthiness; timestamps and arrays are objects, hence truthy. */
  predicate Truthy(v: Value)
  {
    match v
    case Null => false
    case Bool(b) => b
    case Str(s) => s != ""
    case Num(n) => n != 0
    case Time(_) => true
    case StrList(_) => true
  }

  /** JavaScript `v || otherwise`. */
  function Or(v: Value, otherwise: Value): Value
  {
    if Truthy(v) then v else otherwise
  }

  /** A string that may be `null`, as a field value. */
  function OrNull(o: Option<string>): Value
  {
    if o.Some? then Str(o.value) else Null
  }

  /** How a field value prints inside a template literal. */
  function Display(v: Value): string
  {
    match v
    case Null => "null"
    case Bool(b) => if b then "true" else "false"
    case Str(s) => s
    case Num(n) => Text.IntToString(n)
    case Time(ms) =>
      "Timestamp(seconds=" + Text.IntToString(ms / 1000) + ", nanoseconds="
      + Text.IntToString((ms % 1000) * 1000000) + ")"
    case StrList(items) => Text.JoinComma(items)
  }

  /** A `pre_reg` record; `createdAt` is absent on a record that was overwritten. */
  datatype PreRegDoc = PreRegDoc(email: string, plan: string, createdAt: Option<int>, updatedAt: int, used: bool)

  /** What the SDK throws when the database cannot be reached. */
  const UNAVAILABLE: Fault := Fault("unavailable", "Failed to reach Cloud Firestore backend.")

  /** What `update` throws for a document that does not exist. */
  const NOT_FOUND: Fault := Fault("not-found", "No document to update")

  /** The database: its two collections, and whether requests reach it at all. */
  class Firestore {
    var users: map<string, Doc>
    var preReg: map<string, PreRegDoc>
    var reachable: bool

    constructor (users: map<string, Doc>, preReg: map<string, PreRegDoc>, reachable: bool)
      ensures this.users == users && this.preReg == preReg && this.reachable == reachable
    {
      this.users := users;
      this.preReg := preReg;
      this.reachable := reachable;
    }

    /** `getDoc` on `users/<uid>`: the document, `None` when there is none, or the error. */
    function ReadUser(uid: string): Result<Option<Doc>>
      reads this
    {
      if !reachable then Err(UNAVAILABLE) else if uid in users then Ok(Some(users[uid])) else Ok(None)
    }

    /** `setDoc` on `users/<uid>`: replaces the whole document. */
    method SetUser(uid: string, d: Doc) returns (r: Outcome)
      modifies this
      ensures r == if old(reachable) then Done else Raised(UNAVAILABLE)
      ensures users == if r.Done? then old(users)[uid := d] else old(users)
      ensures preReg == old(preReg) && reachable == old(reachable)
    {
      if !reachable {
        return Raised(UNAVAILABLE);
      }
      users := users[uid := d];
      r := Done;
    }

    /** `updateDoc` / `update` on `users/<uid>`: merges the given fields; fails on a missing document. */
    method UpdateUser(uid: string, u: Doc) returns (r: Outcome)
      modifies this
      ensures r == if !old(reachable) then Raised(UNAVAILABLE)
                   else if uid !in old(users) then Raised(NOT_FOUND) else Done
      ensures users == if r.Done? then old(users)[uid := old(users)[uid] + u] else old(users)
      ensures preReg == old(preReg) && reachable == old(reachable)
    {
      if !reachable {
        return Raised(UNAVAILABLE);
      }
      if uid !in users {
        return Raised(NOT_FOUND);
      }
      users := users[uid := users[uid] + u];
      r := Done;
    }

    /** `getDoc` on `pre_reg/<key>`. */
    function ReadPreReg(key: string): Result<Option<PreRegDoc>>
      reads this
    {
      if !reachable then Err(UNAVAILABLE) else if key in preReg then Ok(Some(preReg[key])) else Ok(None)
    }

    /** `setDoc` on `pre_reg/<key>`: replaces the whole record. */
    method SetPreReg(key: string, d: PreRegDoc) returns (r: Outcome)
      modifies this
      ensures r == if old(reachable) then Done else Raised(UNAVAILABLE)
      ensures preReg == if r.Done? then old(preReg)[key := d] else old(preReg)
      ensures users == old(users) && reachable == old(reachable)
    {
      if !reachable {
        return Raised(UNAVAILABLE);
      }
      preReg := preReg[key := d];
      r := Done;
    }
  }
}
