/** Operator approvals for exact actions, and reserved nonces. Each method runs under its store's own lock. */
module Approvals {
  import opened Wrappers

  type Alias = string
  type Did = string
  type Room = string
  type Text = string

  /** The file that holds a record: every agent has its own, so two agents may use one name. */
  datatype ActionId = ActionId(alias: Alias, name: string)

  datatype Destination = ContactRoom(room: Room, recipient: Did, contact: string) | PublicRoom(room: Room)

  /** The destination and the sanitized text stand for their hashes; an action's hash covers its id and effect. */
  datatype Effect = Effect(alias: Alias, did: Did, destination: Destination, payload: Text)
  datatype ActionHash = ActionHash(id: ActionId, effect: Effect)

  datatype Status = Requested | Approved | Executing | Confirmed | AmbiguousResult | FailedResult
  datatype Approval = Approval(effect: Effect, status: Status)
  type Records = map<ActionId, Approval>

  datatype Error = EffectChanged | HashMismatchOrSpent | ApprovalRequired | AlreadySpent | NotExecuting | Missing

  predicate Final(s: Status) {
    s.Confirmed? || s.AmbiguousResult? || s.FailedResult?
  }

  /** How the records may move; a spent record never becomes usable again, and an effect never changes. */
  ghost predicate Forward(a: Records, b: Records) {
    forall id | id in a ::
      && id in b && b[id].effect == a[id].effect
      && (a[id].status.Executing? ==> b[id].status.Executing? || Final(b[id].status))
      && (Final(a[id].status) ==> b[id].status == a[id].status)
      && (a[id].status.Approved? ==> !b[id].status.Requested?)
  }

  class ActionApprovalStore {
    var records: Records

    constructor ()
      ensures records == map[]
    {
      records := map[];
    }

    /** Records a new request; the same request again returns what is there, a different one is refused. */
    method Propose(effect: Effect, name: string) returns (r: Result<Approval, Error>)
      modifies this
      ensures var id := ActionId(effect.alias, name);
        && records == old(records)[id := if id in old(records) then old(records[id]) else Approval(effect, Requested)]
        && r == if records[id].effect == effect then Ok(records[id]) else Err(EffectChanged)
      ensures Forward(old(records), records)
    {
      var id := ActionId(effect.alias, name);
      if id in records {
        var existing := records[id];
        return if existing.effect != effect then Err(EffectChanged) else Ok(existing);
      }
      records := records[id := Approval(effect, Requested)];
      r := Ok(records[id]);
    }

    method Grant(alias: Alias, name: string, expected: ActionHash) returns (r: Result<Approval, Error>)
      modifies this
      ensures var id := ActionId(alias, name);
        && (r.Ok? <==>
              id in old(records) && old(records[id]).effect.alias == alias
              && ActionHash(id, old(records[id]).effect) == expected && old(records[id]).status.Requested?)
        && records == if r.Ok? then old(records)[id := old(records[id]).(status := Approved)] else old(records)
      ensures Forward(old(records), records)
    {
      var id := ActionId(alias, name);
      if id !in records || records[id].effect.alias != alias {
        return Err(Missing);
      }
      if ActionHash(id, records[id].effect) != expected || !records[id].status.Requested? {
        return Err(HashMismatchOrSpent);
      }
      records := records[id := records[id].(status := Approved)];
      r := Ok(records[id]);
    }

    /** Spends an approved action; of any number of callers at most one ever succeeds. */
    method Consume(effect: Effect, name: string) returns (r: Result<Approval, Error>)
      modifies this
      ensures var id := ActionId(effect.alias, name);
        && (r.Ok? <==> id in old(records) && old(records[id]) == Approval(effect, Approved))
        && (r.Ok? ==> records == old(records)[id := Approval(effect, Executing)])
        && (r.Err? ==>
              records == old(records)[id := if id in old(records) then old(records[id]) else Approval(effect, Requested)])
        && (r == Err(ApprovalRequired) <==> records[id] == Approval(effect, Requested))
      ensures Forward(old(records), records)
    {
      var id := ActionId(effect.alias, name);
      var proposed := Propose(effect, name);
      if proposed.Err? {
        return Err(proposed.error);
      }
      if records[id].status.Requested? {
        return Err(ApprovalRequired);
      }
      if !records[id].status.Approved? {
        return Err(AlreadySpent);
      }
      records := records[id := records[id].(status := Executing)];
      r := Ok(records[id]);
    }

    method Finish(alias: Alias, name: string, status: Status) returns (ok: bool)
      requires Final(status)
      modifies this
      ensures var id := ActionId(alias, name);
        && (ok <==> id in old(records) && old(records[id]).effect.alias == alias && old(records[id]).status.Executing?)
        && records == if ok then old(records)[id := old(records[id]).(status := status)] else old(records)
      ensures Forward(old(records), records)
    {
      var id := ActionId(alias, name);
      if id !in records || records[id].effect.alias != alias || !records[id].status.Executing? {
        return false;
      }
      records := records[id := records[id].(status := status)];
      ok := true;
    }
  }

  // --------------------------------------------------------------------- nonces

  datatype NonceKey = NonceKey(did: Did, room: Room)

  /** A nonce has at most 19 decimal digits. */
  const NonceLimit: nat := 10_000_000_000_000_000_000

  function NextNonce(values: map<NonceKey, nat>, key: NonceKey, clock: nat): nat {
    var previous: int := if key in values then values[key] else -1;
    if previous + 1 > clock then previous + 1 else clock
  }

  class NonceStore {
    var values: map<NonceKey, nat>

    constructor ()
      ensures values == map[]
    {
      values := map[];
    }

    /** A nonce above every earlier one for the same key, whatever the clock says; nothing else moves. */
    method Reserve(key: NonceKey, clock: nat) returns (r: Option<nat>)
      modifies this
      ensures r.Some? <==> NextNonce(old(values), key, clock) < NonceLimit
      ensures r.Some? ==> r.value >= clock && (key in old(values) ==> r.value > old(values[key]))
      ensures values == if r.Some? then old(values)[key := r.value] else old(values)
    {
      var previous: int := if key in values then values[key] else -1;
      var next := if previous + 1 > clock then previous + 1 else clock;
      if next >= NonceLimit {
        return None;
      }
      values := values[key := next];
      r := Some(next);
    }
  }
}
