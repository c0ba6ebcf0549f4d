/** The signed POST loop: what it repeats, and what each kind of reply lets the caller conclude. */
module Transport {

  /** `Broken` is a request or body that failed before a complete reply. */
  datatype Reply =
    | Broken
    | Reply(status: nat, json: bool, parses: bool)

  datatype Outcome = Parsed | Refused | Unknown

  predicate RateLimited(r: Reply) {
    r.Reply? && r.status == 429
  }

  predicate ClientError(r: Reply) {
    r.Reply? && 400 <= r.status < 500
  }

  predicate Success(r: Reply) {
    r.Reply? && 200 <= r.status < 300 && r.json && r.parses
  }

  /** What an outcome may be concluded from: everything that is neither a parsed success nor a refusal is unknown. */
  predicate Justified(outcome: Outcome, replies: seq<Reply>) {
    match outcome
    case Parsed => replies != [] && Success(replies[|replies| - 1])
    case Refused => forall r | r in replies :: ClientError(r)
    case Unknown => replies != [] && !Success(replies[|replies| - 1]) && !ClientError(replies[|replies| - 1])
  }

  /** A stopped loop: repeated only after 429, and only while repeats were left. */
  ghost predicate Complete(replies: seq<Reply>, retries: nat) {
    && 1 <= |replies| <= retries + 1
    && (forall i | 0 <= i < |replies| - 1 :: RateLimited(replies[i]))
    && (RateLimited(replies[|replies| - 1]) ==> |replies| == retries + 1)
  }

  /** `answers` is what the network would say to the first, second, … identical POST. */
  method SendSignedMessage<Envelope>(envelope: Envelope, retries: nat, answers: nat -> Reply)
    returns (outcome: Outcome, posts: seq<Envelope>, replies: seq<Reply>)
    ensures |posts| == |replies| && forall p | p in posts :: p == envelope
    ensures forall i | 0 <= i < |replies| :: replies[i] == answers(i)
    ensures Complete(replies, retries)
    ensures Justified(outcome, replies)
  {
    posts, replies := [], [];
    var attempt := 0;
    while true
      invariant 0 <= attempt <= retries && |posts| == |replies| == attempt
      invariant forall p | p in posts :: p == envelope
      invariant forall i | 0 <= i < attempt :: replies[i] == answers(i) && RateLimited(replies[i])
      decreases retries - attempt
    {
      var reply := answers(attempt);
      posts, replies := posts + [envelope], replies + [reply];
      if reply.Broken? {
        return Unknown, posts, replies;
      }
      if reply.status == 429 && attempt < retries {
        attempt := attempt + 1;
        continue;
      }
      if reply.status < 200 || reply.status >= 500 || 300 <= reply.status < 400 {
        return Unknown, posts, replies;
      }
      if reply.status < 200 || reply.status >= 300 {
        return Refused, posts, replies;
      }
      if !reply.json || !reply.parses {
        return Unknown, posts, replies;
      }
      return Parsed, posts, replies;
    }
  }

  /** The answers alone decide where the loop stops and what it concludes. */
  lemma LoopIsDetermined(a: seq<Reply>, b: seq<Reply>, retries: nat, answers: nat -> Reply, x: Outcome, y: Outcome)
    requires Complete(a, retries) && Complete(b, retries)
    requires forall i | 0 <= i < |a| :: a[i] == answers(i)
    requires forall i | 0 <= i < |b| :: b[i] == answers(i)
    requires Justified(x, a) && Justified(y, b)
    ensures a == b && x == y
  {
    assert |a| <= |b| ==> a[|a| - 1] == b[|a| - 1];
    assert |b| <= |a| ==> a[|b| - 1] == b[|b| - 1];
    assert a[|a| - 1] in a && b[|b| - 1] in b;
  }
}
