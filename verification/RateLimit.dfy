/** The sliding-window limiter in front of the auth endpoints (backend/services/rate_limit.py).
    Clock readings are reals that never go back. */
module RateLimit {
  import opened Wrappers

  /** A bucket belongs to a client, a limit and a window: the three are joined into its key. */
  datatype BucketKey = BucketKey(client: string, limit: int, window: int)

  datatype Verdict = Allowed | Denied(retryAfter: int)

  datatype Failure = MinOfNothing

  datatype Check = Check(key: BucketKey, now: real)

  function Prune(timestamps: seq<real>, cutoff: real): seq<real> {
    if timestamps == [] then []
    else
      var rest, last := Prune(timestamps[..|timestamps| - 1], cutoff), timestamps[|timestamps| - 1];
      if last > cutoff then rest + [last] else rest
  }

  predicate UpTo(s: seq<real>, now: real) {
    forall i :: 0 <= i < |s| ==> s[i] <= now
  }

  predicate Above(s: seq<real>, cutoff: real) {
    forall i :: 0 <= i < |s| ==> s[i] > cutoff
  }

  function Min(s: seq<real>): (m: real)
    requires s != []
    ensures m in s && forall i :: 0 <= i < |s| ==> m <= s[i]
  {
    if |s| == 1 then s[0]
    else
      var m := Min(s[..|s| - 1]);
      if m <= s[|s| - 1] then m else s[|s| - 1]
  }

  function BucketOf(buckets: map<BucketKey, seq<real>>, key: BucketKey): seq<real> {
    if key in buckets then buckets[key] else []
  }

  function Cutoff(c: Check): real {
    c.now - c.key.window as real
  }

  /** The answer to a check whose bucket has been pruned to `hits`. */
  function Answer(hits: seq<real>, c: Check): Result<Verdict, Failure> {
    if |hits| < c.key.limit then Ok(Allowed)
    else if hits == [] then Err(MinOfNothing)
    else
      var wait := (c.key.window as real - (c.now - Min(hits))).Floor + 1;
      Ok(Denied(if wait > 1 then wait else 1))
  }

  /** The bucket such a check leaves behind; the failing one stops before it is written. */
  function Left(bucket: seq<real>, c: Check): seq<real> {
    var hits := Prune(bucket, Cutoff(c));
    if Answer(hits, c).Err? then bucket else if Answer(hits, c) == Ok(Allowed) then hits + [c.now] else hits
  }

  class RateLimiter {
    var buckets: map<BucketKey, seq<real>>

    constructor ()
      ensures buckets == map[]
    {
      buckets := map[];
    }

    method CheckRateLimit(key: BucketKey, now: real) returns (answer: Result<Verdict, Failure>)
      modifies this
      ensures var c := Check(key, now);
              && answer == Answer(Prune(BucketOf(old(buckets), key), Cutoff(c)), c)
              && buckets == old(buckets)[key := Left(BucketOf(old(buckets), key), c)]
    {
      if key !in buckets {
        buckets := buckets[key := []];
      }
      var hits := Prune(buckets[key], now - key.window as real);
      if |hits| >= key.limit {
        if hits == [] {
          return Err(MinOfNothing);
        }
        var oldest := Min(hits);
        var remaining := key.window as real - (now - oldest);
        var retryAfter := remaining.Floor + 1;
        if retryAfter < 1 {
          retryAfter := 1;
        }
        buckets := buckets[key := hits];
        return Ok(Denied(retryAfter));
      }
      buckets := buckets[key := hits + [now]];
      return Ok(Allowed);
    }
  }

  // --- Runs -------------------------------------------------------------------------------------

  /** The buckets after any sequence of checks, of any clients. */
  function BucketsAfter(checks: seq<Check>): map<BucketKey, seq<real>> {
    if checks == [] then map[]
    else
      var before, c := BucketsAfter(checks[..|checks| - 1]), checks[|checks| - 1];
      before[c.key := Left(BucketOf(before, c.key), c)]
  }

  function AnswerAfter(checks: seq<Check>, c: Check): Result<Verdict, Failure> {
    Answer(Prune(BucketOf(BucketsAfter(checks), c.key), Cutoff(c)), c)
  }

  predicate NonDecreasing(checks: seq<Check>) {
    forall i, j :: 0 <= i < j < |checks| ==> checks[i].now <= checks[j].now
  }

  /** The clock reads c.now no earlier than at any of these checks. */
  predicate NoEarlier(checks: seq<Check>, now: real) {
    forall i :: 0 <= i < |checks| ==> checks[i].now <= now
  }

  // --- The rule the limiter is meant to enforce -------------------------------------------------

  /** How many of these hits lie in the half-open window (from, to]. */
  function HitsWithin(hits: seq<real>, from: real, to: real): nat {
    if hits == [] then 0
    else
      var last := hits[|hits| - 1];
      HitsWithin(hits[..|hits| - 1], from, to) + if from < last <= to then 1 else 0
  }

  /** Every hit of a bucket that a limiter with a full memory lets through: one is let through iff
      fewer than `limit` of those before it lie in the window that ends now. */
  function FullHistory(checks: seq<Check>, key: BucketKey): seq<real> {
    if checks == [] then []
    else
      var before, c := FullHistory(checks[..|checks| - 1], key), checks[|checks| - 1];
      if c.key == key && HitsWithin(before, Cutoff(c), c.now) < key.limit then before + [c.now] else before
  }

  // --- Pruning ----------------------------------------------------------------------------------

  lemma {:induction false} PruneKeepsBounds(s: seq<real>, cutoff: real, now: real)
    requires UpTo(s, now)
    ensures UpTo(Prune(s, cutoff), now) && Above(Prune(s, cutoff), cutoff)
  {
    if s != [] {
      PruneKeepsBounds(s[..|s| - 1], cutoff, now);
    }
  }

  /** Pruning early loses nothing that a later pruning would keep. */
  lemma {:induction false} PruneTwice(s: seq<real>, early: real, late: real)
    requires early <= late
    ensures Prune(Prune(s, early), late) == Prune(s, late)
  {
    if s != [] {
      var init, last := s[..|s| - 1], s[|s| - 1];
      PruneTwice(init, early, late);
      if last > early {
        PruneSnoc(Prune(init, early), last, late);
      }
    }
  }

  lemma PruneSnoc(s: seq<real>, t: real, cutoff: real)
    ensures Prune(s + [t], cutoff) == if t > cutoff then Prune(s, cutoff) + [t] else Prune(s, cutoff)
  {
    assert (s + [t])[..|s|] == s;
  }

  /** The list a pruning leaves is as long as the window is full. */
  lemma {:induction false} PruneCounts(s: seq<real>, cutoff: real, now: real)
    requires UpTo(s, now)
    ensures |Prune(s, cutoff)| == HitsWithin(s, cutoff, now)
  {
    if s != [] {
      PruneCounts(s[..|s| - 1], cutoff, now);
    }
  }

  lemma {:induction false} PruneShortens(s: seq<real>, cutoff: real)
    ensures |Prune(s, cutoff)| <= |s|
    ensures s != [] && Min(s) <= cutoff ==> |Prune(s, cutoff)| < |s|
  {
    if |s| > 1 {
      PruneShortens(s[..|s| - 1], cutoff);
    } else if s != [] {
      assert s[..0] == [];
    }
  }

  lemma {:induction false} PruneIsWhole(s: seq<real>, cutoff: real)
    requires Above(s, cutoff)
    ensures Prune(s, cutoff) == s
  {
    if s != [] {
      PruneIsWhole(s[..|s| - 1], cutoff);
    }
  }

  // --- The buckets refine the full history ------------------------------------------------------

  /** What a bucket and the full history have in common from some moment on. */
  ghost predicate SameSince(bucket: seq<real>, history: seq<real>, cutoff: real) {
    forall late :: late >= cutoff ==> Prune(bucket, late) == Prune(history, late)
  }

  lemma PrunedIsSame(bucket: seq<real>, history: seq<real>, cutoff: real)
    requires SameSince(bucket, history, cutoff)
    ensures SameSince(Prune(bucket, cutoff), history, cutoff)
  {
    forall late | late >= cutoff ensures Prune(Prune(bucket, cutoff), late) == Prune(history, late) {
      PruneTwice(bucket, cutoff, late);
    }
  }

  lemma SnocIsSame(bucket: seq<real>, history: seq<real>, cutoff: real, t: real)
    requires SameSince(bucket, history, cutoff)
    ensures SameSince(bucket + [t], history + [t], cutoff)
  {
    forall late | late >= cutoff ensures Prune(bucket + [t], late) == Prune(history + [t], late) {
      PruneSnoc(bucket, t, late);
      PruneSnoc(history, t, late);
    }
  }

  ghost predicate Agree(bucket: seq<real>, history: seq<real>, key: BucketKey, from: real) {
    && UpTo(bucket, from) && UpTo(history, from)
    && SameSince(bucket, history, from - key.window as real)
    && |bucket| <= key.limit
  }

  lemma {:induction false} BucketsAgree(checks: seq<Check>, key: BucketKey, from: real)
    requires NonDecreasing(checks) && NoEarlier(checks, from) && key.limit >= 1
    ensures Agree(BucketOf(BucketsAfter(checks), key), FullHistory(checks, key), key, from)
  {
    if checks != [] {
      var init, c := checks[..|checks| - 1], checks[|checks| - 1];
      BucketsAgree(init, key, c.now);
      if c.key == key {
        CheckKeepsAgreement(BucketOf(BucketsAfter(init), key), FullHistory(init, key), c);
      }
    }
  }

  lemma CheckKeepsAgreement(bucket: seq<real>, history: seq<real>, c: Check)
    requires c.key.limit >= 1 && Agree(bucket, history, c.key, c.now)
    ensures Agree(Left(bucket, c),
                  if HitsWithin(history, Cutoff(c), c.now) < c.key.limit then history + [c.now] else history,
                  c.key, c.now)
    ensures Answer(Prune(bucket, Cutoff(c)), c) == Ok(Allowed) <==> HitsWithin(history, Cutoff(c), c.now) < c.key.limit
  {
    var hits := Prune(bucket, Cutoff(c));
    PruneCounts(history, Cutoff(c), c.now);
    PruneKeepsBounds(bucket, Cutoff(c), c.now);
    PrunedIsSame(bucket, history, Cutoff(c));
    SnocIsSame(hits, history, Cutoff(c), c.now);
    assert hits == Prune(history, Cutoff(c));
    PruneShortens(bucket, Cutoff(c));
    hide SameSince, Prune, HitsWithin;
  }

  /** The limiter forgets what has left the window and still answers, for every client and in every
      run, as if it remembered every hit it ever let through. */
  lemma AllowsIffTheWindowHasRoom(checks: seq<Check>, c: Check)
    requires NonDecreasing(checks) && NoEarlier(checks, c.now) && c.key.limit >= 1
    ensures AnswerAfter(checks, c).Ok?
    ensures AnswerAfter(checks, c) == Ok(Allowed)
            <==> HitsWithin(FullHistory(checks, c.key), Cutoff(c), c.now) < c.key.limit
    ensures |BucketOf(BucketsAfter(checks), c.key)| <= c.key.limit
  {
    BucketsAgree(checks, c.key, c.now);
    CheckKeepsAgreement(BucketOf(BucketsAfter(checks), c.key), FullHistory(checks, c.key), c);
  }

  /** The history of the rule is the hits that the buckets let through. */
  lemma {:induction false} HistoryIsWhatWasAllowed(checks: seq<Check>, c: Check)
    requires NonDecreasing(checks + [c]) && c.key.limit >= 1
    ensures FullHistory(checks + [c], c.key)
            == if AnswerAfter(checks, c) == Ok(Allowed) then FullHistory(checks, c.key) + [c.now]
               else FullHistory(checks, c.key)
  {
    var all := checks + [c];
    assert all[..|checks|] == checks && all[|checks|] == c;
    forall i, j | 0 <= i < j < |checks| ensures checks[i].now <= checks[j].now {
      assert all[i].now <= all[j].now;
    }
    forall i | 0 <= i < |checks| ensures checks[i].now <= c.now {
      assert all[i].now <= all[|checks|].now;
    }
    AllowsIffTheWindowHasRoom(checks, c);
  }

  lemma {:induction false} WiderWindowHoldsMore(hits: seq<real>, from: real, to: real, from': real, to': real)
    requires from' <= from && to <= to'
    ensures HitsWithin(hits, from, to) <= HitsWithin(hits, from', to')
  {
    if hits != [] {
      WiderWindowHoldsMore(hits[..|hits| - 1], from, to, from', to');
    }
  }

  /** No window of this length, wherever it starts, ever holds more than `limit` hits. */
  lemma {:induction false} NoWindowHoldsMore(checks: seq<Check>, key: BucketKey, from: real)
    requires NonDecreasing(checks) && key.limit >= 1
    ensures HitsWithin(FullHistory(checks, key), from, from + key.window as real) <= key.limit
  {
    if checks != [] {
      var init, c := checks[..|checks| - 1], checks[|checks| - 1];
      NoWindowHoldsMore(init, key, from);
      BucketsAgree(init, key, c.now);
      if c.key == key {
        OneMoreHitFits(FullHistory(init, key), c, from);
      }
    }
  }

  lemma OneMoreHitFits(before: seq<real>, c: Check, from: real)
    requires UpTo(before, c.now)
    requires HitsWithin(before, from, from + c.key.window as real) <= c.key.limit
    ensures HitsWithin(before, Cutoff(c), c.now) < c.key.limit ==>
              HitsWithin(before + [c.now], from, from + c.key.window as real) <= c.key.limit
  {
    var to := from + c.key.window as real;
    assert (before + [c.now])[..|before|] == before;
    if HitsWithin(before, Cutoff(c), c.now) < c.key.limit && from < c.now <= to {
      UpToNow(before, from, to, c.now);
      WiderWindowHoldsMore(before, from, c.now, Cutoff(c), c.now);
    }
  }

  lemma {:induction false} UpToNow(hits: seq<real>, from: real, to: real, now: real)
    requires now <= to && UpTo(hits, now)
    ensures HitsWithin(hits, from, to) == HitsWithin(hits, from, now)
  {
    if hits != [] {
      UpToNow(hits[..|hits| - 1], from, to, now);
    }
  }

  // --- Waiting ----------------------------------------------------------------------------------

  predicate OnlyOthers(checks: seq<Check>, key: BucketKey) {
    forall i :: 0 <= i < |checks| ==> checks[i].key != key
  }

  lemma {:induction false} OthersLeaveTheBucket(checks: seq<Check>, others: seq<Check>, key: BucketKey)
    requires OnlyOthers(others, key)
    ensures BucketOf(BucketsAfter(checks + others), key) == BucketOf(BucketsAfter(checks), key)
  {
    if others == [] {
      assert checks + others == checks;
    } else {
      var all := checks + others;
      assert all[..|all| - 1] == checks + others[..|others| - 1];
      OthersLeaveTheBucket(checks, others[..|others| - 1], key);
    }
  }

  /** A denied caller who comes back `retryAfter` seconds later or more, with no check of his bucket in
      between, is let through; one who comes back more than a second before that is denied again. */
  lemma RetryAfterIsEnough(checks: seq<Check>, c: Check, others: seq<Check>, later: real)
    requires NonDecreasing(checks) && NoEarlier(checks, c.now) && c.key.limit >= 1
    requires AnswerAfter(checks, c).Ok? && AnswerAfter(checks, c).value.Denied?
    requires OnlyOthers(others, c.key) && later >= c.now
    ensures var r := AnswerAfter(checks, c).value.retryAfter as real;
            var again := AnswerAfter(checks + [c] + others, Check(c.key, later));
            && (later >= c.now + r ==> again == Ok(Allowed))
            && (later < c.now + r - 1.0 ==> again.Ok? && again.value.Denied?)
  {
    var all := checks + [c];
    assert all[..|checks|] == checks && all[|checks|] == c;
    OthersLeaveTheBucket(all, others, c.key);
    BucketsAgree(checks, c.key, c.now);
    var bucket := BucketOf(BucketsAfter(checks), c.key);
    var hits, cutoff := Prune(bucket, Cutoff(c)), Cutoff(Check(c.key, later));
    assert BucketOf(BucketsAfter(all), c.key) == hits;
    PruneKeepsBounds(bucket, Cutoff(c), c.now);
    PruneShortens(bucket, Cutoff(c));
    var remaining := c.key.window as real - (c.now - Min(hits));
    assert remaining > 0.0;
    assert AnswerAfter(checks, c).value.retryAfter == remaining.Floor + 1;
    if later >= c.now + (remaining.Floor + 1) as real {
      PruneShortens(hits, cutoff);
    }
    if later < c.now + (remaining.Floor + 1) as real - 1.0 {
      PruneIsWhole(hits, cutoff);
    }
  }

  /** A limit below one makes the check fail instead of denying, and no other limit does. */
  lemma FailsIffTheLimitIsNotPositive(checks: seq<Check>, c: Check)
    requires NonDecreasing(checks) && NoEarlier(checks, c.now)
    ensures AnswerAfter(checks, c).Err? <==> c.key.limit <= 0
  {
    if c.key.limit >= 1 {
      AllowsIffTheWindowHasRoom(checks, c);
    } else {
      NothingIsKept(checks, c.key);
    }
  }

  lemma {:induction false} NothingIsKept(checks: seq<Check>, key: BucketKey)
    requires key.limit <= 0
    ensures BucketOf(BucketsAfter(checks), key) == []
  {
    if checks != [] {
      NothingIsKept(checks[..|checks| - 1], key);
    }
  }
}
