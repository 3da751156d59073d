/** The outbox relay: pending commits drained, batch by batch, through a publisher that may fail. */
module Outbox {
  import opened Common

  datatype Message = Message(number: nat, commit: Id)

  /** How publishing one message ends. A failure may come before or after delivery. */
  datatype Outcome = Acknowledged | Undelivered | Unacknowledged

  /** A publisher as one of its subscribers sees it: `log` is what that subscriber received. */
  class Publisher {
    var outcomes: seq<Outcome>
    var log: seq<Message>

    constructor (outcomes: seq<Outcome>)
      ensures log == [] && this.outcomes == outcomes
    {
      this.outcomes, log := outcomes, [];
    }

    /** Once the foreseen outcomes are used up, everything is acknowledged. */
    method Publish(m: Message) returns (ok: bool)
      modifies this
      ensures ok ==> log == old(log) + [m]
      ensures !ok ==> log == old(log) || log == old(log) + [m]
      ensures outcomes == if old(outcomes) == [] then [] else old(outcomes)[1..]
      ensures ok <==> old(outcomes) == [] || old(outcomes)[0] == Acknowledged
    {
      var outcome := if outcomes == [] then Acknowledged else outcomes[0];
      outcomes := if outcomes == [] then [] else outcomes[1..];
      if outcome != Undelivered {
        log := log + [m];
      }
      ok := outcome == Acknowledged;
    }
  }

  function Joined(batches: seq<seq<Message>>): seq<Message> {
    if batches == [] then [] else batches[0] + Joined(batches[1..])
  }

  /** The outbox rows in order: those stamped published, then those pending. `incoming` is what other
      transactions will have committed by each of the coming drains. */
  class OutboxStore {
    var stamped: seq<Message>
    var pending: seq<Message>
    var incoming: seq<seq<Message>>

    constructor (pending: seq<Message>, incoming: seq<seq<Message>>)
      ensures stamped == [] && this.pending == pending && this.incoming == incoming
    {
      stamped, this.pending, this.incoming := [], pending, incoming;
    }

    /** Everything still to be stamped, in commit order: what is pending and what will come. */
    function Due(): seq<Message>
      reads this
    {
      pending + Joined(incoming)
    }

    method Arrive()
      modifies this`pending, this`incoming
      ensures Due() == old(Due()) && old(pending) <= pending && |Joined(incoming)| <= |old(Joined(incoming))|
    {
      if incoming != [] {
        Regroup(pending, incoming[0], Joined(incoming[1..]));
        pending, incoming := pending + incoming[0], incoming[1..];
      }
    }

    /** Hand the first `n` pending rows to the publisher. */
    method Deliver(pub: Publisher, n: nat) returns (done: bool)
      requires n <= |pending|
      modifies pub
      ensures done ==> pub.log == old(pub.log) + pending[..n]
      ensures !done ==> exists k :: 0 <= k <= n && pub.log == old(pub.log) + pending[..k]
    {
      for i := 0 to n
        invariant pub.log == old(pub.log) + pending[..i]
      {
        ghost var before := pub.log;
        var ok := pub.Publish(pending[i]);
        assert before + [pending[i]] == old(pub.log) + pending[..i + 1];
        if !ok {
          assert pub.log == old(pub.log) + pending[..i] || pub.log == old(pub.log) + pending[..i + 1];
          return false;
        }
      }
      done := true;
    }

    /** Deliver up to `limit` pending rows in order and stamp them; a failure stamps nothing. */
    method Drain(pub: Publisher, limit: nat) returns (sent: Option<nat>)
      modifies this, pub
      ensures Drained(limit, sent, old(BooksOf(this, pub)), BooksOf(this, pub))
    {
      Arrive();
      ghost var due := Due();
      var n := if |pending| < limit then |pending| else limit;
      assert forall k :: 0 <= k <= |pending| ==> pending[..k] == due[..k];
      var done := Deliver(pub, n);
      if !done {
        return None;
      }
      assert pending[n..] + Joined(incoming) == due[n..];
      stamped, pending := stamped + pending[..n], pending[n..];
      sent := Some(n);
    }
  }

  datatype Relayed = BadLimit | Sent(total: nat) | PublishFailed

  /** The outbox and what the subscriber has received. */
  datatype Books = Books(stamped: seq<Message>, pending: seq<Message>, later: seq<Message>, log: seq<Message>) {
    function Due(): seq<Message> {
      pending + later
    }
  }

  function BooksOf(store: OutboxStore, pub: Publisher): Books
    reads store, pub
  {
    Books(store.stamped, store.pending, Joined(store.incoming), pub.log)
  }

  /** One batch: some of what is due is delivered and stamped, nothing that was pending being left
      when it is a short one; or, on a failure, some of what is now pending is delivered. */
  ghost predicate Drained(limit: nat, sent: Option<nat>, b: Books, a: Books) {
    && |a.later| <= |b.later|
    && match sent
       case Some(n) =>
         && n <= limit && (n < limit ==> a.pending == []) && n <= |b.Due()|
         && a.Due() == b.Due()[n..] && a.stamped == b.stamped + b.Due()[..n] && a.log == b.log + b.Due()[..n]
       case None =>
         && a.Due() == b.Due() && a.stamped == b.stamped
         && exists k :: 0 <= k <= |a.pending| && k <= limit && a.log == b.log + b.Due()[..k]
  }

  /** One relay call: what is pending, and what arrives before it is done, goes out in order and is
      counted; or the call fails with whole batches stamped and the failing one back to pending. */
  ghost predicate RelayEnds(limit: int, r: Relayed, b: Books, a: Books) {
    match r
    case BadLimit => limit < 1 && a == b
    case Sent(n) => limit >= 1 && n >= |b.pending| && Relaying(b, a, n) && a.pending == []
    case PublishFailed =>
      limit >= 1 && exists j, k :: FailedAt(limit, j, k, b, a)
  }

  /** `n` messages are out: delivered and stamped. */
  ghost predicate Relaying(b: Books, a: Books, n: int) {
    && 0 <= n <= |b.Due()| && |a.later| <= |b.later|
    && a.Due() == b.Due()[n..] && a.stamped == b.stamped + b.Due()[..n] && a.log == b.log + b.Due()[..n]
  }

  ghost predicate FailedAt(limit: int, j: int, k: int, b: Books, a: Books) {
    && 0 <= j <= k <= |b.Due()| && k <= j + limit && k <= j + |a.pending| && |a.later| <= |b.later|
    && a.stamped == b.stamped + b.Due()[..j] && a.Due() == b.Due()[j..]
    && a.log == b.log + b.Due()[..k]
  }

  lemma WindowJoins(log: seq<Message>, due: seq<Message>, j: nat, n: nat)
    requires j <= j + n <= |due|
    ensures (log + due[..j]) + due[j..][..n] == log + due[..j + n] && due[j..][n..] == due[j + n..]
  {
    assert due[..j] + due[j..][..n] == due[..j + n];
  }

  lemma BatchOut(limit: nat, n: nat, b: Books, m: Books, a: Books, total: nat)
    requires Relaying(b, m, total) && Drained(limit, Some(n), m, a)
    ensures Relaying(b, a, total + n)
    ensures n < limit ==> a.pending == [] && total + n >= |b.pending|
  {
    WindowJoins(b.log, b.Due(), total, n);
    WindowJoins(b.stamped, b.Due(), total, n);
  }

  lemma BatchFailed(limit: nat, b: Books, m: Books, a: Books, total: nat)
    requires Relaying(b, m, total) && Drained(limit, None, m, a)
    ensures exists j, k :: FailedAt(limit, j, k, b, a)
  {
    var k :| 0 <= k <= |a.pending| && k <= limit && a.log == m.log + m.Due()[..k];
    WindowJoins(b.log, b.Due(), total, k);
    assert FailedAt(limit, total, total + k, b, a);
  }

  /** The next batch of a relay call that began with `b`. */
  method NextBatch(store: OutboxStore, pub: Publisher, limit: nat, total: nat, ghost b: Books) returns (sent: Option<nat>)
    requires limit >= 1 && Relaying(b, BooksOf(store, pub), total)
    modifies store, pub
    ensures sent == None ==> RelayEnds(limit, PublishFailed, b, BooksOf(store, pub))
    ensures sent.Some? ==> Relaying(b, BooksOf(store, pub), total + sent.value) && sent.value <= limit
    ensures sent.Some? && sent.value < limit ==> RelayEnds(limit, Sent(total + sent.value), b, BooksOf(store, pub))
  {
    ghost var m := BooksOf(store, pub);
    sent := store.Drain(pub, limit);
    if sent == None {
      BatchFailed(limit, b, m, BooksOf(store, pub), total);
    } else {
      BatchOut(limit, sent.value, b, m, BooksOf(store, pub), total);
    }
  }

  method RelayOutbox(store: OutboxStore, pub: Publisher, limit: int) returns (r: Relayed)
    modifies store, pub
    ensures RelayEnds(limit, r, old(BooksOf(store, pub)), BooksOf(store, pub))
  {
    if limit < 1 {
      return BadLimit;
    }
    var total := 0;
    ghost var b := BooksOf(store, pub);
    while true
      invariant Relaying(b, BooksOf(store, pub), total)
      decreases |b.Due()| - total
    {
      var sent := NextBatch(store, pub, limit, total, b);
      if sent == None {
        return PublishFailed;
      }
      total := total + sent.value;
      if sent.value < limit {
        return Sent(total);
      }
    }
  }

  // --- what a subscriber sees over many rounds ---

  /** The messages received, each where it was received first. */
  function Firsts(log: seq<Message>): seq<Message> {
    if log == [] then []
    else
      var before := Firsts(log[..|log| - 1]);
      if log[|log| - 1] in before then before else before + [log[|log| - 1]]
  }

  /** One more message: new at the end of what was received, or received before. */
  lemma OneMoreReceived(all: seq<Message>, log: seq<Message>, k: nat, i: nat)
    requires NoDup(all) && i <= k <= |all| && i < |all| && Firsts(log) == all[..k]
    ensures Firsts(log + [all[i]]) == all[..if i < k then k else i + 1]
  {
    assert (log + [all[i]])[..|log|] == log;
    if i < k {
      assert all[..k][i] == all[i];
    } else {
      forall j | 0 <= j < i ensures all[j] != all[i] { NoDupApart(all, j, i); }
      TakeOneMore(all, i);
    }
  }

  lemma OneFurther(log: seq<Message>, all: seq<Message>, s: nat, e: nat)
    requires s < e <= |all|
    ensures log + all[s..e] == (log + all[s..e - 1]) + [all[e - 1]]
  {
    assert all[s..e] == all[s..e - 1] + [all[e - 1]];
  }

  /** Receiving a stretch that starts at or before the first message not yet received. */
  lemma {:induction false} WindowExtends(all: seq<Message>, log: seq<Message>, k: nat, s: nat, e: nat)
    requires NoDup(all) && s <= k <= |all| && s <= e <= |all| && Firsts(log) == all[..k]
    ensures Firsts(log + all[s..e]) == all[..if e < k then k else e]
    decreases e
  {
    if s == e {
      assert log + all[s..e] == log;
    } else {
      var shorter := log + all[s..e - 1];
      WindowExtends(all, log, k, s, e - 1);
      OneFurther(log, all, s, e);
      OneMoreReceived(all, shorter, if e - 1 < k then k else e - 1, e - 1);
    }
  }

  /** Nothing is lost and nothing is out of order: `all` is every commit there is and will be, what
      is stamped comes first, and the subscriber has received exactly a beginning of it that covers
      what is stamped. */
  ghost predicate InStep(all: seq<Message>, b: Books) {
    && NoDup(all) && all == b.stamped + b.pending + b.later
    && exists k :: |b.stamped| <= k <= |b.stamped| + |b.pending| && Firsts(b.log) == all[..k]
  }

  /** Receiving a beginning of what is due. */
  lemma DeliveryReaches(all: seq<Message>, b: Books, m: nat) returns (k: nat)
    requires InStep(all, b) && m <= |b.Due()|
    ensures |b.stamped| + m <= k <= |all| && Firsts(b.log + b.Due()[..m]) == all[..k]
    ensures k == |b.stamped| + m || k <= |b.stamped| + |b.pending|
  {
    var reached :| |b.stamped| <= reached <= |b.stamped| + |b.pending| && Firsts(b.log) == all[..reached];
    var e := |b.stamped| + m;
    assert all[|b.stamped|..e] == b.Due()[..m];
    WindowExtends(all, b.log, reached, |b.stamped|, e);
    k := if e < reached then reached else e;
  }

  /** Stamping the first `n` that are due leaves the whole as it was. */
  lemma StillTheWhole(all: seq<Message>, b: Books, a: Books, n: nat)
    requires all == b.stamped + b.pending + b.later && n <= |b.Due()|
    requires a.stamped == b.stamped + b.Due()[..n] && a.Due() == b.Due()[n..]
    ensures all == a.stamped + a.pending + a.later
  {
    Regroup(b.stamped, b.pending, b.later);
    Regroup(a.stamped, a.pending, a.later);
    Regroup(b.stamped, b.Due()[..n], b.Due()[n..]);
    assert b.Due()[..n] + b.Due()[n..] == b.Due();
  }

  lemma FailureStaysInStep(limit: int, j: nat, m: nat, all: seq<Message>, b: Books, a: Books)
    requires InStep(all, b) && FailedAt(limit, j, m, b, a)
    ensures InStep(all, a)
  {
    var k := DeliveryReaches(all, b, m);
    StillTheWhole(all, b, a, j);
  }

  lemma SuccessStaysInStep(n: nat, all: seq<Message>, b: Books, a: Books)
    requires InStep(all, b) && n >= |b.pending| && Relaying(b, a, n) && a.pending == []
    ensures InStep(all, a) && Firsts(a.log) == a.stamped
  {
    var k := DeliveryReaches(all, b, n);
    StillTheWhole(all, b, a, n);
    assert k == |a.stamped| && all[..k] == a.stamped;
  }

  lemma RelayStaysInStep(limit: int, r: Relayed, all: seq<Message>, b: Books, a: Books)
    requires InStep(all, b) && RelayEnds(limit, r, b, a)
    ensures InStep(all, a)
    ensures r.Sent? ==> a.pending == [] && Firsts(a.log) == a.stamped && |a.stamped| == |b.stamped| + r.total
    ensures |a.stamped| >= |b.stamped|
  {
    match r {
      case BadLimit =>
      case Sent(n) => SuccessStaysInStep(n, all, b, a);
      case PublishFailed =>
        var j, m :| FailedAt(limit, j, m, b, a);
        FailureStaysInStep(limit, j, m, all, b, a);
    }
  }

  // --- the daemon ---

  const MAX_BACKOFF := 30.0

  function Pow2(k: nat): real { if k == 0 then 1.0 else 2.0 * Pow2(k - 1) }

  function Least(a: real, b: real): real { if a < b then a else b }

  /** The wait of a failing round that follows `k` failing rounds in a row. */
  function BackoffAfter(interval: real, k: nat): real {
    if k == 0 then interval else Least(MAX_BACKOFF, interval * Pow2(k))
  }

  lemma TwiceProduct(a: real, b: real)
    ensures a * (2.0 * b) == a * b * 2.0
  {}

  lemma BackoffDoubles(interval: real, k: nat)
    ensures Least(MAX_BACKOFF, BackoffAfter(interval, k) * 2.0) == BackoffAfter(interval, k + 1)
  {
    var x := interval * Pow2(k);
    assert interval * Pow2(k + 1) == x * 2.0 by {
      TwiceProduct(interval, Pow2(k));
      assert Pow2(k + 1) == 2.0 * Pow2(k);
    }
    assert k == 0 ==> x == interval * 1.0 == interval;
  }

  /** How many rounds in a row just failed. */
  function FailuresInARow(oks: seq<bool>): nat {
    if oks == [] || oks[|oks| - 1] then 0 else 1 + FailuresInARow(oks[..|oks| - 1])
  }

  /** The daemon's waits, from which rounds succeeded. */
  function Waits(interval: real, oks: seq<bool>): seq<real> {
    if oks == [] then []
    else
      var init := oks[..|oks| - 1];
      Waits(interval, init) + [if oks[|oks| - 1] then interval else BackoffAfter(interval, FailuresInARow(init))]
  }

  /** What a run of the daemon leaves behind. */
  datatype Diary = Diary(oks: seq<bool>, waits: seq<real>, reported: seq<nat>)

  /** One round of the daemon. */
  method Round(store: OutboxStore, pub: Publisher, limit: int, ghost all: seq<Message>) returns (r: Relayed)
    requires InStep(all, BooksOf(store, pub))
    modifies store, pub
    ensures r.BadLimit? <==> limit < 1
    ensures r.BadLimit? ==> BooksOf(store, pub) == old(BooksOf(store, pub))
    ensures InStep(all, BooksOf(store, pub)) && |store.stamped| >= old(|store.stamped|)
    ensures r.Sent? ==>
              store.pending == [] && Firsts(pub.log) == store.stamped && |store.stamped| == old(|store.stamped|) + r.total
  {
    ghost var b := BooksOf(store, pub);
    r := RelayOutbox(store, pub, limit);
    RelayStaysInStep(limit, r, all, b, BooksOf(store, pub));
  }

  ghost predicate DiaryOk(interval: real, d: Diary, backoff: real) {
    && d.waits == Waits(interval, d.oks)
    && backoff == BackoffAfter(interval, FailuresInARow(d.oks))
    && forall n :: n in d.reported ==> n > 0
  }

  function Sum(ns: seq<nat>): nat {
    if ns == [] then 0 else Sum(ns[..|ns| - 1]) + ns[|ns| - 1]
  }

  /** What the daemon does after a round: report, wait, and choose the next backoff. */
  method WriteUp(interval: real, d: Diary, backoff: real, r: Relayed) returns (d': Diary, backoff': real)
    requires DiaryOk(interval, d, backoff) && (r.Sent? || r.PublishFailed?)
    ensures DiaryOk(interval, d', backoff') && d'.oks == d.oks + [r.Sent?]
    ensures Sum(d'.reported) == Sum(d.reported) + if r.Sent? then r.total else 0
  {
    assert (d.oks + [r.Sent?])[..|d.oks|] == d.oks;
    if r.PublishFailed? {
      BackoffDoubles(interval, FailuresInARow(d.oks));
      d' := Diary(d.oks + [false], d.waits + [backoff], d.reported);
      backoff' := Least(MAX_BACKOFF, backoff * 2.0);
    } else {
      d' := Diary(d.oks + [true], d.waits + [interval], if r.total > 0 then d.reported + [r.total] else d.reported);
      backoff' := interval;
    }
  }

  /** The diary and the books of a daemon between two rounds. */
  ghost predicate Kept(interval: real, all: seq<Message>, d: Diary, backoff: real, b: Books) {
    && DiaryOk(interval, d, backoff) && InStep(all, b)
    && Sum(d.reported) <= |b.stamped| && (false !in d.oks ==> Sum(d.reported) == |b.stamped|)
    && (d.oks != [] && d.oks[|d.oks| - 1] ==> b.pending == [] && Firsts(b.log) == b.stamped)
  }

  lemma StillKept(interval: real, all: seq<Message>, d: Diary, b: Books, r: Relayed, d': Diary, backoff': real, a: Books)
    requires Sum(d.reported) <= |b.stamped| && (false !in d.oks ==> Sum(d.reported) == |b.stamped|)
    requires DiaryOk(interval, d', backoff') && InStep(all, a) && d'.oks == d.oks + [r.Sent?]
    requires Sum(d'.reported) == Sum(d.reported) + if r.Sent? then r.total else 0
    requires |a.stamped| >= |b.stamped|
    requires r.Sent? ==> a.pending == [] && Firsts(a.log) == a.stamped && |a.stamped| == |b.stamped| + r.total
    ensures Kept(interval, all, d', backoff', a)
  {
    if false !in d'.oks {
      assert d'.oks[|d.oks|] in d'.oks;
      forall ok | ok in d.oks ensures ok { assert ok in d'.oks; }
    }
  }

  /** The relay daemon for so many rounds, while commits keep arriving. A limit below one ends it in
      the first. */
  method RelayForever(store: OutboxStore, pub: Publisher, interval: real, limit: int, rounds: nat)
    returns (ok: bool, diary: Diary)
    requires store.stamped == [] && pub.log == [] && NoDup(store.Due())
    modifies store, pub
    ensures ok <==> limit >= 1 || rounds == 0
    ensures !ok ==> diary == Diary([], [], []) && BooksOf(store, pub) == old(BooksOf(store, pub))
    ensures ok ==> |diary.oks| == rounds && diary.waits == Waits(interval, diary.oks)
    ensures ok ==> InStep(old(store.Due()), BooksOf(store, pub))
    ensures ok && rounds > 0 && diary.oks[rounds - 1] ==> store.pending == [] && Firsts(pub.log) == store.stamped
    ensures forall n :: n in diary.reported ==> n > 0
    ensures Sum(diary.reported) <= |store.stamped|
    ensures false !in diary.oks ==> Sum(diary.reported) == |store.stamped|
  {
    diary, ok := Diary([], [], []), true;
    ghost var all := store.Due();
    var backoff := interval;
    assert Firsts([]) == all[..0] && [] + store.pending + Joined(store.incoming) == all;
    for i := 0 to rounds
      invariant ok && |diary.oks| == i && (i > 0 ==> limit >= 1)
      invariant Kept(interval, all, diary, backoff, BooksOf(store, pub))
      invariant i == 0 ==> BooksOf(store, pub) == old(BooksOf(store, pub)) && diary == Diary([], [], [])
    {
      ghost var d, b := diary, BooksOf(store, pub);
      var r := Round(store, pub, limit, all);
      if r.BadLimit? {
        ok := false;
        return;
      }
      diary, backoff := WriteUp(interval, diary, backoff, r);
      StillKept(interval, all, d, b, r, diary, backoff, BooksOf(store, pub));
    }
  }
}
