/** Session tokens: the store's rows, the process's cache over them, and who a token is for. */
module Tokens {
  import opened Common

  /** A hash function from a token to the hash that is stored. */
  type Hash = string -> string

  datatype Row = Row(participant: Id, campaign: Id, revoked: bool)

  datatype Grant = Grant(participant: Id, campaign: Id)

  function LiveRows(rows: map<string, Row>): map<string, Grant> {
    map h | h in rows && !rows[h].revoked :: Grant(rows[h].participant, rows[h].campaign)
  }

  /** The registry and the rows behind it. */
  datatype Book = Book(fixed: map<string, Id>, cache: map<string, Grant>, rows: map<string, Row>)

  // --- lookups ---

  function Resolve(h: Hash, b: Book, token: string): Option<Id> {
    if token == "" then None
    else if token in b.fixed then Some(b.fixed[token])
    else if h(token) in b.cache then Some(b.cache[h(token)].participant)
    else None
  }

  function CampaignOf(h: Hash, b: Book, token: string): Option<Id> {
    if token == "" || token in b.fixed then None
    else if h(token) in b.cache then Some(b.cache[h(token)].campaign)
    else None
  }

  /** What the store itself says of a token. */
  function LiveGrant(h: Hash, b: Book, token: string): Option<Grant> {
    if h(token) in b.rows && !b.rows[h(token)].revoked
    then Some(Grant(b.rows[h(token)].participant, b.rows[h(token)].campaign)) else None
  }

  // --- what the operations write ---

  function Hydrated(b: Book): Book {
    b.(cache := b.cache + LiveRows(b.rows))
  }

  function Revoking(rows: map<string, Row>, doomed: set<string>): map<string, Row> {
    map k | k in rows :: if k in doomed then rows[k].(revoked := true) else rows[k]
  }

  /** The live rows a participant holds on a campaign. */
  function Held(rows: map<string, Row>, participant: Id, campaign: Id): set<string> {
    set k | k in rows && rows[k] == Row(participant, campaign, false)
  }

  function Cached(cache: map<string, Grant>, campaigns: set<Id>): set<string> {
    set k | k in cache && cache[k].campaign in campaigns
  }

  datatype Op =
    | Mint(key: string, participant: Id, campaign: Id)
    | Revoke(key: string)
    | RevokeParticipant(participant: Id, campaign: Id)
    | RemoveCampaigns(campaigns: set<Id>)

  /** What an operation has still to do to the cache once its store step is done. */
  datatype Chore = Write(key: string, grant: Grant) | Evict(keys: set<string>) | Forget(campaigns: set<Id>)

  function Stored(rows: map<string, Row>, op: Op): map<string, Row> {
    match op
    case Mint(k, p, c) => rows[k := Row(p, c, false)]
    case Revoke(k) => Revoking(rows, {k})
    case RevokeParticipant(p, c) => Revoking(rows, Held(rows, p, c))
    case RemoveCampaigns(cs) => map k | k in rows && rows[k].campaign !in cs :: rows[k]
  }

  function ChoreOf(rows: map<string, Row>, op: Op): Chore {
    match op
    case Mint(k, p, c) => Write(k, Grant(p, c))
    case Revoke(k) => Evict({k})
    case RevokeParticipant(p, c) => Evict(Held(rows, p, c))
    case RemoveCampaigns(cs) => Forget(cs)
  }

  function Done(cache: map<string, Grant>, chore: Chore): map<string, Grant> {
    match chore
    case Write(k, g) => cache[k := g]
    case Evict(keys) => cache - keys
    case Forget(cs) => cache - Cached(cache, cs)
  }

  // --- operations that overlap ---

  /** The registry and the store, with the operations begun so far and, of those that wait between
      their store step and their cache step, what they have still to do. */
  datatype Desk = Desk(book: Book, ops: seq<Op>, pending: map<nat, Chore>)

  datatype Move = Begin(op: Op) | Finish(i: nat)

  function Do(d: Desk, m: Move): Desk {
    match m
    case Begin(op) =>
      Desk(d.book.(rows := Stored(d.book.rows, op)), d.ops + [op], d.pending[|d.ops| := ChoreOf(d.book.rows, op)])
    case Finish(i) =>
      if i in d.pending
      then d.(book := d.book.(cache := Done(d.book.cache, d.pending[i])), pending := d.pending - {i}) else d
  }

  function After(d: Desk, moves: seq<Move>): Desk {
    if moves == [] then d else Do(After(d, moves[..|moves| - 1]), moves[|moves| - 1])
  }

  /** A server that has just been started on these rows. */
  function Opening(fixed: map<string, Id>, rows: map<string, Row>): Desk {
    Desk(Hydrated(Book(fixed, map[], rows)), [], map[])
  }

  function LiveAt(rows: map<string, Row>, key: string): Option<Grant> {
    if key in rows && !rows[key].revoked then Some(Grant(rows[key].participant, rows[key].campaign)) else None
  }

  function CachedAt(cache: map<string, Grant>, key: string): Option<Grant> {
    if key in cache then Some(cache[key]) else None
  }

  /** Cache and store say the same of this key. */
  predicate AgreesAt(b: Book, key: string) {
    CachedAt(b.cache, key) == LiveAt(b.rows, key)
  }

  /** Fresh secrets: no key is minted twice, or was in the store before. */
  ghost predicate FreshKeys(rows: map<string, Row>, ops: seq<Op>) {
    && (forall i :: 0 <= i < |ops| && ops[i].Mint? ==> ops[i].key !in rows)
    && (forall i, j :: 0 <= i < j < |ops| && ops[i].Mint? && ops[j].Mint? ==> ops[i].key != ops[j].key)
  }

  // --- whose step came last ---

  predicate Stores(rows: map<string, Row>, op: Op, key: string) {
    match op
    case Mint(k, _, _) => k == key
    case Revoke(k) => k == key
    case RevokeParticipant(p, c) => key in Held(rows, p, c)
    case RemoveCampaigns(cs) => key in rows && rows[key].campaign in cs
  }

  predicate Caches(cache: map<string, Grant>, chore: Chore, key: string) {
    match chore
    case Write(k, _) => k == key
    case Evict(keys) => key in keys
    case Forget(cs) => key in Cached(cache, cs)
  }

  /** The operation whose store step was the last to concern the key. */
  function LastStored(d: Desk, moves: seq<Move>, key: string): Option<nat> {
    if moves == [] then None
    else
      var init, last := moves[..|moves| - 1], moves[|moves| - 1];
      var before := After(d, init);
      if last.Begin? && Stores(before.book.rows, last.op, key) then Some(|before.ops|)
      else LastStored(d, init, key)
  }

  /** The operation whose cache step was the last to concern the key. */
  function LastCached(d: Desk, moves: seq<Move>, key: string): Option<nat> {
    if moves == [] then None
    else
      var init, last := moves[..|moves| - 1], moves[|moves| - 1];
      var before := After(d, init);
      if last.Finish? && last.i in before.pending && Caches(before.book.cache, before.pending[last.i], key) then Some(last.i)
      else LastCached(d, init, key)
  }

  predicate MintsKey(ops: seq<Op>, i: Option<nat>, key: string) {
    i.Some? && i.value < |ops| && ops[i.value].Mint? && ops[i.value].key == key
  }

  /** The last store step and the last cache step on the key are the same operation's, or neither
      is its minting. */
  predicate LastTogether(d: Desk, moves: seq<Move>, key: string) {
    var s, c, ops := LastStored(d, moves, key), LastCached(d, moves, key), After(d, moves).ops;
    s == c || (!MintsKey(ops, s, key) && !MintsKey(ops, c, key))
  }

  // --- what the last steps leave ---

  /** Each pending operation is one that was begun, with its own chore. */
  ghost predicate DeskOk(d: Desk) {
    forall i :: i in d.pending ==> i < |d.ops| && ChoreFits(d.ops[i], d.pending[i])
  }

  predicate ChoreFits(op: Op, chore: Chore) {
    match op
    case Mint(k, p, c) => chore == Write(k, Grant(p, c))
    case Revoke(k) => chore == Evict({k})
    case RevokeParticipant(_, _) => chore.Evict?
    case RemoveCampaigns(cs) => chore == Forget(cs)
  }

  lemma {:induction false} AfterOk(d: Desk, moves: seq<Move>)
    requires DeskOk(d)
    ensures DeskOk(After(d, moves)) && After(d, moves).book.fixed == d.book.fixed && d.ops <= After(d, moves).ops
  {
    if moves != [] { AfterOk(d, moves[..|moves| - 1]); }
  }

  /** What an operation leaves for a key it concerns. */
  function Left(op: Op, key: string): Option<Grant> {
    if op.Mint? && op.key == key then Some(Grant(op.participant, op.campaign)) else None
  }

  lemma StoreStep(rows: map<string, Row>, op: Op, key: string)
    ensures LiveAt(Stored(rows, op), key) == if Stores(rows, op, key) then Left(op, key) else LiveAt(rows, key)
  {}

  lemma CacheStep(cache: map<string, Grant>, d: Desk, i: nat, key: string)
    requires DeskOk(d) && i in d.pending
    ensures CachedAt(Done(cache, d.pending[i]), key)
         == if Caches(cache, d.pending[i], key) then Left(d.ops[i], key) else CachedAt(cache, key)
  {}

  lemma {:induction false} StoreIsLast(d: Desk, moves: seq<Move>, key: string)
    requires DeskOk(d)
    ensures var end, s := After(d, moves), LastStored(d, moves, key);
      && (s.Some? ==> s.value < |end.ops| && LiveAt(end.book.rows, key) == Left(end.ops[s.value], key))
      && (s.None? ==> LiveAt(end.book.rows, key) == LiveAt(d.book.rows, key))
  {
    if moves != [] {
      var init, last := moves[..|moves| - 1], moves[|moves| - 1];
      StoreIsLast(d, init, key);
      if last.Begin? { StoreStep(After(d, init).book.rows, last.op, key); }
    }
  }

  lemma {:induction false} CacheIsLast(d: Desk, moves: seq<Move>, key: string)
    requires DeskOk(d)
    ensures var end, c := After(d, moves), LastCached(d, moves, key);
      && (c.Some? ==> c.value < |end.ops| && CachedAt(end.book.cache, key) == Left(end.ops[c.value], key))
      && (c.None? ==> CachedAt(end.book.cache, key) == CachedAt(d.book.cache, key))
  {
    if moves != [] {
      var init, last := moves[..|moves| - 1], moves[|moves| - 1];
      CacheIsLast(d, init, key);
      AfterOk(d, init);
      if last.Finish? && last.i in After(d, init).pending {
        CacheStep(After(d, init).book.cache, After(d, init), last.i, key);
      }
    }
  }

  // --- a key that is not minted ---

  /** Some pending operation will take this out of the cache. */
  ghost predicate Doomed(d: Desk, key: string) {
    exists i :: i in d.pending && Caches(d.book.cache, d.pending[i], key)
  }

  /** Nobody but `g` is found under the key, what is live is cached, and what is cached is live or
      doomed, but not both. */
  ghost predicate CaughtUp(d: Desk, key: string, g: Option<Grant>) {
    var rows, cache := d.book.rows, d.book.cache;
    && (key in rows ==> g == Some(Grant(rows[key].participant, rows[key].campaign)))
    && (key in cache ==> g == Some(cache[key]))
    && (LiveAt(rows, key).Some? ==> key in cache && !Doomed(d, key))
    && (key in cache && LiveAt(rows, key) == None ==> Doomed(d, key))
    && (forall i :: i in d.pending && d.pending[i].Write? ==> d.pending[i].key != key)
  }

  lemma BeginCatchesUp(d: Desk, op: Op, key: string, g: Option<Grant>)
    requires DeskOk(d) && CaughtUp(d, key, g) && !(op.Mint? && op.key == key)
    ensures CaughtUp(Do(d, Begin(op)), key, g)
  {
    var e := Do(d, Begin(op));
    var n := |d.ops|;
    assert n !in d.pending;
    StoreStep(d.book.rows, op, key);
    assert forall i :: i in d.pending ==> i in e.pending && e.pending[i] == d.pending[i];
    assert Doomed(d, key) ==> Doomed(e, key);
    if key in d.book.cache && LiveAt(d.book.rows, key).Some? && LiveAt(e.book.rows, key) == None {
      assert Caches(e.book.cache, e.pending[n], key);
    }
  }

  lemma FinishCatchesUp(d: Desk, i: nat, key: string, g: Option<Grant>)
    requires DeskOk(d) && CaughtUp(d, key, g) && i in d.pending
    ensures CaughtUp(Do(d, Finish(i)), key, g)
  {
    var e := Do(d, Finish(i));
    CacheStep(d.book.cache, d, i, key);
    if !Caches(d.book.cache, d.pending[i], key) && Doomed(d, key) {
      var j :| j in d.pending && Caches(d.book.cache, d.pending[j], key);
      assert j in e.pending && Caches(e.book.cache, e.pending[j], key);
    }
  }

  predicate Mints(m: Move, key: string) {
    m.Begin? && m.op.Mint? && m.op.key == key
  }

  ghost predicate NeverMints(moves: seq<Move>, key: string) {
    forall m :: m in moves ==> !Mints(m, key)
  }

  lemma {:induction false} UnmintedCatchesUp(d: Desk, moves: seq<Move>, key: string, g: Option<Grant>)
    requires DeskOk(d) && CaughtUp(d, key, g) && NeverMints(moves, key)
    ensures CaughtUp(After(d, moves), key, g)
  {
    if moves != [] {
      var init, last := moves[..|moves| - 1], moves[|moves| - 1];
      SplitLast(moves);
      UnmintedCatchesUp(d, init, key, g);
      AfterOk(d, init);
      if last.Begin? {
        assert !Mints(last, key);
        BeginCatchesUp(After(d, init), last.op, key, g);
      } else if last.i in After(d, init).pending {
        FinishCatchesUp(After(d, init), last.i, key, g);
      }
    }
  }

  lemma {:induction false} MintsAreBegun(d: Desk, moves: seq<Move>, key: string)
    requires forall i :: 0 <= i < |After(d, moves).ops| ==> !MintsKey(After(d, moves).ops, Some(i), key)
    ensures NeverMints(moves, key)
  {
    if moves != [] {
      var init, last := moves[..|moves| - 1], moves[|moves| - 1];
      SplitLast(moves);
      var before, end := After(d, init).ops, After(d, moves).ops;
      assert before <= end;
      forall i | 0 <= i < |before| ensures !MintsKey(before, Some(i), key) {
        assert !MintsKey(end, Some(i), key);
      }
      MintsAreBegun(d, init, key);
      if last.Begin? { assert !MintsKey(end, Some(|before|), key); }
    }
  }

  // --- when cache and store agree ---

  lemma OpeningAgrees(fixed: map<string, Id>, rows: map<string, Row>, key: string)
    ensures AgreesAt(Opening(fixed, rows).book, key) && DeskOk(Opening(fixed, rows))
    ensures key in Opening(fixed, rows).book.cache ==> key in rows
  {}

  lemma UnmintedAgrees(fixed: map<string, Id>, rows: map<string, Row>, moves: seq<Move>, key: string)
    requires NeverMints(moves, key)
    requires After(Opening(fixed, rows), moves).pending == map[]
    ensures AgreesAt(After(Opening(fixed, rows), moves).book, key)
  {
    var d := Opening(fixed, rows);
    OpeningAgrees(fixed, rows, key);
    var g := if key in rows then Some(Grant(rows[key].participant, rows[key].campaign)) else None;
    assert CaughtUp(d, key, g);
    UnmintedCatchesUp(d, moves, key, g);
  }

  lemma MintedAgreesIff(fixed: map<string, Id>, rows: map<string, Row>, moves: seq<Move>, key: string, m: nat)
    requires var ops := After(Opening(fixed, rows), moves).ops;
      FreshKeys(rows, ops) && m < |ops| && MintsKey(ops, Some(m), key)
    ensures AgreesAt(After(Opening(fixed, rows), moves).book, key) <==> LastTogether(Opening(fixed, rows), moves, key)
  {
    var d := Opening(fixed, rows);
    OpeningAgrees(fixed, rows, key);
    StoreIsLast(d, moves, key);
    CacheIsLast(d, moves, key);
    var ops := After(d, moves).ops;
    forall i | 0 <= i < |ops| && MintsKey(ops, Some(i), key) ensures i == m {}
  }

  /** Once nothing is pending, cache and store agree on a key exactly when the last store step and
      the last cache step that concerned it belong to the same operation, or neither to its
      minting. */
  lemma AgreesIffLastTogether(fixed: map<string, Id>, rows: map<string, Row>, moves: seq<Move>, key: string)
    requires FreshKeys(rows, After(Opening(fixed, rows), moves).ops)
    requires After(Opening(fixed, rows), moves).pending == map[]
    ensures AgreesAt(After(Opening(fixed, rows), moves).book, key) <==> LastTogether(Opening(fixed, rows), moves, key)
  {
    var d := Opening(fixed, rows);
    var ops := After(d, moves).ops;
    if m: nat :| m < |ops| && MintsKey(ops, Some(m), key) {
      MintedAgreesIff(fixed, rows, moves, key, m);
    } else {
      MintsAreBegun(d, moves, key);
      UnmintedAgrees(fixed, rows, moves, key);
      StoreIsLast(d, moves, key);
      CacheIsLast(d, moves, key);
    }
  }

  /** So exactly then does the process say of a token who it is for and where as the store would. */
  lemma CacheIsTheStore(h: Hash, fixed: map<string, Id>, rows: map<string, Row>, moves: seq<Move>, token: string)
    requires FreshKeys(rows, After(Opening(fixed, rows), moves).ops)
    requires After(Opening(fixed, rows), moves).pending == map[]
    ensures var b := After(Opening(fixed, rows), moves).book;
      && (token in fixed || token == "" ==> CampaignOf(h, b, token) == None)
      && (token == "" ==> Resolve(h, b, token) == None)
      && (token in fixed && token != "" ==> Resolve(h, b, token) == Some(fixed[token]))
      && (token !in fixed && token != "" ==>
            ((match LiveGrant(h, b, token)
              case None => Resolve(h, b, token) == None && CampaignOf(h, b, token) == None
              case Some(g) => Resolve(h, b, token) == Some(g.participant) && CampaignOf(h, b, token) == Some(g.campaign))
             <==> LastTogether(Opening(fixed, rows), moves, h(token))))
  {
    OpeningAgrees(fixed, rows, h(token));
    AfterOk(Opening(fixed, rows), moves);
    AgreesIffLastTogether(fixed, rows, moves, h(token));
  }

  /** And a process started anew on the same rows knows the same exactly when that holds of every
      key. */
  lemma RestartChangesNothingIff(fixed: map<string, Id>, rows: map<string, Row>, moves: seq<Move>)
    requires FreshKeys(rows, After(Opening(fixed, rows), moves).ops)
    requires After(Opening(fixed, rows), moves).pending == map[]
    ensures var b := After(Opening(fixed, rows), moves).book;
      Opening(fixed, b.rows).book == b <==> forall key :: LastTogether(Opening(fixed, rows), moves, key)
  {
    var b := After(Opening(fixed, rows), moves).book;
    OpeningAgrees(fixed, rows, "");
    AfterOk(Opening(fixed, rows), moves);
    forall key ensures AgreesAt(b, key) <==> LastTogether(Opening(fixed, rows), moves, key) {
      AgreesIffLastTogether(fixed, rows, moves, key);
    }
    AgreesEverywhere(b);
    assert map[] + LiveRows(b.rows) == LiveRows(b.rows);
  }

  lemma AgreesEverywhere(b: Book)
    ensures b.cache == LiveRows(b.rows) <==> forall key :: AgreesAt(b, key)
  {
    if forall key :: AgreesAt(b, key) {
      forall key ensures key in b.cache <==> key in LiveRows(b.rows) {
        assert AgreesAt(b, key);
      }
      forall key | key in b.cache ensures b.cache[key] == LiveRows(b.rows)[key] {
        assert AgreesAt(b, key);
      }
    }
  }

  /** A minting whose row is revoked or removed before its cache step: once everything is done the
      store says no, and the process still lets the token in. */
  lemma OvertakenMint(fixed: map<string, Id>, rows: map<string, Row>, key: string, p: Id, c: Id, op: Op)
    requires !op.Mint? && Stores(rows[key := Row(p, c, false)], op, key)
    ensures var end := After(Opening(fixed, rows), [Begin(Mint(key, p, c)), Begin(op), Finish(1), Finish(0)]);
      && end.pending == map[] && LiveAt(end.book.rows, key) == None && CachedAt(end.book.cache, key) == Some(Grant(p, c))
  {
    var d := Opening(fixed, rows);
    var moves := [Begin(Mint(key, p, c)), Begin(op), Finish(1), Finish(0)];
    assert moves[..3] == [Begin(Mint(key, p, c)), Begin(op), Finish(1)];
    assert moves[..3][..2] == [Begin(Mint(key, p, c)), Begin(op)];
    assert moves[..3][..2][..1] == [Begin(Mint(key, p, c))];
    assert moves[..3][..2][..1][..0] == [];
    var d1 := Do(d, Begin(Mint(key, p, c)));
    var d2 := Do(d1, Begin(op));
    assert After(d, moves[..3][..2][..1]) == d1;
    assert After(d, moves[..3][..2]) == d2;
    StoreStep(d1.book.rows, op, key);
    var d3 := Do(d2, Finish(1));
    assert d3.pending == map[0 := Write(key, Grant(p, c))];
    assert After(d, moves) == Do(d3, Finish(0));
  }

  /** The moves of operations that do not overlap. */
  function Serially(n: nat, ops: seq<Op>): seq<Move> {
    if ops == [] then [] else Serially(n, ops[..|ops| - 1]) + [Begin(ops[|ops| - 1]), Finish(n + |ops| - 1)]
  }

  lemma UndisturbedAgrees(d: Desk, op: Op)
    requires d.pending == map[] && d.book.cache == LiveRows(d.book.rows)
    ensures var e := Do(Do(d, Begin(op)), Finish(|d.ops|));
      && e.pending == map[] && e.book.cache == LiveRows(e.book.rows) && |e.ops| == |d.ops| + 1
  {
    var e := Do(Do(d, Begin(op)), Finish(|d.ops|));
    forall key ensures AgreesAt(e.book, key) {
      StoreStep(d.book.rows, op, key);
      CacheStep(d.book.cache, Do(d, Begin(op)), |d.ops|, key);
    }
    AgreesEverywhere(e.book);
  }

  /** What an operation leaves of a key's grant. */
  function Leaves(op: Op, key: string, g: Option<Grant>): Option<Grant> {
    match op
    case Mint(k, p, c) => if key == k then Some(Grant(p, c)) else g
    case Revoke(k) => if key == k then None else g
    case RevokeParticipant(p, c) => if g == Some(Grant(p, c)) then None else g
    case RemoveCampaigns(cs) => if g.Some? && g.value.campaign in cs then None else g
  }

  /** An operation nothing comes in between of: a minted key is granted, a revoked one and those of a
      revoked participant on that campaign and of removed campaigns are not, and every other key is
      as it was, in the store and in the cache. */
  lemma UndisturbedLeaves(d: Desk, op: Op, key: string)
    requires d.pending == map[] && d.book.cache == LiveRows(d.book.rows)
    ensures var e := Do(Do(d, Begin(op)), Finish(|d.ops|));
      && LiveAt(e.book.rows, key) == Leaves(op, key, LiveAt(d.book.rows, key))
      && CachedAt(e.book.cache, key) == Leaves(op, key, CachedAt(d.book.cache, key))
      && e.book.fixed == d.book.fixed
  {
    UndisturbedAgrees(d, op);
    OpeningAgrees(d.book.fixed, d.book.rows, key);
    if key in d.book.rows { assert d.book.rows[key] == Row(d.book.rows[key].participant, d.book.rows[key].campaign, d.book.rows[key].revoked); }
  }

  /** Operations that do not overlap keep cache and store the same throughout. */
  lemma {:induction false} SerialAgrees(d: Desk, ops: seq<Op>)
    requires d.pending == map[] && d.book.cache == LiveRows(d.book.rows)
    ensures var e := After(d, Serially(|d.ops|, ops));
      && e.pending == map[] && e.book.cache == LiveRows(e.book.rows) && |e.ops| == |d.ops| + |ops|
  {
    if ops != [] {
      var init, op := ops[..|ops| - 1], ops[|ops| - 1];
      SerialAgrees(d, init);
      var moves := Serially(|d.ops|, init);
      TwoMore(d, moves, Begin(op), Finish(|d.ops| + |init|));
      UndisturbedAgrees(After(d, moves), op);
    }
  }

  lemma TwoMore(d: Desk, moves: seq<Move>, m: Move, n: Move)
    ensures After(d, moves + [m, n]) == Do(Do(After(d, moves), m), n)
  {
    assert (moves + [m, n])[..|moves| + 1] == moves + [m] && (moves + [m])[..|moves|] == moves;
  }

  ghost predicate MintPending(d: Desk, key: string) {
    exists i :: i in d.pending && d.pending[i].Write? && d.pending[i].key == key
  }

  lemma {:induction false} StaysOut(d: Desk, moves: seq<Move>, key: string)
    requires DeskOk(d) && key !in d.book.cache && !MintPending(d, key) && NeverMints(moves, key)
    ensures key !in After(d, moves).book.cache && !MintPending(After(d, moves), key)
  {
    if moves != [] {
      var init, last := moves[..|moves| - 1], moves[|moves| - 1];
      SplitLast(moves);
      StaysOut(d, init, key);
      AfterOk(d, init);
      assert !Mints(last, key);
    }
  }

  /** A token that is out stays out for good, whatever happens but its own minting, exactly when no
      minting of it is waiting for its cache step. */
  lemma StaysOutIff(h: Hash, d: Desk, token: string)
    requires DeskOk(d) && token !in d.book.fixed && token != "" && h(token) !in d.book.cache
    ensures (forall moves: seq<Move> :: NeverMints(moves, h(token)) ==> Resolve(h, After(d, moves).book, token) == None)
            <==> !MintPending(d, h(token))
  {
    if i :| i in d.pending && d.pending[i].Write? && d.pending[i].key == h(token) {
      var moves := [Finish(i)];
      assert NeverMints(moves, h(token));
      assert moves[..0] == [] && After(d, moves) == Do(After(d, []), Finish(i)) == Do(d, Finish(i));
      assert Resolve(h, After(d, moves).book, token).Some?;
    } else {
      forall moves: seq<Move> | NeverMints(moves, h(token))
        ensures Resolve(h, After(d, moves).book, token) == None
      {
        StaysOut(d, moves, h(token));
        AfterOk(d, moves);
      }
    }
  }

  // --- the store and the registry in place ---

  class TokenStore {
    var rows: map<string, Row>

    constructor (rows: map<string, Row>)
      ensures this.rows == rows
    {
      this.rows := rows;
    }

    method MintToken(key: string, participant: Id, campaign: Id)
      modifies this
      ensures rows == old(rows)[key := Row(participant, campaign, false)]
    {
      rows := rows[key := Row(participant, campaign, false)];
    }

    method RevokeToken(key: string) returns (ok: bool)
      modifies this
      ensures rows == Revoking(old(rows), {key})
      ensures ok <==> key in old(rows) && !old(rows)[key].revoked
    {
      ok := key in rows && !rows[key].revoked;
      rows := Revoking(rows, {key});
    }

    method RevokeParticipantTokens(participant: Id, campaign: Id) returns (doomed: set<string>)
      modifies this
      ensures doomed == Held(old(rows), participant, campaign) && rows == Revoking(old(rows), doomed)
    {
      doomed := Held(rows, participant, campaign);
      rows := Revoking(rows, doomed);
    }

    method DeleteCampaigns(campaigns: set<Id>)
      modifies this
      ensures rows == Stored(old(rows), RemoveCampaigns(campaigns))
    {
      rows := map k | k in rows && rows[k].campaign !in campaigns :: rows[k];
    }
  }

  class TokenRegistry {
    const store: TokenStore?
    const fixed: map<string, Id>
    const admin: set<string>
    const hash: Hash
    var cache: map<string, Grant>
    /** What each operation now waiting for the store has still to do. */
    var pending: map<nat, Chore>
    var begun: nat
    ghost var ops: seq<Op>

    constructor (store: TokenStore?, fixed: map<string, Id>, admin: set<string>, hash: Hash)
      ensures this.store == store && this.fixed == fixed && this.admin == admin && this.hash == hash
      ensures Valid() && cache == map[] && pending == map[] && ops == []
    {
      this.store, this.fixed, this.admin, this.hash := store, fixed, admin, hash;
      cache, pending, begun, ops := map[], map[], 0, [];
    }

    ghost predicate Valid()
      reads this
    {
      begun == |ops|
    }

    function Books(): Book
      reads this, if store == null then {} else {store}
    {
      Book(fixed, cache, if store == null then map[] else store.rows)
    }

    ghost function State(): Desk
      reads this, if store == null then {} else {store}
    {
      Desk(Books(), ops, pending)
    }

    method Hydrate()
      modifies this`cache
      ensures Books() == Hydrated(old(Books()))
    {
      if store != null {
        var rest := LiveRows(store.rows);
        ghost var live := rest;
        ghost var before := cache;
        while rest != map[]
          invariant forall k :: k in rest ==> k in live && rest[k] == live[k]
          invariant cache == before + (live - rest.Keys)
          decreases rest.Keys
        {
          var k :| k in rest;
          cache := cache[k := rest[k]];
          rest := rest - {k};
        }
        assert live - {} == live;
      } else {
        assert cache + LiveRows(map[]) == cache;
      }
    }

    method ResolveToken(token: string) returns (r: Option<Id>)
      ensures r == Resolve(hash, Books(), token)
    {
      if token == "" {
        return None;
      }
      if token in fixed {
        return Some(fixed[token]);
      }
      var key := hash(token);
      r := if key in cache then Some(cache[key].participant) else None;
    }

    /** Up to the store: minting needs one; the token is the caller's fresh secret. */
    method BeginMint(token: string, participant: Id, campaign: Id) returns (minting: bool)
      requires Valid()
      modifies this`pending, this`begun, this`ops, store
      ensures Valid()
      ensures minting <==> store != null
      ensures State() == if minting then Do(old(State()), Begin(Mint(hash(token), participant, campaign))) else old(State())
    {
      if store == null {
        return false;
      }
      store.MintToken(hash(token), participant, campaign);
      pending := pending[begun := Write(hash(token), Grant(participant, campaign))];
      begun, ops := begun + 1, ops + [Mint(hash(token), participant, campaign)];
      minting := true;
    }

    /** Up to the store; `ok` is what the caller is told in the end. */
    method BeginRevoke(token: string) returns (ok: bool)
      requires Valid()
      modifies this`pending, this`begun, this`ops, store
      ensures Valid()
      ensures ok <==> LiveGrant(hash, old(Books()), token).Some?
      ensures State() == if store != null then Do(old(State()), Begin(Revoke(hash(token)))) else old(State())
    {
      if store == null {
        return false;
      }
      ok := store.RevokeToken(hash(token));
      pending := pending[begun := Evict({hash(token)})];
      begun, ops := begun + 1, ops + [Revoke(hash(token))];
    }

    method BeginRevokeParticipant(participant: Id, campaign: Id) returns (count: nat)
      requires Valid()
      modifies this`pending, this`begun, this`ops, store
      ensures Valid()
      ensures count == |Held(old(Books()).rows, participant, campaign)|
      ensures State() == if store != null then Do(old(State()), Begin(RevokeParticipant(participant, campaign))) else old(State())
    {
      if store == null {
        assert Held(map[], participant, campaign) == {};
        return 0;
      }
      var doomed := store.RevokeParticipantTokens(participant, campaign);
      pending := pending[begun := Evict(doomed)];
      begun, ops := begun + 1, ops + [RevokeParticipant(participant, campaign)];
      count := |doomed|;
    }

    /** The store deletes removed campaigns with their rows; the registry is then to forget them. */
    method BeginRemoval(campaigns: set<Id>)
      requires Valid() && store != null
      modifies this`pending, this`begun, this`ops, store
      ensures Valid()
      ensures State() == Do(old(State()), Begin(RemoveCampaigns(campaigns)))
    {
      store.DeleteCampaigns(campaigns);
      pending := pending[begun := Forget(campaigns)];
      begun, ops := begun + 1, ops + [RemoveCampaigns(campaigns)];
    }

    method ForgetCampaigns(campaigns: set<Id>) returns (count: nat)
      modifies this`cache
      ensures count == |Cached(old(cache), campaigns)| && cache == Done(old(cache), Forget(campaigns))
    {
      var doomed := Cached(cache, campaigns);
      cache := cache - doomed;
      count := |doomed|;
    }

    /** The operation resumes and writes the cache. */
    method Complete(i: nat)
      requires i in pending
      modifies this`cache, this`pending
      ensures State() == Do(old(State()), Finish(i))
    {
      match pending[i] {
        case Write(key, grant) => cache := cache[key := grant];
        case Evict(keys) => cache := cache - keys;
        case Forget(campaigns) => var count := ForgetCampaigns(campaigns);
      }
      pending := pending - {i};
    }
  }
}
