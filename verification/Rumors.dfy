/** Belief spreading from witnesses along acquaintance, losing confidence at every hop. */
module Rumors {
  import opened Common

  /** `actor` came to believe it `hop` retellings from a witness, from `source`. */
  datatype Hearing = Hearing(actor: Id, hop: nat, source: Option<Id>)

  const BASE := 0.9
  const DECAY := 0.55
  const FLOOR := 0.2
  const MAX_HOPS := 4

  function RoundedTo3(x: real): real {
    ((x * 1000.0 + 0.5).Floor as real) / 1000.0
  }

  function Confidence(hop: nat): real {
    if hop == 0 then BASE else RoundedTo3(Confidence(hop - 1) * DECAY)
  }

  predicate Heard(heard: seq<Hearing>, actor: Id) {
    exists i :: 0 <= i < |heard| && heard[i].actor == actor
  }

  /** Direct observation, each witness once. */
  function Witnessed(ws: seq<Id>): seq<Hearing> {
    if ws == [] then []
    else
      var earlier := Witnessed(ws[..|ws| - 1]);
      if Heard(earlier, ws[|ws| - 1]) then earlier else earlier + [Hearing(ws[|ws| - 1], 0, None)]
  }

  /** `src` tells the acquaintances who have not heard; the first to tell wins. */
  function Told(heard: seq<Hearing>, src: Hearing, friends: seq<Id>): seq<Hearing>
    decreases |friends|
  {
    if friends == [] then heard
    else if Heard(heard, friends[0]) then Told(heard, src, friends[1..])
    else Told(heard + [Hearing(friends[0], src.hop + 1, Some(src.actor))], src, friends[1..])
  }

  function Acquaintances(knows: map<Id, seq<Id>>, a: Id): seq<Id> {
    if a in knows then knows[a] else []
  }

  /** One round: everyone on the frontier retells, unless it would fall below the floor. */
  function Hop(knows: map<Id, seq<Id>>, heard: seq<Hearing>, frontier: seq<Hearing>): seq<Hearing>
    decreases |frontier|
  {
    if frontier == [] then heard
    else if Confidence(frontier[0].hop + 1) < FLOOR then Hop(knows, heard, frontier[1..])
    else Hop(knows, Told(heard, frontier[0], Acquaintances(knows, frontier[0].actor)), frontier[1..])
  }

  function Spread(knows: map<Id, seq<Id>>, heard: seq<Hearing>, lo: nat, hops: nat): seq<Hearing>
    decreases hops
  {
    if hops == 0 || lo >= |heard| then heard
    else Spread(knows, Hop(knows, heard, heard[lo..]), |heard|, hops - 1)
  }

  /** Everyone who comes to believe a claim its witnesses saw, in the order they hear of it. */
  function Cascade(knows: map<Id, seq<Id>>, ws: seq<Id>): seq<Hearing> {
    Spread(knows, Witnessed(ws), 0, MAX_HOPS)
  }

  ghost predicate HeardOnce(heard: seq<Hearing>) {
    forall i, j :: 0 <= i < j < |heard| ==> heard[i].actor != heard[j].actor
  }

  /** `s` is a retelling of something heard earlier in the list, one hop nearer a witness. */
  ghost predicate Traced(knows: map<Id, seq<Id>>, ws: seq<Id>, heard: seq<Hearing>, i: nat)
    requires i < |heard|
  {
    match heard[i].source
    case None => heard[i].hop == 0 && heard[i].actor in ws
    case Some(s) => exists j :: 0 <= j < i && heard[j].actor == s && heard[i].hop == heard[j].hop + 1
                                && heard[i].actor in Acquaintances(knows, s)
  }

  /** Nobody hears twice, every source leads back towards a witness, and nothing is believed
      below the floor. */
  ghost predicate IsTree(knows: map<Id, seq<Id>>, ws: seq<Id>, heard: seq<Hearing>) {
    && HeardOnce(heard)
    && (forall i :: 0 <= i < |heard| ==> Traced(knows, ws, heard, i))
    && (forall i :: 0 <= i < |heard| ==> Confidence(heard[i].hop) >= FLOOR)
  }

  lemma {:induction false} WitnessedIsTree(knows: map<Id, seq<Id>>, ws: seq<Id>)
    ensures IsTree(knows, ws, Witnessed(ws))
  {
    if ws != [] {
      WitnessedIsTree(knows, ws[..|ws| - 1]);
      var earlier, all := Witnessed(ws[..|ws| - 1]), Witnessed(ws);
      forall i | 0 <= i < |all| ensures Traced(knows, ws, all, i) {
        if i < |earlier| {
          assert Traced(knows, ws[..|ws| - 1], earlier, i);
          assert all[i] == earlier[i];
          assert all[i].source == None by {
            if all[i].source.Some? { WitnessedSources(ws[..|ws| - 1], i); }
          }
        }
      }
    }
  }

  lemma {:induction false} WitnessedSources(ws: seq<Id>, i: nat)
    requires i < |Witnessed(ws)|
    ensures Witnessed(ws)[i].source == None
  {
    if i < |Witnessed(ws[..|ws| - 1])| { WitnessedSources(ws[..|ws| - 1], i); }
  }

  lemma {:induction false} ToldIsTree(
      knows: map<Id, seq<Id>>, ws: seq<Id>, heard: seq<Hearing>, src: Hearing, friends: seq<Id>)
    requires IsTree(knows, ws, heard) && src in heard
    requires Confidence(src.hop + 1) >= FLOOR
    requires forall f :: f in friends ==> f in Acquaintances(knows, src.actor)
    ensures IsTree(knows, ws, Told(heard, src, friends)) && heard <= Told(heard, src, friends)
    decreases |friends|
  {
    if friends != [] {
      var f := friends[0];
      if Heard(heard, f) {
        ToldIsTree(knows, ws, heard, src, friends[1..]);
      } else {
        var more := heard + [Hearing(f, src.hop + 1, Some(src.actor))];
        OneMoreIsTree(knows, ws, heard, src, f);
        assert src in more;
        ToldIsTree(knows, ws, more, src, friends[1..]);
      }
    }
  }

  lemma OneMoreIsTree(knows: map<Id, seq<Id>>, ws: seq<Id>, heard: seq<Hearing>, src: Hearing, f: Id)
    requires IsTree(knows, ws, heard) && src in heard && !Heard(heard, f)
    requires Confidence(src.hop + 1) >= FLOOR && f in Acquaintances(knows, src.actor)
    ensures IsTree(knows, ws, heard + [Hearing(f, src.hop + 1, Some(src.actor))])
  {
    var more := heard + [Hearing(f, src.hop + 1, Some(src.actor))];
    forall i | 0 <= i < |more| ensures Traced(knows, ws, more, i) {
      if i < |heard| {
        assert Traced(knows, ws, heard, i);
        if heard[i].source.Some? {
          var j :| 0 <= j < i && heard[j].actor == heard[i].source.value && heard[i].hop == heard[j].hop + 1;
          assert more[j] == heard[j];
        }
      } else {
        var j :| 0 <= j < |heard| && heard[j] == src;
        assert more[j].actor == src.actor;
      }
    }
  }

  lemma {:induction false} HopIsTree(
      knows: map<Id, seq<Id>>, ws: seq<Id>, heard: seq<Hearing>, frontier: seq<Hearing>)
    requires IsTree(knows, ws, heard) && forall h :: h in frontier ==> h in heard
    ensures IsTree(knows, ws, Hop(knows, heard, frontier)) && heard <= Hop(knows, heard, frontier)
    decreases |frontier|
  {
    if frontier != [] {
      var next := heard;
      if Confidence(frontier[0].hop + 1) >= FLOOR {
        ToldIsTree(knows, ws, heard, frontier[0], Acquaintances(knows, frontier[0].actor));
        next := Told(heard, frontier[0], Acquaintances(knows, frontier[0].actor));
      }
      assert forall h :: h in heard ==> h in next;
      HopIsTree(knows, ws, next, frontier[1..]);
    }
  }

  lemma {:induction false} SpreadIsTree(knows: map<Id, seq<Id>>, ws: seq<Id>, heard: seq<Hearing>, lo: nat, hops: nat)
    requires IsTree(knows, ws, heard)
    ensures IsTree(knows, ws, Spread(knows, heard, lo, hops))
    decreases hops
  {
    if hops > 0 && lo < |heard| {
      HopIsTree(knows, ws, heard, heard[lo..]);
      SpreadIsTree(knows, ws, Hop(knows, heard, heard[lo..]), |heard|, hops - 1);
    }
  }

  /** The cascade is a finite tree rooted at the witnesses. */
  lemma CascadeIsTree(knows: map<Id, seq<Id>>, ws: seq<Id>)
    ensures IsTree(knows, ws, Cascade(knows, ws))
    ensures forall i :: 0 <= i < |Cascade(knows, ws)| ==> Cascade(knows, ws)[i].hop <= MAX_HOPS
  {
    WitnessedIsTree(knows, ws);
    SpreadIsTree(knows, ws, Witnessed(ws), 0, MAX_HOPS);
    CascadeFinishes(knows, ws);
  }

  // --- who must hear ---

  /** At most `n` acquaintances away from a witness. */
  ghost predicate Within(knows: map<Id, seq<Id>>, ws: seq<Id>, a: Id, n: nat)
    decreases n
  {
    if n == 0 then a in ws
    else Within(knows, ws, a, n - 1) || exists s :: Within(knows, ws, s, n - 1) && a in Acquaintances(knows, s)
  }

  predicate HeardBy(heard: seq<Hearing>, a: Id, n: nat) {
    exists i :: 0 <= i < |heard| && heard[i].actor == a && heard[i].hop <= n
  }

  predicate NoneBeyond(heard: seq<Hearing>, n: nat) {
    forall i :: 0 <= i < |heard| ==> heard[i].hop <= n
  }

  /** `h` has told everyone it could. */
  predicate Passed(knows: map<Id, seq<Id>>, heard: seq<Hearing>, h: Hearing) {
    Confidence(h.hop + 1) >= FLOOR ==>
      forall f :: f in Acquaintances(knows, h.actor) ==> HeardBy(heard, f, h.hop + 1)
  }

  lemma StillHeardBy(heard: seq<Hearing>, more: seq<Hearing>, a: Id, n: nat)
    requires heard <= more && HeardBy(heard, a, n)
    ensures HeardBy(more, a, n)
  {
    var i :| 0 <= i < |heard| && heard[i].actor == a && heard[i].hop <= n;
    assert more[i] == heard[i];
  }

  lemma StillPassed(knows: map<Id, seq<Id>>, heard: seq<Hearing>, more: seq<Hearing>, h: Hearing)
    requires heard <= more && Passed(knows, heard, h)
    ensures Passed(knows, more, h)
  {
    if Confidence(h.hop + 1) >= FLOOR {
      forall f | f in Acquaintances(knows, h.actor) ensures HeardBy(more, f, h.hop + 1) {
        StillHeardBy(heard, more, f, h.hop + 1);
      }
    }
  }

  lemma {:induction false} ToldReaches(heard: seq<Hearing>, src: Hearing, friends: seq<Id>)
    requires NoneBeyond(heard, src.hop + 1)
    ensures var out := Told(heard, src, friends);
      && heard <= out && NoneBeyond(out, src.hop + 1)
      && (forall i :: |heard| <= i < |out| ==> out[i].hop == src.hop + 1)
      && (forall f :: f in friends ==> HeardBy(out, f, src.hop + 1))
    decreases |friends|
  {
    if friends != [] {
      var f, out := friends[0], Told(heard, src, friends);
      var next := if Heard(heard, f) then heard else heard + [Hearing(f, src.hop + 1, Some(src.actor))];
      ToldReaches(next, src, friends[1..]);
      assert HeardBy(next, f, src.hop + 1) by {
        if !Heard(heard, f) { assert next[|heard|].actor == f; }
      }
      StillHeardBy(next, out, f, src.hop + 1);
      forall g | g in friends ensures HeardBy(out, g, src.hop + 1) {
        if g != f { assert g in friends[1..]; }
      }
    }
  }

  lemma {:induction false} HopReaches(knows: map<Id, seq<Id>>, heard: seq<Hearing>, frontier: seq<Hearing>, k: nat)
    requires NoneBeyond(heard, k + 1) && forall h :: h in frontier ==> h.hop == k
    ensures var out := Hop(knows, heard, frontier);
      && heard <= out && NoneBeyond(out, k + 1)
      && (forall i :: |heard| <= i < |out| ==> out[i].hop == k + 1)
      && (forall h :: h in frontier ==> Passed(knows, out, h))
    decreases |frontier|
  {
    if frontier != [] {
      var h, out := frontier[0], Hop(knows, heard, frontier);
      var next := heard;
      if Confidence(h.hop + 1) >= FLOOR {
        ToldReaches(heard, h, Acquaintances(knows, h.actor));
        next := Told(heard, h, Acquaintances(knows, h.actor));
      }
      HopReaches(knows, next, frontier[1..], k);
      assert Passed(knows, next, h);
      StillPassed(knows, next, out, h);
      forall g | g in frontier ensures Passed(knows, out, g) {
        if g != h { assert g in frontier[1..]; }
      }
    }
  }

  /** Everyone has told whom they could, but those who heard at the last hop. */
  ghost predicate Finished(knows: map<Id, seq<Id>>, heard: seq<Hearing>) {
    forall i :: 0 <= i < |heard| ==> heard[i].hop <= MAX_HOPS && (heard[i].hop < MAX_HOPS ==> Passed(knows, heard, heard[i]))
  }

  lemma {:induction false} SpreadFinishes(knows: map<Id, seq<Id>>, heard: seq<Hearing>, lo: nat, hops: nat)
    requires lo <= |heard| && hops <= MAX_HOPS && NoneBeyond(heard, MAX_HOPS - hops)
    requires forall i :: lo <= i < |heard| ==> heard[i].hop == MAX_HOPS - hops
    requires forall i :: 0 <= i < lo ==> Passed(knows, heard, heard[i])
    ensures heard <= Spread(knows, heard, lo, hops) && Finished(knows, Spread(knows, heard, lo, hops))
    decreases hops
  {
    if hops > 0 && lo < |heard| {
      var out := Hop(knows, heard, heard[lo..]);
      HopReaches(knows, heard, heard[lo..], MAX_HOPS - hops);
      forall i | 0 <= i < |heard| ensures Passed(knows, out, out[i]) {
        if i < lo { StillPassed(knows, heard, out, heard[i]); } else { assert heard[i] in heard[lo..]; }
      }
      SpreadFinishes(knows, out, |heard|, hops - 1);
    }
  }

  lemma {:induction false} WitnessesHear(ws: seq<Id>)
    ensures NoneBeyond(Witnessed(ws), 0) && forall a :: a in ws ==> HeardBy(Witnessed(ws), a, 0)
  {
    if ws != [] {
      var earlier, all := Witnessed(ws[..|ws| - 1]), Witnessed(ws);
      WitnessesHear(ws[..|ws| - 1]);
      forall a | a in ws ensures HeardBy(all, a, 0) {
        if a in ws[..|ws| - 1] {
          StillHeardBy(earlier, all, a, 0);
        } else if !Heard(earlier, a) {
          assert all[|earlier|].actor == a;
        }
      }
    }
  }

  lemma CascadeFinishes(knows: map<Id, seq<Id>>, ws: seq<Id>)
    ensures Witnessed(ws) <= Cascade(knows, ws) && Finished(knows, Cascade(knows, ws))
  {
    WitnessesHear(ws);
    SpreadFinishes(knows, Witnessed(ws), 0, MAX_HOPS);
  }

  lemma ConfidenceFades()
    ensures Confidence(0) == 0.9 && Confidence(1) == 0.495 && Confidence(2) == 0.272 && Confidence(3) == 0.15
    ensures Confidence(4) < 0.2
    ensures forall n: nat :: Believable(n) <==> n <= 2
  {
    assert Confidence(0) == 0.9;
    assert Confidence(1) == RoundedTo3(0.495);
    assert Confidence(2) == RoundedTo3(0.27225);
    assert Confidence(3) == RoundedTo3(0.1496);
  }

  /** Believed at this hop: not below the floor, and not beyond the last hop. */
  predicate Believable(n: nat) {
    n <= MAX_HOPS && Confidence(n) >= FLOOR
  }

  lemma EarlierIsBelievable(n: nat, k: nat)
    requires Believable(n) && k <= n
    ensures Believable(k)
  {
    ConfidenceFades();
  }

  lemma FriendHears(knows: map<Id, seq<Id>>, heard: seq<Hearing>, s: Id, a: Id, n: nat)
    requires Finished(knows, heard) && Believable(n) && n > 0 && HeardBy(heard, s, n - 1) && a in Acquaintances(knows, s)
    ensures HeardBy(heard, a, n)
  {
    var i :| 0 <= i < |heard| && heard[i].actor == s && heard[i].hop <= n - 1;
    EarlierIsBelievable(n, heard[i].hop + 1);
    assert Passed(knows, heard, heard[i]) && HeardBy(heard, a, heard[i].hop + 1);
  }

  lemma {:induction false} ReachableHear(knows: map<Id, seq<Id>>, ws: seq<Id>, a: Id, n: nat)
    requires Believable(n) && Within(knows, ws, a, n)
    ensures HeardBy(Cascade(knows, ws), a, n)
    decreases n
  {
    var heard := Cascade(knows, ws);
    CascadeFinishes(knows, ws);
    if n == 0 {
      WitnessesHear(ws);
      StillHeardBy(Witnessed(ws), heard, a, 0);
    } else {
      EarlierIsBelievable(n, n - 1);
      if Within(knows, ws, a, n - 1) {
        ReachableHear(knows, ws, a, n - 1);
      } else {
        var s :| Within(knows, ws, s, n - 1) && a in Acquaintances(knows, s);
        ReachableHear(knows, ws, s, n - 1);
        FriendHears(knows, heard, s, a, n);
      }
    }
  }

  lemma {:induction false} HearersAreReachable(knows: map<Id, seq<Id>>, ws: seq<Id>, heard: seq<Hearing>, i: nat)
    requires IsTree(knows, ws, heard) && i < |heard|
    ensures Within(knows, ws, heard[i].actor, heard[i].hop)
    decreases i
  {
    assert Traced(knows, ws, heard, i);
    if heard[i].source.Some? {
      var j :| 0 <= j < i && heard[j].actor == heard[i].source.value && heard[i].hop == heard[j].hop + 1
               && heard[i].actor in Acquaintances(knows, heard[j].actor);
      HearersAreReachable(knows, ws, heard, j);
    }
  }

  /** Somebody hears within `n` hops exactly when some witness is at most `n` acquaintances away; so
      whoever hears does so at the least hop, as long as that is believable, and all such hear. */
  lemma HeardIffReachable(knows: map<Id, seq<Id>>, ws: seq<Id>, a: Id, n: nat)
    requires Believable(n)
    ensures HeardBy(Cascade(knows, ws), a, n) <==> Within(knows, ws, a, n)
  {
    var heard := Cascade(knows, ws);
    CascadeIsTree(knows, ws);
    if Within(knows, ws, a, n) {
      ReachableHear(knows, ws, a, n);
    } else if HeardBy(heard, a, n) {
      var i :| 0 <= i < |heard| && heard[i].actor == a && heard[i].hop <= n;
      HearersAreReachable(knows, ws, heard, i);
      WithinMore(knows, ws, a, heard[i].hop, n);
    }
  }

  lemma {:induction false} WithinMore(knows: map<Id, seq<Id>>, ws: seq<Id>, a: Id, k: nat, n: nat)
    requires Within(knows, ws, a, k) && k <= n
    ensures Within(knows, ws, a, n)
    decreases n
  {
    if k < n { WithinMore(knows, ws, a, k, n - 1); }
  }

  // --- whom it is heard from ---

  /** Nobody who heard before `j` knows `a`. */
  predicate NobodyEarlier(knows: map<Id, seq<Id>>, heard: seq<Hearing>, j: int, a: Id)
    requires j <= |heard|
  {
    forall k :: 0 <= k < j ==> a !in Acquaintances(knows, heard[k].actor)
  }

  /** Everybody who was told was told by the first to hear of those who know them. */
  ghost predicate FirstToldBy(knows: map<Id, seq<Id>>, heard: seq<Hearing>) {
    forall i :: 0 <= i < |heard| && heard[i].source.Some? ==>
      exists j :: 0 <= j < i && heard[j].actor == heard[i].source.value && heard[i].actor in Acquaintances(knows, heard[j].actor)
                  && NobodyEarlier(knows, heard, j, heard[i].actor)
  }

  lemma NobodyEarlierStill(knows: map<Id, seq<Id>>, heard: seq<Hearing>, more: seq<Hearing>, j: int, a: Id)
    requires heard <= more && 0 <= j <= |heard| && NobodyEarlier(knows, heard, j, a)
    ensures NobodyEarlier(knows, more, j, a)
  {
    forall k | 0 <= k < j ensures a !in Acquaintances(knows, more[k].actor) { assert more[k] == heard[k]; }
  }

  lemma OneMoreFirst(knows: map<Id, seq<Id>>, heard: seq<Hearing>, j: nat, h: Hearing)
    requires FirstToldBy(knows, heard) && j < |heard| && h.source == Some(heard[j].actor)
    requires h.actor in Acquaintances(knows, heard[j].actor) && NobodyEarlier(knows, heard, j, h.actor)
    ensures FirstToldBy(knows, heard + [h])
  {
    var more := heard + [h];
    forall i | 0 <= i < |more| && more[i].source.Some?
      ensures exists k :: 0 <= k < i && more[k].actor == more[i].source.value
                && more[i].actor in Acquaintances(knows, more[k].actor) && NobodyEarlier(knows, more, k, more[i].actor)
    {
      if i < |heard| {
        assert heard[i] == more[i];
        var k :| 0 <= k < i && heard[k].actor == heard[i].source.value
                 && heard[i].actor in Acquaintances(knows, heard[k].actor) && NobodyEarlier(knows, heard, k, heard[i].actor);
        NobodyEarlierStill(knows, heard, more, k, heard[i].actor);
        assert more[k] == heard[k];
      } else {
        NobodyEarlierStill(knows, heard, more, j, h.actor);
        assert more[j] == heard[j];
      }
    }
  }

  /** Whoever is still to be told is known to none who has told everyone. */
  lemma PassedOver(knows: map<Id, seq<Id>>, heard: seq<Hearing>, j: nat, a: Id)
    requires j < |heard| && Believable(heard[j].hop + 1) && !Heard(heard, a)
    requires forall k :: 0 <= k < j ==> heard[k].hop <= heard[j].hop && Passed(knows, heard, heard[k])
    ensures NobodyEarlier(knows, heard, j, a)
  {
    forall k | 0 <= k < j ensures a !in Acquaintances(knows, heard[k].actor) {
      EarlierIsBelievable(heard[j].hop + 1, heard[k].hop + 1);
      assert Passed(knows, heard, heard[k]) && !HeardBy(heard, a, heard[k].hop + 1);
    }
  }

  lemma {:induction false} ToldFirst(knows: map<Id, seq<Id>>, heard: seq<Hearing>, j: nat, friends: seq<Id>)
    requires FirstToldBy(knows, heard) && j < |heard| && Believable(heard[j].hop + 1)
    requires forall k :: 0 <= k < j ==> heard[k].hop <= heard[j].hop && Passed(knows, heard, heard[k])
    requires forall f :: f in friends ==> f in Acquaintances(knows, heard[j].actor)
    ensures heard <= Told(heard, heard[j], friends) && FirstToldBy(knows, Told(heard, heard[j], friends))
    decreases |friends|
  {
    if friends != [] {
      if Heard(heard, friends[0]) {
        ToldFirst(knows, heard, j, friends[1..]);
      } else {
        var h := Hearing(friends[0], heard[j].hop + 1, Some(heard[j].actor));
        PassedOver(knows, heard, j, friends[0]);
        OneMoreFirst(knows, heard, j, h);
        forall k | 0 <= k < j ensures Passed(knows, heard + [h], heard[k]) {
          StillPassed(knows, heard, heard + [h], heard[k]);
        }
        ToldFirst(knows, heard + [h], j, friends[1..]);
      }
    }
  }

  lemma SameSlice(heard: seq<Hearing>, more: seq<Hearing>, lo: nat, hi: nat)
    requires heard <= more && lo <= hi <= |heard|
    ensures heard[lo..hi] == more[lo..hi]
  {}

  lemma {:induction false} HopFirst(knows: map<Id, seq<Id>>, heard: seq<Hearing>, lo: nat, hi: nat, k: nat)
    requires FirstToldBy(knows, heard) && lo <= hi <= |heard| && k < MAX_HOPS && NoneBeyond(heard, k + 1)
    requires forall i :: 0 <= i < hi ==> heard[i].hop <= k
    requires forall i :: lo <= i < hi ==> heard[i].hop == k
    requires forall i :: 0 <= i < lo ==> Passed(knows, heard, heard[i])
    ensures FirstToldBy(knows, Hop(knows, heard, heard[lo..hi]))
    decreases hi - lo
  {
    if lo < hi {
      var next := heard;
      if Confidence(heard[lo].hop + 1) >= FLOOR {
        ToldFirst(knows, heard, lo, Acquaintances(knows, heard[lo].actor));
        ToldReaches(heard, heard[lo], Acquaintances(knows, heard[lo].actor));
        next := Told(heard, heard[lo], Acquaintances(knows, heard[lo].actor));
      }
      assert heard[lo..hi][0] == heard[lo] && heard[lo..hi][1..] == heard[lo + 1..hi];
      SameSlice(heard, next, lo + 1, hi);
      forall i | 0 <= i < lo + 1 ensures Passed(knows, next, next[i]) {
        if i < lo { StillPassed(knows, heard, next, heard[i]); }
      }
      HopFirst(knows, next, lo + 1, hi, k);
    }
  }

  lemma {:induction false} SpreadFirst(knows: map<Id, seq<Id>>, heard: seq<Hearing>, lo: nat, hops: nat)
    requires FirstToldBy(knows, heard)
    requires lo <= |heard| && hops <= MAX_HOPS && NoneBeyond(heard, MAX_HOPS - hops)
    requires forall i :: lo <= i < |heard| ==> heard[i].hop == MAX_HOPS - hops
    requires forall i :: 0 <= i < lo ==> Passed(knows, heard, heard[i])
    ensures FirstToldBy(knows, Spread(knows, heard, lo, hops))
    decreases hops
  {
    if hops > 0 && lo < |heard| {
      var out := Hop(knows, heard, heard[lo..]);
      assert heard[lo..] == heard[lo..|heard|];
      HopFirst(knows, heard, lo, |heard|, MAX_HOPS - hops);
      HopReaches(knows, heard, heard[lo..], MAX_HOPS - hops);
      forall i | 0 <= i < |heard| ensures Passed(knows, out, out[i]) {
        if i < lo { StillPassed(knows, heard, out, heard[i]); } else { assert heard[i] in heard[lo..]; }
      }
      SpreadFirst(knows, out, |heard|, hops - 1);
    }
  }

  /** The first to hear wins: everybody is told by the earliest hearer who knows them. */
  lemma FirstHearerWins(knows: map<Id, seq<Id>>, ws: seq<Id>)
    ensures FirstToldBy(knows, Cascade(knows, ws))
  {
    WitnessesHear(ws);
    forall i | 0 <= i < |Witnessed(ws)| ensures Witnessed(ws)[i].source == None { WitnessedSources(ws, i); }
    SpreadFirst(knows, Witnessed(ws), 0, MAX_HOPS);
  }
}
