/** The bounded table of which campaigns were told about which commit. */
module Announcements {
  import opened Common

  /** `order`: the commits in the table, first announced first; `seen`: who was told of each. */
  datatype Table = Table(order: seq<Id>, seen: map<Id, set<Id>>, cap: nat)

  predicate Told(t: Table, x: Id, c: Id) {
    x in t.seen && c in t.seen[x]
  }

  /** The oldest entries go until `cap` are left. */
  function Trimmed(t: Table): Table
    decreases |t.order|
  {
    if |t.order| <= t.cap then t
    else Trimmed(t.(order := t.order[1..], seen := t.seen - {t.order[0]}))
  }

  function Noted(t: Table, x: Id, c: Id): Table {
    if x in t.seen then t.(seen := t.seen[x := t.seen[x] + {c}])
    else t.(order := t.order + [x], seen := t.seen[x := {c}])
  }

  /** One announcement. Announcing a commit again does not make it newer. */
  function Added(t: Table, x: Id, c: Id): Table {
    if x == "" then t else Trimmed(Noted(t, x, c))
  }

  ghost predicate TableOk(t: Table) {
    && NoDup(t.order)
    && (forall x :: x in t.order <==> x in t.seen)
    && |t.order| <= t.cap
  }

  function Empty(cap: nat): Table {
    Table([], map[], cap)
  }

  class Announced {
    var order: seq<Id>
    var seen: map<Id, set<Id>>
    const cap: nat

    constructor (cap: nat := 65536)
      ensures State() == Empty(cap)
    {
      order, seen := [], map[];
      this.cap := cap;
    }

    function State(): Table
      reads this
    {
      Table(order, seen, cap)
    }

    method Add(commit: Option<Id>, campaign: Id)
      modifies this
      ensures State() == if commit == None then old(State()) else Added(old(State()), commit.value, campaign)
    {
      if commit == None || commit.value == "" {
        return;
      }
      var x := commit.value;
      if x !in seen {
        order, seen := order + [x], seen[x := {}];
      }
      seen := seen[x := seen[x] + {campaign}];
      assert State() == Noted(old(State()), x, campaign) by {
        assert {} + {campaign} == {campaign};
      }
      while |order| > cap
        invariant Trimmed(State()) == Trimmed(Noted(old(State()), x, campaign))
        decreases |order|
      {
        order, seen := order[1..], seen - {order[0]};
      }
    }

    method HasBeenTold(commit: Id, campaign: Id) returns (r: bool)
      ensures r == Told(State(), commit, campaign)
    {
      r := commit in seen && campaign in seen[commit];
    }
  }

  lemma TrimmedOnce(t: Table)
    requires |t.order| == t.cap + 1
    ensures Trimmed(t) == t.(order := t.order[1..], seen := t.seen - {t.order[0]})
  {}

  lemma AddKeepsOk(t: Table, x: Id, c: Id)
    requires TableOk(t)
    ensures TableOk(Added(t, x, c))
  {
    if x != "" && x !in t.seen {
      var u := Noted(t, x, c);
      NoDupExtended(t.order, x);
      if |u.order| > u.cap {
        TrimmedOnce(u);
        NoDupTail(u.order);
        assert forall y :: y in u.order <==> y == u.order[0] || y in u.order[1..];
      }
    }
  }

  /** What one announcement changes: it is told, unless there is no room at all, and nothing
      that was not told before becomes told. */
  lemma AddTells(t: Table, x: Id, c: Id)
    requires TableOk(t)
    ensures t.cap > 0 && x != "" ==> Told(Added(t, x, c), x, c)
    ensures forall y, d :: Told(Added(t, x, c), y, d) ==> Told(t, y, d) || (y == x && d == c)
  {
    if x != "" && x !in t.seen && |t.order| == t.cap {
      TrimmedOnce(Noted(t, x, c));
    }
  }

  // --- what the table remembers ---

  datatype Notice = Notice(commit: Id, campaign: Id)

  /** The table after a history of announcements. */
  function TableOf(cap: nat, history: seq<Notice>): Table {
    if history == [] then Empty(cap)
    else
      var last := history[|history| - 1];
      Added(TableOf(cap, history[..|history| - 1]), last.commit, last.campaign)
  }

  predicate Mentions(history: seq<Notice>, x: Id) {
    exists n :: n in history && n.commit == x
  }

  lemma {:induction false} TableOfOk(cap: nat, history: seq<Notice>)
    ensures TableOk(TableOf(cap, history)) && TableOf(cap, history).cap == cap
  {
    if history != [] {
      var before := TableOf(cap, history[..|history| - 1]);
      TableOfOk(cap, history[..|history| - 1]);
      AddKeepsOk(before, history[|history| - 1].commit, history[|history| - 1].campaign);
      TrimKeepsCap(Noted(before, history[|history| - 1].commit, history[|history| - 1].campaign));
    }
  }

  lemma {:induction false} TrimKeepsCap(t: Table)
    ensures Trimmed(t).cap == t.cap
    decreases |t.order|
  {
    if |t.order| > t.cap { TrimKeepsCap(t.(order := t.order[1..], seen := t.seen - {t.order[0]})); }
  }

  /** An announcement that brings a commit which is not in the table. */
  predicate Brings(t: Table, n: Notice) {
    n.commit != "" && n.commit !in t.seen
  }

  /** How many announcements of `after`, which follow `before`, bring a commit not then in the table. */
  function Brought(cap: nat, before: seq<Notice>, after: seq<Notice>): nat {
    if after == [] then 0
    else
      var init, last := after[..|after| - 1], after[|after| - 1];
      Brought(cap, before, init) + if Brings(TableOf(cap, before + init), last) then 1 else 0
  }

  /** The `i`th announcement of the history enters `x` in the table. */
  predicate EnteredAt(cap: nat, history: seq<Notice>, x: Id, i: nat)
    requires i < |history|
  {
    history[i].commit == x && Brings(TableOf(cap, history[..i]), history[i])
  }

  /** `x` is in the table, with `k` commits behind it. */
  predicate Before(t: Table, x: Id, k: int) {
    0 <= k < |t.order| && t.order[|t.order| - 1 - k] == x
  }

  lemma EntersLast(t: Table, n: Notice)
    requires TableOk(t) && Brings(t, n)
    ensures t.cap > 0 ==> Before(Added(t, n.commit, n.campaign), n.commit, 0)
    ensures t.cap == 0 ==> n.commit !in Added(t, n.commit, n.campaign).seen
  {
    if |t.order| == t.cap { TrimmedOnce(Noted(t, n.commit, n.campaign)); }
  }

  lemma NewcomerPushes(t: Table, x: Id, k: nat, n: Notice)
    requires TableOk(t) && Before(t, x, k) && Brings(t, n)
    ensures var u := Added(t, n.commit, n.campaign);
      if k + 1 < t.cap then Before(u, x, k + 1) else x !in u.seen
  {
    var u := Noted(t, n.commit, n.campaign);
    assert Before(u, x, k + 1);
    if |u.order| > u.cap {
      TrimmedOnce(u);
      if k + 1 < t.cap { assert u.order[1..][|u.order| - 1 - 1 - (k + 1)] == x; }
    }
  }

  /** Any other announcement leaves the order of the table as it is. */
  lemma OthersKeepOrder(t: Table, n: Notice)
    requires TableOk(t) && !Brings(t, n)
    ensures Added(t, n.commit, n.campaign).order == t.order
  {}

  lemma InitOf(before: seq<Notice>, after: seq<Notice>)
    requires after != []
    ensures (before + after)[..|before + after| - 1] == before + after[..|after| - 1]
    ensures (before + after)[|before + after| - 1] == after[|after| - 1]
  {}

  /** Since its entry `x` is in the table with as many commits behind it as were brought, until
      that many are `cap`: the announcement that brings the last of them drives `x` out. */
  lemma {:induction false} DrivenBack(cap: nat, before: seq<Notice>, x: Id, after: seq<Notice>)
    requires before != [] && EnteredAt(cap, before, x, |before| - 1)
    ensures var k := Brought(cap, before, after);
      && (k < cap ==> Before(TableOf(cap, before + after), x, k))
      && (k == cap && (after == [] || Brought(cap, before, after[..|after| - 1]) < cap) ==>
            x !in TableOf(cap, before + after).seen)
  {
    if after == [] {
      assert before + after == before;
      TableOfOk(cap, before[..|before| - 1]);
      EntersLast(TableOf(cap, before[..|before| - 1]), before[|before| - 1]);
    } else {
      var init, last := after[..|after| - 1], after[|after| - 1];
      DrivenBack(cap, before, x, init);
      InitOf(before, after);
      var t := TableOf(cap, before + init);
      TableOfOk(cap, before + init);
      if Brought(cap, before, init) < cap {
        if Brings(t, last) {
          NewcomerPushes(t, x, Brought(cap, before, init), last);
        } else {
          OthersKeepOrder(t, last);
        }
      }
    }
  }

  lemma Parted(history: seq<Notice>, i: nat)
    requires i < |history|
    ensures history == history[..i + 1] + history[i + 1..]
    ensures history[..i + 1][..i] == history[..i] && history[..i + 1][i] == history[i]
  {}

  /** The `i`th announcement of the history entered `x`, and it has not been driven out since. */
  ghost predicate KeptSince(cap: nat, history: seq<Notice>, x: Id, i: int) {
    0 <= i < |history| && EnteredAt(cap, history, x, i) && Brought(cap, history[..i + 1], history[i + 1..]) < cap
  }

  lemma KeptIsThere(cap: nat, history: seq<Notice>, x: Id, i: int)
    requires KeptSince(cap, history, x, i)
    ensures Before(TableOf(cap, history), x, Brought(cap, history[..i + 1], history[i + 1..]))
    ensures x in TableOf(cap, history).seen
  {
    Parted(history, i);
    DrivenBack(cap, history[..i + 1], x, history[i + 1..]);
    TableOfOk(cap, history);
  }

  lemma KeptLonger(cap: nat, history: seq<Notice>, n: Notice, x: Id, i: int)
    requires KeptSince(cap, history, x, i)
    ensures KeptSince(cap, history + [n], x, i) <==> x in TableOf(cap, history + [n]).seen
  {
    var longer := history + [n];
    assert longer[..i] == history[..i] && longer[..i + 1] == history[..i + 1];
    assert longer[i + 1..] == history[i + 1..] + [n];
    assert (history[i + 1..] + [n])[..|history[i + 1..]|] == history[i + 1..];
    Parted(history, i);
    Parted(longer, i);
    DrivenBack(cap, longer[..i + 1], x, longer[i + 1..]);
    TableOfOk(cap, longer);
  }

  lemma OnlyEnteredIsThere(t: Table, n: Notice, x: Id)
    requires TableOk(t) && x !in t.seen && x in Added(t, n.commit, n.campaign).seen
    ensures n.commit == x && Brings(t, n) && t.cap > 0
  {
    if n.commit != "" && n.commit !in t.seen && |t.order| == t.cap { TrimmedOnce(Noted(t, n.commit, n.campaign)); }
  }

  lemma {:induction false} ThereIsKept(cap: nat, history: seq<Notice>, x: Id) returns (i: int)
    requires x in TableOf(cap, history).seen
    ensures KeptSince(cap, history, x, i)
  {
    var init, last := history[..|history| - 1], history[|history| - 1];
    SplitLast(history);
    TableOfOk(cap, init);
    if x in TableOf(cap, init).seen {
      i := ThereIsKept(cap, init, x);
      KeptLonger(cap, init, last, x, i);
    } else {
      OnlyEnteredIsThere(TableOf(cap, init), last, x);
      i := |history| - 1;
    }
  }

  /** What one announcement does to the campaigns noted for an entry that stays. */
  lemma CampaignsAfter(t: Table, n: Notice, x: Id)
    requires TableOk(t) && x in t.seen && x in Added(t, n.commit, n.campaign).seen
    ensures Added(t, n.commit, n.campaign).seen[x] == t.seen[x] + if n.commit == x && x != "" then {n.campaign} else {}
  {
    if n.commit != "" && n.commit !in t.seen && |t.order| == t.cap { TrimmedOnce(Noted(t, n.commit, n.campaign)); }
  }

  lemma CampaignsOfNewcomer(t: Table, n: Notice)
    requires TableOk(t) && Brings(t, n) && n.commit in Added(t, n.commit, n.campaign).seen
    ensures Added(t, n.commit, n.campaign).seen[n.commit] == {n.campaign}
  {
    if |t.order| == t.cap { TrimmedOnce(Noted(t, n.commit, n.campaign)); }
  }

  lemma {:induction false} CampaignsSince(cap: nat, history: seq<Notice>, x: Id, i: int, c: Id)
    requires KeptSince(cap, history, x, i)
    ensures Told(TableOf(cap, history), x, c) <==> Notice(x, c) in history[i..]
  {
    var init, last := history[..|history| - 1], history[|history| - 1];
    SplitLast(history);
    TableOfOk(cap, init);
    KeptIsThere(cap, history, x, i);
    if i == |init| {
      CampaignsOfNewcomer(TableOf(cap, init), last);
      assert history[i..] == [last];
    } else {
      KeptBefore(cap, init, last, x, i);
      CampaignsSince(cap, init, x, i, c);
      KeptIsThere(cap, init, x, i);
      CampaignsAfter(TableOf(cap, init), last, x);
      assert history[i..] == init[i..] + [last];
    }
  }

  lemma KeptBefore(cap: nat, init: seq<Notice>, last: Notice, x: Id, i: int)
    requires KeptSince(cap, init + [last], x, i) && i < |init|
    ensures KeptSince(cap, init, x, i)
  {
    var history := init + [last];
    assert history[..i] == init[..i] && history[..i + 1] == init[..i + 1];
    assert history[i + 1..][..|history[i + 1..]| - 1] == init[i + 1..];
  }

  /** The table remembers that a campaign was told of a commit exactly when the commit entered it,
      fewer than `cap` announcements brought a commit not in the table since, and the campaign was
      announced then or later. Announcing a commit again plays no part. */
  lemma ToldIff(cap: nat, history: seq<Notice>, x: Id, c: Id)
    ensures Told(TableOf(cap, history), x, c) <==>
            exists i: int :: KeptSince(cap, history, x, i) && Notice(x, c) in history[i..]
  {
    if Told(TableOf(cap, history), x, c) {
      var i := ThereIsKept(cap, history, x);
      CampaignsSince(cap, history, x, i, c);
    }
    forall i: int | KeptSince(cap, history, x, i) && Notice(x, c) in history[i..]
      ensures Told(TableOf(cap, history), x, c)
    {
      CampaignsSince(cap, history, x, i, c);
    }
  }

  /** `x` is in the table at every moment from its entry on. */
  ghost predicate NeverForgotten(cap: nat, before: seq<Notice>, x: Id, after: seq<Notice>) {
    forall j :: 0 <= j <= |after| ==> x in TableOf(cap, before + after[..j]).seen
  }

  lemma {:induction false} BroughtGrows(cap: nat, before: seq<Notice>, after: seq<Notice>, j: nat)
    requires j <= |after|
    ensures Brought(cap, before, after[..j]) <= Brought(cap, before, after)
    decreases |after|
  {
    if j < |after| {
      assert after[..|after| - 1][..j] == after[..j];
      BroughtGrows(cap, before, after[..|after| - 1], j);
    } else {
      assert after[..j] == after;
    }
  }

  /** The announcement that brings the `cap`th commit. */
  lemma {:induction false} LastStraw(cap: nat, before: seq<Notice>, after: seq<Notice>, n: nat) returns (j: nat)
    requires n <= |after| && Brought(cap, before, after[..n]) >= cap
    ensures j <= n && Brought(cap, before, after[..j]) == cap
    ensures j > 0 ==> Brought(cap, before, after[..j - 1]) < cap
    decreases n
  {
    if n == 0 {
      j := 0;
    } else {
      assert after[..n][..n - 1] == after[..n - 1];
      if Brought(cap, before, after[..n - 1]) >= cap {
        j := LastStraw(cap, before, after, n - 1);
      } else {
        j := n;
      }
    }
  }

  lemma ThereWhileFew(cap: nat, before: seq<Notice>, x: Id, after: seq<Notice>, j: nat)
    requires before != [] && EnteredAt(cap, before, x, |before| - 1)
    requires Brought(cap, before, after) < cap && j <= |after|
    ensures x in TableOf(cap, before + after[..j]).seen
  {
    BroughtGrows(cap, before, after, j);
    DrivenBack(cap, before, x, after[..j]);
    TableOfOk(cap, before + after[..j]);
  }

  lemma GoneOnceMany(cap: nat, before: seq<Notice>, x: Id, after: seq<Notice>) returns (j: nat)
    requires before != [] && EnteredAt(cap, before, x, |before| - 1) && Brought(cap, before, after) >= cap
    ensures j <= |after| && x !in TableOf(cap, before + after[..j]).seen
  {
    assert after[..|after|] == after;
    j := LastStraw(cap, before, after, |after|);
    if j > 0 { assert after[..j][..j - 1] == after[..j - 1]; }
    DrivenBack(cap, before, x, after[..j]);
  }

  /** Since its entry a commit is remembered without a break exactly when fewer than `cap`
      announcements brought a commit not then in the table. */
  lemma RememberedIff(cap: nat, before: seq<Notice>, x: Id, after: seq<Notice>)
    requires before != [] && EnteredAt(cap, before, x, |before| - 1)
    ensures NeverForgotten(cap, before, x, after) <==> Brought(cap, before, after) < cap
  {
    if Brought(cap, before, after) < cap {
      forall j | 0 <= j <= |after| ensures x in TableOf(cap, before + after[..j]).seen {
        ThereWhileFew(cap, before, x, after, j);
      }
    } else {
      var j := GoneOnceMany(cap, before, x, after);
    }
  }

  lemma {:induction false} NeverMentioned(cap: nat, history: seq<Notice>, x: Id)
    requires !Mentions(history, x)
    ensures x !in TableOf(cap, history).seen
  {
    if history != [] {
      var init, last := history[..|history| - 1], history[|history| - 1];
      assert history == init + [last];
      NeverMentioned(cap, init, x);
      TableOfOk(cap, init);
      if x in TableOf(cap, history).seen { OnlyEnteredIsThere(TableOf(cap, init), last, x); }
    }
  }

  /** Announcing a commit again does not keep it in the table: here only one commit is newer
      than the last announcement of `x`, in a table of two, and `x` is forgotten. */
  lemma AnnouncingAgainDoesNotRefresh()
    ensures var history := [Notice("x", "c"), Notice("y", "c"), Notice("x", "c"), Notice("z", "c")];
            !Told(TableOf(2, history), "x", "c")
  {
    var h := [Notice("x", "c"), Notice("y", "c"), Notice("x", "c"), Notice("z", "c")];
    assert h[..3] == [Notice("x", "c"), Notice("y", "c"), Notice("x", "c")];
    assert h[..3][..2] == [Notice("x", "c"), Notice("y", "c")];
    assert h[..3][..2][..1] == [Notice("x", "c")];
    assert h[..3][..2][..1][..0] == [];
    var t1 := TableOf(2, h[..3][..2][..1]);
    assert TableOf(2, []) == Empty(2);
    assert Added(Empty(2), "x", "c") == Noted(Empty(2), "x", "c");
    assert t1 == Table(["x"], map["x" := {"c"}], 2);
    var t2 := TableOf(2, h[..3][..2]);
    assert t2 == Table(["x", "y"], map["x" := {"c"}, "y" := {"c"}], 2);
    var t3 := TableOf(2, h[..3]);
    assert t3.order == ["x", "y"];
    var u := Noted(t3, "z", "c");
    assert u.order == ["x", "y", "z"];
    TrimmedOnce(u);
  }
}
