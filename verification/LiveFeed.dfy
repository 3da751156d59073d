/** The live commit feed: played beats and feed messages told to the campaigns on a commit's branch. */
module LiveFeed {
  import opened Common
  import opened Announcements

  /** The branch of each campaign, and of each commit this database made. */
  datatype World = World(branchOf: map<Id, Id>, rows: map<Id, Id>)

  predicate OnBranch(w: World, x: Id, c: Id) {
    x in w.rows && c in w.branchOf && w.branchOf[c] == w.rows[x]
  }

  /** The one push in progress: the campaigns listed when it began, how many of them were looked
      at, and those it will tell. */
  datatype Push = Idle | Pushing(commit: Id, listing: seq<Id>, at: nat, targets: seq<Id>)

  /** `told`: every frame published, in order; `frames`: those of them that ended a beat of this
      server. `own`: the commit of each such beat, noted by its hook; `owed`: those whose frame is
      still to come; `last`: the commit of each campaign's latest hook, which is what a frame carries.
      `begun`: commits a feed message was accepted for. `played`: commits of beats and outcomes. */
  datatype Feed = Feed(table: Table, history: seq<Notice>, told: seq<Notice>, frames: seq<Notice>, own: set<Notice>,
                       owed: set<Notice>, last: map<Id, Id>, begun: set<Id>, played: set<Id>, push: Push, live: set<Id>)

  function Start(cap: nat): Feed {
    Feed(Empty(cap), [], [], [], {}, {}, map[], {}, {}, Idle, {})
  }

  /** What the next frame of the campaign's beats would carry. */
  function Frame(f: Feed, c: Id): Notice {
    Notice(if c in f.last then f.last[c] else "", c)
  }

  /** A push suspends between looking up its targets and publishing, and a beat between its hook and
      its frame, so the other tasks' steps fall anywhere in between. `Tell(x, c)` is the frame of the
      beat that made `x`. A recorded outcome announces and publishes in one go. */
  datatype Move =
    | Hook(x: Id, c: Id) | Tell(x: Id, c: Id) | Outcome(x: Id, c: Id)
    | Begin(x: Id, listing: seq<Id>) | Consider | Publish | GiveUp
    | Join(c: Id) | Leave(c: Id)

  ghost predicate Enabled(w: World, f: Feed, m: Move) {
    match m
    case Hook(x, c) => x != "" && OnBranch(w, x, c) && x !in f.played
    case Outcome(x, c) => x != "" && OnBranch(w, x, c) && x !in f.played
    case Tell(x, c) => Notice(x, c) in f.owed
    case Begin(x, listing) =>
      f.push == Idle && x != "" && x in w.rows && NoDup(listing) && forall c :: c in listing <==> c in f.live
    case Consider => f.push.Pushing? && f.push.at < |f.push.listing|
    case Publish => f.push.Pushing? && f.push.at == |f.push.listing|
    case GiveUp => f.push.Pushing?
    case _ => true
  }

  function Announce(f: Feed, x: Id, c: Id): Feed {
    f.(table := Added(f.table, x, c), history := f.history + [Notice(x, c)])
  }

  /** Announce and publish, one target after the other; nothing suspends in between. */
  function PublishAll(f: Feed, x: Id, targets: seq<Id>): Feed {
    if targets == [] then f
    else
      var g := PublishAll(f, x, targets[..|targets| - 1]);
      var c := targets[|targets| - 1];
      Announce(g, x, c).(told := g.told + [Notice(x, c)])
  }

  function Considered(w: World, f: Feed): Feed
    requires f.push.Pushing? && f.push.at < |f.push.listing|
  {
    var p := f.push;
    var c := p.listing[p.at];
    var wanted := OnBranch(w, p.commit, c) && !Told(f.table, p.commit, c);
    f.(push := p.(at := p.at + 1, targets := if wanted then p.targets + [c] else p.targets))
  }

  function Hooked(f: Feed, x: Id, c: Id): Feed {
    var n := Notice(x, c);
    Announce(f, x, c).(own := f.own + {n}, owed := f.owed + {n}, last := f.last[c := x], played := f.played + {x})
  }

  /** A frame carries the campaign's latest commit, whichever beat it ends. */
  function Framed(f: Feed, c: Id): Feed {
    var n := Frame(f, c);
    Announce(f, n.commit, c).(told := f.told + [n], frames := f.frames + [n])
  }

  /** An outcome is announced by the distillation and again before its own frame goes out. */
  function Recorded(f: Feed, x: Id, c: Id): Feed {
    Announce(Announce(f, x, c), x, c).(told := f.told + [Notice(x, c)], played := f.played + {x})
  }

  ghost function Do(w: World, f: Feed, m: Move): Feed
    requires Enabled(w, f, m)
  {
    match m
    case Hook(x, c) => Hooked(f, x, c)
    case Tell(x, c) => Framed(f, c).(owed := f.owed - {Notice(x, c)})
    case Outcome(x, c) => Recorded(f, x, c)
    case Begin(x, listing) => f.(push := Pushing(x, listing, 0, []), begun := f.begun + {x})
    case Consider => Considered(w, f)
    case Publish => PublishAll(f, f.push.commit, f.push.targets).(push := Idle)
    case GiveUp => f.(push := Idle)
    case Join(c) => f.(live := f.live + {c})
    case Leave(c) => f.(live := f.live - {c})
  }

  // --- what every run keeps ---

  predicate Promised(f: Feed, n: Notice) {
    n in f.told || n in f.owed
  }

  /** The table is what the announcements so far make of it, and they are the frames published
      and the commits of this server's beats. */
  ghost predicate BooksOk(w: World, f: Feed) {
    && f.table == TableOf(f.table.cap, f.history)
    && (forall n :: n in f.history <==> n in f.told || n in f.own)
    && (forall n :: n in f.history ==> OnBranch(w, n.commit, n.campaign) && n.commit != "")
    && (forall n :: n in f.history ==> n.commit in f.begun || n.commit in f.played)
  }

  /** Every beat whose frame is to come has run its hook; the latest hook of a campaign was one of its
      own beats', and what it noted has been told unless that beat's frame is to come. */
  ghost predicate BeatsOk(f: Feed) {
    && f.owed <= f.own
    && (forall n :: n in f.own ==> n.campaign in f.last && n.commit in f.played)
    && (forall c :: c in f.last ==> Frame(f, c) in f.own && Promised(f, Frame(f, c)))
    && (forall n :: n in f.frames ==> n in f.told && n in f.own)
  }

  /** Every campaign looked at is a target or was announced the commit already. */
  ghost predicate PushOk(w: World, f: Feed) {
    f.push.Pushing? ==>
      var p := f.push;
      && p.at <= |p.listing| && NoDup(p.listing) && NoDup(p.targets)
      && p.commit in f.begun && p.commit != ""
      && (forall c :: c in p.targets ==> c in p.listing[..p.at] && OnBranch(w, p.commit, c))
      && (forall k :: 0 <= k < p.at && OnBranch(w, p.commit, p.listing[k]) ==>
            p.listing[k] in p.targets || Notice(p.commit, p.listing[k]) in f.history)
  }

  /** Every frame to come will carry its own beat's commit, of which its campaign was not told yet,
      and nobody was told twice. */
  ghost predicate FramesOnce(f: Feed) {
    && NoDup(f.told)
    && (forall n :: n in f.owed ==> Frame(f, n.campaign) == n && n !in f.told)
  }

  /** As long as that is so, every commit of a beat has been told or is owed. */
  ghost predicate NothingLost(f: Feed) {
    FramesOnce(f) ==> forall n :: n in f.own ==> Promised(f, n)
  }

  ghost predicate FeedOk(w: World, f: Feed) {
    BooksOk(w, f) && BeatsOk(f) && PushOk(w, f) && NothingLost(f)
  }

  lemma TableOfAnnounced(f: Feed, x: Id, c: Id)
    requires f.table == TableOf(f.table.cap, f.history)
    ensures Announce(f, x, c).table == TableOf(f.table.cap, Announce(f, x, c).history)
    ensures Announce(f, x, c).table.cap == f.table.cap
  {
    assert (f.history + [Notice(x, c)])[..|f.history|] == f.history;
    TableOfOk(f.table.cap, Announce(f, x, c).history);
  }

  /** The frames of a push, in the order they go out. */
  function Notices(x: Id, targets: seq<Id>): seq<Notice> {
    seq(|targets|, i requires 0 <= i < |targets| => Notice(x, targets[i]))
  }

  lemma NoticesOneMore(x: Id, targets: seq<Id>)
    requires targets != []
    ensures Notices(x, targets) == Notices(x, targets[..|targets| - 1]) + [Notice(x, targets[|targets| - 1])]
  {}

  lemma {:induction false} PublishAllIs(f: Feed, x: Id, targets: seq<Id>)
    requires f.table == TableOf(f.table.cap, f.history)
    ensures var g := PublishAll(f, x, targets);
            && g.table == TableOf(g.table.cap, g.history) && g.table.cap == f.table.cap
            && g.history == f.history + Notices(x, targets)
            && g.told == f.told + Notices(x, targets)
            && g == f.(table := g.table, history := g.history, told := g.told)
  {
    if targets != [] {
      var init, c := targets[..|targets| - 1], targets[|targets| - 1];
      PublishAllIs(f, x, init);
      TableOfAnnounced(PublishAll(f, x, init), x, c);
      NoticesOneMore(x, targets);
      Regroup(f.history, Notices(x, init), [Notice(x, c)]);
      Regroup(f.told, Notices(x, init), [Notice(x, c)]);
    }
  }

  lemma NoticesMembers(x: Id, targets: seq<Id>, n: Notice)
    ensures n in Notices(x, targets) <==> n.commit == x && n.campaign in targets
  {
    if n.commit == x && n.campaign in targets {
      var i :| 0 <= i < |targets| && targets[i] == n.campaign;
      assert Notices(x, targets)[i] == n;
    }
  }

  lemma NotYetListed(listing: seq<Id>, at: nat)
    requires NoDup(listing) && at < |listing|
    ensures listing[at] !in listing[..at] && listing[..at + 1] == listing[..at] + [listing[at]]
  {
    forall k | 0 <= k < at ensures listing[k] != listing[at] { NoDupApart(listing, k, at); }
  }

  /** What was looked at, with one more campaign. */
  lemma TargetsCover(w: World, f: Feed, p: Push, q: Push)
    requires p.Pushing? && PushOk(w, f.(push := p)) && p.at < |p.listing|
    requires var c := p.listing[p.at];
      || (q == p.(at := p.at + 1, targets := p.targets + [c]) && OnBranch(w, p.commit, c))
      || (q == p.(at := p.at + 1) && (OnBranch(w, p.commit, c) ==> Notice(p.commit, c) in f.history))
    ensures PushOk(w, f.(push := q))
  {
    var c := p.listing[p.at];
    NotYetListed(p.listing, p.at);
    NoDupExtendedIf(p.targets, c);
    forall d | d in q.targets ensures d in q.listing[..q.at] && OnBranch(w, q.commit, d) {
      if d in p.targets { assert d in p.listing[..p.at]; }
    }
    forall k | 0 <= k < q.at && OnBranch(w, q.commit, q.listing[k])
      ensures q.listing[k] in q.targets || Notice(q.commit, q.listing[k]) in f.history
    {
      if k < p.at { assert p.listing[k] in p.targets || Notice(p.commit, p.listing[k]) in f.history; }
    }
  }

  lemma ConsiderKeeps(w: World, f: Feed)
    requires BooksOk(w, f) && PushOk(w, f) && Enabled(w, f, Consider)
    ensures PushOk(w, Considered(w, f))
  {
    var p, g := f.push, Considered(w, f);
    var c := p.listing[p.at];
    if Told(f.table, p.commit, c) {
      ToldWasAnnounced(f.table.cap, f.history, p.commit, c);
    }
    assert f.(push := p) == f && f.(push := g.push) == g;
    TargetsCover(w, f, p, g.push);
  }

  lemma NoDupExtendedIf(s: seq<Id>, c: Id)
    requires NoDup(s)
    ensures c !in s ==> NoDup(s + [c])
  {
    if c !in s { NoDupExtended(s, c); }
  }

  lemma {:induction false} ToldWasAnnounced(cap: nat, history: seq<Notice>, x: Id, c: Id)
    requires Told(TableOf(cap, history), x, c)
    ensures Notice(x, c) in history
  {
    if history != [] {
      var init, last := history[..|history| - 1], history[|history| - 1];
      assert history == init + [last];
      TableOfOk(cap, init);
      AddTells(TableOf(cap, init), last.commit, last.campaign);
      if Told(TableOf(cap, init), x, c) { ToldWasAnnounced(cap, init, x, c); }
    }
  }

  // --- the accounts of frames ---

  /** What a step does to the frames published and still to come. */
  ghost predicate Shifted(f: Feed, m: Move, g: Feed) {
    match m
    case Hook(x, c) =>
      var n := Notice(x, c);
      g.told == f.told && g.own == f.own + {n} && g.owed == f.owed + {n} && g.last == f.last[c := x]
    case Tell(x, c) =>
      && g.told == f.told + [Frame(f, c)] && g.own == f.own && g.owed == f.owed - {Notice(x, c)} && g.last == f.last
    case Outcome(x, c) => g.told == f.told + [Notice(x, c)] && SameBeats(f, g)
    case Publish => f.push.Pushing? && g.told == f.told + Notices(f.push.commit, f.push.targets) && SameBeats(f, g)
    case _ => g.told == f.told && SameBeats(f, g)
  }

  ghost predicate SameBeats(f: Feed, g: Feed) {
    g.own == f.own && g.owed == f.owed && g.last == f.last
  }

  /** What a step does to everything else but the table. */
  ghost predicate Noticed(f: Feed, m: Move, g: Feed) {
    match m
    case Hook(x, c) =>
      && g.history == f.history + [Notice(x, c)] && g.frames == f.frames && g.played == f.played + {x}
      && g.begun == f.begun && g.push == f.push
    case Tell(x, c) =>
      && g.history == f.history + [Frame(f, c)] && g.frames == f.frames + [Frame(f, c)] && g.played == f.played
      && g.begun == f.begun && g.push == f.push
    case Outcome(x, c) =>
      && g.history == f.history + [Notice(x, c)] + [Notice(x, c)] && g.frames == f.frames
      && g.played == f.played + {x} && g.begun == f.begun && g.push == f.push
    case Publish =>
      && f.push.Pushing? && g.history == f.history + Notices(f.push.commit, f.push.targets)
      && g.frames == f.frames && g.played == f.played && g.begun == f.begun && g.push == Idle
    case Begin(x, listing) =>
      && g.history == f.history && g.frames == f.frames && g.played == f.played && g.begun == f.begun + {x}
      && g.push == Pushing(x, listing, 0, [])
    case _ => g.history == f.history && g.frames == f.frames && g.played == f.played && g.begun == f.begun
  }

  lemma StepIs(w: World, f: Feed, m: Move)
    requires f.table == TableOf(f.table.cap, f.history) && Enabled(w, f, m)
    ensures Shifted(f, m, Do(w, f, m)) && Noticed(f, m, Do(w, f, m))
    ensures Do(w, f, m).table == TableOf(Do(w, f, m).table.cap, Do(w, f, m).history)
  {
    match m
    case Hook(x, c) => TableOfAnnounced(f, x, c);
    case Tell(x, c) => TableOfAnnounced(f, Frame(f, c).commit, c);
    case Outcome(x, c) =>
      TableOfAnnounced(f, x, c);
      TableOfAnnounced(Announce(f, x, c), x, c);
    case Publish => PublishAllIs(f, f.push.commit, f.push.targets);
    case _ =>
  }

  /** The commit a beat or an outcome makes is nobody's yet. */
  ghost predicate Fresh(f: Feed, m: Move) {
    && (m.Hook? || m.Outcome? ==> m.x !in f.played)
    && (m.Tell? ==> Notice(m.x, m.c) in f.owed)
  }

  lemma BeatsKept(f: Feed, m: Move, g: Feed)
    requires BeatsOk(f) && Shifted(f, m, g) && Noticed(f, m, g) && Fresh(f, m)
    ensures BeatsOk(g)
  {
    match m
    case Hook(x, c) => assert forall d :: d != c ==> Frame(g, d) == Frame(f, d);
    case Tell(x, c) =>
      assert Notice(x, c) in f.own;
      assert forall d :: Frame(g, d) == Frame(f, d);
    case _ => assert forall d :: Frame(g, d) == Frame(f, d);
  }

  lemma AnnouncedOne(w: World, f: Feed, g: Feed, n: Notice)
    requires BooksOk(w, f) && OnBranch(w, n.commit, n.campaign) && n.commit != ""
    requires n.commit in g.begun || n.commit in g.played
    requires f.begun <= g.begun && f.played <= g.played
    requires forall k :: k in g.history <==> k in f.history || k == n
    requires forall k :: k in g.told || k in g.own <==> k in f.told || k in f.own || k == n
    requires g.table == TableOf(g.table.cap, g.history)
    ensures BooksOk(w, g)
  {}

  lemma PushedBooks(w: World, f: Feed, g: Feed)
    requires BooksOk(w, f) && PushOk(w, f) && Shifted(f, Publish, g) && Noticed(f, Publish, g)
    requires g.table == TableOf(g.table.cap, g.history)
    ensures BooksOk(w, g)
  {
    var p := f.push;
    forall n ensures n in Notices(p.commit, p.targets) <==> n.commit == p.commit && n.campaign in p.targets {
      NoticesMembers(p.commit, p.targets, n);
    }
  }

  lemma HookedBooks(w: World, f: Feed, x: Id, c: Id, g: Feed)
    requires BooksOk(w, f) && Shifted(f, Hook(x, c), g) && Noticed(f, Hook(x, c), g) && Enabled(w, f, Hook(x, c))
    requires g.table == TableOf(g.table.cap, g.history)
    ensures BooksOk(w, g)
  {
    AnnouncedOne(w, f, g, Notice(x, c));
  }

  lemma FramedBooks(w: World, f: Feed, x: Id, c: Id, g: Feed)
    requires BooksOk(w, f) && BeatsOk(f) && Notice(x, c) in f.owed
    requires Shifted(f, Tell(x, c), g) && Noticed(f, Tell(x, c), g)
    requires g.table == TableOf(g.table.cap, g.history)
    ensures BooksOk(w, g)
  {
    assert Notice(x, c) in f.own && Frame(f, c) in f.own;
    AnnouncedOne(w, f, g, Frame(f, c));
  }

  lemma RecordedBooks(w: World, f: Feed, x: Id, c: Id, g: Feed)
    requires BooksOk(w, f) && Shifted(f, Outcome(x, c), g) && Noticed(f, Outcome(x, c), g)
    requires Enabled(w, f, Outcome(x, c)) && g.table == TableOf(g.table.cap, g.history)
    ensures BooksOk(w, g)
  {
    AnnouncedOne(w, f, g, Notice(x, c));
  }

  lemma BooksKept(w: World, f: Feed, m: Move, g: Feed)
    requires BooksOk(w, f) && BeatsOk(f) && PushOk(w, f) && Shifted(f, m, g) && Noticed(f, m, g) && Enabled(w, f, m)
    requires g.table == TableOf(g.table.cap, g.history)
    ensures BooksOk(w, g)
  {
    match m
    case Hook(x, c) => HookedBooks(w, f, x, c, g);
    case Outcome(x, c) => RecordedBooks(w, f, x, c, g);
    case Tell(x, c) => FramedBooks(w, f, x, c, g);
    case Publish => PushedBooks(w, f, g);
    case _ => SameBooks(w, f, g);
  }

  lemma SameBooks(w: World, f: Feed, g: Feed)
    requires BooksOk(w, f) && g.table == TableOf(g.table.cap, g.history)
    requires g.history == f.history && g.told == f.told && g.own == f.own && g.played == f.played && f.begun <= g.begun
    ensures BooksOk(w, g)
  {}

  lemma PushKept(w: World, f: Feed, m: Move)
    requires FeedOk(w, f) && Enabled(w, f, m)
    ensures PushOk(w, Do(w, f, m))
  {
    StepIs(w, f, m);
    if m == Consider { ConsiderKeeps(w, f); }
  }

  /** No frame is due to the campaign. */
  ghost predicate NoneDue(f: Feed, c: Id) {
    forall n :: n in f.owed ==> n.campaign != c
  }

  lemma {:induction false} NoDupParts<T>(s: seq<T>, t: seq<T>)
    requires NoDup(s + t)
    ensures NoDup(s) && forall x :: x in t ==> x !in s
  {
    if t == [] {
      assert s + t == s;
    } else {
      assert (s + t)[..|s + t| - 1] == s + t[..|t| - 1];
      NoDupParts(s, t[..|t| - 1]);
    }
  }

  /** A second frame due to a campaign, or one with nothing new to carry, stays so or ends in a
      second telling. */
  lemma BrokenFramesStay(f: Feed, m: Move, g: Feed)
    requires BeatsOk(f) && Shifted(f, m, g) && Fresh(f, m) && FramesOnce(g)
    ensures FramesOnce(f) && (m.Hook? ==> NoneDue(f, m.c))
  {
    match m
    case Hook(x, c) => BrokenAtHook(f, x, c, g);
    case Tell(x, c) => BrokenAtTell(f, x, c, g);
    case Publish =>
      NoDupParts(f.told, Notices(f.push.commit, f.push.targets));
      SameFrames(f, g);
    case Outcome(x, c) =>
      NoDupParts(f.told, [Notice(x, c)]);
      SameFrames(f, g);
    case _ => SameFrames(f, g);
  }

  lemma SameFrames(f: Feed, g: Feed)
    requires SameBeats(f, g) && f.told <= g.told && FramesOnce(g) && NoDup(f.told)
    ensures FramesOnce(f)
  {
    forall n | n in f.owed ensures Frame(f, n.campaign) == n && n !in f.told { assert Frame(g, n.campaign) == n; }
  }

  lemma BrokenAtTell(f: Feed, x: Id, c: Id, g: Feed)
    requires BeatsOk(f) && Shifted(f, Tell(x, c), g) && Notice(x, c) in f.owed && FramesOnce(g)
    ensures FramesOnce(f)
  {
    var y := Frame(f, c);
    NoDupParts(f.told, [y]);
    assert y in g.told && y !in f.told;
    assert Notice(x, c) in f.own && y in f.owed;
    assert y == Notice(x, c);
    forall n | n in f.owed && n != y ensures Frame(f, n.campaign) == n && n !in f.told {
      assert n in g.owed && Frame(g, n.campaign) == n;
    }
  }

  lemma BrokenAtHook(f: Feed, x: Id, c: Id, g: Feed)
    requires BeatsOk(f) && Shifted(f, Hook(x, c), g) && x !in f.played && FramesOnce(g)
    ensures FramesOnce(f) && NoneDue(f, c)
  {
    forall n | n in f.owed ensures n.campaign != c && Frame(f, n.campaign) == n && n !in f.told {
      assert n in f.own && n in g.owed && Frame(g, n.campaign) == n;
    }
  }

  lemma StillPromised(f: Feed, m: Move, g: Feed, n: Notice)
    requires Shifted(f, m, g) && Promised(f, n) && FramesOnce(f)
    ensures Promised(g, n)
  {
    if n in f.told {
      assert n in g.told;
    } else if n !in g.owed {
      assert Frame(f, n.campaign) == n && n in g.told;
    }
  }

  lemma StillNothingLost(f: Feed, m: Move, g: Feed)
    requires BeatsOk(f) && NothingLost(f) && Shifted(f, m, g) && Fresh(f, m)
    ensures NothingLost(g)
  {
    if FramesOnce(g) {
      BrokenFramesStay(f, m, g);
      forall n | n in g.own ensures Promised(g, n) {
        if n in f.own { StillPromised(f, m, g, n); }
      }
    }
  }

  lemma MoveKeeps(w: World, f: Feed, m: Move)
    requires FeedOk(w, f) && Enabled(w, f, m)
    ensures FeedOk(w, Do(w, f, m))
  {
    var g := Do(w, f, m);
    StepIs(w, f, m);
    BeatsKept(f, m, g);
    BooksKept(w, f, m, g);
    PushKept(w, f, m);
    StillNothingLost(f, m, g);
  }

  ghost predicate IsRun(w: World, f: Feed, moves: seq<Move>, end: Feed)
    decreases |moves|
  {
    if moves == [] then end == f
    else Enabled(w, f, moves[0]) && IsRun(w, Do(w, f, moves[0]), moves[1..], end)
  }

  lemma {:induction false} RunKeeps(w: World, f: Feed, moves: seq<Move>, end: Feed)
    requires FeedOk(w, f) && IsRun(w, f, moves, end)
    ensures FeedOk(w, end)
    decreases |moves|
  {
    if moves != [] {
      MoveKeeps(w, f, moves[0]);
      RunKeeps(w, Do(w, f, moves[0]), moves[1..], end);
    }
  }

  lemma StartOk(w: World, cap: nat)
    ensures FeedOk(w, Start(cap))
  {}

  /** Whatever the feed says, a campaign is only ever told of commits this database made on its
      own branch, and the table holds no more than `cap` commits. */
  lemma OnlyItsOwnBranch(w: World, cap: nat, moves: seq<Move>, end: Feed)
    requires IsRun(w, Start(cap), moves, end)
    ensures forall n :: n in end.told ==> OnBranch(w, n.commit, n.campaign)
    ensures |end.table.order| <= end.table.cap
  {
    StartOk(w, cap);
    RunKeeps(w, Start(cap), moves, end);
    TableOfOk(end.table.cap, end.history);
    forall n | n in end.told ensures OnBranch(w, n.commit, n.campaign) { assert n in end.history; }
  }

  /** When a push is done, every campaign that was live when it began and is on the commit's
      branch has been told or was announced the commit by the hook of its own beat; and then its
      frame is still to come, unless beats of one campaign overlapped. */
  lemma PushTellsEveryone(w: World, f: Feed, c: Id)
    requires FeedOk(w, f) && Enabled(w, f, Publish) && c in f.push.listing && OnBranch(w, f.push.commit, c)
    ensures var g, n := Do(w, f, Publish), Notice(f.push.commit, c);
      (n in g.told || n in g.own) && (FramesOnce(g) ==> Promised(g, n))
  {
    var p := f.push;
    PublishAllIs(f, p.commit, p.targets);
    var k :| 0 <= k < |p.listing| && p.listing[k] == c;
    NoticesMembers(p.commit, p.targets, Notice(p.commit, c));
    MoveKeeps(w, f, Publish);
  }

  // --- at most once ---

  /** Nobody the push will tell was promised its commit already. */
  ghost predicate TargetsOnce(f: Feed) {
    f.push.Pushing? ==> forall c :: c in f.push.targets ==> !Promised(f, Notice(f.push.commit, c))
  }

  /** Nobody was told twice, and nothing still to come would tell anybody twice. */
  ghost predicate Once(f: Feed) {
    FramesOnce(f) && TargetsOnce(f)
  }

  /** The table still remembers this announcement: the commit entered it no later, and fewer than
      `cap` announcements brought a commit not in the table since it entered. */
  ghost predicate Remembered(cap: nat, history: seq<Notice>, n: Notice) {
    exists i: int :: KeptSince(cap, history, n.commit, i) && n in history[i..]
  }

  /** The feed has neither told the campaign of the commit nor chosen to. */
  ghost predicate Untold(f: Feed, n: Notice) {
    n !in f.told && !(f.push.Pushing? && f.push.commit == n.commit && n.campaign in f.push.targets)
  }

  /** A beat's hook runs when no other frame is due to its campaign; it and an outcome come before the
      feed has told their campaign or chosen to; and whatever was announced to a campaign is
      remembered when the feed looks. */
  ghost predicate Safe(w: World, f: Feed, m: Move) {
    match m
    case Hook(x, c) => NoneDue(f, c) && Untold(f, Notice(x, c))
    case Outcome(x, c) => Untold(f, Notice(x, c))
    case Consider =>
      f.push.Pushing? && f.push.at < |f.push.listing| &&
      var n := Notice(f.push.commit, f.push.listing[f.push.at]);
      OnBranch(w, n.commit, n.campaign) && n in f.history ==> Remembered(f.table.cap, f.history, n)
    case _ => true
  }

  lemma TargetsStay(f: Feed, g: Feed, n: Notice)
    requires TargetsOnce(f) && g.push == f.push && Untold(f, n)
    requires forall t :: Promised(g, t) ==> Promised(f, t) || t == n
    ensures TargetsOnce(g)
  {}

  lemma HookUntold(f: Feed, x: Id, c: Id, g: Feed)
    requires Shifted(f, Hook(x, c), g) && g.push == f.push && Once(f)
    requires NoneDue(f, c) && Untold(f, Notice(x, c))
    ensures Once(g)
  {
    var n := Notice(x, c);
    forall k | k in g.owed ensures Frame(g, k.campaign) == k && k !in g.told {
      if k != n { assert k in f.owed && Frame(f, k.campaign) == k; }
    }
    TargetsStay(f, g, n);
  }

  lemma HookOnce(f: Feed, x: Id, c: Id, g: Feed)
    requires BeatsOk(f) && Shifted(f, Hook(x, c), g) && g.push == f.push && x !in f.played && Once(f)
    ensures Once(g) <==> NoneDue(f, c) && Untold(f, Notice(x, c))
  {
    if NoneDue(f, c) && Untold(f, Notice(x, c)) {
      HookUntold(f, x, c, g);
    } else if Once(g) {
      BrokenAtHook(f, x, c, g);
      assert Promised(g, Notice(x, c));
    }
  }

  lemma TellOnce(f: Feed, x: Id, c: Id, g: Feed)
    requires Shifted(f, Tell(x, c), g) && g.push == f.push && Notice(x, c) in f.owed && Once(f)
    ensures Once(g)
  {
    var n := Notice(x, c);
    assert Frame(f, c) == n && Promised(f, n);
    NoDupExtended(f.told, n);
    forall k | k in g.owed ensures Frame(g, k.campaign) == k && k !in g.told { assert Frame(f, k.campaign) == k; }
    forall d | g.push.Pushing? && d in g.push.targets ensures !Promised(g, Notice(g.push.commit, d)) {
      assert !Promised(f, Notice(g.push.commit, d));
    }
  }

  lemma OutcomeUntold(f: Feed, x: Id, c: Id, g: Feed)
    requires BeatsOk(f) && Shifted(f, Outcome(x, c), g) && g.push == f.push && x !in f.played && Once(f)
    requires Untold(f, Notice(x, c))
    ensures Once(g)
  {
    NoDupExtended(f.told, Notice(x, c));
    forall k | k in g.owed ensures Frame(g, k.campaign) == k && k !in g.told {
      assert k in f.owed && k in f.own;
    }
    TargetsStay(f, g, Notice(x, c));
  }

  lemma OutcomeOnce(f: Feed, x: Id, c: Id, g: Feed)
    requires BeatsOk(f) && Shifted(f, Outcome(x, c), g) && g.push == f.push && x !in f.played && Once(f)
    ensures Once(g) <==> Untold(f, Notice(x, c))
  {
    if Untold(f, Notice(x, c)) {
      OutcomeUntold(f, x, c, g);
    } else if Once(g) {
      assert Promised(g, Notice(x, c));
      NoDupParts(f.told, [Notice(x, c)]);
    }
  }

  lemma PromisedWasAnnounced(f: Feed, n: Notice)
    requires BeatsOk(f) && NothingLost(f) && FramesOnce(f) && forall k :: k in f.history <==> k in f.told || k in f.own
    ensures Promised(f, n) <==> n in f.history
  {}

  /** One more target leaves nobody told twice exactly when it was promised nothing. */
  lemma ChosenOnce(f: Feed, c: Id, g: Feed)
    requires SameBeats(f, g) && g.told == f.told && Once(f) && f.push.Pushing?
    requires g.push == f.push.(at := f.push.at + 1, targets := f.push.targets + [c])
    ensures Once(g) <==> !Promised(f, Notice(f.push.commit, c))
  {
    assert c in g.push.targets && (Promised(g, Notice(f.push.commit, c)) <==> Promised(f, Notice(f.push.commit, c)));
    forall n | n in g.owed ensures Frame(g, n.campaign) == n { assert Frame(f, n.campaign) == n; }
    forall d | d in f.push.targets ensures !Promised(g, Notice(f.push.commit, d)) {
      assert !Promised(f, Notice(f.push.commit, d));
    }
  }

  lemma ConsiderOnce(w: World, f: Feed)
    requires FeedOk(w, f) && Enabled(w, f, Consider) && Once(f)
    ensures Once(Considered(w, f)) <==> Safe(w, f, Consider)
  {
    var p := f.push;
    var c := p.listing[p.at];
    var n := Notice(p.commit, c);
    RememberedIsTold(f.table.cap, f.history, n);
    PromisedWasAnnounced(f, n);
    if OnBranch(w, p.commit, c) && !Told(f.table, p.commit, c) {
      ChosenOnce(f, c, Considered(w, f));
    } else {
      SameTargets(f, Considered(w, f));
      if Told(f.table, p.commit, c) { ToldWasAnnounced(f.table.cap, f.history, p.commit, c); }
    }
  }

  lemma SameTargets(f: Feed, g: Feed)
    requires SameBeats(f, g) && g.told == f.told && Once(f) && f.push.Pushing?
    requires g.push == f.push.(at := f.push.at + 1)
    ensures Once(g)
  {
    forall n | n in g.owed ensures Frame(g, n.campaign) == n { assert Frame(f, n.campaign) == n; }
    forall d | d in g.push.targets ensures !Promised(g, Notice(g.push.commit, d)) {
      assert !Promised(f, Notice(f.push.commit, d));
    }
  }

  lemma RememberedIsTold(cap: nat, history: seq<Notice>, n: Notice)
    ensures Remembered(cap, history, n) <==> Told(TableOf(cap, history), n.commit, n.campaign)
  {
    ToldIff(cap, history, n.commit, n.campaign);
    assert n == Notice(n.commit, n.campaign);
  }

  lemma {:induction false} NoDupConcat<T>(s: seq<T>, t: seq<T>)
    requires NoDup(s) && NoDup(t) && forall x :: x in t ==> x !in s
    ensures NoDup(s + t)
  {
    if t == [] {
      assert s + t == s;
    } else {
      assert (s + t)[..|s + t| - 1] == s + t[..|t| - 1];
      NoDupConcat(s, t[..|t| - 1]);
    }
  }

  lemma NoticesNoDup(x: Id, targets: seq<Id>)
    requires NoDup(targets)
    ensures NoDup(Notices(x, targets))
  {
    var s := Notices(x, targets);
    forall i, j | 0 <= i < j < |s| ensures s[i] != s[j] { NoDupApart(targets, i, j); }
    NoDupFromApart(s);
  }

  lemma PublishOnce(f: Feed, g: Feed)
    requires Shifted(f, Publish, g) && g.push == Idle && Once(f) && NoDup(f.push.targets)
    ensures Once(g)
  {
    var p := f.push;
    var more := Notices(p.commit, p.targets);
    forall n | n in more ensures !Promised(f, n) { NoticesMembers(p.commit, p.targets, n); }
    NoticesNoDup(p.commit, p.targets);
    NoDupConcat(f.told, more);
    forall n | n in g.owed ensures Frame(g, n.campaign) == n && n !in g.told { assert Frame(f, n.campaign) == n && Promised(f, n); }
  }

  lemma SameOnce(f: Feed, g: Feed)
    requires SameBeats(f, g) && g.told == f.told && Once(f) && (g.push == f.push || !g.push.Pushing? || g.push.targets == [])
    ensures Once(g)
  {
    forall n | n in g.owed ensures Frame(g, n.campaign) == n { assert Frame(f, n.campaign) == n; }
    forall c | g.push.Pushing? && c in g.push.targets ensures !Promised(g, Notice(g.push.commit, c)) {
      assert !Promised(f, Notice(g.push.commit, c));
    }
  }

  /** A step leaves everyone told at most once exactly when it is safe. */
  lemma OnceExactlyWhenSafe(w: World, f: Feed, m: Move)
    requires FeedOk(w, f) && Enabled(w, f, m) && Once(f)
    ensures Once(Do(w, f, m)) <==> Safe(w, f, m)
  {
    var g := Do(w, f, m);
    StepIs(w, f, m);
    match m
    case Hook(x, c) => HookOnce(f, x, c, g);
    case Tell(x, c) => TellOnce(f, x, c, g);
    case Outcome(x, c) => OutcomeOnce(f, x, c, g);
    case Consider => ConsiderOnce(w, f);
    case Publish => PublishOnce(f, g);
    case _ => SameOnce(f, g);
  }

  // --- whole runs ---

  ghost predicate AllSafe(w: World, f: Feed, moves: seq<Move>)
    decreases |moves|
  {
    moves == [] || (Enabled(w, f, moves[0]) && Safe(w, f, moves[0]) && AllSafe(w, Do(w, f, moves[0]), moves[1..]))
  }

  lemma ChosenInVain(f: Feed, g: Feed, c: Id)
    requires Shifted(f, Publish, g) && c in f.push.targets && Promised(f, Notice(f.push.commit, c))
    ensures !FramesOnce(g)
  {
    var p, n := f.push, Notice(f.push.commit, c);
    NoticesMembers(p.commit, p.targets, n);
    assert n in g.told;
    if FramesOnce(g) { NoDupParts(f.told, Notices(p.commit, p.targets)); }
  }

  lemma ChosenStays(w: World, f: Feed, m: Move, c: Id)
    requires Enabled(w, f, m) && f.push.Pushing? && c in f.push.targets && m != GiveUp && m != Publish
    ensures var g := Do(w, f, m);
      g.push.Pushing? && g.push.commit == f.push.commit && c in g.push.targets
  {}

  /** What would tell somebody twice stays so, unless the push is given up. */
  lemma BrokenStaysBroken(w: World, f: Feed, m: Move)
    requires FeedOk(w, f) && Enabled(w, f, m) && !Once(f) && m != GiveUp
    ensures !Once(Do(w, f, m))
  {
    var g := Do(w, f, m);
    StepIs(w, f, m);
    if Once(g) {
      BrokenFramesStay(f, m, g);
      var c :| c in f.push.targets && Promised(f, Notice(f.push.commit, c));
      if m == Publish {
        ChosenInVain(f, g, c);
      } else {
        StillPromised(f, m, g, Notice(f.push.commit, c));
        ChosenStays(w, f, m, c);
      }
    }
  }

  lemma {:induction false} RunOnceIff(w: World, f: Feed, moves: seq<Move>, end: Feed)
    requires FeedOk(w, f) && Once(f) && IsRun(w, f, moves, end)
    ensures AllSafe(w, f, moves) ==> Once(end)
    ensures GiveUp !in moves && Once(end) ==> AllSafe(w, f, moves)
    decreases |moves|
  {
    if moves != [] {
      var g := Do(w, f, moves[0]);
      MoveKeeps(w, f, moves[0]);
      OnceExactlyWhenSafe(w, f, moves[0]);
      if Once(g) {
        RunOnceIff(w, g, moves[1..], end);
      } else if GiveUp !in moves {
        RunStaysBroken(w, g, moves[1..], end);
      }
    }
  }

  lemma {:induction false} RunStaysBroken(w: World, f: Feed, moves: seq<Move>, end: Feed)
    requires FeedOk(w, f) && !Once(f) && IsRun(w, f, moves, end) && GiveUp !in moves
    ensures !Once(end)
    decreases |moves|
  {
    if moves != [] {
      MoveKeeps(w, f, moves[0]);
      BrokenStaysBroken(w, f, moves[0]);
      RunStaysBroken(w, Do(w, f, moves[0]), moves[1..], end);
    }
  }

  /** Every push is done and every beat's frame is out. */
  predicate Settled(f: Feed) {
    f.push == Idle && f.owed == {}
  }

  /** However beats, messages, joins and leaves interleave: a run that leaves nothing pending, and
      gives up no push, tells nobody of a commit twice if and only if every step was safe; and then
      every beat's campaign has been told of its commit. */
  lemma ToldOnceIffSafe(w: World, cap: nat, moves: seq<Move>, end: Feed)
    requires IsRun(w, Start(cap), moves, end) && GiveUp !in moves && Settled(end)
    ensures NoDup(end.told) <==> AllSafe(w, Start(cap), moves)
    ensures NoDup(end.told) ==> forall n :: n in end.own ==> n in end.told
  {
    StartOk(w, cap);
    RunOnceIff(w, Start(cap), moves, end);
    RunKeeps(w, Start(cap), moves, end);
  }

  // --- every own commit is told ---

  /** A beat's hook runs when no other frame is due to its campaign. */
  ghost predicate InTurn(f: Feed, m: Move) {
    m.Hook? ==> NoneDue(f, m.c)
  }

  ghost predicate AllInTurn(w: World, f: Feed, moves: seq<Move>)
    decreases |moves|
  {
    moves == [] || (Enabled(w, f, moves[0]) && InTurn(f, moves[0]) && AllInTurn(w, Do(w, f, moves[0]), moves[1..]))
  }

  /** Every beat's frame has carried its own commit, or is to come and will. */
  ghost predicate InOrder(f: Feed) {
    && (forall n :: n in f.own ==> n in f.frames || n in f.owed)
    && (forall n :: n in f.owed ==> Frame(f, n.campaign) == n && n !in f.frames)
  }

  /** No frame carried this commit, and no frame will: a later hook has taken its place. */
  ghost predicate Lost(f: Feed, n: Notice) {
    n in f.own && n !in f.frames && Frame(f, n.campaign) != n
  }

  lemma OrderKept(f: Feed, m: Move, g: Feed)
    requires BeatsOk(f) && Shifted(f, m, g) && Noticed(f, m, g) && Fresh(f, m)
    requires InOrder(f) && InTurn(f, m)
    ensures InOrder(g)
  {
    if m.Tell? { assert Frame(f, m.c) == Notice(m.x, m.c); }
    forall n | n in g.owed ensures Frame(g, n.campaign) == n && n !in g.frames {
      if n in f.owed { assert Frame(f, n.campaign) == n; }
    }
  }

  lemma OvertakenIsLost(f: Feed, m: Move, g: Feed) returns (n: Notice)
    requires BeatsOk(f) && Shifted(f, m, g) && Noticed(f, m, g) && Fresh(f, m)
    requires InOrder(f) && !InTurn(f, m)
    ensures Lost(g, n)
  {
    n :| n in f.owed && n.campaign == m.c;
    assert n in f.own;
  }

  lemma LostStays(f: Feed, m: Move, g: Feed, n: Notice)
    requires Shifted(f, m, g) && Noticed(f, m, g) && Fresh(f, m) && BeatsOk(f) && Lost(f, n)
    ensures Lost(g, n)
  {}

  lemma {:induction false} RunLoses(w: World, f: Feed, moves: seq<Move>, end: Feed, n: Notice)
    requires FeedOk(w, f) && IsRun(w, f, moves, end) && Lost(f, n)
    ensures Lost(end, n)
    decreases |moves|
  {
    if moves != [] {
      var g := Do(w, f, moves[0]);
      StepIs(w, f, moves[0]);
      MoveKeeps(w, f, moves[0]);
      LostStays(f, moves[0], g, n);
      RunLoses(w, g, moves[1..], end, n);
    }
  }

  lemma {:induction false} RunInOrder(w: World, f: Feed, moves: seq<Move>, end: Feed)
    requires FeedOk(w, f) && InOrder(f) && IsRun(w, f, moves, end) && AllInTurn(w, f, moves)
    ensures InOrder(end)
    decreases |moves|
  {
    if moves != [] {
      var g := Do(w, f, moves[0]);
      StepIs(w, f, moves[0]);
      MoveKeeps(w, f, moves[0]);
      OrderKept(f, moves[0], g);
      RunInOrder(w, g, moves[1..], end);
    }
  }

  lemma {:induction false} RunOvertakes(w: World, f: Feed, moves: seq<Move>, end: Feed) returns (n: Notice)
    requires FeedOk(w, f) && InOrder(f) && IsRun(w, f, moves, end) && !AllInTurn(w, f, moves)
    ensures Lost(end, n)
    decreases |moves|
  {
    var g := Do(w, f, moves[0]);
    StepIs(w, f, moves[0]);
    MoveKeeps(w, f, moves[0]);
    if InTurn(f, moves[0]) {
      OrderKept(f, moves[0], g);
      n := RunOvertakes(w, g, moves[1..], end);
    } else {
      n := OvertakenIsLost(f, moves[0], g);
      RunLoses(w, g, moves[1..], end, n);
    }
  }

  /** Once every frame is out, each beat's own commit has been told to its campaign by a beat's frame
      if and only if no beat ran its hook while another frame of its campaign was due. */
  lemma OwnToldIffInTurn(w: World, cap: nat, moves: seq<Move>, end: Feed)
    requires IsRun(w, Start(cap), moves, end) && end.owed == {}
    ensures (forall n :: n in end.own ==> n in end.frames) <==> AllInTurn(w, Start(cap), moves)
  {
    StartOk(w, cap);
    if AllInTurn(w, Start(cap), moves) {
      RunInOrder(w, Start(cap), moves, end);
    } else {
      var n := RunOvertakes(w, Start(cap), moves, end);
    }
  }

  // --- what an unsafe step leads to ---

  /** Finishing what is under way. */
  predicate Finishes(m: Move) {
    m.Tell? || m.Consider? || m.Publish?
  }

  lemma LeadsOn(w: World, f: Feed, m: Move, rest: seq<Move>, end: Feed)
    requires Enabled(w, f, m) && Finishes(m) && IsRun(w, Do(w, f, m), rest, end) && forall k :: k in rest ==> Finishes(k)
    ensures IsRun(w, f, [m] + rest, end) && forall k :: k in [m] + rest ==> Finishes(k)
  {
    FirstStep(w, f, m, rest, end);
  }

  lemma OneMove(w: World, f: Feed, m: Move)
    requires Enabled(w, f, m)
    ensures IsRun(w, f, [m], Do(w, f, m))
  {
    assert [m][1..] == [];
  }

  /** A frame that is due carries what its campaign was told already. */
  lemma DueInVain(w: World, f: Feed, n: Notice) returns (moves: seq<Move>, end: Feed)
    requires n in f.owed && Frame(f, n.campaign) in f.told
    ensures IsRun(w, f, moves, end) && !NoDup(end.told) && forall m :: m in moves ==> Finishes(m)
  {
    var tell := Tell(n.commit, n.campaign);
    moves, end := [tell], Do(w, f, tell);
    OneMove(w, f, tell);
    if NoDup(end.told) { NoDupParts(f.told, [Frame(f, n.campaign)]); }
  }

  /** A frame that is due will carry the commit of another beat, whose own frame is due as well. */
  lemma TwoDue(w: World, f: Feed, n: Notice) returns (moves: seq<Move>, end: Feed)
    requires n in f.owed && Frame(f, n.campaign) in f.owed && n != Frame(f, n.campaign)
    ensures IsRun(w, f, moves, end) && !NoDup(end.told) && forall k :: k in moves ==> Finishes(k)
  {
    var tell, y := Tell(n.commit, n.campaign), Frame(f, n.campaign);
    var g := Do(w, f, tell);
    assert Frame(g, y.campaign) == y && y in g.told && y in g.owed;
    moves, end := DueInVain(w, g, y);
    LeadsOn(w, f, tell, moves, end);
    moves := [tell] + moves;
  }

  lemma FramesDuplicate(w: World, f: Feed) returns (moves: seq<Move>, end: Feed)
    requires BeatsOk(f) && !FramesOnce(f)
    ensures IsRun(w, f, moves, end) && !NoDup(end.told) && forall m :: m in moves ==> Finishes(m)
  {
    if !NoDup(f.told) {
      moves, end := [], f;
    } else if n :| n in f.owed && Frame(f, n.campaign) in f.told {
      moves, end := DueInVain(w, f, n);
    } else {
      var n :| n in f.owed && Frame(f, n.campaign) != n;
      assert n in f.own;
      moves, end := TwoDue(w, f, n);
    }
  }

  lemma {:induction false} DuplicateComes(w: World, f: Feed) returns (moves: seq<Move>, end: Feed)
    requires FeedOk(w, f) && !Once(f)
    ensures IsRun(w, f, moves, end) && !NoDup(end.told) && forall m :: m in moves ==> Finishes(m)
    decreases if f.push.Pushing? then 1 + |f.push.listing| - f.push.at else 0
  {
    if !FramesOnce(f) {
      moves, end := FramesDuplicate(w, f);
    } else {
      var m := if f.push.at < |f.push.listing| then Consider else Publish;
      MoveKeeps(w, f, m);
      BrokenStaysBroken(w, f, m);
      moves, end := DuplicateComes(w, Do(w, f, m));
      LeadsOn(w, f, m, moves, end);
      moves := [m] + moves;
    }
  }

  /** After an unsafe step, finishing what is under way tells somebody twice. */
  lemma UnsafeTellsTwice(w: World, f: Feed, m: Move) returns (moves: seq<Move>, end: Feed)
    requires FeedOk(w, f) && Once(f) && Enabled(w, f, m) && !Safe(w, f, m)
    ensures IsRun(w, Do(w, f, m), moves, end) && !NoDup(end.told) && forall k :: k in moves ==> Finishes(k)
  {
    MoveKeeps(w, f, m);
    OnceExactlyWhenSafe(w, f, m);
    moves, end := DuplicateComes(w, Do(w, f, m));
  }

  // --- a schedule that is safe ---

  predicate FirstAt(history: seq<Notice>, x: Id, i: nat)
    requires i < |history|
  {
    history[i].commit == x && !Mentions(history[..i], x)
  }

  /** Since the commit was first announced, if it was, fewer than `cap` announcements brought a
      commit not in the table. */
  ghost predicate Recent(cap: nat, history: seq<Notice>, x: Id) {
    || !Mentions(history, x)
    || exists i: int :: 0 <= i < |history| && FirstAt(history, x, i) && Brought(cap, history[..i + 1], history[i + 1..]) < cap
  }

  /** A beat's hook runs when no other frame is due to its campaign; it and an outcome come before
      any feed message about their commit is taken up; and commits are looked up while they are recent. */
  ghost predicate Timely(w: World, f: Feed, m: Move) {
    match m
    case Hook(x, c) => NoneDue(f, c) && x !in f.begun
    case Outcome(x, c) => x !in f.begun
    case Consider => f.push.Pushing? && Recent(f.table.cap, f.history, f.push.commit)
    case _ => true
  }

  lemma RecentIsRemembered(cap: nat, history: seq<Notice>, n: Notice)
    requires n.commit != "" && n in history && Recent(cap, history, n.commit)
    ensures Remembered(cap, history, n)
  {
    assert Mentions(history, n.commit);
    var i: int :| 0 <= i < |history| && FirstAt(history, n.commit, i)
                  && Brought(cap, history[..i + 1], history[i + 1..]) < cap;
    NeverMentioned(cap, history[..i], n.commit);
    NotedSince(history, n, i);
    assert KeptSince(cap, history, n.commit, i);
  }

  lemma NotedSince(history: seq<Notice>, n: Notice, i: nat)
    requires i < |history| && FirstAt(history, n.commit, i) && n in history
    ensures n in history[i..]
  {
    assert history == history[..i] + history[i..];
    assert n !in history[..i];
  }

  lemma TimelyIsSafe(w: World, f: Feed, m: Move)
    requires FeedOk(w, f) && Enabled(w, f, m) && Timely(w, f, m)
    ensures Safe(w, f, m)
  {
    if m.Hook? || m.Outcome? {
      assert Notice(m.x, m.c) !in f.history;
    } else if m.Consider? {
      var n := Notice(f.push.commit, f.push.listing[f.push.at]);
      if n in f.history { RecentIsRemembered(f.table.cap, f.history, n); }
    }
  }

  ghost predicate AllTimely(w: World, f: Feed, moves: seq<Move>)
    decreases |moves|
  {
    moves == [] || (Enabled(w, f, moves[0]) && Timely(w, f, moves[0])
                    && AllTimely(w, Do(w, f, moves[0]), moves[1..]))
  }

  lemma {:induction false} TimelyRunIsSafe(w: World, f: Feed, moves: seq<Move>, end: Feed)
    requires FeedOk(w, f) && IsRun(w, f, moves, end) && AllTimely(w, f, moves)
    ensures AllSafe(w, f, moves)
    decreases |moves|
  {
    if moves != [] {
      MoveKeeps(w, f, moves[0]);
      TimelyIsSafe(w, f, moves[0]);
      TimelyRunIsSafe(w, Do(w, f, moves[0]), moves[1..], end);
    }
  }

  /** Through repeated, reordered and unknown messages, joins, leaves and failed lookups, no
      campaign is told of a commit twice, and each beat's campaign is told, or owed, its own. */
  lemma EachCampaignToldOnce(w: World, cap: nat, moves: seq<Move>, end: Feed)
    requires IsRun(w, Start(cap), moves, end) && AllTimely(w, Start(cap), moves)
    ensures NoDup(end.told)
    ensures forall n :: n in end.own ==> Promised(end, n)
  {
    StartOk(w, cap);
    TimelyRunIsSafe(w, Start(cap), moves, end);
    RunOnceIff(w, Start(cap), moves, end);
    RunKeeps(w, Start(cap), moves, end);
  }

  // --- unsafe schedules ---

  lemma FirstStep(w: World, f: Feed, m: Move, rest: seq<Move>, end: Feed)
    requires Enabled(w, f, m) && IsRun(w, Do(w, f, m), rest, end)
    ensures IsRun(w, f, [m] + rest, end)
  {
    assert ([m] + rest)[1..] == rest;
  }

  /** The feed looks at the one live campaign and chooses it. */
  lemma Chosen(w: World, f: Feed, x: Id, c: Id) returns (moves: seq<Move>, end: Feed)
    requires f.push == Idle && f.live == {c} && x != "" && OnBranch(w, x, c) && !Told(f.table, x, c)
    ensures IsRun(w, f, moves, end) && end == f.(push := Pushing(x, [c], 1, [c]), begun := f.begun + {x})
  {
    var begin := Begin(x, [c]);
    assert [c][..0] == [] && NoDup([c]);
    assert Enabled(w, f, begin);
    var begun := Do(w, f, begin);
    end := Do(w, begun, Consider);
    assert [] + [c] == [c];
    moves := [Consider];
    assert moves[1..] == [];
    FirstStep(w, f, begin, moves, end);
    moves := [begin] + moves;
  }

  lemma JustJoined(w: World, cap: nat, c: Id) returns (moves: seq<Move>, f: Feed)
    ensures f == Start(cap).(live := {c}) && moves == [Join(c)] && IsRun(w, Start(cap), moves, f)
  {
    f := Start(cap).(live := {c});
    moves := [Join(c)];
    assert {} + {c} == {c} && Do(w, Start(cap), Join(c)) == f;
    OneMove(w, Start(cap), Join(c));
  }

  lemma HookThenPublish(w: World, f: Feed, x: Id, c: Id) returns (moves: seq<Move>, end: Feed)
    requires x != "" && OnBranch(w, x, c) && f.push == Pushing(x, [c], 1, [c])
    requires f.told == [] && f.history == [] && f.owed == {} && f.played == {}
    ensures IsRun(w, f, moves, end) && end.told == [Notice(x, c), Notice(x, c)]
  {
    var f1 := Do(w, f, Hook(x, c));
    var f2 := Do(w, f1, Publish);
    PublishedOne(f1, x, c);
    end := Do(w, f2, Tell(x, c));
    OneMove(w, f2, Tell(x, c));
    FirstStep(w, f1, Publish, [Tell(x, c)], end);
    FirstStep(w, f, Hook(x, c), [Publish] + [Tell(x, c)], end);
    moves := [Hook(x, c)] + ([Publish] + [Tell(x, c)]);
  }

  /** A feed message taken up just before the beat's own hook: its campaign is told twice. */
  lemma FeedOvertakesHook(w: World, cap: nat, x: Id, c: Id) returns (moves: seq<Move>, end: Feed)
    requires x != "" && OnBranch(w, x, c)
    ensures IsRun(w, Start(cap), moves, end) && end.told == [Notice(x, c), Notice(x, c)]
  {
    var joined, f, more;
    moves, joined := JustJoined(w, cap, c);
    more, f := Chosen(w, joined, x, c);
    RunsJoin(w, Start(cap), moves, joined, more, f);
    moves := moves + more;
    more, end := HookThenPublish(w, f, x, c);
    RunsJoin(w, Start(cap), moves, f, more, end);
    moves := moves + more;
  }

  lemma PublishedOne(f: Feed, x: Id, c: Id)
    ensures PublishAll(f, x, [c]) == Announce(f, x, c).(told := f.told + [Notice(x, c)])
  {
    assert [c][..0] == [];
  }

  lemma {:induction false} RunsJoin(w: World, f: Feed, moves: seq<Move>, g: Feed, more: seq<Move>, end: Feed)
    requires IsRun(w, f, moves, g) && IsRun(w, g, more, end)
    ensures IsRun(w, f, moves + more, end)
    decreases |moves|
  {
    if moves == [] {
      assert moves + more == more;
    } else {
      assert (moves + more)[1..] == moves[1..] + more;
      RunsJoin(w, Do(w, f, moves[0]), moves[1..], g, more, end);
    }
  }

  lemma PushOne(w: World, f: Feed, x: Id, c: Id) returns (moves: seq<Move>, end: Feed)
    requires f.push == Idle && f.live == {c} && x != "" && OnBranch(w, x, c) && !Told(f.table, x, c)
    ensures IsRun(w, f, moves, end) && end.told == f.told + [Notice(x, c)]
  {
    var chosen;
    moves, chosen := Chosen(w, f, x, c);
    end := Do(w, chosen, Publish);
    PublishedOne(chosen, x, c);
    assert [Publish][1..] == [] && IsRun(w, chosen, [Publish], end);
    RunsJoin(w, f, moves, chosen, [Publish], end);
    moves := moves + [Publish];
  }

  /** The table is what the announcements made of it. */
  predicate TableFits(cap: nat, f: Feed) {
    f.table.cap == cap && f.table == TableOf(cap, f.history)
  }

  lemma BeatStep(w: World, cap: nat, f: Feed, m: Move) returns (g: Feed)
    requires TableFits(cap, f) && Enabled(w, f, m) && (m.Hook? || m.Tell?)
    ensures g == Do(w, f, m) && TableFits(cap, g) && Shifted(f, m, g) && Noticed(f, m, g) && g.live == f.live
  {
    g := Do(w, f, m);
    StepIs(w, f, m);
    TableOfAnnounced(f, if m.Hook? then m.x else Frame(f, m.c).commit, m.c);
  }

  /** A run and one more step of a beat. */
  lemma Onward(w: World, cap: nat, before: seq<Move>, f: Feed, m: Move) returns (moves: seq<Move>, g: Feed)
    requires IsRun(w, Start(cap), before, f) && TableFits(cap, f) && Enabled(w, f, m) && (m.Hook? || m.Tell?)
    ensures IsRun(w, Start(cap), moves, g) && TableFits(cap, g) && moves == before + [m]
    ensures Shifted(f, m, g) && Noticed(f, m, g) && g.live == f.live
  {
    g := BeatStep(w, cap, f, m);
    OneMove(w, f, m);
    RunsJoin(w, Start(cap), before, f, [m], g);
    moves := before + [m];
  }

  lemma NewerForgets(n: Notice, k: Notice)
    requires n.commit != "" && k.commit != "" && n.commit != k.commit
    ensures !Told(TableOf(1, [n, n, k]), n.commit, n.campaign)
  {
    var after := [n, k];
    assert [n] + after == [n, n, k] && after[..1] == [n] && after[..1][..0] == [] && [n] + after[..1] == [n, n];
    assert [n][..0] == [] && EnteredAt(1, [n], n.commit, 0);
    DrivenBack(1, [n], n.commit, []);
    assert [n] + [] == [n];
    TableOfOk(1, [n]);
    NeverMentioned(1, [n, n], k.commit);
    assert Brought(1, [n], after[..1]) == 0 && Brought(1, [n], after) == 1;
    DrivenBack(1, [n], n.commit, after);
  }

  /** In a table of one, a commit pushed again after a newer one: its campaign is told twice. */
  lemma ForgottenIsToldAgain(w: World, x: Id, y: Id, c: Id) returns (moves: seq<Move>, end: Feed)
    requires x != "" && y != "" && x != y && OnBranch(w, x, c) && OnBranch(w, y, c)
    ensures IsRun(w, Start(1), moves, end) && end.told == [Notice(x, c), Notice(x, c)]
  {
    var f, more;
    moves, f := JustJoined(w, 1, c);
    moves, f := Onward(w, 1, moves, f, Hook(x, c));
    moves, f := Onward(w, 1, moves, f, Tell(x, c));
    moves, f := Onward(w, 1, moves, f, Hook(y, c));
    assert f.history == [Notice(x, c), Notice(x, c), Notice(y, c)] && f.told == [Notice(x, c)];
    NewerForgets(Notice(x, c), Notice(y, c));
    more, end := PushOne(w, f, x, c);
    RunsJoin(w, Start(1), moves, f, more, end);
    moves := moves + more;
  }

  lemma TwoHooks(w: World, cap: nat, x: Id, y: Id, c: Id) returns (moves: seq<Move>, f: Feed)
    requires x != "" && y != "" && x != y && OnBranch(w, x, c) && OnBranch(w, y, c)
    ensures IsRun(w, Start(cap), moves, f) && GiveUp !in moves && TableFits(cap, f)
    ensures f.told == [] && f.owed == {Notice(x, c), Notice(y, c)} && f.push == Idle && f.live == {c}
    ensures Notice(x, c) in f.own && f.last == map[c := y]
    ensures f.history == [Notice(x, c), Notice(y, c)]
  {
    moves, f := JustJoined(w, cap, c);
    moves, f := Onward(w, cap, moves, f, Hook(x, c));
    moves, f := Onward(w, cap, moves, f, Hook(y, c));
  }

  lemma {:induction false} BroughtAtMost(cap: nat, before: seq<Notice>, after: seq<Notice>)
    ensures Brought(cap, before, after) <= |after|
  {
    if after != [] { BroughtAtMost(cap, before, after[..|after| - 1]); }
  }

  lemma FirstIsTold(cap: nat, history: seq<Notice>)
    requires 0 < |history| <= cap && history[0].commit != ""
    ensures Told(TableOf(cap, history), history[0].commit, history[0].campaign)
  {
    BroughtAtMost(cap, history[..1], history[1..]);
    assert EnteredAt(cap, history, history[0].commit, 0);
    assert KeptSince(cap, history, history[0].commit, 0);
    assert Notice(history[0].commit, history[0].campaign) == history[0] && history[0..] == history;
    ToldIff(cap, history, history[0].commit, history[0].campaign);
  }

  /** Two beats of one campaign, whose hooks both run before either frame. */
  lemma BeatsOverlap(w: World, cap: nat, x: Id, y: Id, c: Id) returns (moves: seq<Move>, f: Feed)
    requires cap >= 4 && x != "" && y != "" && x != y && OnBranch(w, x, c) && OnBranch(w, y, c)
    ensures IsRun(w, Start(cap), moves, f) && GiveUp !in moves
    ensures f.told == [Notice(y, c), Notice(y, c)] && f.owed == {} && f.push == Idle && f.live == {c}
    ensures Notice(x, c) in f.own && Told(f.table, x, c)
  {
    var n, k := Notice(x, c), Notice(y, c);
    moves, f := TwoHooks(w, cap, x, y, c);
    moves, f := Onward(w, cap, moves, f, Tell(x, c));
    assert f.told == [k] && f.owed == {k};
    moves, f := Onward(w, cap, moves, f, Tell(y, c));
    assert f.history == [n, k, k, k];
    FirstIsTold(cap, f.history);
  }

  /** The feed looks at the one live campaign and passes it over. */
  lemma PassedOver(w: World, f: Feed, x: Id, c: Id) returns (moves: seq<Move>, end: Feed)
    requires f.push == Idle && f.live == {c} && x != "" && x in w.rows && Told(f.table, x, c)
    ensures IsRun(w, f, moves, end) && GiveUp !in moves && end == f.(begun := f.begun + {x})
  {
    var begin := Begin(x, [c]);
    assert [c][..0] == [] && NoDup([c]);
    assert Enabled(w, f, begin);
    var begun := Do(w, f, begin);
    var looked := Do(w, begun, Consider);
    end := Do(w, looked, Publish);
    OneMove(w, looked, Publish);
    moves := [Publish];
    FirstStep(w, begun, Consider, moves, end);
    moves := [Consider] + moves;
    FirstStep(w, f, begin, moves, end);
    moves := [begin] + moves;
  }

  /** Two beats of one campaign overlap: it is told twice of the later commit and of the earlier one
      never, not even when the feed brings it. */
  lemma OverlappingBeats(w: World, cap: nat, x: Id, y: Id, c: Id) returns (moves: seq<Move>, end: Feed)
    requires cap >= 4 && x != "" && y != "" && x != y && OnBranch(w, x, c) && OnBranch(w, y, c)
    ensures IsRun(w, Start(cap), moves, end) && GiveUp !in moves && Settled(end)
    ensures end.told == [Notice(y, c), Notice(y, c)]
    ensures Notice(x, c) in end.own && x in end.begun && end.live == {c}
  {
    var f;
    moves, f := BeatsOverlap(w, cap, x, y, c);
    var more;
    more, end := PassedOver(w, f, x, c);
    RunsJoin(w, Start(cap), moves, f, more, end);
    moves := moves + more;
  }
}
