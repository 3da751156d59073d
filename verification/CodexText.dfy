/** The codex's clue log as text: what is written on the branch and what is read back. */
module CodexText {
  import opened Common

  // --- searching and splitting ---

  predicate StartsAt(s: string, part: string, i: int) {
    0 <= i && i + |part| <= |s| && s[i..i + |part|] == part
  }

  /** The first place at or after `from` where `part` occurs. */
  function FirstFrom(s: string, part: string, from: nat): (r: Option<nat>)
    requires from <= |s|
    ensures r.Some? ==> from <= r.value && StartsAt(s, part, r.value)
    ensures forall j :: from <= j < (if r.Some? then r.value else |s| + 1) ==> !StartsAt(s, part, j)
    decreases |s| - from
  {
    if StartsAt(s, part, from) then Some(from)
    else if from == |s| then None
    else FirstFrom(s, part, from + 1)
  }

  /** The last place at or before `upTo` where `part` occurs. */
  function LastUpTo(s: string, part: string, upTo: nat): (r: Option<nat>)
    ensures r.Some? ==> r.value <= upTo && StartsAt(s, part, r.value)
    ensures forall j :: (if r.Some? then r.value else -1) < j <= upTo ==> !StartsAt(s, part, j)
  {
    if StartsAt(s, part, upTo) then Some(upTo)
    else if upTo == 0 then None
    else LastUpTo(s, part, upTo - 1)
  }

  function First(s: string, part: string): Option<nat> { FirstFrom(s, part, 0) }

  function Last(s: string, part: string): Option<nat> { LastUpTo(s, part, |s|) }

  lemma FirstIs(s: string, part: string, i: nat)
    requires StartsAt(s, part, i) && forall j :: 0 <= j < i ==> !StartsAt(s, part, j)
    ensures First(s, part) == Some(i)
  {}

  lemma LastIs(s: string, part: string, i: nat)
    requires StartsAt(s, part, i) && forall j :: i < j <= |s| ==> !StartsAt(s, part, j)
    ensures Last(s, part) == Some(i)
  {}

  // --- numbers ---

  function DigitOf(d: nat): char
    requires d < 10
  {
    '0' + d as char
  }

  function Digits(n: nat): string {
    if n < 10 then [DigitOf(n)] else Digits(n / 10) + [DigitOf(n % 10)]
  }

  function IntText(n: int): string {
    if n < 0 then "-" + Digits(-n) else Digits(n)
  }

  predicate IsDigit(c: char) { '0' <= c <= '9' }

  /** Digits, with single underscores between them. */
  function DigitsValue(s: string): Option<nat> {
    if s == "" || !IsDigit(s[|s| - 1]) then None
    else
      var d := (s[|s| - 1] - '0') as nat;
      if |s| == 1 then Some(d)
      else
        var rest := DigitsValue(if s[|s| - 2] == '_' then s[..|s| - 2] else s[..|s| - 1]);
        if rest.None? then None else Some(rest.value * 10 + d)
  }

  predicate IsSpace(c: char) {
    c == ' ' || '\t' <= c <= '\r' || '\U{1C}' <= c <= '\U{1F}'
  }

  function Stripped(s: string): string {
    if s != "" && IsSpace(s[0]) then Stripped(s[1..])
    else if s != "" && IsSpace(s[|s| - 1]) then Stripped(s[..|s| - 1])
    else s
  }

  /** Python's `int` on ASCII text. */
  function IntValue(s: string): Option<int> {
    var t := Stripped(s);
    if t != "" && (t[0] == '-' || t[0] == '+') then
      var n := DigitsValue(t[1..]);
      if n.None? then None else Some(if t[0] == '-' then 0 - n.value else n.value)
    else
      var n := DigitsValue(t);
      if n.None? then None else Some(n.value)
  }

  lemma {:induction false} DigitsReadBack(n: nat)
    ensures DigitsValue(Digits(n)) == Some(n)
    ensures Digits(n) != "" && forall c :: c in Digits(n) ==> IsDigit(c)
  {
    if n >= 10 {
      DigitsReadBack(n / 10);
      var s := Digits(n);
      assert s[..|s| - 1] == Digits(n / 10);
      assert s[|s| - 2] in Digits(n / 10);
    }
  }

  lemma NothingToStrip(s: string)
    requires s != "" && !IsSpace(s[0]) && !IsSpace(s[|s| - 1])
    ensures Stripped(s) == s
  {}

  lemma IntReadsBack(n: int)
    ensures IntValue(IntText(n)) == Some(n)
    ensures IntText(n) != "" && forall c :: c in IntText(n) ==> IsDigit(c) || c == '-'
  {
    var s, digits := IntText(n), Digits(if n < 0 then -n else n);
    DigitsReadBack(if n < 0 then -n else n);
    assert digits[0] in digits && digits[|digits| - 1] in digits;
    if n < 0 {
      assert s == "-" + digits && s[1..] == digits && s[|s| - 1] == digits[|digits| - 1];
    }
    NothingToStrip(s);
  }

  function WithoutDots(s: string): string {
    if s != "" && s[|s| - 1] == '.' then WithoutDots(s[..|s| - 1]) else s
  }

  lemma OneDotGoes(s: string)
    requires s != "" && '.' !in s
    ensures WithoutDots(s + ".") == s
  {
    assert (s + ".")[..|s|] == s;
    assert s[|s| - 1] in s;
  }

  // --- the statement ---

  /** The clues' titles, as the words they are written in. */
  const TITLES: map<Id, seq<string>> := map[
    "K1" := ["(the", "nature", "of", "the", "Fall)"],
    "K2" := ["(the", "ward)"],
    "K3" := ["(the", "hidden", "key)"],
    "K4" := ["(the", "hour", "of", "the", "star)"]]

  const IN := " in "
  const AT := " at segment "

  function Spaced(words: seq<string>): string {
    if words == [] then "" else if |words| == 1 then words[0]
    else Spaced(words[..|words| - 1]) + " " + words[|words| - 1]
  }

  function Head(key: Id): string
    requires key in TITLES
  {
    Spaced(["The", "Loopwalker", "learned", key] + TITLES[key])
  }

  datatype Entry = Entry(key: Id, loop: string, segment: int)

  function Encode(e: Entry): string
    requires e.key in TITLES
  {
    Head(e.key) + IN + e.loop + AT + IntText(e.segment) + "."
  }

  datatype Decoded = Read(entry: Entry) | BadNumber

  function KeyOf(claimId: Id): Id {
    if |claimId| >= 2 && claimId[..2] == "k:" then claimId[2..] else claimId
  }

  /** A statement that does not have both marks reads as an unknown loop; a number that does not
      parse is an error. */
  function Decode(claimId: Id, statement: string): Decoded {
    var key := KeyOf(claimId);
    var i := First(statement, IN);
    if i.None? || First(statement, AT).None? then Read(Entry(key, "?", -1))
    else
      var tail := statement[i.value + |IN|..];
      var a, z := First(tail, AT), Last(tail, AT);
      if a.None? || z.None? then BadNumber
      else
        var n := IntValue(WithoutDots(tail[z.value + |AT|..]));
        if n.None? then BadNumber else Read(Entry(key, tail[..a.value], n.value))
  }

  // --- where the marks are ---

  /** A word without spaces that does not begin like the word "in". */
  predicate PlainWord(w: string) {
    w != "" && w[0] != 'i' && ' ' !in w
  }

  ghost predicate PlainText(s: string) {
    && s != "" && s[|s| - 1] != ' '
    && forall i :: 0 <= i < |s| - 1 && s[i] == ' ' ==> s[i + 1] != 'i'
  }

  lemma {:induction false} SpacedIsPlain(words: seq<string>)
    requires words != [] && forall w :: w in words ==> PlainWord(w)
    ensures PlainText(Spaced(words))
  {
    var last := words[|words| - 1];
    assert PlainWord(last);
    assert forall i :: 0 <= i < |last| ==> last[i] in last && last[i] != ' ';
    if |words| > 1 {
      SpacedIsPlain(words[..|words| - 1]);
      assert Spaced(words) == Spaced(words[..|words| - 1]) + " " + last;
    }
  }

  lemma HeadIsPlain(key: Id)
    requires key in TITLES
    ensures PlainText(Head(key))
  {
    var words := ["The", "Loopwalker", "learned", key] + TITLES[key];
    assert key in ["K1", "K2", "K3", "K4"];
    SpacedIsPlain(words);
  }

  lemma InIsAfterHead(head: string, rest: string)
    requires PlainText(head)
    ensures First(head + IN + rest, IN) == Some(|head|)
  {
    var s := head + IN + rest;
    assert s[|head|..|head| + 4] == IN;
    forall j | 0 <= j < |head| ensures !StartsAt(s, IN, j) {
      if s[j] == ' ' {
        assert j < |head| - 1 && s[j + 1] == head[j + 1] != 'i';
        assert IN[1] == 'i';
        assert j + 4 <= |s| ==> s[j..j + 4][1] == s[j + 1];
      } else {
        assert j + 4 <= |s| ==> s[j..j + 4][0] == s[j];
      }
    }
    FirstIs(s, IN, |head|);
  }

  /** The loop's name has no " at segment " in it, and does not end with " at segment". */
  predicate ReadableLoop(loop: string) {
    First(loop, AT) == None && !EndsLikeMark(loop)
  }

  predicate EndsLikeMark(loop: string) {
    |loop| >= |AT| - 1 && loop[|loop| - (|AT| - 1)..] == AT[..|AT| - 1]
  }

  lemma StartsInLonger(s: string, rest: string, part: string, j: int)
    requires 0 <= j && j + |part| <= |s|
    ensures StartsAt(s + rest, part, j) <==> StartsAt(s, part, j)
  {
    assert (s + rest)[j..j + |part|] == s[j..j + |part|];
  }

  /** The mark overlaps itself only in its outer spaces. */
  lemma MarkOverlapsItself(d: nat)
    requires 1 <= d < |AT| && forall i :: d <= i < |AT| ==> AT[i] == AT[i - d]
    ensures d == |AT| - 1
  {
    assert AT[11] == AT[11 - d] == ' ';
    assert AT[1] != ' ' && AT[2] != ' ' && AT[4] != ' ' && AT[5] != ' ' && AT[6] != ' ';
    assert AT[7] != ' ' && AT[8] != ' ' && AT[9] != ' ' && AT[10] != ' ';
    assert AT[8] != AT[0];
  }

  /** So a mark that begins in the name and runs on into the mark after it takes up all but its
      last character in the name. */
  lemma MarkRunsOn(loop: string, j: nat)
    requires j < |loop| < j + |AT| && StartsAt(loop + AT, AT, j)
    ensures EndsLikeMark(loop)
  {
    var s, d := loop + AT, |loop| - j;
    assert s[j..j + |AT|] == AT;
    forall i | d <= i < |AT| ensures AT[i] == AT[i - d] {
      assert s[j + i] == s[j..j + |AT|][i];
    }
    MarkOverlapsItself(d);
    assert loop[j..] == s[j..j + |AT|][..d];
  }

  lemma EarlierMark(loop: string, j: nat)
    requires j < |loop| && StartsAt(loop + AT, AT, j)
    ensures First(loop + AT, AT) != Some(|loop|)
  {}

  lemma ReadableIsFirst(loop: string)
    requires ReadableLoop(loop)
    ensures First(loop + AT, AT) == Some(|loop|)
  {
    var s := loop + AT;
    assert s[|loop|..|loop| + |AT|] == AT;
    forall j | 0 <= j < |loop| ensures !StartsAt(s, AT, j) {
      if j + |AT| <= |loop| {
        StartsInLonger(loop, AT, AT, j);
      } else if StartsAt(s, AT, j) {
        MarkRunsOn(loop, j);
      }
    }
    FirstIs(s, AT, |loop|);
  }

  lemma LikeMarkStarts(loop: string)
    requires EndsLikeMark(loop)
    ensures StartsAt(loop + AT, AT, |loop| - (|AT| - 1))
  {
    var s, j := loop + AT, |loop| - (|AT| - 1);
    assert s[j..j + |AT|] == loop[j..] + [AT[0]];
  }

  lemma MarkInside(loop: string, j: nat)
    requires StartsAt(loop, AT, j)
    ensures First(loop + AT, AT) != Some(|loop|)
  {
    StartsInLonger(loop, AT, AT, j);
    EarlierMark(loop, j);
  }

  lemma MarkAtEnd(loop: string)
    requires EndsLikeMark(loop)
    ensures First(loop + AT, AT) != Some(|loop|)
  {
    LikeMarkStarts(loop);
    EarlierMark(loop, |loop| - (|AT| - 1));
  }

  /** The first mark of the text is the one written after the name exactly when the name is
      readable. */
  lemma ReadableIffSplit(loop: string)
    ensures ReadableLoop(loop) <==> First(loop + AT, AT) == Some(|loop|)
  {
    if ReadableLoop(loop) {
      ReadableIsFirst(loop);
    } else if EndsLikeMark(loop) {
      MarkAtEnd(loop);
    } else {
      var inside := First(loop, AT);
      MarkInside(loop, inside.value);
    }
  }

  lemma FirstInLonger(loop: string, rest: string)
    ensures First(loop + AT + rest, AT).Some?
    ensures First(loop + AT, AT) == First(loop + AT + rest, AT)
  {
    var s := loop + AT;
    assert s[|loop|..|loop| + |AT|] == AT;
    assert StartsAt(s, AT, |loop|);
    var i := First(s, AT).value;
    forall j | 0 <= j <= i ensures StartsAt(s + rest, AT, j) <==> StartsAt(s, AT, j) {
      StartsInLonger(s, rest, AT, j);
    }
    FirstIs(s + rest, AT, i);
  }

  /** Nothing after the mark can hold another one: a number has no spaces. */
  lemma LastAt(loop: string, number: string)
    requires ' ' !in number
    ensures Last(loop + AT + number, AT) == Some(|loop|)
  {
    var s := loop + AT + number;
    assert s[|loop|..|loop| + |AT|] == AT;
    assert AT[|AT| - 1] == ' ';
    forall j | |loop| < j <= |s| ensures !StartsAt(s, AT, j) {
      if j + |AT| <= |s| {
        var k := j + |AT| - 1;
        assert s[k] == number[k - |loop| - |AT|];
        assert s[k] in number;
        assert s[j..j + |AT|][|AT| - 1] == s[k];
      }
    }
    LastIs(s, AT, |loop|);
  }

  lemma MarkInTheMiddle(before: string, after: string)
    ensures First(before + AT + after, AT).Some?
  {
    var s := before + AT + after;
    assert s[|before|..|before| + |AT|] == AT;
    assert StartsAt(s, AT, |before|);
  }

  lemma TailOf(e: Entry)
    requires e.key in TITLES
    ensures var s := Encode(e);
            && First(s, IN) == Some(|Head(e.key)|)
            && s[|Head(e.key)| + |IN|..] == e.loop + AT + (IntText(e.segment) + ".")
            && First(s, AT).Some?
  {
    var s, head := Encode(e), Head(e.key);
    var rest := e.loop + AT + (IntText(e.segment) + ".");
    assert s == head + IN + rest;
    HeadIsPlain(e.key);
    InIsAfterHead(head, rest);
    MarkInTheMiddle(head + IN + e.loop, IntText(e.segment) + ".");
    assert s == head + IN + e.loop + AT + (IntText(e.segment) + ".");
  }

  lemma KeyOfMade(key: Id)
    ensures KeyOf("k:" + key) == key
  {
    assert ("k:" + key)[2..] == key && ("k:" + key)[..2] == "k:";
  }

  lemma DecodeBy(claimId: Id, statement: string, i: nat, tail: string, a: nat, z: nat, n: int)
    requires First(statement, IN) == Some(i) && First(statement, AT).Some?
    requires i + |IN| <= |statement| && tail == statement[i + |IN|..]
    requires First(tail, AT) == Some(a) && Last(tail, AT) == Some(z)
    requires z + |AT| <= |tail| && IntValue(WithoutDots(tail[z + |AT|..])) == Some(n)
    ensures a <= |tail| && Decode(claimId, statement) == Read(Entry(KeyOf(claimId), tail[..a], n))
  {}

  lemma FirstMark(e: Entry) returns (a: nat)
    ensures First(e.loop + AT, AT) == Some(a) && a <= |e.loop + AT|
    ensures First(e.loop + AT + (IntText(e.segment) + "."), AT) == Some(a)
    ensures (e.loop + AT + (IntText(e.segment) + "."))[..a] == (e.loop + AT)[..a]
  {
    FirstInLonger(e.loop, IntText(e.segment) + ".");
    a := First(e.loop + AT, AT).value;
  }

  lemma NumberPart(loop: string, segment: int)
    ensures var tail := loop + AT + (IntText(segment) + ".");
      && Last(tail, AT) == Some(|loop|) && |loop| + |AT| <= |tail|
      && IntValue(WithoutDots(tail[|loop| + |AT|..])) == Some(segment)
  {
    var number := IntText(segment);
    IntReadsBack(segment);
    LastAt(loop, number + ".");
    assert (loop + AT + (number + "."))[|loop| + |AT|..] == number + ".";
    OneDotGoes(number);
  }

  /** What an entry's text reads back as: the key and the number always, the loop's name up to
      its first " at segment ". */
  lemma DecodeOfEncode(e: Entry)
    requires e.key in TITLES
    ensures First(e.loop + AT, AT).Some?
    ensures Decode("k:" + e.key, Encode(e))
         == Read(Entry(e.key, (e.loop + AT)[..First(e.loop + AT, AT).value], e.segment))
  {
    var a := FirstMark(e);
    TailOf(e);
    NumberPart(e.loop, e.segment);
    KeyOfMade(e.key);
    DecodeBy("k:" + e.key, Encode(e), |Head(e.key)|, e.loop + AT + (IntText(e.segment) + "."), a, |e.loop|, e.segment);
  }

  /** An entry reads back as itself exactly when its loop's name is readable. */
  lemma RoundTrip(e: Entry)
    requires e.key in TITLES
    ensures Decode("k:" + e.key, Encode(e)) == Read(e) <==> ReadableLoop(e.loop)
  {
    DecodeOfEncode(e);
    ReadableIffSplit(e.loop);
    var a := First(e.loop + AT, AT).value;
    assert (e.loop + AT)[..|e.loop|] == e.loop;
    assert |(e.loop + AT)[..a]| == a;
  }

  /** A name that only ends like the mark is already unreadable. */
  lemma UnreadableLoop()
    ensures !ReadableLoop("loop at segment")
  {
    assert EndsLikeMark("loop at segment");
  }
}
