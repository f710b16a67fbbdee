/** The running study session of StudySession.tsx: the countdown, the
    session chat, the flashcards and the `[explain:X]` markup of resource
    texts. */
module Session {
  import opened Wrappers
  import opened Text
  import opened Types

  /** `Math.floor(t / 60)` and `t % 60` of the countdown display. */
  function Clock(t: int): (r: (int, int))
    ensures t >= 0 ==> r.0 * 60 + r.1 == t && 0 <= r.1 < 60 && r.0 >= 0
  {
    // Dafny's `/` by a positive divisor rounds down, as Math.floor does;
    // JavaScript's `%` keeps the sign of the dividend
    (t / 60, if t >= 0 then t % 60 else -((-t) % 60))
  }

  const ExplainOpen: string := "[explain:"

  /** The first ']' at or after `i`. */
  function FirstClose(s: string, i: nat): (r: Option<nat>)
    requires i <= |s|
    ensures r.Some? ==> i <= r.value < |s| && s[r.value] == ']'
    ensures forall k :: i <= k < |s| && (r.None? || k < r.value) ==> s[k] != ']'
    decreases |s| - i
  {
    if i == |s| then None
    else if s[i] == ']' then Some(i)
    else FirstClose(s, i + 1)
  }

  /** Whether `/\[explain:([^\]]+)\]/` matches at `p`, and if so the index
      of its closing ']': the name runs up to the first ']' after the
      opening and must not be empty. */
  function TagAt(s: string, p: nat): (r: Option<nat>)
    requires p <= |s|
    ensures r.Some? ==> p + |ExplainOpen| < r.value < |s|
  {
    if p + |ExplainOpen| <= |s| && s[p..p + |ExplainOpen|] == ExplainOpen then
      match FirstClose(s, p + |ExplainOpen|)
      case Some(q) => if q > p + |ExplainOpen| then Some(q) else None
      case None => None
    else None
  }

  /** A tag found at `p` opens with `[explain:` and closes at the first ']'
      after the opening. */
  lemma TagAtSpec(s: string, p: nat)
    requires p <= |s| && TagAt(s, p).Some?
    ensures s[p..p + |ExplainOpen|] == ExplainOpen
    ensures s[TagAt(s, p).value] == ']'
    ensures forall k :: p + |ExplainOpen| <= k < TagAt(s, p).value ==> s[k] != ']'
  {
  }

  /** `s.split(regex)` from scan position `p`, the current piece having
      started at `start`; each match contributes the text before it and its
      captured name. */
  function SplitFrom(s: string, start: nat, p: nat): seq<string>
    requires start <= p <= |s|
    decreases |s| - p
  {
    if p == |s| then [s[start..]]
    else match TagAt(s, p)
      case Some(q) => [s[start..p], s[p + |ExplainOpen|..q]] + SplitFrom(s, q + 1, q + 1)
      case None => SplitFrom(s, start, p + 1)
  }

  /** The number of tags the regular expression matches from `p` on. */
  function TagCount(s: string, p: nat): nat
    requires p <= |s|
    decreases |s| - p
  {
    if p == |s| then 0
    else match TagAt(s, p)
      case Some(q) => 1 + TagCount(s, q + 1)
      case None => TagCount(s, p + 1)
  }

  /** `content.split(/\[explain:([^\]]+)\]/g)` of `parseAndRenderContent`:
      plain text at even indices, concept names at odd ones. */
  function ExplainParts(content: string): seq<string> {
    SplitFrom(content, 0, 0)
  }

  /** Plain text and concept names put back together, each name wrapped in
      its tag again. */
  function Rejoin(parts: seq<string>): string {
    if |parts| == 0 then ""
    else if |parts| == 1 then parts[0]
    else parts[0] + ExplainOpen + parts[1] + "]" + Rejoin(parts[2..])
  }

  /** A concept name as the split yields it. */
  predicate ConceptName(name: string) {
    name != [] && ']' !in name
  }

  /** One step of the split: a tag at `p` closed at `q` contributes the
      text before it and its name, scanning resumes after the ']'. */
  lemma SplitFromTag(s: string, start: nat, p: nat, q: nat)
    requires start <= p < |s| && TagAt(s, p) == Some(q)
    ensures SplitFrom(s, start, p) == [s[start..p], s[p + |ExplainOpen|..q]] + SplitFrom(s, q + 1, q + 1)
  {
  }

  lemma RejoinStep(a: string, b: string, rest: seq<string>)
    requires |rest| >= 1
    ensures Rejoin([a, b] + rest) == a + ExplainOpen + b + "]" + Rejoin(rest)
  {
    assert ([a, b] + rest)[2..] == rest;
  }

  /** A position without a tag only moves the scan on. */
  lemma SplitFromSkip(s: string, start: nat, p: nat)
    requires start <= p < |s| && TagAt(s, p).None?
    ensures SplitFrom(s, start, p) == SplitFrom(s, start, p + 1)
  {
  }

  lemma CountSkip(s: string, p: nat)
    requires p < |s| && TagAt(s, p).None?
    ensures TagCount(s, p) == TagCount(s, p + 1)
  {
  }

  lemma CountTag(s: string, p: nat, q: nat)
    requires p < |s| && TagAt(s, p) == Some(q)
    ensures TagCount(s, p) == 1 + TagCount(s, q + 1)
  {
  }

  /** Each tag contributes two parts, the text before it and its name. */
  lemma {:induction false} SplitFromCount(s: string, start: nat, p: nat)
    requires start <= p <= |s|
    ensures |SplitFrom(s, start, p)| == 2 * TagCount(s, p) + 1
    decreases |s| - p, 1
  {
    if p < |s| {
      match TagAt(s, p)
      case None => CountPastText(s, start, p);
      case Some(q) =>
        SplitFromCount(s, q + 1, q + 1);
        TagLength(s, start, p, q);
        CountTag(s, p, q);
    }
  }

  lemma {:induction false} CountPastText(s: string, start: nat, p: nat)
    requires start <= p < |s| && TagAt(s, p).None?
    ensures |SplitFrom(s, start, p)| == 2 * TagCount(s, p) + 1
    decreases |s| - p, 0
  {
    SplitFromCount(s, start, p + 1);
    SplitFromSkip(s, start, p);
    CountSkip(s, p);
  }

  lemma TagLength(s: string, start: nat, p: nat, q: nat)
    requires start <= p < |s| && TagAt(s, p) == Some(q)
    ensures |SplitFrom(s, start, p)| == 2 + |SplitFrom(s, q + 1, q + 1)|
  {
    SplitFromTag(s, start, p, q);
  }

  /** Wrapping the names in tags again gives back the text split. */
  lemma {:induction false} SplitFromRejoin(s: string, start: nat, p: nat)
    requires start <= p <= |s|
    ensures Rejoin(SplitFrom(s, start, p)) == s[start..]
    decreases |s| - p
  {
    if p < |s| {
      var t := TagAt(s, p);
      if t.None? {
        SplitFromSkip(s, start, p);
        SplitFromRejoin(s, start, p + 1);
      } else {
        var q := t.value;
        SplitFromRejoin(s, q + 1, q + 1);
        SplitFromTag(s, start, p, q);
        TagPieces(s, start, p, q);
        RejoinStep(s[start..p], s[p + |ExplainOpen|..q], SplitFrom(s, q + 1, q + 1));
      }
    }
  }

  lemma {:induction false} SplitFromNames(s: string, start: nat, p: nat)
    requires start <= p <= |s|
    ensures forall k :: 0 <= k < |SplitFrom(s, start, p)| && k % 2 == 1 ==> ConceptName(SplitFrom(s, start, p)[k])
    decreases |s| - p
  {
    if p < |s| {
      var t := TagAt(s, p);
      if t.None? {
        SplitFromSkip(s, start, p);
        SplitFromNames(s, start, p + 1);
      } else {
        var q := t.value;
        SplitFromNames(s, q + 1, q + 1);
        SplitFromTag(s, start, p, q);
        TagName(s, p, q);
        PairKeepsNames(s[start..p], s[p + |ExplainOpen|..q], SplitFrom(s, q + 1, q + 1));
      }
    }
  }

  /** Putting a text and a concept name in front of parts whose odd-index
      entries are concept names keeps them so. */
  lemma PairKeepsNames(a: string, b: string, rest: seq<string>)
    requires ConceptName(b)
    requires forall k :: 0 <= k < |rest| && k % 2 == 1 ==> ConceptName(rest[k])
    ensures forall k :: 0 <= k < |[a, b] + rest| && k % 2 == 1 ==> ConceptName(([a, b] + rest)[k])
  {
    var parts := [a, b] + rest;
    forall k | 0 <= k < |parts| && k % 2 == 1 ensures ConceptName(parts[k]) {
      if k > 1 {
        assert parts[k] == rest[k - 2];
      }
    }
  }

  /** A tag found at `p` and closed at `q` cuts `s[start..]` into the text
      before it, the tag and the text after it. */
  lemma TagPieces(s: string, start: nat, p: nat, q: nat)
    requires start <= p < |s| && TagAt(s, p) == Some(q)
    ensures s[start..] == s[start..p] + ExplainOpen + s[p + |ExplainOpen|..q] + "]" + s[q + 1..]
  {
    var n := |ExplainOpen|;
    TagAtSpec(s, p);
    calc {
      s[start..];
      s[start..p] + s[p..p + n] + s[p + n..q] + s[q..q + 1] + s[q + 1..];
      { assert s[q..q + 1] == [s[q]] == "]"; }
      s[start..p] + ExplainOpen + s[p + n..q] + "]" + s[q + 1..];
    }
  }

  /** The name inside a tag is a concept name. */
  lemma TagName(s: string, p: nat, q: nat)
    requires p < |s| && TagAt(s, p) == Some(q)
    ensures ConceptName(s[p + |ExplainOpen|..q])
  {
    var name := s[p + |ExplainOpen|..q];
    TagAtSpec(s, p);
    forall k | 0 <= k < |name| ensures name[k] != ']' {
      assert name[k] == s[p + |ExplainOpen| + k];
    }
  }

  /** For `k` tags the split yields 2k + 1 parts; the odd-index parts are the
      non-empty concept names, without any ']'; and wrapping the names back
      in tags gives the original text. */
  lemma ExplainRoundTrip(content: string)
    ensures |ExplainParts(content)| == 2 * TagCount(content, 0) + 1
    ensures Rejoin(ExplainParts(content)) == content
    ensures forall k :: 0 <= k < |ExplainParts(content)| && k % 2 == 1 ==> ConceptName(ExplainParts(content)[k])
  {
    SplitFromCount(content, 0, 0);
    SplitFromRejoin(content, 0, 0);
    SplitFromNames(content, 0, 0);
  }

  /** The StudySession component's own state. */
  class StudySession {
    const setup: StudySessionSetup
    var timeLeft: int
    var chatMessages: seq<ChatMessage>
    var chatInput: string
    var isBotTyping: bool
    var flashcards: seq<Flashcard>
    var isGenerating: bool
    var flippedCard: Option<nat>

    constructor(session: SessionState)
      ensures setup == session.setup && timeLeft == session.setup.duration * 60
      ensures chatMessages == [] && chatInput == "" && !isBotTyping
      ensures flashcards == [] && !isGenerating && flippedCard.None?
    {
      setup := session.setup;
      timeLeft := session.setup.duration * 60;
      chatMessages := [];
      chatInput := "";
      isBotTyping := false;
      flashcards := [];
      isGenerating := false;
      flippedCard := None;
    }

    /** The effect's test: time is up, `onEndSession` is called and no
        interval is started. */
    predicate TimeUp()
      reads this
    {
      timeLeft <= 0
    }

    /** One interval tick, which exists only while time is left: exactly one
        second is removed; `endSession` reports whether the effect that
        follows calls `onEndSession`. */
    method Tick() returns (endSession: bool)
      requires !TimeUp()
      modifies this
      ensures timeLeft == old(timeLeft) - 1 && endSession == TimeUp()
      ensures chatMessages == old(chatMessages) && chatInput == old(chatInput) && isBotTyping == old(isBotTyping)
      ensures flashcards == old(flashcards) && isGenerating == old(isGenerating) && flippedCard == old(flippedCard)
    {
      timeLeft := timeLeft - 1;
      endSession := timeLeft <= 0;
    }

    /** Typing into the chat box. */
    method EditInput(text: string)
      modifies this
      ensures chatInput == text && timeLeft == old(timeLeft) && chatMessages == old(chatMessages)
      ensures isBotTyping == old(isBotTyping) && flashcards == old(flashcards)
      ensures isGenerating == old(isGenerating) && flippedCard == old(flippedCard)
    {
      chatInput := text;
    }

    /** `handleSendMessage` up to its await, `id` being `Date.now()`: a
        blank input is ignored; otherwise the input as typed is appended as
        one user message and forwarded, the box is cleared and the bot is
        typing. */
    method SendMessage(id: string) returns (forwarded: Option<string>)
      modifies this
      ensures IsBlank(old(chatInput)) ==>
        forwarded.None? && chatMessages == old(chatMessages) && chatInput == old(chatInput)
        && isBotTyping == old(isBotTyping)
      ensures !IsBlank(old(chatInput)) ==>
        && forwarded == Some(old(chatInput))
        && chatMessages == old(chatMessages) + [ChatMessage(id, old(chatInput), User)]
        && chatInput == "" && isBotTyping
      ensures timeLeft == old(timeLeft) && flashcards == old(flashcards)
      ensures isGenerating == old(isGenerating) && flippedCard == old(flippedCard)
    {
      if IsBlank(chatInput) {
        return None;
      }
      forwarded := Some(chatInput);
      chatMessages := chatMessages + [ChatMessage(id, chatInput, User)];
      chatInput := "";
      isBotTyping := true;
    }

    /** `handleSendMessage` after `getChatbotResponse`, which always yields
        a text (a fallback one on failure). */
    method BotReplied(id: string, reply: string)
      modifies this
      ensures chatMessages == old(chatMessages) + [ChatMessage(id, reply, Bot)] && !isBotTyping
      ensures timeLeft == old(timeLeft) && chatInput == old(chatInput) && flashcards == old(flashcards)
      ensures isGenerating == old(isGenerating) && flippedCard == old(flippedCard)
    {
      chatMessages := chatMessages + [ChatMessage(id, reply, Bot)];
      isBotTyping := false;
    }

    /** `handleGenerateFlashcards` up to its await. */
    method BeginFlashcards()
      modifies this
      ensures isGenerating && flashcards == old(flashcards) && flippedCard == old(flippedCard)
      ensures timeLeft == old(timeLeft) && chatMessages == old(chatMessages)
      ensures chatInput == old(chatInput) && isBotTyping == old(isBotTyping)
    {
      isGenerating := true;
    }

    /** `handleGenerateFlashcards` once `getFlashcards` settles. The handler
        has no `catch`: on failure nothing is set, and the button stays
        disabled with `isGenerating` true. */
    method FlashcardsArrived(cards: Option<seq<Flashcard>>)
      modifies this
      ensures cards.Some? ==> flashcards == cards.value && !isGenerating
      ensures cards.None? ==> flashcards == old(flashcards) && isGenerating == old(isGenerating)
      ensures flippedCard == old(flippedCard) && timeLeft == old(timeLeft)
      ensures chatMessages == old(chatMessages) && chatInput == old(chatInput) && isBotTyping == old(isBotTyping)
    {
      if cards.Some? {
        flashcards := cards.value;
        isGenerating := false;
      }
    }

    /** A click on card `index`: the flipped card is unflipped, any other
        card becomes the one flipped card. */
    method ClickCard(index: nat)
      modifies this
      ensures flippedCard == if old(flippedCard) == Some(index) then None else Some(index)
      ensures flashcards == old(flashcards) && isGenerating == old(isGenerating) && timeLeft == old(timeLeft)
      ensures chatMessages == old(chatMessages) && chatInput == old(chatInput) && isBotTyping == old(isBotTyping)
    {
      flippedCard := if flippedCard == Some(index) then None else Some(index);
    }
  }

  /** Letting a session of `duration` minutes run takes exactly
      duration * 60 ticks before `onEndSession` is called. */
  method RunOut(session: SessionState) returns (ticks: nat)
    requires session.setup.duration > 0
    ensures ticks == session.setup.duration * 60
  {
    var s := new StudySession(session);
    ticks := 0;
    var ended := false;
    while !ended
      invariant s.timeLeft == session.setup.duration * 60 - ticks && s.timeLeft >= 0
      invariant ended <==> s.TimeUp()
      decreases s.timeLeft
    {
      ended := s.Tick();
      ticks := ticks + 1;
    }
  }

  /** Clicking the same card twice leaves no card flipped; clicking a
      second card leaves only that one flipped. */
  method FlipTwice(session: SessionState, i: nat, j: nat) returns (first: Option<nat>, second: Option<nat>)
    ensures first == Some(i)
    ensures second == if i == j then None else Some(j)
  {
    var s := new StudySession(session);
    s.ClickCard(i);
    first := s.flippedCard;
    s.ClickCard(j);
    second := s.flippedCard;
  }
}
