/** Chat messages, tool turns, and what a well-paired message list is. */
module Messages {
  import opened Common

  datatype Role = System | User | Assistant

  datatype Call = Call(id: string, name: string)

  /** Why an old tool result was compacted. */
  datatype Reason = StaleReason | SupersededReason | OldReason

  /** What a tool result says it wrote. */
  datatype WriteStatus = NoWrite | Created | Updated | Unchanged

  datatype Metadata = Metadata(
    path: string, write: WriteStatus, command: string, codeEpoch: int, exitCode: Option<int>, verification: bool,
    sha: Option<string>, artifact: Option<string>, contextStatus: Option<Reason>, originalStep: Option<nat>)

  /** The output text, or the card a compacted result shows instead. */
  datatype Output =
    | Plain(text: string)
    | BashCard(command: string, exitCode: Option<int>, summary: string, artifact: Option<string>, codeEpoch: int, reason: Reason)
    | ReadCard(path: string, sha: Option<string>, reason: Reason)

  datatype Observation = Observation(callId: string, tool: string, success: bool, summary: string, output: Output, meta: Metadata)

  /** The content of a tool message: JSON, or text that does not parse. */
  datatype Content = Parsed(value: Observation) | Raw(text: string)

  datatype Reply = Reply(callId: string, name: string, content: Content)

  datatype Message =
    | Say(role: Role, content: string)
    | Ask(content: string, calls: seq<Call>)
    | Answer(reply: Reply)

  // ---- Turns ----

  datatype TurnStatus = ActiveTurn | StaleTurn | SupersededTurn

  /** One assistant message with tool calls, and the replies received so far. */
  datatype Turn = Turn(content: string, calls: seq<Call>, step: nat, status: TurnStatus, replies: seq<Reply>)

  function CallIds(calls: seq<Call>): (ids: seq<string>)
    ensures |ids| == |calls| && forall i :: 0 <= i < |calls| ==> ids[i] == calls[i].id
  {
    seq(|calls|, i requires 0 <= i < |calls| => calls[i].id)
  }

  function ReplyIds(replies: seq<Reply>): (ids: seq<string>)
    ensures |ids| == |replies| && forall i :: 0 <= i < |replies| ==> ids[i] == replies[i].callId
  {
    seq(|replies|, i requires 0 <= i < |replies| => replies[i].callId)
  }

  predicate SameElements(a: seq<string>, b: seq<string>) {
    (forall x :: x in a ==> x in b) && (forall x :: x in b ==> x in a)
  }

  /** Exactly one reply to every call id, and no other reply. */
  ghost predicate Answers(calls: seq<Call>, replies: seq<Reply>) {
    Distinct(ReplyIds(replies)) && SameElements(CallIds(calls), ReplyIds(replies))
  }

  ghost predicate Finished(t: Turn) {
    t.calls != [] && "" !in CallIds(t.calls) && Answers(t.calls, t.replies)
  }

  function AnswerAll(replies: seq<Reply>): (ms: seq<Message>)
    ensures |ms| == |replies| && forall i :: 0 <= i < |replies| ==> ms[i] == Answer(replies[i])
  {
    seq(|replies|, i requires 0 <= i < |replies| => Answer(replies[i]))
  }

  function TurnMessages(t: Turn): seq<Message> {
    [Ask(t.content, t.calls)] + AnswerAll(t.replies)
  }

  // ---- Well-paired lists ----

  /** Position `i` asks, and what follows at once are these replies, one to every call id. */
  ghost predicate AnsweredBy(ms: seq<Message>, i: nat, replies: seq<Reply>) {
    && i + |replies| < |ms| && ms[i].Ask? && Answers(ms[i].calls, replies)
    && ms[i + 1..i + 1 + |replies|] == AnswerAll(replies)
    && (i + 1 + |replies| < |ms| ==> !ms[i + 1 + |replies|].Answer?)
  }

  ghost predicate Answered(ms: seq<Message>, i: nat) {
    exists replies: seq<Reply> :: AnsweredBy(ms, i, replies)
  }

  ghost predicate Owned(ms: seq<Message>, i: nat) {
    exists j: nat, replies: seq<Reply> :: AnsweredBy(ms, j, replies) && j < i <= j + |replies|
  }

  ghost predicate PairedAt(ms: seq<Message>, i: nat) {
    i < |ms| && (ms[i].Ask? ==> Answered(ms, i)) && (ms[i].Answer? ==> Owned(ms, i))
  }

  /** Every tool call is followed at once by one answer to each of its ids, and there is no other answer. */
  ghost predicate WellPaired(ms: seq<Message>) {
    forall i :: 0 <= i < |ms| ==> PairedAt(ms, i)
  }

  ghost predicate StartsNoAnswer(ms: seq<Message>) {
    ms != [] ==> !ms[0].Answer?
  }

  lemma AnsweredInLonger(before: seq<Message>, ms: seq<Message>, after: seq<Message>, i: nat, replies: seq<Reply>)
    requires AnsweredBy(ms, i, replies) && StartsNoAnswer(after)
    ensures AnsweredBy(before + ms + after, |before| + i, replies)
  {
    var all := before + ms + after;
    var d, n := |before|, |replies|;
    assert all[d + i] == ms[i];
    assert all[d..] == ms + after;
    assert all[d + i + 1..d + i + 1 + n] == all[d..][i + 1..i + 1 + n] == ms[i + 1..i + 1 + n];
    if d + i + 1 + n < |all| {
      if i + 1 + n < |ms| { assert all[d + i + 1 + n] == ms[i + 1 + n]; } else { assert all[d + i + 1 + n] == after[0]; }
    }
  }

  lemma PartKeepsPairs(before: seq<Message>, ms: seq<Message>, after: seq<Message>, i: nat)
    requires WellPaired(ms) && StartsNoAnswer(after) && i < |ms|
    ensures PairedAt(before + ms + after, |before| + i)
  {
    var all := before + ms + after;
    assert PairedAt(ms, i) && all[|before| + i] == ms[i];
    if ms[i].Ask? {
      var replies :| AnsweredBy(ms, i, replies);
      AnsweredInLonger(before, ms, after, i, replies);
    }
    if ms[i].Answer? {
      var j: nat, replies :| AnsweredBy(ms, j, replies) && j < i <= j + |replies|;
      AnsweredInLonger(before, ms, after, j, replies);
    }
  }

  lemma PairedStartsNoAnswer(ms: seq<Message>)
    requires WellPaired(ms)
    ensures StartsNoAnswer(ms)
  {
    if ms != [] { assert PairedAt(ms, 0) && !Owned(ms, 0); }
  }

  /** Well-paired lists may be joined. */
  lemma JoinKeepsPairs(a: seq<Message>, b: seq<Message>)
    requires WellPaired(a) && WellPaired(b)
    ensures WellPaired(a + b)
  {
    var all := a + b;
    PairedStartsNoAnswer(b);
    assert [] + a + b == all && a + b + [] == all;
    forall i | 0 <= i < |all|
      ensures PairedAt(all, i)
    {
      if i < |a| { PartKeepsPairs([], a, b, i); } else { PartKeepsPairs(a, b, [], i - |a|); }
    }
  }

  lemma TurnIsPaired(t: Turn)
    requires Finished(t)
    ensures WellPaired(TurnMessages(t))
  {
    var ms := TurnMessages(t);
    assert ms[1..1 + |t.replies|] == AnswerAll(t.replies);
    assert AnsweredBy(ms, 0, t.replies);
  }

  // ---- Items of a context ----

  datatype NoteKind = Ordinary | UserReminder | ProtocolCorrection

  datatype Item = Note(role: Role, content: string, kind: NoteKind) | ToolTurn(turn: Turn)

  /** The messages of one item; the internal kind of a note is not exported. */
  function ItemMessages(i: Item): seq<Message> {
    match i
    case Note(role, content, _) => [Say(role, content)]
    case ToolTurn(t) => TurnMessages(t)
  }

  function Flatten(items: seq<Item>): seq<Message> {
    if items == [] then [] else ItemMessages(items[0]) + Flatten(items[1..])
  }

  ghost predicate AllFinished(items: seq<Item>) {
    forall i :: 0 <= i < |items| && items[i].ToolTurn? ==> Finished(items[i].turn)
  }

  lemma SayIsPaired(role: Role, content: string)
    ensures WellPaired([Say(role, content)])
  {
  }

  lemma {:induction false} FlattenIsPaired(items: seq<Item>)
    requires AllFinished(items)
    ensures WellPaired(Flatten(items))
  {
    if items != [] {
      var first := items[0];
      FlattenIsPaired(items[1..]);
      if first.ToolTurn? { TurnIsPaired(first.turn); } else { SayIsPaired(first.role, first.content); }
      JoinKeepsPairs(ItemMessages(first), Flatten(items[1..]));
    }
  }

  function Turns(items: seq<Item>): seq<Turn> {
    if items == [] then []
    else if items[0].ToolTurn? then [items[0].turn] + Turns(items[1..])
    else Turns(items[1..])
  }

  function Notes(items: seq<Item>): seq<Item> {
    if items == [] then []
    else if items[0].Note? then [items[0]] + Notes(items[1..])
    else Notes(items[1..])
  }
}
