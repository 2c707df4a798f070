/**
 The assistant's conversation memory: the bounded tool loop that appends messages, the
 trimmer that peels them from the front, and the stored row they share.
 */
module Conversation {
  import opened Sequences

  const MAX_MESSAGES := 20
  const MAX_TURNS := 4

  /** A tool-use id: opaque and never empty. */
  type Id = int

  datatype Block = TextBlock(text: string) | ToolUse(id: Id) | ToolResult(id: Id, text: string)

  datatype Role = User | Assistant

  datatype Content = Plain(text: string) | Blocks(blocks: seq<Block>)

  datatype Message = Message(role: Role, content: Content)

  /** What one round trip meets: the model's blocks, or a failed call; whether the tool exists,
      what it says and whether it asks the user to confirm. */
  datatype Reply = Unavailable | Reply(blocks: seq<Block>, known: bool, text: string, confirms: bool)

  /** The model emits text and tool calls, never tool results. */
  predicate FromModel(blocks: seq<Block>) {
    forall i :: 0 <= i < |blocks| ==> !blocks[i].ToolResult?
  }

  predicate Uses(m: Message, id: Id) {
    m.content.Blocks? && exists i :: 0 <= i < |m.content.blocks| && m.content.blocks[i] == ToolUse(id)
  }

  predicate Reports(m: Message, id: Id) {
    m.content.Blocks? && exists i :: 0 <= i < |m.content.blocks| && m.content.blocks[i].ToolResult? && m.content.blocks[i].id == id
  }

  function FirstUse(blocks: seq<Block>): (r: Option<Id>) {
    if blocks == [] then None
    else if blocks[0].ToolUse? then Some(blocks[0].id)
    else FirstUse(blocks[1..])
  }

  // ---------------------------------------------------------------------------
  // Whole turns
  // ---------------------------------------------------------------------------

  predicate IsAsk(m: Message) {
    m.role == User && m.content.Plain?
  }

  /** The assistant's words, with no tool call. */
  predicate IsSay(m: Message) {
    m.role == Assistant && m.content.Blocks? && FromModel(m.content.blocks) && FirstUse(m.content.blocks).None?
  }

  /** A tool call and, right behind it, the one result that answers it. */
  predicate IsPair(call: Message, result: Message) {
    && call.role == Assistant && call.content.Blocks? && FromModel(call.content.blocks)
    && FirstUse(call.content.blocks).Some?
    && result.role == User && result.content.Blocks? && |result.content.blocks| == 1
    && result.content.blocks[0].ToolResult?
    && result.content.blocks[0].id == FirstUse(call.content.blocks).value
  }

  /** A question and any number of answered tool calls. */
  predicate IsOpenTurn(t: seq<Message>) {
    && |t| % 2 == 1 && IsAsk(t[0])
    && forall i :: 0 <= i < |t| / 2 ==> IsPair(t[2 * i + 1], t[2 * i + 2])
  }

  /** What one user message adds: it ends in words, or in a call awaiting confirmation. */
  predicate IsTurn(t: seq<Message>) {
    || (3 <= |t| <= 2 * MAX_TURNS + 1 && IsOpenTurn(t))
    || (2 <= |t| <= 2 * MAX_TURNS && IsOpenTurn(t[..|t| - 1]) && IsSay(t[|t| - 1]))
  }

  ghost predicate AllTurns(turns: seq<seq<Message>>) {
    forall i :: 0 <= i < |turns| ==> IsTurn(turns[i])
  }

  function Flatten(turns: seq<seq<Message>>): (r: seq<Message>) {
    if turns == [] then [] else turns[0] + Flatten(turns[1..])
  }

  ghost predicate Whole(ms: seq<Message>) {
    exists turns :: AllTurns(turns) && Flatten(turns) == ms
  }

  /** Every result sits right behind the call it answers. */
  ghost predicate Paired(ms: seq<Message>) {
    forall i, id :: 0 <= i < |ms| && Reports(ms[i], id) ==> i > 0 && IsPair(ms[i - 1], ms[i])
  }

  /** What the trimmer's own documentation promises of its result. */
  ghost predicate Documented(ms: seq<Message>) {
    && (ms != [] ==> ms[0].role == User)
    && forall i, id :: 0 <= i < |ms| && Reports(ms[i], id) ==> UsedBefore(ms, i, id)
  }

  ghost predicate UsedBefore(ms: seq<Message>, i: nat, id: Id)
    requires i <= |ms|
  {
    exists j :: 0 <= j < i && Uses(ms[j], id)
  }

  /** No id that was already answered is used again. */
  ghost predicate NoReuse(ms: seq<Message>) {
    forall i, j, id :: 0 <= i < j < |ms| && Reports(ms[i], id) ==> !Uses(ms[j], id)
  }

  lemma {:induction false} FirstUseIsUsed(blocks: seq<Block>)
    requires FirstUse(blocks).Some?
    ensures exists i :: 0 <= i < |blocks| && blocks[i] == ToolUse(FirstUse(blocks).value)
  {
    if !blocks[0].ToolUse? {
      FirstUseIsUsed(blocks[1..]);
      var i :| 0 <= i < |blocks[1..]| && blocks[1..][i] == ToolUse(FirstUse(blocks).value);
      assert blocks[i + 1] == ToolUse(FirstUse(blocks).value);
    }
  }

  /** Inside a turn: only the first message is a plain question, and results follow their calls. */
  lemma TurnShape(t: seq<Message>, i: nat)
    requires IsTurn(t) && i < |t|
    ensures IsAsk(t[i]) <==> i == 0
    ensures forall id :: Reports(t[i], id) ==> i > 0 && IsPair(t[i - 1], t[i])
    ensures i > 0 ==> t[i].role == Assistant || exists id :: Reports(t[i], id)
  {
    if i % 2 == 1 {
      CallOrSay(t, i / 2);
    } else if i > 0 {
      PairAt(t, i / 2 - 1);
      assert t[i].content.blocks[0].ToolResult?;
      assert Reports(t[i], t[i].content.blocks[0].id);
    }
  }

  lemma CallOrSay(t: seq<Message>, k: nat)
    requires IsTurn(t) && 2 * k + 1 < |t|
    ensures t[2 * k + 1].role == Assistant && t[2 * k + 1].content.Blocks? && FromModel(t[2 * k + 1].content.blocks)
  {
    if 2 * k + 2 < |t| {
      PairAt(t, k);
    }
  }

  lemma PairAt(t: seq<Message>, k: nat)
    requires IsTurn(t) && 2 * k + 2 < |t|
    ensures IsPair(t[2 * k + 1], t[2 * k + 2])
  {
    if |t| % 2 == 0 {
      var s := t[..|t| - 1];
      assert IsPair(s[2 * k + 1], s[2 * k + 2]);
    }
  }

  lemma {:induction false} TurnsArePaired(turns: seq<seq<Message>>)
    requires AllTurns(turns)
    ensures Paired(Flatten(turns))
    ensures turns != [] ==> Flatten(turns) != [] && IsAsk(Flatten(turns)[0])
  {
    if turns != [] {
      TurnsArePaired(turns[1..]);
      PairedAppend(turns[0], Flatten(turns[1..]));
      TurnShape(turns[0], 0);
    }
  }

  lemma PairedAppend(t: seq<Message>, rest: seq<Message>)
    requires IsTurn(t) && Paired(rest)
    ensures Paired(t + rest)
  {
    var ms := t + rest;
    forall i, id | 0 <= i < |ms| && Reports(ms[i], id) ensures i > 0 && IsPair(ms[i - 1], ms[i]) {
      if i < |t| {
        TurnShape(t, i);
      } else {
        assert Reports(rest[i - |t|], id);
      }
    }
  }

  /** A stored conversation opens with the user and every result's call sits just before it. */
  lemma WholeIsPaired(ms: seq<Message>)
    requires Whole(ms)
    ensures Paired(ms) && (ms != [] ==> IsAsk(ms[0]))
  {
    var turns :| AllTurns(turns) && Flatten(turns) == ms;
    TurnsArePaired(turns);
  }

  lemma PairedIsDocumented(ms: seq<Message>)
    requires Paired(ms) && (ms != [] ==> IsAsk(ms[0]))
    ensures Documented(ms)
  {
    forall i, id | 0 <= i < |ms| && Reports(ms[i], id) ensures UsedBefore(ms, i, id) {
      FirstUseIsUsed(ms[i - 1].content.blocks);
      assert Uses(ms[i - 1], id);
    }
  }

  // ---------------------------------------------------------------------------
  // The trimmer
  // ---------------------------------------------------------------------------

  predicate UsedIn(ms: seq<Message>, id: Id) {
    exists j :: 0 <= j < |ms| && Uses(ms[j], id)
  }

  predicate Dangling(candidate: seq<Message>, b: Block) {
    b.ToolResult? && !UsedIn(candidate, b.id)
  }

  /** The loop stops here. */
  predicate Keeps(candidate: seq<Message>) {
    && candidate != [] && candidate[0].role == User
    && (candidate[0].content.Blocks? ==>
          forall i :: 0 <= i < |candidate[0].content.blocks| ==> !Dangling(candidate, candidate[0].content.blocks[i]))
  }

  function Peeled(candidate: seq<Message>): (r: seq<Message>) {
    if candidate == [] || Keeps(candidate) then candidate else Peeled(candidate[1..])
  }

  function Trimmed(ms: seq<Message>): (r: seq<Message>) {
    if |ms| <= MAX_MESSAGES then ms else Peeled(ms[|ms| - MAX_MESSAGES..])
  }

  /** `r` is the longest suffix of `ms[c..]` that may be kept; nothing if none may. */
  ghost predicate LongestKept(ms: seq<Message>, c: nat, r: seq<Message>) {
    && c + |r| <= |ms| && r == ms[|ms| - |r|..] && (r == [] || Keeps(r))
    && forall k :: c <= k < |ms| - |r| ==> !Keeps(ms[k..])
  }

  lemma {:induction false} PeeledIsLongest(ms: seq<Message>, c: nat)
    requires c <= |ms|
    ensures LongestKept(ms, c, Peeled(ms[c..]))
    decreases |ms| - c
  {
    if c < |ms| && !Keeps(ms[c..]) {
      assert ms[c..][1..] == ms[c + 1..];
      PeeledIsLongest(ms, c + 1);
    }
  }

  method Trim(messages: seq<Message>) returns (candidate: seq<Message>)
    ensures candidate == Trimmed(messages)
    ensures |messages| <= MAX_MESSAGES ==> candidate == messages
    ensures |messages| > MAX_MESSAGES ==> LongestKept(messages, |messages| - MAX_MESSAGES, candidate)
  {
    if |messages| <= MAX_MESSAGES { return messages; }
    PeeledIsLongest(messages, |messages| - MAX_MESSAGES);
    candidate := messages[|messages| - MAX_MESSAGES..];
    while candidate != []
      invariant Peeled(candidate) == Trimmed(messages)
      decreases |candidate|
    {
      var first := candidate[0];
      if first.role != User {
        candidate := candidate[1..];
        continue;
      }
      var known := KnownToolUseIds(candidate);
      var dangling := HasDangling(first, candidate, known);
      if dangling {
        candidate := candidate[1..];
        continue;
      }
      break;
    }
  }

  method KnownToolUseIds(candidate: seq<Message>) returns (known: set<Id>)
    ensures forall id :: id in known <==> UsedIn(candidate, id)
  {
    known := {};
    for n := 0 to |candidate|
      invariant forall id :: id in known <==> exists j :: 0 <= j < n && Uses(candidate[j], id)
    {
      var ids := UsedIds(candidate[n]);
      known := known + ids;
    }
  }

  method UsedIds(m: Message) returns (ids: set<Id>)
    ensures forall id :: id in ids <==> Uses(m, id)
  {
    ids := {};
    if m.content.Blocks? {
      var blocks := m.content.blocks;
      for n := 0 to |blocks|
        invariant forall id :: id in ids <==> exists i :: 0 <= i < n && blocks[i] == ToolUse(id)
      {
        if blocks[n].ToolUse? {
          ids := ids + {blocks[n].id};
          assert blocks[n] == ToolUse(blocks[n].id);
        }
      }
    }
  }

  method HasDangling(first: Message, candidate: seq<Message>, known: set<Id>) returns (dangling: bool)
    requires candidate != [] && first == candidate[0] && first.role == User
    requires forall id :: id in known <==> UsedIn(candidate, id)
    ensures dangling <==> !Keeps(candidate)
  {
    dangling := false;
    if first.content.Blocks? {
      var blocks := first.content.blocks;
      for n := 0 to |blocks|
        invariant forall i :: 0 <= i < n ==> !Dangling(candidate, blocks[i])
      {
        if blocks[n].ToolResult? && blocks[n].id !in known {
          assert Dangling(candidate, blocks[n]);
          return true;
        }
      }
    }
  }

  /** Peeling stops no later than the first suffix that may be kept, and there if it is the first. */
  lemma {:induction false} PeelingStops(s: seq<Message>, k: nat) returns (n: nat)
    requires k < |s| && Keeps(s[k..])
    ensures n <= k && Peeled(s) == s[n..] && Keeps(s[n..])
  {
    assert s[0..] == s;
    if k == 0 || Keeps(s) {
      n := 0;
    } else {
      assert s[k..] == s[1..][k - 1..];
      n := PeelingStops(s[1..], k - 1);
      assert s[1..][n..] == s[n + 1..];
      n := n + 1;
    }
  }

  /** Where the first turn starts in what is left after dropping `c` messages. */
  lemma {:induction false} NextTurn(turns: seq<seq<Message>>, c: nat) returns (p: nat, m: nat)
    requires AllTurns(turns) && c <= |Flatten(turns)|
    ensures c <= p <= |Flatten(turns)| && p <= c + 2 * MAX_TURNS && m <= |turns|
    ensures Flatten(turns)[p..] == Flatten(turns[m..])
    ensures forall i :: c <= i < p ==> InsideTurn(Flatten(turns)[i])
    ensures p < |Flatten(turns)| ==> IsAsk(Flatten(turns)[p])
  {
    if c == 0 {
      p, m := 0, 0;
      TurnsArePaired(turns);
      assert turns[0..] == turns && Flatten(turns)[0..] == Flatten(turns);
    } else {
      var t, rest := turns[0], Flatten(turns[1..]);
      if c >= |t| {
        p, m := NextTurn(turns[1..], c - |t|);
        assert (t + rest)[p + |t|..] == rest[p..] && turns[1..][m..] == turns[m + 1..];
        p, m := p + |t|, m + 1;
      } else {
        p, m := |t|, 1;
        TurnsArePaired(turns[1..]);
        forall i | c <= i < p ensures InsideTurn(Flatten(turns)[i]) {
          TurnShape(t, i);
        }
      }
    }
  }

  /** Any message of a turn but its first. */
  ghost predicate InsideTurn(m: Message) {
    !IsAsk(m) && (m.role == Assistant || exists id :: Reports(m, id))
  }

  /** Before the slice's first question there is a result whose id is used again later. */
  ghost predicate OrphanReused(s: seq<Message>) {
    exists i, id :: OrphanAt(s, i, id)
  }

  ghost predicate OrphanAt(s: seq<Message>, i: int, id: Id) {
    0 <= i < |s| && (forall j :: 0 <= j <= i ==> !IsAsk(s[j])) && Reports(s[i], id) && UsedIn(s[i..], id)
  }

  /** The messages that were cut off the front, for a list the trimmer shortens. */
  function LastOnes(ms: seq<Message>): (r: seq<Message>)
    requires |ms| > MAX_MESSAGES
  {
    ms[|ms| - MAX_MESSAGES..]
  }

  /** The cut falls inside a turn of at most nine messages, so a question is never far behind it. */
  lemma QuestionInReach(ms: seq<Message>) returns (k: nat)
    requires Whole(ms) && |ms| > MAX_MESSAGES
    ensures k <= 2 * MAX_TURNS && IsAsk(LastOnes(ms)[k]) && Whole(LastOnes(ms)[k..])
    ensures forall i :: 0 <= i < k ==> InsideTurn(LastOnes(ms)[i])
  {
    var turns :| AllTurns(turns) && Flatten(turns) == ms;
    var c := |ms| - MAX_MESSAGES;
    var p, m := NextTurn(turns, c);
    assert LastOnes(ms)[p - c..] == ms[p..];
    assert AllTurns(turns[m..]);
    k := p - c;
  }

  /** Trimming whole turns never empties the history: it keeps the last 12 to 20 messages. */
  lemma TrimmedLength(ms: seq<Message>)
    requires Whole(ms) && |ms| > MAX_MESSAGES
    ensures 12 <= |Trimmed(ms)| <= MAX_MESSAGES
    ensures Trimmed(ms) == ms[|ms| - |Trimmed(ms)|..]
  {
    var k := QuestionInReach(ms);
    var n := PeelingStops(LastOnes(ms), k);
    assert LastOnes(ms)[n..] == ms[|ms| - MAX_MESSAGES + n..];
  }

  /** Messages inside a turn are peeled unless a result's id is used again behind it. */
  lemma {:induction false} PeelsToNextTurn(s: seq<Message>, k: nat)
    requires k < |s| && IsAsk(s[k]) && !OrphanReused(s)
    requires forall i :: 0 <= i < k ==> InsideTurn(s[i])
    ensures Peeled(s) == s[k..]
  {
    assert s[0..] == s;
    if k > 0 {
      forall i, id ensures !OrphanAt(s[1..], i, id) {
        if OrphanAt(s[1..], i, id) {
          OrphanOfTail(s, i, id);
        }
      }
      PeelsToNextTurn(s[1..], k - 1);
      FirstIsPeeled(s);
      assert s[1..][k - 1..] == s[k..];
    }
  }

  lemma OrphanOfTail(s: seq<Message>, i: nat, id: Id)
    requires s != [] && !IsAsk(s[0]) && OrphanAt(s[1..], i, id)
    ensures OrphanAt(s, i + 1, id)
  {
    assert s[1..][i..] == s[i + 1..];
    forall j | 0 <= j <= i + 1 ensures !IsAsk(s[j]) {
      if j > 0 { assert s[1..][j - 1] == s[j]; }
    }
  }

  lemma FirstIsPeeled(s: seq<Message>)
    requires s != [] && InsideTurn(s[0]) && !OrphanReused(s)
    ensures !Keeps(s)
  {
    if s[0].role == User {
      var id :| Reports(s[0], id);
      assert s[0..] == s;
      assert !OrphanAt(s, 0, id);
    }
  }

  /** A lone result whose id is used again stops the peeling. */
  lemma OrphanIsKept(s: seq<Message>, i: nat, id: Id)
    requires OrphanAt(s, i, id) && s[i].role == User && |s[i].content.blocks| == 1
    ensures Keeps(s[i..])
  {
  }

  /**
   On whole turns, with any ids at all, the trimmer's result is again whole turns exactly when
   the cut leaves no result, ahead of the first question, whose id a later call uses again.
   */
  lemma TrimmedIsWholeIff(ms: seq<Message>)
    requires Whole(ms) && |ms| > MAX_MESSAGES
    ensures Whole(Trimmed(ms)) <==> !OrphanReused(LastOnes(ms))
    ensures Documented(Trimmed(ms)) <==> !OrphanReused(LastOnes(ms))
  {
    if OrphanReused(LastOnes(ms)) {
      var i, id :| OrphanAt(LastOnes(ms), i, id);
      TrimmedOpensWithResult(ms, i, id);
      if Whole(Trimmed(ms)) { WholeIsPaired(Trimmed(ms)); }
    } else {
      TrimmedIsWhole(ms);
      WholeIsPaired(Trimmed(ms));
      PairedIsDocumented(Trimmed(ms));
    }
  }

  lemma TrimmedIsWhole(ms: seq<Message>)
    requires Whole(ms) && |ms| > MAX_MESSAGES && !OrphanReused(LastOnes(ms))
    ensures Whole(Trimmed(ms))
  {
    var k := QuestionInReach(ms);
    PeelsToNextTurn(LastOnes(ms), k);
  }

  lemma TrimmedOpensWithResult(ms: seq<Message>, i: nat, id: Id)
    requires Whole(ms) && |ms| > MAX_MESSAGES && OrphanAt(LastOnes(ms), i, id)
    ensures var r := Trimmed(ms); r != [] && !IsAsk(r[0]) && !Documented(r)
  {
    var c := |ms| - MAX_MESSAGES;
    WholeIsPaired(ms);
    assert LastOnes(ms)[i] == ms[c + i];
    OrphanIsKept(LastOnes(ms), i, id);
    var n := PeelingStops(LastOnes(ms), i);
    var r := Trimmed(ms);
    assert r[0] == ms[c + n];
    UserMessageReports(ms, c + n);
    var first :| Reports(r[0], first);
    assert !UsedBefore(r, 0, first);
  }

  lemma UserMessageReports(ms: seq<Message>, i: nat)
    requires Whole(ms) && i < |ms| && ms[i].role == User && !IsAsk(ms[i])
    ensures exists id :: Reports(ms[i], id)
  {
    var turns :| AllTurns(turns) && Flatten(turns) == ms;
    var p, m := NextTurn(turns, i);
  }

  /** With fresh ids the exact condition always holds. */
  lemma NoReuseNoOrphan(ms: seq<Message>)
    requires Paired(ms) && NoReuse(ms) && |ms| > MAX_MESSAGES
    ensures !OrphanReused(LastOnes(ms))
  {
    forall i, id ensures !OrphanAt(LastOnes(ms), i, id) {
      if OrphanAt(LastOnes(ms), i, id) { OrphanReuses(ms, i, id); }
    }
  }

  lemma OrphanReuses(ms: seq<Message>, i: nat, id: Id)
    requires Paired(ms) && |ms| > MAX_MESSAGES && OrphanAt(LastOnes(ms), i, id)
    ensures !NoReuse(ms)
  {
    var s, c := LastOnes(ms), |ms| - MAX_MESSAGES;
    var j :| 0 <= j < |s[i..]| && Uses(s[i..][j], id);
    assert Reports(ms[c + i], id) && Uses(ms[c + i + j], id);
  }

  // ---------------------------------------------------------------------------
  // One user message
  // ---------------------------------------------------------------------------

  datatype Outcome = Raised | Saved(messages: seq<Message>)

  function Ask(text: string): Message {
    Message(User, Plain(text))
  }

  function Pair(reply: Reply): (r: seq<Message>)
    requires reply.Reply? && FirstUse(reply.blocks).Some?
  {
    [Message(Assistant, Blocks(reply.blocks)), Message(User, Blocks([ToolResult(FirstUse(reply.blocks).value, reply.text)]))]
  }

  /** What the loop makes of the replies from round trip `n` on, with `messages` sent so far. */
  function Converse(messages: seq<Message>, replies: nat -> Reply, n: nat): (r: Outcome)
    requires n <= MAX_TURNS
    decreases MAX_TURNS - n
  {
    if n == MAX_TURNS || replies(n).Unavailable? then Raised
    else if FirstUse(replies(n).blocks).None? then Saved(messages + [Message(Assistant, Blocks(replies(n).blocks))])
    else if !replies(n).known then Raised
    else if replies(n).confirms then Saved(messages + Pair(replies(n)))
    else Converse(messages + Pair(replies(n)), replies, n + 1)
  }

  /** `id` is that of the first tool call among the blocks. */
  ghost predicate FirstCall(blocks: seq<Block>, id: Id) {
    exists j :: 0 <= j < |blocks| && blocks[j] == ToolUse(id) && forall k :: 0 <= k < j ==> !blocks[k].ToolUse?
  }

  ghost predicate CallsNothing(blocks: seq<Block>) {
    forall j :: 0 <= j < |blocks| ==> !blocks[j].ToolUse?
  }

  lemma {:induction false} FirstUseIff(blocks: seq<Block>)
    ensures FirstUse(blocks).None? <==> CallsNothing(blocks)
    ensures FirstUse(blocks).Some? ==> FirstCall(blocks, FirstUse(blocks).value)
  {
    if blocks != [] && !blocks[0].ToolUse? {
      FirstUseIff(blocks[1..]);
      if FirstUse(blocks).Some? {
        var id := FirstUse(blocks).value;
        var j :| 0 <= j < |blocks[1..]| && blocks[1..][j] == ToolUse(id) && forall k :: 0 <= k < j ==> !blocks[1..][k].ToolUse?;
        assert blocks[j + 1] == ToolUse(id);
        forall k | 0 <= k < j + 1 ensures !blocks[k].ToolUse? {
          if k > 0 { assert blocks[1..][k - 1] == blocks[k]; }
        }
      }
    }
  }

  /** `after` is `before` with the model's blocks as they came. */
  ghost predicate AddsReply(before: seq<Message>, after: seq<Message>, reply: Reply) {
    reply.Reply? && after == before + [Message(Assistant, Blocks(reply.blocks))]
  }

  /** `after` is `before` with the model's blocks and, behind them, what the first tool called said. */
  ghost predicate AddsExchange(before: seq<Message>, after: seq<Message>, reply: Reply) {
    && reply.Reply? && reply.known
    && exists id :: FirstCall(reply.blocks, id) && after == before + [Message(Assistant, Blocks(reply.blocks)), Message(User, Blocks([ToolResult(id, reply.text)]))]
  }

  /** The round trip that ends the loop: in words, in a call to confirm, or in failure. */
  ghost predicate Ends(request: seq<Message>, reply: Reply, last: bool, result: Outcome) {
    match result
    case Saved(ms) =>
      || (AddsReply(request, ms, reply) && CallsNothing(reply.blocks))
      || (AddsExchange(request, ms, reply) && reply.confirms)
    case Raised =>
      || reply.Unavailable?
      || (!CallsNothing(reply.blocks) && (!reply.known || (last && !reply.confirms)))
  }

  /** Request `i` is the one before it and the exchange that followed that one. */
  ghost predicate ContinuesAt(requests: seq<seq<Message>>, replies: nat -> Reply, i: nat) {
    0 < i < |requests| && AddsExchange(requests[i - 1], requests[i], replies(i - 1)) && !replies(i - 1).confirms
  }

  /** The requests so far, with `messages` the one to come. */
  ghost predicate Underway(history: seq<Message>, text: string, replies: nat -> Reply, requests: seq<seq<Message>>, messages: seq<Message>) {
    var all := requests + [messages];
    all[0] == history + [Message(User, Plain(text))] && forall i :: 0 < i < |all| ==> ContinuesAt(all, replies, i)
  }

  lemma GoesOn(history: seq<Message>, text: string, replies: nat -> Reply, requests: seq<seq<Message>>, messages: seq<Message>, next: seq<Message>)
    requires Underway(history, text, replies, requests, messages)
    requires AddsExchange(messages, next, replies(|requests|)) && !replies(|requests|).confirms
    ensures Underway(history, text, replies, requests + [messages], next)
  {
    var all, more := requests + [messages], requests + [messages] + [next];
    forall i | 0 < i < |more| ensures ContinuesAt(more, replies, i) {
      if i < |all| {
        assert ContinuesAt(all, replies, i);
      }
    }
  }

  lemma Finishes(history: seq<Message>, text: string, replies: nat -> Reply, requests: seq<seq<Message>>, messages: seq<Message>, result: Outcome)
    requires Underway(history, text, replies, requests, messages) && |requests| < MAX_TURNS
    requires Ends(messages, replies(|requests|), |requests| + 1 == MAX_TURNS, result)
    ensures Transcript(history, text, replies, requests + [messages], result)
  {
  }

  /** The lists handed to the model, from the question on, and how the loop ended. */
  ghost predicate Transcript(history: seq<Message>, text: string, replies: nat -> Reply, requests: seq<seq<Message>>, result: Outcome) {
    && 1 <= |requests| <= 4
    && requests[0] == history + [Message(User, Plain(text))]
    && (forall i :: 0 < i < |requests| ==> ContinuesAt(requests, replies, i))
    && Ends(requests[|requests| - 1], replies(|requests| - 1), |requests| == 4, result)
  }

  lemma PairIsExchange(messages: seq<Message>, reply: Reply)
    requires reply.Reply? && reply.known && FirstUse(reply.blocks).Some?
    ensures AddsExchange(messages, messages + Pair(reply), reply)
  {
    FirstUseIff(reply.blocks);
    assert FirstCall(reply.blocks, FirstUse(reply.blocks).value);
  }

  /** The turn loop. `requests` are the lists handed to the model, in order. */
  method HandleMessage(history: seq<Message>, text: string, replies: nat -> Reply)
    returns (result: Outcome, requests: seq<seq<Message>>)
    requires FromModelAll(replies)
    ensures result == Converse(history + [Ask(text)], replies, 0)
    ensures Transcript(history, text, replies, requests, result)
    ensures forall i :: 0 <= i < |requests| ==> history <= requests[i] && IsOpenTurn(requests[i][|history|..])
  {
    var messages := history + [Ask(text)];
    requests := [];
    for n := 0 to MAX_TURNS
      invariant |requests| == n && (n < MAX_TURNS ==> Underway(history, text, replies, requests, messages))
      invariant n == MAX_TURNS ==> Transcript(history, text, replies, requests, Raised)
      invariant Converse(messages, replies, n) == Converse(history + [Ask(text)], replies, 0)
      invariant OpensOn(history, messages)
      invariant forall i :: 0 <= i < |requests| ==> OpensOn(history, requests[i])
    {
      var reply := replies(n);
      var end := EndOf(messages, reply);
      if end.Some? {
        Finishes(history, text, replies, requests, messages, end.value);
        return end.value, requests + [messages];
      }
      Exchanged(history, messages, reply);
      if n + 1 < MAX_TURNS {
        GoesOn(history, text, replies, requests, messages, messages + Pair(reply));
      } else {
        Finishes(history, text, replies, requests, messages, Raised);
      }
      requests := requests + [messages];
      messages := messages + Pair(reply);
    }
    result := Raised;
  }

  /** The list is the history and an open turn. */
  ghost predicate OpensOn(history: seq<Message>, messages: seq<Message>) {
    history <= messages && IsOpenTurn(messages[|history|..])
  }

  /** How a reply ends the loop, if it does. */
  method EndOf(messages: seq<Message>, reply: Reply) returns (end: Option<Outcome>)
    ensures end.Some? ==> forall last :: Ends(messages, reply, last, end.value)
    ensures end.None? ==> reply.Reply? && reply.known && !reply.confirms && FirstUse(reply.blocks).Some? && !CallsNothing(reply.blocks)
    ensures forall replies: nat -> Reply, n: nat :: n < MAX_TURNS && replies(n) == reply && end.Some? ==> Converse(messages, replies, n) == end.value
  {
    if reply.Unavailable? { return Some(Raised); }
    FirstUseIff(reply.blocks);
    if FirstUse(reply.blocks).None? {
      return Some(Saved(messages + [Message(Assistant, Blocks(reply.blocks))]));
    }
    if !reply.known { return Some(Raised); }
    PairIsExchange(messages, reply);
    if reply.confirms { return Some(Saved(messages + Pair(reply))); }
    end := None;
  }

  lemma Exchanged(history: seq<Message>, messages: seq<Message>, reply: Reply)
    requires OpensOn(history, messages) && reply.Reply? && reply.known && FromModel(reply.blocks) && FirstUse(reply.blocks).Some?
    ensures OpensOn(history, messages + Pair(reply)) && AddsExchange(messages, messages + Pair(reply), reply)
  {
    OpenTurnGrows(messages[|history|..], reply);
    assert (messages + Pair(reply))[|history|..] == messages[|history|..] + Pair(reply);
    PairIsExchange(messages, reply);
  }

  ghost predicate FromModelAll(replies: nat -> Reply) {
    forall n :: replies(n).Reply? ==> FromModel(replies(n).blocks)
  }

  lemma OpenTurnGrows(t: seq<Message>, reply: Reply)
    requires IsOpenTurn(t) && reply.Reply? && FromModel(reply.blocks) && FirstUse(reply.blocks).Some?
    ensures IsOpenTurn(t + Pair(reply))
  {
    var r := t + Pair(reply);
    forall i | 0 <= i < |r| / 2 ensures IsPair(r[2 * i + 1], r[2 * i + 2]) {
      if 2 * i + 2 < |t| {
        assert IsPair(t[2 * i + 1], t[2 * i + 2]);
      }
    }
  }

  /** Whatever the model answers, what is saved is the history and one whole turn. */
  lemma {:induction false} SavesOneTurn(history: seq<Message>, t: seq<Message>, replies: nat -> Reply, n: nat)
    requires FromModelAll(replies) && n <= MAX_TURNS && IsOpenTurn(t) && |t| == 2 * n + 1
    ensures var r := Converse(history + t, replies, n);
      r.Saved? ==> history + t <= r.messages && IsTurn(r.messages[|history|..])
    decreases MAX_TURNS - n
  {
    if n < MAX_TURNS && replies(n).Reply? {
      var reply := replies(n);
      if FirstUse(reply.blocks).None? {
        SaidClosesTurn(history, t, Message(Assistant, Blocks(reply.blocks)));
      } else {
        var longer := t + Pair(reply);
        OpenTurnGrows(t, reply);
        TurnAppends(history, t, Pair(reply));
        if reply.known && !reply.confirms {
          SavesOneTurn(history, longer, replies, n + 1);
        }
      }
    }
  }

  lemma TurnAppends(history: seq<Message>, t: seq<Message>, more: seq<Message>)
    ensures history + t + more == history + (t + more) && history + t <= history + (t + more)
    ensures (history + (t + more))[|history|..] == t + more
  {
  }

  lemma SaidClosesTurn(history: seq<Message>, t: seq<Message>, said: Message)
    requires IsOpenTurn(t) && |t| <= 2 * MAX_TURNS - 1 && IsSay(said)
    ensures history + t <= history + t + [said] && IsTurn((history + t + [said])[|history|..])
  {
    TurnAppends(history, t, [said]);
    assert (t + [said])[..|t|] == t;
  }

  // ---------------------------------------------------------------------------
  // Fresh ids
  // ---------------------------------------------------------------------------

  ghost predicate ReportedIn(ms: seq<Message>, id: Id) {
    exists i :: 0 <= i < |ms| && Reports(ms[i], id)
  }

  ghost predicate UsesBlock(reply: Reply, id: Id) {
    reply.Reply? && exists i :: 0 <= i < |reply.blocks| && reply.blocks[i] == ToolUse(id)
  }

  /** From reply `n` on, no reply calls under an id already answered in `ms`. */
  ghost predicate NewTo(ms: seq<Message>, replies: nat -> Reply, n: nat) {
    forall m: nat, id :: n <= m && UsesBlock(replies(m), id) ==> !ReportedIn(ms, id)
  }

  /** No reply calls under the id that an earlier reply of the same loop was answered under. */
  ghost predicate NewAmongReplies(replies: nat -> Reply) {
    forall n: nat, m: nat :: n < m && replies(n).Reply? && FirstUse(replies(n).blocks).Some? ==>
      !UsesBlock(replies(m), FirstUse(replies(n).blocks).value)
  }

  ghost predicate FreshIds(history: seq<Message>, replies: nat -> Reply) {
    NewTo(history, replies, 0) && NewAmongReplies(replies)
  }

  lemma NoReuseAppend(ms: seq<Message>, m: Message)
    requires NoReuse(ms) && forall id :: Uses(m, id) ==> !ReportedIn(ms, id)
    ensures NoReuse(ms + [m])
    ensures forall id :: ReportedIn(ms + [m], id) <==> ReportedIn(ms, id) || Reports(m, id)
  {
    var r := ms + [m];
    assert forall i :: 0 <= i < |ms| ==> r[i] == ms[i];
    assert r[|ms|] == m;
    forall id ensures ReportedIn(r, id) <==> ReportedIn(ms, id) || Reports(m, id) {
      if ReportedIn(r, id) {
        var i :| 0 <= i < |r| && Reports(r[i], id);
      }
      if ReportedIn(ms, id) {
        var i :| 0 <= i < |ms| && Reports(ms[i], id);
        assert Reports(r[i], id);
      }
    }
  }

  lemma NoReusePair(ms: seq<Message>, replies: nat -> Reply, n: nat)
    requires NoReuse(ms) && NewTo(ms, replies, n) && NewAmongReplies(replies)
    requires replies(n).Reply? && FromModel(replies(n).blocks) && FirstUse(replies(n).blocks).Some?
    ensures NoReuse(ms + Pair(replies(n))) && NewTo(ms + Pair(replies(n)), replies, n + 1)
  {
    var pair := Pair(replies(n));
    forall id | Uses(pair[0], id) ensures !ReportedIn(ms, id) {
      assert UsesBlock(replies(n), id);
    }
    NoReuseAppend(ms, pair[0]);
    NoReuseAppend(ms + [pair[0]], pair[1]);
    assert ms + [pair[0]] + [pair[1]] == ms + pair;
  }

  lemma {:induction false} SavesNoReuse(ms: seq<Message>, replies: nat -> Reply, n: nat)
    requires n <= MAX_TURNS && FromModelAll(replies)
    requires NoReuse(ms) && NewTo(ms, replies, n) && NewAmongReplies(replies)
    ensures var r := Converse(ms, replies, n); r.Saved? ==> NoReuse(r.messages)
    decreases MAX_TURNS - n
  {
    if n < MAX_TURNS && replies(n).Reply? {
      if FirstUse(replies(n).blocks).None? {
        var said := Message(Assistant, Blocks(replies(n).blocks));
        forall id | Uses(said, id) ensures !ReportedIn(ms, id) {
          assert UsesBlock(replies(n), id);
        }
        NoReuseAppend(ms, said);
      } else {
        NoReusePair(ms, replies, n);
        if replies(n).known && !replies(n).confirms {
          SavesNoReuse(ms + Pair(replies(n)), replies, n + 1);
        }
      }
    }
  }

  // ---------------------------------------------------------------------------
  // Unbounded conversations
  // ---------------------------------------------------------------------------

  type Rows = map<int, seq<Message>>

  datatype Op = Chat(user: int, text: string, replies: nat -> Reply) | StartOver(user: int)

  function History(rows: Rows, user: int): (r: seq<Message>) {
    if user in rows then rows[user] else []
  }

  function Step(rows: Rows, op: Op): (r: Rows) {
    match op
    case Chat(user, text, replies) =>
      (match Converse(History(rows, user) + [Ask(text)], replies, 0)
       case Raised => rows
       case Saved(messages) => rows[user := Trimmed(messages)])
    case StartOver(user) => if user in rows then rows[user := []] else rows
  }

  function Execute(rows: Rows, ops: seq<Op>): (r: Rows) {
    if ops == [] then rows else Step(Execute(rows, ops[..|ops| - 1]), ops[|ops| - 1])
  }

  ghost predicate FreshStep(rows: Rows, op: Op) {
    op.Chat? ==> FromModelAll(op.replies) && FreshIds(History(rows, op.user), op.replies)
  }

  ghost predicate FreshRun(rows: Rows, ops: seq<Op>) {
    forall n :: 0 <= n < |ops| ==> FreshStep(Execute(rows, ops[..n]), ops[n])
  }

  /** What holds of a stored conversation. */
  ghost predicate Stored(ms: seq<Message>) {
    Whole(ms) && NoReuse(ms) && |ms| <= MAX_MESSAGES
  }

  ghost predicate AllStored(rows: Rows) {
    forall user :: user in rows ==> Stored(rows[user])
  }

  lemma EmptyIsStored()
    ensures Stored([])
  {
    assert Flatten([]) == [] && AllTurns([]);
  }

  lemma {:induction false} FlattenAppend(turns: seq<seq<Message>>, t: seq<Message>)
    ensures Flatten(turns + [t]) == Flatten(turns) + t
  {
    if turns == [] {
      assert [t][1..] == [] && turns + [t] == [t];
    } else {
      FlattenAppend(turns[1..], t);
      assert (turns + [t])[1..] == turns[1..] + [t];
    }
  }

  lemma WholeAppend(ms: seq<Message>, t: seq<Message>)
    requires Whole(ms) && IsTurn(t)
    ensures Whole(ms + t)
  {
    var turns :| AllTurns(turns) && Flatten(turns) == ms;
    FlattenAppend(turns, t);
    assert AllTurns(turns + [t]);
  }

  lemma TrimmedIsStored(ms: seq<Message>)
    requires Whole(ms) && NoReuse(ms)
    ensures Stored(Trimmed(ms))
  {
    if |ms| > MAX_MESSAGES {
      WholeIsPaired(ms);
      NoReuseNoOrphan(ms);
      TrimmedIsWholeIff(ms);
      TrimmedLength(ms);
    }
  }

  /** One message with fresh ids, loaded, handled, trimmed and saved. */
  lemma ChatIsStored(history: seq<Message>, text: string, replies: nat -> Reply)
    requires Stored(history) && FromModelAll(replies) && FreshIds(history, replies)
    ensures var r := Converse(history + [Ask(text)], replies, 0); r.Saved? ==> Stored(Trimmed(r.messages))
  {
    var r := Converse(history + [Ask(text)], replies, 0);
    if r.Saved? {
      SavesOneTurn(history, [Ask(text)], replies, 0);
      WholeAppend(history, r.messages[|history|..]);
      assert history + r.messages[|history|..] == r.messages;
      NoReuseAppend(history, Ask(text));
      SavesNoReuse(history + [Ask(text)], replies, 0);
      TrimmedIsStored(r.messages);
    }
  }

  lemma StepKeepsStored(rows: Rows, op: Op)
    requires AllStored(rows) && FreshStep(rows, op)
    ensures AllStored(Step(rows, op))
  {
    EmptyIsStored();
    if op.Chat? {
      ChatIsStored(History(rows, op.user), op.text, op.replies);
    }
  }

  /** After any number of load, handle, save and clear rounds with fresh ids. */
  lemma {:induction false} ConversationsStayWhole(rows: Rows, ops: seq<Op>)
    requires AllStored(rows) && FreshRun(rows, ops)
    ensures AllStored(Execute(rows, ops))
  {
    if ops != [] {
      var n := |ops| - 1;
      forall k | 0 <= k < n ensures FreshStep(Execute(rows, ops[..n][..k]), ops[..n][k]) {
        assert ops[..n][..k] == ops[..k];
      }
      ConversationsStayWhole(rows, ops[..n]);
      StepKeepsStored(Execute(rows, ops[..n]), ops[n]);
    }
  }

  /** The list opens and ends with the user, and every result sits right behind its call. */
  ghost predicate ResultsInPlace(ms: seq<Message>) {
    ms != [] && IsAsk(ms[0]) && ms[|ms| - 1].role == User && Paired(ms)
  }

  /** So does every list handed to the model on top of a stored conversation. */
  lemma RequestResultsInPlace(history: seq<Message>, request: seq<Message>)
    requires Whole(history) && history <= request && IsOpenTurn(request[|history|..])
    ensures ResultsInPlace(request)
  {
    WholeIsPaired(history);
    var t := request[|history|..];
    forall i, id | 0 <= i < |request| && Reports(request[i], id) ensures i > 0 && IsPair(request[i - 1], request[i]) {
      if i < |history| {
        assert Reports(history[i], id);
      } else {
        OpenTurnPairs(t, i - |history|, id);
      }
    }
    OpenTurnEnds(t);
  }

  lemma OpenTurnPairs(t: seq<Message>, i: nat, id: Id)
    requires IsOpenTurn(t) && i < |t| && Reports(t[i], id)
    ensures i > 0 && IsPair(t[i - 1], t[i])
  {
    if i > 0 {
      assert IsPair(t[2 * ((i - 1) / 2) + 1], t[2 * ((i - 1) / 2) + 2]);
    }
  }

  lemma OpenTurnEnds(t: seq<Message>)
    requires IsOpenTurn(t)
    ensures t[|t| - 1].role == User
  {
    if |t| > 1 {
      var k := |t| / 2 - 1;
      assert IsPair(t[2 * k + 1], t[2 * k + 2]);
    }
  }

  // ---------------------------------------------------------------------------
  // Answers to every call
  // ---------------------------------------------------------------------------

  /** Every tool call has its result in the very next message. */
  ghost predicate AllAnswered(ms: seq<Message>) {
    forall i, id :: 0 <= i < |ms| && Uses(ms[i], id) ==> AnsweredAt(ms, i, id)
  }

  ghost predicate AnsweredAt(ms: seq<Message>, i: nat, id: Id) {
    i + 1 < |ms| && Reports(ms[i + 1], id)
  }

  /** The message calls under one id at most. */
  ghost predicate SingleCall(m: Message) {
    forall x, y :: Uses(m, x) && Uses(m, y) ==> x == y
  }

  ghost predicate SingleCalls(ms: seq<Message>) {
    forall i :: 0 <= i < |ms| ==> SingleCall(ms[i])
  }

  /** For calls under different ids, that means one call at most. */
  lemma SingleCallIff(m: Message)
    requires m.content.Blocks?
    requires forall i, j :: 0 <= i < j < |m.content.blocks| && m.content.blocks[i].ToolUse? ==> m.content.blocks[i] != m.content.blocks[j]
    ensures SingleCall(m) <==>
      forall i, j :: 0 <= i < j < |m.content.blocks| ==> !(m.content.blocks[i].ToolUse? && m.content.blocks[j].ToolUse?)
  {
    var blocks := m.content.blocks;
    forall i, j | SingleCall(m) && 0 <= i < j < |blocks| ensures !(blocks[i].ToolUse? && blocks[j].ToolUse?) {
      if blocks[i].ToolUse? && blocks[j].ToolUse? {
        assert blocks[i] == ToolUse(blocks[i].id) && blocks[j] == ToolUse(blocks[j].id);
        assert Uses(m, blocks[i].id) && Uses(m, blocks[j].id);
      }
    }
  }

  /** Every message that calls a tool is followed by the result of its first call. */
  ghost predicate CallsFollowed(ms: seq<Message>) {
    forall i, id :: 0 <= i < |ms| && Uses(ms[i], id) ==> i + 1 < |ms| && IsPair(ms[i], ms[i + 1])
  }

  lemma PairAnswers(call: Message, result: Message, id: Id)
    requires IsPair(call, result)
    ensures Uses(call, FirstUse(call.content.blocks).value)
    ensures Reports(result, id) <==> id == FirstUse(call.content.blocks).value
  {
    FirstUseIsUsed(call.content.blocks);
  }

  lemma AnsweredIff(ms: seq<Message>)
    requires CallsFollowed(ms)
    ensures AllAnswered(ms) <==> SingleCalls(ms)
  {
    if SingleCalls(ms) {
      forall i, id | 0 <= i < |ms| && Uses(ms[i], id) ensures AnsweredAt(ms, i, id) {
        PairAnswers(ms[i], ms[i + 1], id);
        assert SingleCall(ms[i]);
      }
    }
    if AllAnswered(ms) {
      forall i, x, y | 0 <= i < |ms| && Uses(ms[i], x) && Uses(ms[i], y) ensures x == y {
        assert AnsweredAt(ms, i, x) && AnsweredAt(ms, i, y);
        PairAnswers(ms[i], ms[i + 1], x);
        PairAnswers(ms[i], ms[i + 1], y);
      }
    }
  }

  lemma {:induction false} NoUseNoFirst(blocks: seq<Block>, i: nat)
    requires FirstUse(blocks).None? && i < |blocks|
    ensures !blocks[i].ToolUse?
  {
    if i > 0 { NoUseNoFirst(blocks[1..], i - 1); }
  }

  lemma SayCallsNothing(m: Message, id: Id)
    requires IsSay(m)
    ensures !Uses(m, id)
  {
    if Uses(m, id) {
      var i :| 0 <= i < |m.content.blocks| && m.content.blocks[i] == ToolUse(id);
      NoUseNoFirst(m.content.blocks, i);
    }
  }

  lemma UserCallsNothing(t: seq<Message>, i: nat, id: Id)
    requires IsOpenTurn(t) && i < |t|
    ensures Uses(t[i], id) ==> i % 2 == 1
  {
    if i % 2 == 0 && i > 0 {
      var k := i / 2 - 1;
      assert IsPair(t[2 * k + 1], t[2 * k + 2]);
    }
  }

  lemma OpenTurnFollowed(t: seq<Message>)
    requires IsOpenTurn(t)
    ensures CallsFollowed(t)
  {
    forall i, id | 0 <= i < |t| && Uses(t[i], id) ensures i + 1 < |t| && IsPair(t[i], t[i + 1]) {
      UserCallsNothing(t, i, id);
      assert IsPair(t[2 * (i / 2) + 1], t[2 * (i / 2) + 2]);
    }
  }

  lemma TurnFollowed(t: seq<Message>)
    requires IsTurn(t)
    ensures CallsFollowed(t)
  {
    if |t| % 2 == 1 {
      OpenTurnFollowed(t);
    } else {
      var open, say := t[..|t| - 1], t[|t| - 1];
      OpenTurnFollowed(open);
      forall i, id | 0 <= i < |t| && Uses(t[i], id) ensures i + 1 < |t| && IsPair(t[i], t[i + 1]) {
        SayCallsNothing(say, id);
        if i < |open| {
          assert Uses(open[i], id);
        }
      }
    }
  }

  lemma FollowedAppend(a: seq<Message>, b: seq<Message>)
    requires CallsFollowed(a) && CallsFollowed(b)
    ensures CallsFollowed(a + b)
  {
    var ms := a + b;
    forall i, id | 0 <= i < |ms| && Uses(ms[i], id) ensures i + 1 < |ms| && IsPair(ms[i], ms[i + 1]) {
      if i < |a| {
        assert Uses(a[i], id);
      } else {
        assert Uses(b[i - |a|], id);
      }
    }
  }

  lemma {:induction false} TurnsFollowed(turns: seq<seq<Message>>)
    requires AllTurns(turns)
    ensures CallsFollowed(Flatten(turns))
  {
    if turns != [] {
      TurnFollowed(turns[0]);
      TurnsFollowed(turns[1..]);
      FollowedAppend(turns[0], Flatten(turns[1..]));
    }
  }

  /**
   In a stored conversation, and so in every saved turn, each tool call has its result in the very
   next message if and only if no reply calls under more than one id.
   */
  lemma WholeAnsweredIff(ms: seq<Message>)
    requires Whole(ms)
    ensures AllAnswered(ms) <==> SingleCalls(ms)
  {
    var turns :| AllTurns(turns) && Flatten(turns) == ms;
    TurnsFollowed(turns);
    AnsweredIff(ms);
  }

  /** The same of every list handed to the model. */
  lemma RequestAnsweredIff(history: seq<Message>, request: seq<Message>)
    requires Whole(history) && history <= request && IsOpenTurn(request[|history|..])
    ensures AllAnswered(request) <==> SingleCalls(request)
  {
    var turns :| AllTurns(turns) && Flatten(turns) == history;
    TurnsFollowed(turns);
    OpenTurnFollowed(request[|history|..]);
    FollowedAppend(history, request[|history|..]);
    assert history + request[|history|..] == request;
    AnsweredIff(request);
  }

  ghost predicate SingleReply(reply: Reply) {
    reply.Reply? ==> SingleCall(Message(Assistant, Blocks(reply.blocks)))
  }

  lemma {:induction false} SavesSingleCalls(ms: seq<Message>, replies: nat -> Reply, n: nat)
    requires n <= MAX_TURNS && SingleCalls(ms) && forall k :: SingleReply(replies(k))
    ensures var r := Converse(ms, replies, n); r.Saved? ==> SingleCalls(r.messages)
    decreases MAX_TURNS - n
  {
    if n < MAX_TURNS && replies(n).Reply? {
      assert SingleReply(replies(n));
      if FirstUse(replies(n).blocks).Some? {
        var longer := ms + Pair(replies(n));
        assert longer[|ms|] == Message(Assistant, Blocks(replies(n).blocks));
        assert SingleCall(Pair(replies(n))[1]);
        SavesSingleCalls(longer, replies, n + 1);
      }
    }
  }

  ghost predicate SingleStep(op: Op) {
    op.Chat? ==> forall k :: SingleReply(op.replies(k))
  }

  ghost predicate AllSingle(rows: Rows) {
    forall user :: user in rows ==> SingleCalls(rows[user])
  }

  lemma {:induction false} PeeledSingle(s: seq<Message>)
    requires SingleCalls(s)
    ensures SingleCalls(Peeled(s))
  {
    if s != [] && !Keeps(s) { PeeledSingle(s[1..]); }
  }

  lemma StepKeepsSingle(rows: Rows, op: Op)
    requires AllSingle(rows) && SingleStep(op)
    ensures AllSingle(Step(rows, op))
  {
    if op.Chat? {
      var ms := History(rows, op.user) + [Ask(op.text)];
      SavesSingleCalls(ms, op.replies, 0);
      var r := Converse(ms, op.replies, 0);
      if r.Saved? && |r.messages| > MAX_MESSAGES {
        PeeledSingle(LastOnes(r.messages));
      }
    }
  }

  /** As long as the model keeps to one tool per reply, every stored conversation answers every call. */
  lemma {:induction false} ConversationsStayAnswered(rows: Rows, ops: seq<Op>)
    requires AllStored(rows) && AllSingle(rows) && FreshRun(rows, ops)
    requires forall n :: 0 <= n < |ops| ==> SingleStep(ops[n])
    ensures AllSingle(Execute(rows, ops))
    ensures forall user :: user in Execute(rows, ops) ==> AllAnswered(Execute(rows, ops)[user])
  {
    SingleRun(rows, ops);
    ConversationsStayWhole(rows, ops);
    forall user | user in Execute(rows, ops) ensures AllAnswered(Execute(rows, ops)[user]) {
      assert Stored(Execute(rows, ops)[user]);
      WholeAnsweredIff(Execute(rows, ops)[user]);
    }
  }

  lemma {:induction false} SingleRun(rows: Rows, ops: seq<Op>)
    requires AllSingle(rows) && forall n :: 0 <= n < |ops| ==> SingleStep(ops[n])
    ensures AllSingle(Execute(rows, ops))
  {
    if ops != [] {
      SingleRun(rows, ops[..|ops| - 1]);
      StepKeepsSingle(Execute(rows, ops[..|ops| - 1]), ops[|ops| - 1]);
    }
  }

  function TwoCalls(): nat -> Reply {
    (n: nat) => if n == 0 then Reply([ToolUse(1), ToolUse(2)], true, "", true) else Unavailable
  }

  /** A reply with two calls is saved whole, with a result for the first alone. */
  lemma SecondCallIsNotAnswered()
    ensures FromModelAll(TwoCalls()) && FreshIds([], TwoCalls())
    ensures var ms := History(Execute(map[], [Chat(1, "", TwoCalls())]), 1);
      Stored(ms) && !AllAnswered(ms)
  {
    var op := Chat(1, "", TwoCalls());
    var ms := [Ask("")] + Pair(TwoCalls()(0));
    assert [op][..0] == [];
    assert [] + [Ask("")] == [Ask("")];
    assert FirstUse([ToolUse(1), ToolUse(2)]) == Some(1);
    assert Execute(map[], [op]) == map[1 := ms];
    FreshTwoCalls();
    EmptyIsStored();
    ChatIsStored([], "", TwoCalls());
    WholeAnsweredIff(ms);
    assert ms[1].content.blocks[0] == ToolUse(1) && ms[1].content.blocks[1] == ToolUse(2);
    assert Uses(ms[1], 1) && Uses(ms[1], 2);
  }

  lemma FreshTwoCalls()
    ensures FromModelAll(TwoCalls()) && FreshIds([], TwoCalls())
  {
  }

  /** The stored conversations, and the endpoints that touch them. */
  class Memory {
    var rows: Rows

    constructor ()
      ensures rows == map[]
    {
      rows := map[];
    }

    method LoadHistory(user: int) returns (r: seq<Message>)
      ensures r == History(rows, user)
    {
      if user !in rows { return []; }
      r := rows[user];
    }

    method SaveHistory(user: int, messages: seq<Message>)
      modifies this
      ensures rows == old(rows)[user := Trimmed(messages)]
    {
      var trimmed := Trim(messages);
      rows := rows[user := trimmed];
    }

    method ClearHistory(user: int)
      modifies this
      ensures rows == Step(old(rows), StartOver(user))
      ensures rows == if user in old(rows) then old(rows)[user := []] else old(rows)
    {
      if user in rows {
        rows := rows[user := []];
      }
    }

    /** The chat endpoint: one step of the conversation. */
    method AssistantChat(user: int, text: string, replies: nat -> Reply) returns (result: Outcome, requests: seq<seq<Message>>)
      requires FromModelAll(replies)
      modifies this
      ensures rows == Step(old(rows), Chat(user, text, replies))
      ensures Transcript(if user in old(rows) then old(rows)[user] else [], text, replies, requests, result)
      ensures rows == if result.Saved? then old(rows)[user := Trimmed(result.messages)] else old(rows)
      ensures AllStored(old(rows)) && FreshIds(History(old(rows), user), replies) ==> AllStored(rows)
      ensures Whole(History(old(rows), user)) ==> forall i :: 0 <= i < |requests| ==>
        ResultsInPlace(requests[i]) && (AllAnswered(requests[i]) <==> SingleCalls(requests[i]))
    {
      if AllStored(rows) && FreshIds(History(rows, user), replies) {
        StepKeepsStored(rows, Chat(user, text, replies));
      }
      var history := LoadHistory(user);
      result, requests := HandleMessage(history, text, replies);
      if Whole(history) {
        AllInPlace(history, requests);
      }
      if result.Saved? {
        SaveHistory(user, result.messages);
      }
    }
  }

  lemma AllInPlace(history: seq<Message>, requests: seq<seq<Message>>)
    requires Whole(history)
    requires forall i :: 0 <= i < |requests| ==> history <= requests[i] && IsOpenTurn(requests[i][|history|..])
    ensures forall i :: 0 <= i < |requests| ==> ResultsInPlace(requests[i]) && (AllAnswered(requests[i]) <==> SingleCalls(requests[i]))
  {
    forall i | 0 <= i < |requests|
      ensures ResultsInPlace(requests[i]) && (AllAnswered(requests[i]) <==> SingleCalls(requests[i]))
    {
      RequestResultsInPlace(history, requests[i]);
      RequestAnsweredIff(history, requests[i]);
    }
  }

  // ---------------------------------------------------------------------------
  // What the trimmer does not do by itself
  // ---------------------------------------------------------------------------

  function Calling(id: Id): Message {
    Message(Assistant, Blocks([ToolUse(id)]))
  }

  function Answering(id: Id): Message {
    Message(User, Blocks([ToolResult(id, "")]))
  }

  /** A list that is not whole turns: the loop looks only at the first message's results. */
  lemma TrimAloneIsNotEnough()
    ensures exists ms: seq<Message> :: |ms| > MAX_MESSAGES && !Documented(Trimmed(ms))
  {
    var ms := seq(21, i => if i == 2 then Answering(7) else Ask(""));
    var s := LastOnes(ms);
    assert s[0] == Ask("") && s[1] == Answering(7);
    assert s[1].content.blocks[0] == ToolResult(7, "");
    assert Reports(s[1], 7);
    assert !Uses(s[0], 7);
    assert !UsedBefore(Trimmed(ms), 1, 7);
  }

  lemma ThreeTurns(t: seq<Message>)
    requires IsTurn(t)
    ensures Whole(t + t + t)
  {
    EmptyIsStored();
    WholeAppend([], t);
    assert [] + t == t;
    WholeAppend(t, t);
    WholeAppend(t + t, t);
  }

  /** Three whole turns that all call under one id: the cut leaves a result without its call. */
  lemma ReuseBreaksTrimming()
    ensures exists ms :: Whole(ms) && |ms| > MAX_MESSAGES && !Documented(Trimmed(ms))
  {
    var t := [Ask(""), Calling(1), Answering(1), Calling(1), Answering(1), Calling(1), Answering(1), Calling(1), Answering(1)];
    assert IsPair(Calling(1), Answering(1));
    assert IsOpenTurn(t);
    var ms := t + t + t;
    ThreeTurns(t);
    var s := LastOnes(ms);
    assert s[0] == Calling(1) && s[1] == Answering(1) && s[3] == Calling(1);
    assert s[1].content.blocks[0] == ToolResult(1, "") && s[3].content.blocks[0] == ToolUse(1);
    assert Reports(s[1], 1) && Uses(s[1..][2], 1);
    assert OrphanAt(s, 1, 1);
    TrimmedIsWholeIff(ms);
  }
}
