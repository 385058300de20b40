/** `AiChatService`: an append-only log of chat messages per user and day;
    every accepted question adds the user's message and the gateway's answer. */
module Chat {
  import opened Wrappers
  import opened Text
  import opened Calendar
  import opened Collaborators
  import opened WeeklyStats
  import opened Prompts
  import opened Sorting
  import opened Gemini

  datatype Sender = User | Ai

  /** An `ai_chat_message` row without its id. */
  datatype ChatMessage = ChatMessage(
    email: string, messageDate: Date, sender: Sender, content: string, createdAt: Timestamp)

  /** `AiChatMessageDto`. */
  datatype ChatMessageDto = ChatMessageDto(sender: Sender, content: string, createdAt: Timestamp)

  /** `AiChatResponse`. */
  datatype ChatResponse = ChatResponse(messageDate: Date, messages: seq<ChatMessageDto>)

  function CreatedAt(m: ChatMessage): int { m.createdAt }

  /** `findByEmailAndDate`: the rows of one user and day, in the order they
      were inserted. */
  function RowsOf(rows: seq<ChatMessage>, email: string, date: Date): (r: seq<ChatMessage>)
    ensures |r| <= |rows|
    ensures forall i :: 0 <= i < |r| ==> r[i].email == email && r[i].messageDate == date
  {
    if rows == [] then []
    else
      var last := rows[|rows| - 1];
      var init := rows[..|rows| - 1];
      RowsOf(init, email, date) + (if last.email == email && last.messageDate == date then [last] else [])
  }

  /** No row of the user and day is left out. */
  lemma {:induction false} RowsOfComplete(rows: seq<ChatMessage>, email: string, date: Date, m: ChatMessage)
    requires m in rows && m.email == email && m.messageDate == date
    ensures m in RowsOf(rows, email, date)
  {
    var last, init := rows[|rows| - 1], rows[..|rows| - 1];
    assert rows == init + [last];
    if m != last {
      RowsOfComplete(init, email, date, m);
    }
  }

  lemma {:induction false} RowsOfAppend(rows: seq<ChatMessage>, more: seq<ChatMessage>, email: string, date: Date)
    ensures RowsOf(rows + more, email, date) == RowsOf(rows, email, date) + RowsOf(more, email, date)
    decreases |more|
  {
    if more == [] {
      assert rows + more == rows;
    } else {
      var all := rows + more;
      var front, last := more[..|more| - 1], more[|more| - 1];
      var extra := if last.email == email && last.messageDate == date then [last] else [];
      assert all[..|all| - 1] == rows + front;
      assert all[|all| - 1] == last;
      RowsOfAppend(rows, front, email, date);
      calc {
        RowsOf(all, email, date);
        RowsOf(rows + front, email, date) + extra;
        (RowsOf(rows, email, date) + RowsOf(front, email, date)) + extra;
        RowsOf(rows, email, date) + (RowsOf(front, email, date) + extra);
        RowsOf(rows, email, date) + RowsOf(more, email, date);
      }
    }
  }

  function ToDto(m: ChatMessage): ChatMessageDto {
    ChatMessageDto(m.sender, m.content, m.createdAt)
  }

  function Dtos(s: seq<ChatMessage>): (d: seq<ChatMessageDto>)
    ensures |d| == |s| && forall i :: 0 <= i < |s| ==> d[i] == ToDto(s[i])
  {
    seq(|s|, i requires 0 <= i < |s| => ToDto(s[i]))
  }

  /** `getMessages(email, date)` over the stored rows: the day's rows sorted
      by creation time, as messages dated `date`. */
  function Transcript(rows: seq<ChatMessage>, email: string, date: Date): (r: ChatResponse)
    ensures r.messageDate == date
    ensures |r.messages| == |RowsOf(rows, email, date)|
  {
    ChatResponse(date, Dtos(SortBy(RowsOf(rows, email, date), CreatedAt)))
  }

  /** The transcript is in creation order and holds exactly the day's rows. */
  lemma {:induction false} TranscriptSpec(rows: seq<ChatMessage>, email: string, date: Date)
    ensures var r := Transcript(rows, email, date);
      && (forall i, j :: 0 <= i < j < |r.messages| ==> r.messages[i].createdAt <= r.messages[j].createdAt)
      && multiset(r.messages) == multiset(Dtos(RowsOf(rows, email, date)))
  {
    var u := RowsOf(rows, email, date);
    var sorted := SortBy(u, CreatedAt);
    SortByOrdered(u, CreatedAt);
    SortByPermutes(u, CreatedAt);
    DtosPermutation(sorted, u);
    var d := Dtos(sorted);
    forall i, j | 0 <= i < j < |d| ensures d[i].createdAt <= d[j].createdAt {
      assert CreatedAt(sorted[i]) <= CreatedAt(sorted[j]);
    }
  }

  /** Rows that are a permutation of each other have permuted messages. */
  lemma {:induction false} DtosPermutation(a: seq<ChatMessage>, b: seq<ChatMessage>)
    requires multiset(a) == multiset(b)
    ensures multiset(Dtos(a)) == multiset(Dtos(b))
    decreases |a|
  {
    if a != [] {
      var x, init := a[|a| - 1], a[..|a| - 1];
      assert a == init + [x];
      var k := PickMatch(a, b);
      var pre, post := b[..k], b[k + 1..];
      DtosPermutation(init, pre + post);
      DtosAppend(init, [x]);
      DtosAppend(pre + [x], post);
      DtosAppend(pre, [x]);
      DtosAppend(pre, post);
    }
  }

  lemma {:induction false} DtosAppend(a: seq<ChatMessage>, b: seq<ChatMessage>)
    ensures Dtos(a + b) == Dtos(a) + Dtos(b)
  {
  }

  /** The message `chat` accepts: present and not blank. */
  predicate Accepted(message: Option<string>) {
    message.Some? && !IsBlank(message.value)
  }

  /** `buildPrompt`'s content: the date, the profile, the week's diet and
      exercise stats dated at most `date` (kept in the week's order) and the
      question; no earlier message of the conversation. */
  function ChatPromptOf(profile: Profile, weekly: WeeklyStatsResponse, date: Date, message: string): (p: Prompt)
    ensures p.ChatPrompt? && p.date == date && p.profile == profile && p.message == message
  {
    ChatPrompt(date, profile, UpTo(weekly.dietStats, DietDate, date), UpTo(weekly.exerciseStats, ExerciseDate, date), message)
  }

  /** The chat prompt holds exactly the week's days from Monday up to `date`. */
  lemma {:induction false} ChatPromptCoversWeekToDate(r: Records, email: string, date: Date, profile: Profile, message: string)
    ensures var w := Weekly(r, email, date);
      var p := ChatPromptOf(profile, w, date, message);
      && p.diet == w.dietStats[..date - WeekStart(date) + 1]
      && p.exercise == w.exerciseStats[..date - WeekStart(date) + 1]
  {
    var w := Weekly(r, email, date);
    WeeklyWindow(r, email, date);
    UpToPrefix(w.dietStats, DietDate, date, date - WeekStart(date) + 1);
    UpToPrefix(w.exerciseStats, ExerciseDate, date, date - WeekStart(date) + 1);
  }

  /** The pair an accepted question adds: the question at `clock`, the answer
      one second later. */
  function Pair(email: string, date: Date, message: string, answer: string, clock: Timestamp): (p: seq<ChatMessage>)
    ensures |p| == 2 && p[0].sender == User && p[1].sender == Ai
    ensures p[0].content == message && p[1].content == answer && p[1].createdAt == p[0].createdAt + 1
  {
    [ChatMessage(email, date, User, message, clock), ChatMessage(email, date, Ai, answer, clock + 1)]
  }

  /** The pair's rows under a key: both for its own day, none for any other. */
  lemma {:induction false} RowsOfPair(
    email: string, date: Date, message: string, answer: string, clock: Timestamp, e: string, d: Date)
    ensures RowsOf(Pair(email, date, message, answer, clock), e, d)
         == if (e, d) == (email, date) then Pair(email, date, message, answer, clock) else []
  {
    var p := Pair(email, date, message, answer, clock);
    assert p[..1] == [p[0]] && [p[0]][..0] == [];
  }

  /** Appending a pair leaves every other day's rows, and so its transcript,
      as they were. */
  lemma {:induction false} OtherTranscriptsUnchanged(
    rows: seq<ChatMessage>, email: string, date: Date, message: string, answer: string, clock: Timestamp,
    otherEmail: string, otherDate: Date)
    requires (otherEmail, otherDate) != (email, date)
    ensures RowsOf(rows + Pair(email, date, message, answer, clock), otherEmail, otherDate)
         == RowsOf(rows, otherEmail, otherDate)
    ensures Transcript(rows + Pair(email, date, message, answer, clock), otherEmail, otherDate)
         == Transcript(rows, otherEmail, otherDate)
  {
    var p := Pair(email, date, message, answer, clock);
    RowsOfAppend(rows, p, otherEmail, otherDate);
    RowsOfPair(email, date, message, answer, clock, otherEmail, otherDate);
    assert RowsOf(rows, otherEmail, otherDate) + [] == RowsOf(rows, otherEmail, otherDate);
  }

  /** The day's transcript gains exactly the two new messages. */
  lemma {:induction false} TranscriptGrowsByTwo(
    rows: seq<ChatMessage>, email: string, date: Date, message: string, answer: string, clock: Timestamp)
    ensures RowsOf(rows + Pair(email, date, message, answer, clock), email, date)
         == RowsOf(rows, email, date) + Pair(email, date, message, answer, clock)
    ensures |Transcript(rows + Pair(email, date, message, answer, clock), email, date).messages|
         == |Transcript(rows, email, date).messages| + 2
  {
    RowsOfAppend(rows, Pair(email, date, message, answer, clock), email, date);
    RowsOfPair(email, date, message, answer, clock, email, date);
  }

  /** The day's rows after the pair, sorted, end with the pair. */
  lemma {:induction false} SortedRowsAfterPair(
    rows: seq<ChatMessage>, email: string, date: Date, message: string, answer: string, clock: Timestamp)
    requires forall i :: 0 <= i < |RowsOf(rows, email, date)| ==> RowsOf(rows, email, date)[i].createdAt <= clock
    ensures SortBy(RowsOf(rows + Pair(email, date, message, answer, clock), email, date), CreatedAt)
         == SortBy(RowsOf(rows, email, date), CreatedAt) + Pair(email, date, message, answer, clock)
  {
    var p := Pair(email, date, message, answer, clock);
    TranscriptGrowsByTwo(rows, email, date, message, answer, clock);
    assert p == [p[0], p[1]];
    SortByAppendTwo(RowsOf(rows, email, date), p[0], p[1], CreatedAt);
  }

  /** When no earlier message of the day is newer than `clock`, the transcript
      after the call is the one before followed by the question and the answer. */
  lemma {:induction false} PairComesLast(
    rows: seq<ChatMessage>, email: string, date: Date, message: string, answer: string, clock: Timestamp)
    requires forall i :: 0 <= i < |RowsOf(rows, email, date)| ==> RowsOf(rows, email, date)[i].createdAt <= clock
    ensures Transcript(rows + Pair(email, date, message, answer, clock), email, date).messages
         == Transcript(rows, email, date).messages
            + [ChatMessageDto(User, message, clock), ChatMessageDto(Ai, answer, clock + 1)]
  {
    var p := Pair(email, date, message, answer, clock);
    var before := SortBy(RowsOf(rows, email, date), CreatedAt);
    assert SortBy(RowsOf(rows + p, email, date), CreatedAt) == before + p by {
      SortedRowsAfterPair(rows, email, date, message, answer, clock);
    }
    DtosOfPair(before, email, date, message, answer, clock);
  }

  /** The messages of rows followed by a pair end with the pair's two messages. */
  lemma {:induction false} DtosOfPair(
    before: seq<ChatMessage>, email: string, date: Date, message: string, answer: string, clock: Timestamp)
    ensures Dtos(before + Pair(email, date, message, answer, clock))
         == Dtos(before) + [ChatMessageDto(User, message, clock), ChatMessageDto(Ai, answer, clock + 1)]
  {
    var p := Pair(email, date, message, answer, clock);
    var added := [ChatMessageDto(User, message, clock), ChatMessageDto(Ai, answer, clock + 1)];
    assert Dtos(p) == added by {
      assert Dtos(p)[0] == added[0] && Dtos(p)[1] == added[1];
    }
    DtosAppend(before, p);
  }

  /** The service: the message log, the gateway. */
  class ChatService {
    var rows: seq<ChatMessage>
    const client: GeminiClient

    constructor (client: GeminiClient)
      ensures this.client == client && rows == []
    {
      this.client := client;
      rows := [];
    }

    /** `getMessages`. Reads only. */
    function GetMessages(email: string, date: Date): (r: ChatResponse)
      reads this
      ensures r == Transcript(rows, email, date)
      ensures r.messageDate == date && |r.messages| == |RowsOf(rows, email, date)|
    {
      Transcript(rows, email, date)
    }

    /** The gateway's answer to an accepted question, or the error that stops
        `chat` before the insert. */
    function Answer(email: string, date: Date, message: string, records: Records): (r: Result<string, ErrorCode>)
      ensures r.Ok? ==> !IsBlank(r.value)
      ensures MyPage(records, email).Err? ==> r == Err(MyPage(records, email).error)
    {
      match MyPage(records, email)
      case Err(e) => Err(e)
      case Ok(profile) =>
        match client.Outcome(ChatPromptOf(profile, Weekly(records, email, date), date, message))
        case Err(f) => Err(FailureCode(f))
        case Ok(answer) => Ok(answer)
    }

    /** The gateway requests an accepted question sends. */
    function Calls(email: string, date: Date, message: string, records: Records): (c: seq<(string, Prompt)>)
      ensures |c| <= 1
      ensures |c| == 1 <==> MyPage(records, email).Ok? && KeyConfigured(client.apiKey)
    {
      match MyPage(records, email)
      case Err(_) => []
      case Ok(profile) =>
        if KeyConfigured(client.apiKey) then [client.Request(ChatPromptOf(profile, Weekly(records, email, date), date, message))]
        else []
    }

    /** `chat`: a missing or blank question fails with `INVALID_REQUEST`
        before anything else happens; an accepted one appends the question and
        the answer, one second apart, and returns the day's transcript. Nothing
        is appended when the profile lookup or the gateway fails. */
    method Chat(email: string, date: Date, message: Option<string>, clock: Timestamp, records: Records)
      returns (r: Result<ChatResponse, ErrorCode>)
      modifies this`rows, client`sent
      ensures !Accepted(message) ==>
        r == Err(InvalidRequest) && rows == old(rows) && client.sent == old(client.sent)
      ensures Accepted(message) ==>
        var a := Answer(email, date, message.value, records);
        && client.sent == old(client.sent) + Calls(email, date, message.value, records)
        && (a.Err? ==> r == Err(a.error) && rows == old(rows))
        && (a.Ok? ==>
              && rows == old(rows) + Pair(email, date, message.value, a.value, clock)
              && r == Ok(GetMessages(email, date)))
    {
      if message.None? || IsBlank(message.value) {
        return Err(InvalidRequest);
      }
      var profile := MyPage(records, email);
      if profile.Err? {
        return Err(profile.error);
      }
      var weekly := GetWeeklyStats(records, email, date);
      var prompt := ChatPromptOf(profile.value, weekly, date, message.value);
      var answer := client.Generate(prompt);
      if answer.Err? {
        return Err(FailureCode(answer.error));
      }
      var messages: seq<ChatMessage> := [];
      messages := messages + [ChatMessage(email, date, User, message.value, clock)];
      messages := messages + [ChatMessage(email, date, Ai, answer.value, clock + 1)];
      assert messages == Pair(email, date, message.value, answer.value, clock);
      rows := rows + messages;
      r := Ok(GetMessages(email, date));
    }
  }
}
