/** The shape of the conversation log `this.messages`: user messages and
    complete tool-call rounds, each round being an assistant entry that carries
    tool calls followed by exactly one `tool` entry per call, in call order. */
module Conversation {
  import opened Protocol

  /** `answers` answers `calls` one for one, in order, by call id. */
  predicate AnswersCalls(answers: seq<Message>, calls: seq<ToolCall>) {
    && |answers| == |calls|
    && forall i :: 0 <= i < |answers| ==>
         answers[i].ToolMessage? && answers[i].toolCallId == calls[i].id
  }

  /** `s` consists of exactly `n` rounds, back to back. */
  predicate IsRounds(s: seq<Message>, n: nat)
    decreases n
  {
    if n == 0 then s == []
    else
      && s != [] && s[0].AssistantMessage?
      && 0 < |s[0].toolCalls| < |s|
      && AnswersCalls(s[1..|s[0].toolCalls| + 1], s[0].toolCalls)
      && IsRounds(s[|s[0].toolCalls| + 1..], n - 1)
  }

  /** A well-formed log, read from the front: user messages and rounds. A `tool`
      entry outside a round makes the log ill-formed. */
  predicate WellFormed(log: seq<Message>)
    decreases |log|
  {
    if log == [] then true
    else match log[0]
      case UserMessage(_) => WellFormed(log[1..])
      case AssistantMessage(_, calls) =>
        && 0 < |calls| < |log|
        && AnswersCalls(log[1..|calls| + 1], calls)
        && WellFormed(log[|calls| + 1..])
      case ToolMessage(_, _) => false
  }

  /** One round in front of `n` rounds makes `n + 1` rounds. */
  lemma ConsRound(a: Message, answers: seq<Message>, rest: seq<Message>, n: nat)
    requires a.AssistantMessage? && |a.toolCalls| > 0 && AnswersCalls(answers, a.toolCalls)
    requires IsRounds(rest, n)
    ensures IsRounds([a] + answers + rest, n + 1)
  {
    var s := [a] + answers + rest;
    assert s[1..|a.toolCalls| + 1] == answers;
    assert s[|a.toolCalls| + 1..] == rest;
  }

  /** One round after `log`, then `m` more rounds, make `m + 1` rounds after `log`. */
  lemma ExtendRounds(log: seq<Message>, next: seq<Message>, final: seq<Message>, m: nat)
    requires |log| < |next| <= |final|
    requires next[..|log|] == log && final[..|next|] == next
    requires IsRounds(next[|log|..], 1) && IsRounds(final[|next|..], m)
    ensures final[..|log|] == log && IsRounds(final[|log|..], m + 1)
  {
    var one := next[|log|..];
    var n := |one[0].toolCalls|;
    assert one[n + 1..] == [];
    var s := final[|log|..];
    assert s == one + final[|next|..] by {
      assert final == next + final[|next|..];
    }
    assert s[0] == one[0];
    assert s[1..n + 1] == one[1..n + 1];
    assert s[n + 1..] == final[|next|..];
    assert final[..|log|] == next[..|log|];
  }

  /** Appending behind a leading user message. */
  lemma AppendBehindUserMessage(a: seq<Message>, b: seq<Message>)
    requires a != [] && a[0].UserMessage? && WellFormed(a[1..] + b)
    ensures WellFormed(a + b)
  {
    var ab := a + b;
    assert ab[0] == a[0];
    assert ab[1..] == a[1..] + b;
  }

  /** Appending behind a leading round. */
  lemma AppendBehindRound(a: seq<Message>, b: seq<Message>)
    requires a != [] && a[0].AssistantMessage? && WellFormed(a)
    requires WellFormed(a[|a[0].toolCalls| + 1..] + b)
    ensures WellFormed(a + b)
  {
    var n := |a[0].toolCalls|;
    var ab := a + b;
    assert ab[0] == a[0];
    assert ab[1..n + 1] == a[1..n + 1];
    assert ab[n + 1..] == a[n + 1..] + b;
  }

  /** Appending a well-formed log to a well-formed log keeps it well-formed. */
  lemma {:induction false} WellFormedAppend(a: seq<Message>, b: seq<Message>)
    requires WellFormed(a) && WellFormed(b)
    ensures WellFormed(a + b)
    decreases |a|
  {
    if a == [] {
      assert a + b == b;
    } else if a[0].UserMessage? {
      WellFormedAppend(a[1..], b);
      AppendBehindUserMessage(a, b);
    } else {
      var rest := a[|a[0].toolCalls| + 1..];
      WellFormedAppend(rest, b);
      AppendBehindRound(a, b);
    }
  }

  /** Rounds on their own form a well-formed log. */
  lemma {:induction false} RoundsAreWellFormed(s: seq<Message>, n: nat)
    requires IsRounds(s, n)
    ensures WellFormed(s)
    decreases n
  {
    if n > 0 {
      RoundsAreWellFormed(s[|s[0].toolCalls| + 1..], n - 1);
    }
  }

  /** A user message on its own is a well-formed log. */
  lemma UserMessageIsWellFormed(content: string)
    ensures WellFormed([UserMessage(content)])
  {
    assert [UserMessage(content)][1..] == [];
  }

  // ---------------------------------------------------------------------------
  // An index-based reading of the same invariant.

  /** Every assistant entry is directly followed by the answers to its calls, and
      every `tool` entry lies inside the answer window of an earlier assistant
      entry. */
  ghost predicate Paired(log: seq<Message>) {
    CallsAnswered(log) && ResultsInWindows(log)
  }

  /** Every assistant entry is directly followed by the answers to its calls. */
  ghost predicate CallsAnswered(log: seq<Message>) {
    forall j :: 0 <= j < |log| && log[j].AssistantMessage? ==>
      && 0 < |log[j].toolCalls|
      && j + |log[j].toolCalls| < |log|
      && AnswersCalls(log[j + 1..j + 1 + |log[j].toolCalls|], log[j].toolCalls)
  }

  /** Every `tool` entry lies inside the answer window of an earlier assistant entry. */
  ghost predicate ResultsInWindows(log: seq<Message>) {
    forall k :: 0 <= k < |log| && log[k].ToolMessage? ==> InAnswerWindow(log, k)
  }

  /** Entry `k` lies in the answer window of some assistant entry before it. */
  ghost predicate InAnswerWindow(log: seq<Message>, k: int)
    requires 0 <= k < |log|
  {
    exists j :: 0 <= j < k && log[j].AssistantMessage? && k <= j + |log[j].toolCalls|
  }

  /** In a paired log, a `tool` entry answers the call its position in the window
      designates: its id is that call's id. */
  lemma PairedResultMatchesCall(log: seq<Message>, j: int, k: int)
    requires Paired(log)
    requires 0 <= j < k < |log| && log[j].AssistantMessage? && k <= j + |log[j].toolCalls|
    ensures log[k].ToolMessage? && log[k].toolCallId == log[j].toolCalls[k - j - 1].id
  {
    assert log[j + 1..j + 1 + |log[j].toolCalls|][k - j - 1] == log[k];
  }

  /** Pairing survives putting a user message in front. */
  lemma PairedBehindUserMessage(log: seq<Message>)
    requires log != [] && log[0].UserMessage? && Paired(log[1..])
    ensures Paired(log)
  {
    var rest := log[1..];
    forall j | 0 <= j < |log| && log[j].AssistantMessage?
      ensures && 0 < |log[j].toolCalls| && j + |log[j].toolCalls| < |log|
              && AnswersCalls(log[j + 1..j + 1 + |log[j].toolCalls|], log[j].toolCalls)
    {
      assert rest[j - 1] == log[j];
      assert rest[j..j + |log[j].toolCalls|] == log[j + 1..j + 1 + |log[j].toolCalls|];
    }
    forall k | 0 <= k < |log| && log[k].ToolMessage? ensures InAnswerWindow(log, k) {
      assert rest[k - 1] == log[k];
      var j :| 0 <= j < k - 1 && rest[j].AssistantMessage? && k - 1 <= j + |rest[j].toolCalls|;
      assert log[j + 1] == rest[j];
    }
  }

  /** Pairing survives putting a complete round in front. */
  lemma PairedBehindRound(log: seq<Message>)
    requires log != [] && log[0].AssistantMessage?
    requires 0 < |log[0].toolCalls| < |log|
    requires AnswersCalls(log[1..|log[0].toolCalls| + 1], log[0].toolCalls)
    requires Paired(log[|log[0].toolCalls| + 1..])
    ensures Paired(log)
  {
    CallsAnsweredBehindRound(log);
    ResultsInWindowsBehindRound(log);
  }

  lemma CallsAnsweredBehindRound(log: seq<Message>)
    requires log != [] && log[0].AssistantMessage?
    requires 0 < |log[0].toolCalls| < |log|
    requires AnswersCalls(log[1..|log[0].toolCalls| + 1], log[0].toolCalls)
    requires CallsAnswered(log[|log[0].toolCalls| + 1..])
    ensures CallsAnswered(log)
  {
    var n := |log[0].toolCalls|;
    var rest := log[n + 1..];
    forall j | 0 <= j < |log| && log[j].AssistantMessage?
      ensures && 0 < |log[j].toolCalls| && j + |log[j].toolCalls| < |log|
              && AnswersCalls(log[j + 1..j + 1 + |log[j].toolCalls|], log[j].toolCalls)
    {
      if j > n {
        assert rest[j - n - 1] == log[j];
        assert rest[j - n..j - n + |log[j].toolCalls|] == log[j + 1..j + 1 + |log[j].toolCalls|];
      }
    }
  }

  lemma ResultsInWindowsBehindRound(log: seq<Message>)
    requires log != [] && log[0].AssistantMessage?
    requires 0 < |log[0].toolCalls| < |log|
    requires ResultsInWindows(log[|log[0].toolCalls| + 1..])
    ensures ResultsInWindows(log)
  {
    var n := |log[0].toolCalls|;
    var rest := log[n + 1..];
    forall k | 0 <= k < |log| && log[k].ToolMessage? ensures InAnswerWindow(log, k) {
      if k > n {
        assert rest[k - n - 1] == log[k];
        var j :| 0 <= j < k - n - 1 && rest[j].AssistantMessage?
                 && k - n - 1 <= j + |rest[j].toolCalls|;
        assert log[j + n + 1] == rest[j];
      }
    }
  }

  /** A well-formed log is paired. */
  lemma {:induction false} WellFormedIsPaired(log: seq<Message>)
    requires WellFormed(log)
    ensures Paired(log)
    decreases |log|
  {
    if log != [] {
      if log[0].UserMessage? {
        WellFormedIsPaired(log[1..]);
        PairedBehindUserMessage(log);
      } else {
        WellFormedIsPaired(log[|log[0].toolCalls| + 1..]);
        PairedBehindRound(log);
      }
    }
  }

  /** Dropping a leading user message from a paired log leaves it paired. */
  lemma PairedAfterUserMessage(log: seq<Message>)
    requires log != [] && log[0].UserMessage? && Paired(log)
    ensures Paired(log[1..])
  {
    CallsAnsweredAfterUserMessage(log);
    ResultsInWindowsAfterUserMessage(log);
  }

  lemma CallsAnsweredAfterUserMessage(log: seq<Message>)
    requires log != [] && CallsAnswered(log)
    ensures CallsAnswered(log[1..])
  {
    var rest := log[1..];
    forall j | 0 <= j < |rest| && rest[j].AssistantMessage?
      ensures && 0 < |rest[j].toolCalls| && j + |rest[j].toolCalls| < |rest|
              && AnswersCalls(rest[j + 1..j + 1 + |rest[j].toolCalls|], rest[j].toolCalls)
    {
      var m := |rest[j].toolCalls|;
      assert log[j + 1] == rest[j];
      assert 0 < m && j + 1 + m < |log|;
      assert rest[j + 1..j + 1 + m] == log[j + 2..j + 2 + m];
    }
  }

  lemma ResultsInWindowsAfterUserMessage(log: seq<Message>)
    requires log != [] && log[0].UserMessage? && ResultsInWindows(log)
    ensures ResultsInWindows(log[1..])
  {
    var rest := log[1..];
    forall k | 0 <= k < |rest| && rest[k].ToolMessage? ensures InAnswerWindow(rest, k) {
      assert log[k + 1] == rest[k];
      assert InAnswerWindow(log, k + 1);
      var j :| 0 <= j < k + 1 && log[j].AssistantMessage? && k + 1 <= j + |log[j].toolCalls|;
      assert rest[j - 1] == log[j];
    }
  }

  /** Dropping a leading round from a paired log leaves it paired. */
  lemma PairedAfterRound(log: seq<Message>)
    requires log != [] && log[0].AssistantMessage? && Paired(log)
    ensures 0 < |log[0].toolCalls| < |log|
    ensures Paired(log[|log[0].toolCalls| + 1..])
  {
    CallsAnsweredAfterRound(log);
    ResultsInWindowsAfterRound(log);
    assert log[1..|log[0].toolCalls| + 1] == log[1..1 + |log[0].toolCalls|];
  }

  lemma CallsAnsweredAfterRound(log: seq<Message>)
    requires log != [] && log[0].AssistantMessage? && CallsAnswered(log)
    ensures 0 < |log[0].toolCalls| < |log|
    ensures CallsAnswered(log[|log[0].toolCalls| + 1..])
  {
    var n := |log[0].toolCalls|;
    var rest := log[n + 1..];
    forall j | 0 <= j < |rest| && rest[j].AssistantMessage?
      ensures && 0 < |rest[j].toolCalls| && j + |rest[j].toolCalls| < |rest|
              && AnswersCalls(rest[j + 1..j + 1 + |rest[j].toolCalls|], rest[j].toolCalls)
    {
      assert log[j + n + 1] == rest[j];
      assert log[j + n + 2..j + n + 2 + |rest[j].toolCalls|]
          == rest[j + 1..j + 1 + |rest[j].toolCalls|];
    }
  }

  lemma ResultsInWindowsAfterRound(log: seq<Message>)
    requires log != [] && log[0].AssistantMessage? && 0 < |log[0].toolCalls| < |log|
    requires AnswersCalls(log[1..|log[0].toolCalls| + 1], log[0].toolCalls)
    requires ResultsInWindows(log)
    ensures ResultsInWindows(log[|log[0].toolCalls| + 1..])
  {
    var n := |log[0].toolCalls|;
    var rest := log[n + 1..];
    forall k | 0 <= k < |rest| && rest[k].ToolMessage? ensures InAnswerWindow(rest, k) {
      assert log[k + n + 1] == rest[k];
      assert InAnswerWindow(log, k + n + 1);
      var j :| 0 <= j < k + n + 1 && log[j].AssistantMessage?
               && k + n + 1 <= j + |log[j].toolCalls|;
      assert rest[j - n - 1] == log[j];
    }
  }

  /** A paired log is well-formed: the index-based reading and the front-to-back
      reading agree. */
  lemma {:induction false} PairedIsWellFormed(log: seq<Message>)
    requires Paired(log)
    ensures WellFormed(log)
    decreases |log|
  {
    if log != [] {
      if log[0].UserMessage? {
        PairedAfterUserMessage(log);
        PairedIsWellFormed(log[1..]);
      } else if log[0].AssistantMessage? {
        PairedAfterRound(log);
        PairedIsWellFormed(log[|log[0].toolCalls| + 1..]);
      }
    }
  }
}
