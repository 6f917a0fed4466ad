/** The HTTP front end's session registry: one record per workflow session, keyed by
    session id, whose status moves running -> checkpoint -> running -> completed, or
    to error when a phase raises. The background tasks are methods that take what
    the master graph streamed or returned; the HTTP layer, the ids' randomness and
    the scheduling are not modelled. */
module Api {
  import opened Wrappers
  import opened Text
  import opened Messages
  import opened Scan
  import MG = MasterGraph
  import M1G = Manager1Graph
  import PyValue

  datatype Status = Running | Checkpoint | Completed | Failed

  /** The status as the record stores it. */
  function StatusName(s: Status): (r: string)
    ensures r in {"running", "checkpoint", "completed", "error"}
  {
    match s
    case Running => "running"
    case Checkpoint => "checkpoint"
    case Completed => "completed"
    case Failed => "error"
  }

  /** Distinct statuses are stored as distinct strings. */
  lemma StatusNamesDistinct(a: Status, b: Status)
    requires a != b
    ensures StatusName(a) != StatusName(b)
  {
  }

  datatype SessionRecord = SessionRecord(
    status: Status,
    currentPhase: string,
    phase1Output: Option<string>,
    phase2Output: Option<string>,
    checkpointMessage: Option<string>,
    error: Option<string>)

  /** The record `start_workflow` stores. */
  const FreshRecord: SessionRecord := SessionRecord(Running, "phase1", None, None, None, None)

  datatype HttpError = HttpError(code: int, detail: string)

  const NotFound: HttpError := HttpError(404, "Session not found")

  /** The last AI message's content in `ms`, or `cur` when there is none. */
  function LastAi(ms: seq<Message>, cur: Option<string>): (r: Option<string>)
    ensures (forall k :: 0 <= k < |ms| ==> ms[k].role != AI) ==> r == cur
    ensures |ms| > 0 && ms[|ms| - 1].role == AI ==> r == Some(ms[|ms| - 1].content)
  {
    LastAiBefore(ms, |ms|, cur)
  }

  /** The last AI message's content among the first `n` of `ms`, or `cur`. */
  function LastAiBefore(ms: seq<Message>, n: nat, cur: Option<string>): (r: Option<string>)
    requires n <= |ms|
    ensures (forall k :: 0 <= k < n ==> ms[k].role != AI) ==> r == cur
  {
    if n == 0 then cur
    else if ms[n - 1].role == AI then Some(ms[n - 1].content)
    else LastAiBefore(ms, n - 1, cur)
  }

  /** Whichever AI message has no AI message after it is the one `LastAi` returns. */
  lemma LastAiIsLast(ms: seq<Message>, cur: Option<string>)
    ensures forall k :: 0 <= k < |ms| && ms[k].role == AI && (forall j :: k < j < |ms| ==> ms[j].role != AI)
                        ==> LastAi(ms, cur) == Some(ms[k].content)
  {
    forall k | 0 <= k < |ms| && ms[k].role == AI && (forall j :: k < j < |ms| ==> ms[j].role != AI)
      ensures LastAi(ms, cur) == Some(ms[k].content)
    {
      LastAiBeforeIsLast(ms, |ms|, cur, k);
    }
  }

  lemma {:induction false} LastAiBeforeIsLast(ms: seq<Message>, n: nat, cur: Option<string>, k: nat)
    requires k < n <= |ms| && ms[k].role == AI
    requires forall j :: k < j < n ==> ms[j].role != AI
    ensures LastAiBefore(ms, n, cur) == Some(ms[k].content)
  {
    if k < n - 1 {
      LastAiBeforeIsLast(ms, n - 1, cur, k);
    }
  }

  /** The checkpoint message as the stream leaves it: every AI message of every
      `present_checkpoint` update overwrites it in turn. */
  function CheckpointText(events: seq<(string, MG.MasterState)>, cur: Option<string>): Option<string> {
    CheckpointTextBefore(events, |events|, cur)
  }

  /** The checkpoint message after the first `n` updates. */
  function CheckpointTextBefore(events: seq<(string, MG.MasterState)>, n: nat, cur: Option<string>): Option<string>
    requires n <= |events|
  {
    if n == 0 then cur
    else
      var c := CheckpointTextBefore(events, n - 1, cur);
      if events[n - 1].0 == "present_checkpoint" then LastAi(events[n - 1].1.messages, c) else c
  }

  /** `final_output`: each AI message among the last three, followed by a blank line. */
  function AiTail(ms: seq<Message>): string {
    if |ms| == 0 then ""
    else AiTail(ms[..|ms| - 1]) + (if ms[|ms| - 1].role == AI then ms[|ms| - 1].content + "\n\n" else "")
  }

  /** `messages[-3:]`. */
  function LastThree(ms: seq<Message>): (r: seq<Message>)
    ensures |r| == if |ms| < 3 then |ms| else 3
    ensures forall k :: 0 <= k < |r| ==> r[k] == ms[|ms| - |r| + k]
  {
    if |ms| < 3 then ms else ms[|ms| - 3..]
  }

  /** The loop of `run_phase2` that builds `final_output` from the last three messages. */
  method FinalOutput(ms: seq<Message>) returns (text: string)
    ensures text == AiTail(LastThree(ms))
  {
    var tail := LastThree(ms);
    text := "";
    var i := 0;
    while i < |tail|
      invariant 0 <= i <= |tail|
      invariant text == AiTail(tail[..i])
    {
      assert tail[..i + 1][..i] == tail[..i];
      assert tail[..i + 1][i] == tail[i];
      if tail[i].role == AI {
        text := text + (tail[i].content + "\n\n");
      }
      i := i + 1;
    }
    assert tail[..i] == tail;
  }

  class SessionRegistry {
    var sessions: map<string, SessionRecord>
    /** The ids in the order the dict holds them: insertion order. */
    var order: seq<string>

    predicate Valid()
      reads this
    {
      && (forall i :: 0 <= i < |order| ==> order[i] in sessions)
      && (forall id :: id in sessions ==> id in order)
      && (forall i, j :: 0 <= i < j < |order| ==> order[i] != order[j])
    }

    constructor()
      ensures Valid() && sessions == map[] && order == []
    {
      sessions := map[];
      order := [];
    }

    /** `start_workflow` with the id drawn for it: a fresh running record; an id
        already present keeps its place in the order and loses its old record. */
    method StartWorkflow(id: string)
      requires Valid()
      modifies this
      ensures Valid()
      ensures sessions == old(sessions)[id := FreshRecord]
      ensures order == if id in old(sessions) then old(order) else old(order) + [id]
    {
      if id !in sessions {
        order := order + [id];
      }
      sessions := sessions[id := FreshRecord];
    }

    /** The background `run_phase1`: the updates the master graph streamed up to the
        suspension point, then the exception it raised, if any. Every AI message of a
        `present_checkpoint` update is stored as the checkpoint message; success moves
        to the checkpoint with that message as the Phase 1 output. */
    method RunPhase1(id: string, events: seq<(string, MG.MasterState)>, raised: Option<string>)
      requires Valid() && id in sessions
      modifies this
      ensures Valid() && order == old(order)
      ensures var rec := old(sessions)[id];
        var cm := CheckpointText(events, rec.checkpointMessage);
        sessions == old(sessions)[id :=
          if raised.None? then
            rec.(checkpointMessage := cm, status := Checkpoint, currentPhase := "checkpoint", phase1Output := cm)
          else
            rec.(checkpointMessage := cm, status := Failed, error := Some(raised.value))]
    {
      var cm := sessions[id].checkpointMessage;
      ghost var start := cm;
      var i := 0;
      while i < |events|
        invariant 0 <= i <= |events|
        invariant cm == CheckpointTextBefore(events, i, start)
      {
        var (name, st) := events[i];
        if name == "present_checkpoint" {
          var ms := st.messages;
          var j := 0;
          while j < |ms|
            invariant 0 <= j <= |ms|
            invariant cm == LastAiBefore(ms, j, CheckpointTextBefore(events, i, start))
          {
            if ms[j].role == AI {
              cm := Some(ms[j].content);
            }
            j := j + 1;
          }
        }
        i := i + 1;
      }
      if raised.None? {
        sessions := sessions[id := sessions[id].(checkpointMessage := cm, status := Checkpoint,
                                                 currentPhase := "checkpoint", phase1Output := cm)];
      } else {
        sessions := sessions[id := sessions[id].(checkpointMessage := cm, status := Failed,
                                                 error := Some(raised.value))];
      }
    }

    /** `get_status`: the record, or 404. */
    method GetStatus(id: string) returns (r: Result<SessionRecord, HttpError>)
      ensures id in sessions ==> r == Ok(sessions[id])
      ensures id !in sessions ==> r == Err(NotFound)
    {
      if id !in sessions {
        return Err(NotFound);
      }
      return Ok(sessions[id]);
    }

    /** `resume_workflow`: 404 for an unknown id, 400 unless the session waits at the
        checkpoint, and otherwise back to running in Phase 2. A refused request
        changes nothing. */
    method Resume(id: string, userInput: string) returns (r: Result<string, HttpError>)
      requires Valid()
      modifies this
      ensures Valid() && order == old(order)
      ensures id !in old(sessions) ==> r == Err(NotFound) && sessions == old(sessions)
      ensures id in old(sessions) && old(sessions)[id].status != Checkpoint ==>
        && r == Err(HttpError(400, "Cannot resume: workflow status is '" + StatusName(old(sessions)[id].status) + "'"))
        && sessions == old(sessions)
      ensures id in old(sessions) && old(sessions)[id].status == Checkpoint ==>
        && r == Ok("Resuming workflow with: " + userInput)
        && sessions == old(sessions)[id := old(sessions)[id].(status := Running, currentPhase := "phase2")]
      ensures r.Ok? <==> id in old(sessions) && old(sessions)[id].status == Checkpoint
    {
      if id !in sessions {
        return Err(NotFound);
      }
      if sessions[id].status != Checkpoint {
        return Err(HttpError(400, "Cannot resume: workflow status is '" + StatusName(sessions[id].status) + "'"));
      }
      sessions := sessions[id := sessions[id].(status := Running, currentPhase := "phase2")];
      r := Ok("Resuming workflow with: " + userInput);
    }

    /** The background `run_phase2`: the messages of the final state, or the exception
        the resumed run raised. Success completes the session with the AI messages
        among the last three as the Phase 2 output. */
    method RunPhase2(id: string, outcome: Result<seq<Message>, string>)
      requires Valid() && id in sessions
      modifies this
      ensures Valid() && order == old(order)
      ensures outcome.Ok? ==>
        sessions == old(sessions)[id := old(sessions)[id].(status := Completed, currentPhase := "complete",
                                                           phase2Output := Some(AiTail(LastThree(outcome.value))))]
      ensures outcome.Err? ==>
        sessions == old(sessions)[id := old(sessions)[id].(status := Failed, error := Some(outcome.error))]
    {
      if outcome.Err? {
        sessions := sessions[id := sessions[id].(status := Failed, error := Some(outcome.error))];
        return;
      }
      var text := FinalOutput(outcome.value);
      sessions := sessions[id := sessions[id].(status := Completed, currentPhase := "complete", phase2Output := Some(text))];
      assert sessions.Keys == old(sessions).Keys;
    }

    /** `list_sessions`: each session's id, status and phase, in dict order. */
    method ListSessions() returns (r: seq<(string, Status, string)>)
      requires Valid()
      ensures |r| == |order|
      ensures forall i :: 0 <= i < |r| ==>
        r[i] == (order[i], sessions[order[i]].status, sessions[order[i]].currentPhase)
    {
      r := [];
      var i := 0;
      while i < |order|
        invariant 0 <= i <= |order| && |r| == i
        invariant forall k :: 0 <= k < i ==>
          r[k] == (order[k], sessions[order[k]].status, sessions[order[k]].currentPhase)
      {
        var rec := sessions[order[i]];
        r := r + [(order[i], rec.status, rec.currentPhase)];
        i := i + 1;
      }
    }
  }

  /** Only one of two resumes of the same checkpoint is accepted: the second finds the
      session running and is refused with 400. */
  method ResumeTwice(reg: SessionRegistry, id: string, first: string, second: string)
    returns (r1: Result<string, HttpError>, r2: Result<string, HttpError>)
    requires reg.Valid() && id in reg.sessions && reg.sessions[id].status == Checkpoint
    modifies reg
    ensures r1 == Ok("Resuming workflow with: " + first)
    ensures r2 == Err(HttpError(400, "Cannot resume: workflow status is '" + StatusName(Running) + "'"))
  {
    r1 := reg.Resume(id, first);
    r2 := reg.Resume(id, second);
  }

  /** The checkpoint message the registry records from a master run is the one the
      checkpoint node presented. */
  lemma CheckpointRecorded(trigger: string, replies: M1G.Replies, parse: PyValue.Parser, cur: Option<string>)
    ensures var events := MG.RunToCheckpoint(trigger, replies, parse);
      CheckpointText(events, cur) == Some(MG.CheckpointMessage(events[0].1))
  {
    var events := MG.RunToCheckpoint(trigger, replies, parse);
    MG.CheckpointAlwaysReached(trigger, replies, parse);
  }

  /** The AI messages among the last three, each followed by a blank line, end with
      the last message when it is an AI message: a completed session's Phase 2
      output ends with the master run's final message. */
  lemma Phase2OutputEndsWithFinal(ms: seq<Message>)
    requires |ms| > 0 && ms[|ms| - 1].role == AI
    ensures EndsWith(AiTail(LastThree(ms)), ms[|ms| - 1].content + "\n\n")
  {
    var t := LastThree(ms);
    assert t[|t| - 1] == ms[|ms| - 1];
    AiTailEnds(t, ms[|ms| - 1].content);
  }

  /** The text of a message list whose last message is an AI message ends with that
      message and a blank line. */
  lemma AiTailEnds(t: seq<Message>, c: string)
    requires |t| > 0 && t[|t| - 1] == AIMsg(c)
    ensures EndsWith(AiTail(t), c + "\n\n")
  {
    EndsWithConcat(AiTail(t[..|t| - 1]), c + "\n\n");
  }

  lemma EndsWithConcat(a: string, p: string)
    ensures EndsWith(a + p, p)
  {
    assert (a + p)[|a|..] == p;
  }
}
