/**
 * The coordinator agent's decision logic: how one streamed state of the
 * orchestration graph becomes a progress event, and how the structured
 * response stored at the end of a turn becomes the final event. The graph,
 * the hosted model and the checkpoint store are not modelled: the streamed
 * states (each given by its last message) and the stored structured
 * response are inputs.
 */
module Coordinator {
  import opened Wrappers

  /** The status a structured response may carry. */
  datatype Status = InputRequired | Completed | Error

  /** The structured response the model is asked to produce; the status defaults to InputRequired. */
  datatype ResponseFormat = ResponseFormat(status: Status := InputRequired, message: string)

  /** An event handed to the caller of the stream. */
  datatype Event = Event(isTaskComplete: bool, requireUserInput: bool, content: string)

  /** One tool call requested by the model; `name` is None when the call has no name key. */
  datatype ToolCall = ToolCall(name: Option<string>)

  /** The last message of a streamed state. */
  datatype Message =
    | AIMessage(toolCalls: seq<ToolCall>)
    | ToolMessage
    | OtherMessage

  const UnableToProcess: string :=
    "We are unable to process your request at the moment. Please try again."
  const DelegatingPrefix: string := "Delegating to: "
  const DelegatingSuffix: string := "..."
  const NameSeparator: string := ", "
  const UnknownName: string := "unknown"
  const ProcessingResults: string := "Processing the results from agents..."

  // ---------------------------------------------------------------------
  // Final response
  // ---------------------------------------------------------------------

  /**
   * The final event of a turn, from the structured response found in the
   * checkpointed state. None stands for a state without one, or holding
   * something other than a ResponseFormat.
   */
  function FinalResponse(stored: Option<ResponseFormat>): (e: Event)
    ensures e.isTaskComplete <==> stored.Some? && stored.value.status == Completed
    ensures e.requireUserInput <==> !e.isTaskComplete
    ensures stored.Some? ==> e.content == stored.value.message
    ensures stored.None? ==> e.content == UnableToProcess
  {
    match stored
    case Some(response) =>
      (match response.status
       case InputRequired => Event(false, true, response.message)
       case Error => Event(false, true, response.message)
       case Completed => Event(true, false, response.message))
    case None => Event(false, true, UnableToProcess)
  }

  /** A response built without an explicit status asks the user for more input. */
  lemma DefaultStatusRequiresInput(message: string)
    ensures ResponseFormat(message := message).status == InputRequired
    ensures FinalResponse(Some(ResponseFormat(message := message))) == Event(false, true, message)
  {
  }

  // ---------------------------------------------------------------------
  // Delegation text
  // ---------------------------------------------------------------------

  /** The name shown for one tool call. */
  function DisplayName(call: ToolCall): (shown: string)
    ensures call.name.Some? ==> shown == call.name.value
    ensures call.name.None? ==> shown == UnknownName
  {
    match call.name
    case Some(n) => n
    case None => UnknownName
  }

  /** The names of the requested tool calls, in the order the model requested them. */
  function ToolNames(calls: seq<ToolCall>): (names: seq<string>)
    ensures |names| == |calls|
    ensures forall i :: 0 <= i < |calls| ==>
              names[i] == (if calls[i].name.Some? then calls[i].name.value else UnknownName)
  {
    if calls == [] then [] else [DisplayName(calls[0])] + ToolNames(calls[1..])
  }

  /** `sep.join(parts)`: the parts in order with `sep` between neighbours. */
  function Join(parts: seq<string>, sep: string): (joined: string)
    ensures parts == [] ==> joined == ""
    ensures |parts| == 1 ==> joined == parts[0]
  {
    if |parts| == 0 then ""
    else if |parts| == 1 then parts[0]
    else parts[0] + sep + Join(parts[1..], sep)
  }

  /** Where part `i` starts in `Join(parts, sep)`. */
  function Offset(parts: seq<string>, sep: string, i: nat): nat
    requires i <= |parts|
  {
    if i == 0 then 0 else Offset(parts, sep, i - 1) + |parts[i - 1]| + |sep|
  }

  /** Offsets of a suffix shift by the length of the first part and one separator. */
  lemma {:induction false} OffsetOfTail(parts: seq<string>, sep: string, i: nat)
    requires 0 < |parts| && i < |parts|
    ensures Offset(parts, sep, i + 1) == |parts[0]| + |sep| + Offset(parts[1..], sep, i)
  {
    if i > 0 {
      OffsetOfTail(parts, sep, i - 1);
    }
  }

  /** A slice lying wholly in the right operand of a concatenation. */
  lemma SliceOfRight<T>(left: seq<T>, right: seq<T>, lo: nat, hi: nat)
    requires |left| <= lo <= hi <= |left| + |right|
    ensures (left + right)[lo..hi] == right[lo - |left|..hi - |left|]
  {
  }

  /** A slice lying wholly in the middle operand of a three-way concatenation. */
  lemma SliceOfMiddle<T>(left: seq<T>, middle: seq<T>, right: seq<T>, lo: nat, hi: nat)
    requires lo <= hi <= |middle|
    ensures |left| + hi <= |left + middle + right|
    ensures (left + middle + right)[|left| + lo..|left| + hi] == middle[lo..hi]
  {
  }

  /** The joined text ends with the last part. */
  lemma {:induction false} JoinLength(parts: seq<string>, sep: string)
    requires |parts| > 0
    ensures |Join(parts, sep)| == Offset(parts, sep, |parts| - 1) + |parts[|parts| - 1]|
  {
    if |parts| > 1 {
      var rest := parts[1..];
      assert Join(parts, sep) == parts[0] + sep + Join(rest, sep);
      JoinLength(rest, sep);
      OffsetOfTail(parts, sep, |parts| - 2);
      assert rest[|rest| - 1] == parts[|parts| - 1];
    }
  }

  /** Part `i` of the joined text sits at its offset. */
  lemma {:induction false} JoinPart(parts: seq<string>, sep: string, i: nat)
    requires i < |parts|
    ensures Offset(parts, sep, i) + |parts[i]| <= |Join(parts, sep)|
    ensures Join(parts, sep)[Offset(parts, sep, i)..Offset(parts, sep, i) + |parts[i]|] == parts[i]
  {
    if |parts| > 1 {
      var rest := parts[1..];
      var head := parts[0] + sep;
      assert Join(parts, sep) == head + Join(rest, sep);
      if i == 0 {
        JoinLength(parts, sep);
        OffsetGrows(parts, sep, 0, |parts| - 1);
        assert (head + Join(rest, sep))[..|parts[0]|] == parts[0];
      } else {
        JoinPart(rest, sep, i - 1);
        OffsetOfTail(parts, sep, i - 1);
        assert rest[i - 1] == parts[i];
        SliceOfRight(head, Join(rest, sep), Offset(parts, sep, i), Offset(parts, sep, i) + |parts[i]|);
      }
    }
  }

  /** Exactly one separator lies between part `i` and part `i + 1`. */
  lemma {:induction false} JoinSeparator(parts: seq<string>, sep: string, i: nat)
    requires i + 1 < |parts|
    ensures Offset(parts, sep, i + 1) <= |Join(parts, sep)|
    ensures Join(parts, sep)[Offset(parts, sep, i) + |parts[i]|..Offset(parts, sep, i + 1)] == sep
  {
    var rest := parts[1..];
    var head := parts[0] + sep;
    assert Join(parts, sep) == head + Join(rest, sep);
    if i == 0 {
      assert Offset(parts, sep, 1) == |head|;
      SliceOfMiddle(parts[0], sep, Join(rest, sep), 0, |sep|);
    } else {
      JoinSeparator(rest, sep, i - 1);
      OffsetOfTail(parts, sep, i - 1);
      OffsetOfTail(parts, sep, i);
      assert rest[i - 1] == parts[i];
      SliceOfRight(head, Join(rest, sep), Offset(parts, sep, i) + |parts[i]|, Offset(parts, sep, i + 1));
    }
  }

  /** The content of the event announcing a delegation. */
  function DelegationText(calls: seq<ToolCall>): (text: string)
    ensures |text| == |DelegatingPrefix| + |Join(ToolNames(calls), NameSeparator)| + |DelegatingSuffix|
    ensures text[..|DelegatingPrefix|] == DelegatingPrefix
    ensures text[|text| - |DelegatingSuffix|..] == DelegatingSuffix
  {
    DelegatingPrefix + Join(ToolNames(calls), NameSeparator) + DelegatingSuffix
  }

  /**
   * The delegation text names every requested tool, in request order:
   * the `i`-th call's display name (`unknown` for a call without a name)
   * starts right after the prefix and the names and separators before it.
   */
  lemma {:induction false} DelegationListsCallsInOrder(calls: seq<ToolCall>, i: nat)
    requires i < |calls|
    ensures |DelegatingPrefix| + Offset(ToolNames(calls), NameSeparator, i) + |ToolNames(calls)[i]|
            <= |DelegationText(calls)|
    ensures DelegationText(calls)[|DelegatingPrefix| + Offset(ToolNames(calls), NameSeparator, i)..
                                  |DelegatingPrefix| + Offset(ToolNames(calls), NameSeparator, i)
                                  + |ToolNames(calls)[i]|]
            == ToolNames(calls)[i]
  {
    FramedJoinPart(DelegatingPrefix, ToolNames(calls), NameSeparator, DelegatingSuffix, i);
  }

  /** Part `i` of a joined text keeps its place when the text is framed by a prefix and a suffix. */
  lemma FramedJoinPart(prefix: string, parts: seq<string>, sep: string, suffix: string, i: nat)
    requires i < |parts|
    ensures |prefix| + Offset(parts, sep, i) + |parts[i]| <= |prefix + Join(parts, sep) + suffix|
    ensures (prefix + Join(parts, sep) + suffix)[|prefix| + Offset(parts, sep, i)..
                                                |prefix| + Offset(parts, sep, i) + |parts[i]|]
            == parts[i]
  {
    JoinPart(parts, sep, i);
    var lo := Offset(parts, sep, i);
    SliceOfMiddle(prefix, Join(parts, sep), suffix, lo, lo + |parts[i]|);
  }

  /** Offsets never decrease along the parts. */
  lemma {:induction false} OffsetGrows(parts: seq<string>, sep: string, i: nat, j: nat)
    requires i <= j <= |parts|
    ensures Offset(parts, sep, i) + (if i < j then |parts[i]| else 0) <= Offset(parts, sep, j)
  {
    if i < j {
      OffsetGrows(parts, sep, i, j - 1);
    }
  }

  // ---------------------------------------------------------------------
  // Stream translation
  // ---------------------------------------------------------------------

  /** Whether the last message of a state announces progress. */
  predicate Announces(m: Message)
  {
    (m.AIMessage? && |m.toolCalls| > 0) || m.ToolMessage?
  }

  /** The progress event one streamed state yields, if any. */
  function Progress(m: Message): (p: Option<Event>)
    ensures p.Some? <==> Announces(m)
    ensures p.Some? ==> !p.value.isTaskComplete && !p.value.requireUserInput
    ensures p.Some? && m.AIMessage? ==> p.value.content == DelegationText(m.toolCalls)
    ensures p.Some? && m.ToolMessage? ==> p.value.content == ProcessingResults
  {
    if m.AIMessage? && |m.toolCalls| > 0 then
      Some(Event(false, false, DelegationText(m.toolCalls)))
    else if m.ToolMessage? then
      Some(Event(false, false, ProcessingResults))
    else
      None
  }

  /** The progress event of one state as a sequence of zero or one events. */
  function Emitted(m: Message): (out: seq<Event>)
    ensures |out| <= 1
  {
    match Progress(m)
    case Some(e) => [e]
    case None => []
  }

  /** The progress events for the states streamed so far, in order. */
  function ProgressEvents(states: seq<Message>): (events: seq<Event>)
    ensures |events| <= |states|
  {
    if states == [] then []
    else ProgressEvents(states[..|states| - 1]) + Emitted(states[|states| - 1])
  }

  /** How many of the states announce progress. */
  function CountAnnouncing(states: seq<Message>): nat
  {
    if states == [] then 0
    else CountAnnouncing(states[..|states| - 1]) + (if Announces(states[|states| - 1]) then 1 else 0)
  }

  /** Every event the stream yields: the progress events, then the final event. */
  function StreamEvents(states: seq<Message>, stored: Option<ResponseFormat>): (events: seq<Event>)
    ensures 1 <= |events| <= |states| + 1
    ensures events[|events| - 1] == FinalResponse(stored)
  {
    ProgressEvents(states) + [FinalResponse(stored)]
  }

  /**
   * The translation loop: one pass over the streamed states, appending at
   * most one progress event per state, then the final event.
   */
  method Stream(states: seq<Message>, stored: Option<ResponseFormat>) returns (events: seq<Event>)
    ensures events == StreamEvents(states, stored)
  {
    events := [];
    var i := 0;
    while i < |states|
      invariant 0 <= i <= |states|
      invariant events == ProgressEvents(states[..i])
    {
      var message := states[i];
      assert states[..i + 1][..i] == states[..i];
      if message.AIMessage? && |message.toolCalls| > 0 {
        var toolNames := ToolNames(message.toolCalls);
        var content := DelegatingPrefix + Join(toolNames, NameSeparator) + DelegatingSuffix;
        events := events + [Event(false, false, content)];
      } else if message.ToolMessage? {
        events := events + [Event(false, false, ProcessingResults)];
      }
      i := i + 1;
    }
    assert states[..i] == states;
    events := events + [FinalResponse(stored)];
  }

  /**
   * Streaming is compositional: the events for a concatenation of state
   * sequences are the events for the first followed by those for the
   * second, so each state contributes its own at most one event in place.
   */
  lemma {:induction false} ProgressEventsAppend(first: seq<Message>, second: seq<Message>)
    ensures ProgressEvents(first + second) == ProgressEvents(first) + ProgressEvents(second)
  {
    if second == [] {
      assert first + second == first;
    } else {
      var n := |second| - 1;
      assert (first + second)[..|first + second| - 1] == first + second[..n];
      assert (first + second)[|first + second| - 1] == second[n];
      ProgressEventsAppend(first, second[..n]);
    }
  }

  /**
   * The progress events are exactly one per announcing state, and none of
   * them completes the task or asks the user for input.
   */
  lemma {:induction false} ProgressEventsAreTransient(states: seq<Message>)
    ensures |ProgressEvents(states)| == CountAnnouncing(states) <= |states|
    ensures forall e :: e in ProgressEvents(states) ==> !e.isTaskComplete && !e.requireUserInput
  {
    if states != [] {
      ProgressEventsAreTransient(states[..|states| - 1]);
    }
  }

  /**
   * A stream ends in the final event, which alone may complete the task;
   * it has exactly one more event than there are announcing states.
   */
  lemma OnlyLastEventCompletes(states: seq<Message>, stored: Option<ResponseFormat>)
    ensures var events := StreamEvents(states, stored);
            |events| == CountAnnouncing(states) + 1 &&
            events[|events| - 1] == FinalResponse(stored) &&
            (forall i :: 0 <= i < |events| - 1 ==> !events[i].isTaskComplete && !events[i].requireUserInput)
  {
    ProgressEventsAreTransient(states);
    var events := StreamEvents(states, stored);
    forall i | 0 <= i < |events| - 1
      ensures !events[i].isTaskComplete && !events[i].requireUserInput
    {
      assert events[i] in ProgressEvents(states);
    }
  }

  /**
   * A turn in which the model neither calls a tool nor receives a tool
   * result yields the final event and nothing else.
   */
  lemma {:induction false} NoToolsMeansFinalOnly(states: seq<Message>, stored: Option<ResponseFormat>)
    requires forall i :: 0 <= i < |states| ==> !Announces(states[i])
    ensures StreamEvents(states, stored) == [FinalResponse(stored)]
  {
    if states != [] {
      NoToolsMeansFinalOnly(states[..|states| - 1], stored);
    }
  }
}
