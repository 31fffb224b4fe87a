/** Specification of the tool-call loop of the message handler: which calls are acknowledged and
    which arguments end up as the ticket. */
module ToolCalls {
  import opened SessionTypes
  import opened TicketSchema

  /** One invocation in a message's tool-call section. */
  datatype FunctionCall = FunctionCall(id: string, name: string, args: Args)

  /** The response sent back for an invocation. */
  datatype FunctionResponse = FunctionResponse(id: string, name: string, result: string)

  /** The fixed result text of every acknowledgement. */
  const AckResult: string := "Ticket guardado exitosamente."

  predicate IsSaveTicket(fc: FunctionCall) {
    fc.name == SaveTicketName
  }

  /** The acknowledgement of one invocation: same id and name, fixed result. */
  function Acknowledge(fc: FunctionCall): FunctionResponse {
    FunctionResponse(fc.id, fc.name, AckResult)
  }

  /** The `saveSupportTicket` invocations among `calls`, in order. */
  function SaveCalls(calls: seq<FunctionCall>): (saves: seq<FunctionCall>)
    ensures |saves| <= |calls|
    ensures forall fc :: fc in saves <==> fc in calls && IsSaveTicket(fc)
  {
    if calls == [] then []
    else
      var init, last := calls[..|calls| - 1], calls[|calls| - 1];
      assert calls == init + [last];
      SaveCalls(init) + (if IsSaveTicket(last) then [last] else [])
  }

  /** The responses sent while looping over `calls`, one step per call. */
  function Acknowledgements(calls: seq<FunctionCall>): seq<FunctionResponse> {
    if calls == [] then []
    else
      var last := calls[|calls| - 1];
      Acknowledgements(calls[..|calls| - 1]) + (if IsSaveTicket(last) then [Acknowledge(last)] else [])
  }

  /** The ticket after looping over `calls`, starting from `ticket`. */
  function FinalTicket(ticket: Option<Args>, calls: seq<FunctionCall>): Option<Args> {
    if calls == [] then ticket
    else
      var last := calls[|calls| - 1];
      if IsSaveTicket(last) then Some(last.args) else FinalTicket(ticket, calls[..|calls| - 1])
  }

  /** Exactly one acknowledgement per `saveSupportTicket` invocation, in the same order, carrying that
      invocation's id and name. */
  lemma {:induction false} AcknowledgementsCorrespond(calls: seq<FunctionCall>)
    ensures |Acknowledgements(calls)| == |SaveCalls(calls)|
    ensures forall j :: 0 <= j < |SaveCalls(calls)| ==>
              Acknowledgements(calls)[j] == FunctionResponse(SaveCalls(calls)[j].id, SaveTicketName, AckResult)
  {
    if calls != [] {
      AcknowledgementsCorrespond(calls[..|calls| - 1]);
    }
  }

  lemma {:induction false} SaveCallsAppend(a: seq<FunctionCall>, b: seq<FunctionCall>)
    ensures SaveCalls(a + b) == SaveCalls(a) + SaveCalls(b)
  {
    if b != [] {
      var b' := b[..|b| - 1];
      assert (a + b)[..|a + b| - 1] == a + b';
      SaveCallsAppend(a, b');
    } else {
      assert a + b == a;
    }
  }

  /** Invocations are processed independently: the responses to a concatenation are the responses
      to each part, in order. */
  lemma {:induction false} AcknowledgementsAppend(a: seq<FunctionCall>, b: seq<FunctionCall>)
    ensures Acknowledgements(a + b) == Acknowledgements(a) + Acknowledgements(b)
  {
    if b != [] {
      var b' := b[..|b| - 1];
      assert (a + b)[..|a + b| - 1] == a + b';
      AcknowledgementsAppend(a, b');
    } else {
      assert a + b == a;
    }
  }

  /** A message without `saveSupportTicket` invocations sends nothing and leaves the ticket as it was. */
  lemma {:induction false} OtherCallsIgnored(ticket: Option<Args>, calls: seq<FunctionCall>)
    requires forall i :: 0 <= i < |calls| ==> !IsSaveTicket(calls[i])
    ensures Acknowledgements(calls) == []
    ensures FinalTicket(ticket, calls) == ticket
  {
    if calls != [] {
      OtherCallsIgnored(ticket, calls[..|calls| - 1]);
    }
  }

  /** The final ticket is the arguments of the last `saveSupportTicket` invocation. */
  lemma {:induction false} FinalTicketIsLastSave(ticket: Option<Args>, calls: seq<FunctionCall>, k: nat)
    requires k < |calls| && IsSaveTicket(calls[k])
    requires forall j :: k < j < |calls| ==> !IsSaveTicket(calls[j])
    ensures FinalTicket(ticket, calls) == Some(calls[k].args)
  {
    if k < |calls| - 1 {
      FinalTicketIsLastSave(ticket, calls[..|calls| - 1], k);
    }
  }

  /** The arguments are stored unchecked: an invocation with no arguments at all still becomes the
      ticket and is acknowledged, although it cannot be read as a typed ticket. */
  lemma ArgumentsNotValidated(id: string)
    ensures FinalTicket(None, [FunctionCall(id, SaveTicketName, map[])]) == Some(map[])
    ensures Acknowledgements([FunctionCall(id, SaveTicketName, map[])]) == [FunctionResponse(id, SaveTicketName, AckResult)]
    ensures AsTicket(map[]) == None
  {
    assert "nombre" in TicketFields;
  }
}
