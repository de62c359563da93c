/** Recorded Forge handshakes, and the session that plays one back to a client. */
module ForgeReplay {
  import opened Prelude
  import opened Texts

  datatype Step = Step(channel: Text, payload: seq<byte>)

  // ---- Channels ---------------------------------------------------------------------------------

  const COLON: byte := 0x3A

  datatype Identifier = Identifier(namespace: seq<byte>, thing: seq<byte>) {
    function Shown(): seq<byte> { namespace + [COLON] + thing }
  }

  // The parts before and after the first colon.
  function SplitOnce(s: seq<byte>): Option<Identifier> {
    if s == [] then None
    else if s[0] == COLON then Some(Identifier([], s[1..]))
    else match SplitOnce(s[1..])
      case None => None
      case Some(id) => Some(Identifier([s[0]] + id.namespace, id.thing))
  }

  // fml:handshake
  const PLACEHOLDER := Identifier([0x66, 0x6D, 0x6C], [0x68, 0x61, 0x6E, 0x64, 0x73, 0x68, 0x61, 0x6B, 0x65])

  function ParseChannel(channel: seq<byte>): Identifier {
    match SplitOnce(channel) case Some(id) => id case None => PLACEHOLDER
  }

  lemma {:induction false} SplitOnceIsShown(s: seq<byte>)
    ensures SplitOnce(s).Some? <==> COLON in s
    ensures SplitOnce(s).Some? ==> SplitOnce(s).value.Shown() == s && COLON !in SplitOnce(s).value.namespace
  {
    if s == [] || s[0] == COLON {
    } else {
      SplitOnceIsShown(s[1..]);
      assert s == [s[0]] + s[1..];
    }
  }

  // The channel the client sees is the recorded one exactly when that holds a colon (0x3A); else it is fml:handshake.
  lemma ChannelIsKept(channel: seq<byte>)
    ensures ParseChannel(channel).Shown() == channel <==> COLON in channel
    ensures ParseChannel(channel).Shown() ==
              if 0x3A in channel then channel
              else [0x66, 0x6D, 0x6C, 0x3A, 0x68, 0x61, 0x6E, 0x64, 0x73, 0x68, 0x61, 0x6B, 0x65]
  {
    SplitOnceIsShown(channel);
    if COLON !in channel {
      assert PLACEHOLDER.Shown()[3] == COLON;
    }
  }

  // What every channel is replayed as.
  function ShownChannel(channel: seq<byte>): seq<byte> { ParseChannel(channel).Shown() }

  // ---- The session ------------------------------------------------------------------------------

  datatype Session = Session(nextStep: nat, nextId: int, pending: map<int, nat>) {
    // Mints an id for the next step; nothing is left to mint for once all steps are out.
    function Take(steps: seq<Step>): (Session, Option<(int, Step)>) {
      if nextStep >= |steps| then (this, None)
      else (Session(nextStep + 1, nextId + 1, pending[nextId + 1 := nextStep]), Some((nextId + 1, steps[nextStep])))
    }

    function Consume(id: int): (Session, Option<nat>) {
      (this.(pending := pending - {id}), if id in pending then Some(pending[id]) else None)
    }

    predicate IsComplete(steps: seq<Step>) { nextStep >= |steps| && pending == map[] }

    // Steps 0..k are out under ids 1..k, and only the last may await its answer.
    predicate Reached(k: nat, awaiting: bool) {
      nextStep == k && nextId == k && pending == if awaiting then map[k := k - 1] else map[]
    }
  }

  // Once its request is answered, a session has nothing more to take exactly when it is complete.
  lemma AnsweredThenComplete(s: Session, k: nat, steps: seq<Step>)
    requires k > 0 && s.Reached(k, true)
    ensures s.Consume(k).0.Reached(k, false) && s.Consume(k).1 == Some(k - 1)
    ensures forall id :: id != k ==> s.Consume(id) == (s, None)
    ensures s.Consume(k).0.Take(steps).1 == None <==> s.Consume(k).0.IsComplete(steps)
    ensures k < |steps| ==> s.Consume(k).0.Take(steps).0.Reached(k + 1, true)
  {
    assert s.pending - {k} == map[];
    forall id | id != k
      ensures s.Consume(id) == (s, None)
    {
      assert s.pending - {id} == s.pending;
    }
  }

  class Fml2ReplaySession {
    var nextStep: nat
    var nextMessageId: int
    var pending: map<int, nat>

    function View(): Session
      reads this
    {
      Session(nextStep, nextMessageId, pending)
    }

    constructor ()
      ensures View() == Session(0, 0, map[])
    {
      nextStep, nextMessageId, pending := 0, 0, map[];
    }

    predicate IsComplete(steps: seq<Step>): (complete: bool)
      reads this
      ensures complete <==> View().IsComplete(steps)
    {
      nextStep >= |steps| && |pending| == 0
    }

    method TakeNextStep(steps: seq<Step>) returns (next: Option<(int, Step)>)
      modifies this
      ensures (View(), next) == old(View()).Take(steps)
    {
      if nextStep >= |steps| {
        return None;
      }
      var stepIndex := nextStep;
      nextMessageId := nextMessageId + 1;
      pending := pending[nextMessageId := stepIndex];
      nextStep := nextStep + 1;
      next := Some((nextMessageId, steps[stepIndex]));
    }

    method ConsumeResponse(messageId: int) returns (stepIndex: Option<nat>)
      modifies this
      ensures (View(), stepIndex) == old(View()).Consume(messageId)
    {
      stepIndex := if messageId in pending then Some(pending[messageId]) else None;
      pending := pending - {messageId};
    }
  }
}
