/**
 One program's side of the message queue: the calls it makes, and the answers it
 gets in that order. The answers are arbitrary, because other processes use the
 queue in between; beyond the end of the list every call fails, as it does once
 the queue is removed.
 */
module QueuePort {
  import opened CText
  import opened Wire
  import opened Coordination

  datatype Answer = Answer(ok: bool, text: string)

  function Oks(answers: seq<Answer>): (r: seq<bool>)
    ensures |r| == |answers|
  {
    seq(|answers|, i requires 0 <= i < |answers| => answers[i].ok)
  }

  function Rest(answers: seq<Answer>): seq<Answer> {
    if answers == [] then [] else answers[1..]
  }

  function First(answers: seq<Answer>): Answer {
    if answers == [] then Answer(false, "") else answers[0]
  }

  lemma OksOfRest(answers: seq<Answer>)
    ensures Oks(Rest(answers)) == Tail(Oks(answers))
    ensures First(answers).ok == Head(Oks(answers))
  {
  }

  /** No text delivered is longer than the given room. */
  ghost predicate TextsFit(answers: seq<Answer>, room: nat) {
    forall i :: 0 <= i < |answers| ==> |answers[i].text| <= room
  }

  class QueuePort {
    var calls: seq<Call>
    var answers: seq<Answer>

    constructor (answers: seq<Answer>)
      ensures calls == [] && this.answers == answers
    {
      this.calls := [];
      this.answers := answers;
    }

    method SendData(mtype: MessageType, text: string) returns (success: bool)
      modifies this
      ensures calls == old(calls) + [Send(mtype, text)]
      ensures answers == Rest(old(answers))
      ensures success == First(old(answers)).ok
      ensures Oks(answers) == Tail(Oks(old(answers))) && success == Head(Oks(old(answers)))
    {
      OksOfRest(answers);
      success := First(answers).ok;
      calls := calls + [Send(mtype, text)];
      answers := Rest(answers);
    }

    /** On success the text overwrites the front of the caller's buffer; the rest of it stays. */
    method ReceiveData(mtype: MessageType, buffer: array<char>) returns (success: bool, length: nat)
      requires |First(answers).text| <= buffer.Length
      modifies this, buffer
      ensures calls == old(calls) + [Receive(mtype)]
      ensures answers == Rest(old(answers))
      ensures success == First(old(answers)).ok
      ensures success ==> length == |First(old(answers)).text|
      ensures success ==> buffer[..] == Overwrite(old(buffer[..]), First(old(answers)).text)
      ensures !success ==> buffer[..] == old(buffer[..])
      ensures Oks(answers) == Tail(Oks(old(answers))) && success == Head(Oks(old(answers)))
    {
      OksOfRest(answers);
      var answer := First(answers);
      success, length := answer.ok, 0;
      if success {
        length := |answer.text|;
        forall i | 0 <= i < length {
          buffer[i] := answer.text[i];
        }
      }
      calls := calls + [Receive(mtype)];
      answers := Rest(answers);
    }

    /** The destructor of the queue object in the process that removes the queue. */
    method Delete()
      modifies this
      ensures calls == old(calls) + [Remove] && answers == old(answers)
    {
      calls := calls + [Remove];
    }
  }
}
