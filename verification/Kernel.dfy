/**
 The System V message queue that the programs share, as the msgget, msgsnd,
 msgrcv and msgctl pages of IEEE Std 1003.1-2017 describe it. One key names at
 most one queue at a time; removing it makes every later use of its identifier
 fail, and the next msgget on the key makes a new queue with a new identifier.
 */
module Kernel {
  import opened Common
  import opened Wire

  datatype Message = Message(mtype: MessageType, mtext: string)

  /**
   `generation` is the identifier most recently issued for the key, and `queue` the
   messages waiting under it, or None once it is removed. `sent` and `taken` are
   history: what was put into and taken out of the current generation.
   */
  datatype Kernel = Kernel(generation: nat, queue: Option<seq<Message>>, sent: seq<Message>, taken: seq<Message>)

  const BOOTED := Kernel(0, None, [], [])

  predicate Exists(k: Kernel, id: nat) {
    k.queue.Some? && k.generation == id
  }

  /** msgget with IPC_CREAT: the existing queue, or a new empty one. */
  function MsgGet(k: Kernel): (r: (Kernel, nat))
    ensures Exists(r.0, r.1) && r.1 == r.0.generation
    ensures k.queue.Some? ==> r.0 == k
    ensures k.queue.None? ==> r.1 > k.generation && r.0.queue == Some([]) && r.0.sent == r.0.taken == []
  {
    if k.queue.Some? then (k, k.generation)
    else (Kernel(k.generation + 1, Some([]), [], []), k.generation + 1)
  }

  /** msgsnd: appends the message, or fails because the identifier is gone. */
  function MsgSnd(k: Kernel, id: nat, m: Message): (r: (Kernel, bool))
    ensures r.1 <==> Exists(k, id)
    ensures !r.1 ==> r.0 == k
  {
    if Exists(k, id) then (k.(queue := Some(k.queue.value + [m]), sent := k.sent + [m]), true)
    else (k, false)
  }

  /** Where the first message of a type waits; the length when there is none. */
  function FirstOf(messages: seq<Message>, mtype: MessageType): (i: nat)
    ensures i <= |messages|
    ensures i < |messages| ==> messages[i].mtype == mtype
    ensures forall j :: 0 <= j < i ==> messages[j].mtype != mtype
  {
    if messages == [] || messages[0].mtype == mtype then 0 else 1 + FirstOf(messages[1..], mtype)
  }

  function Without(messages: seq<Message>, i: nat): (r: seq<Message>)
    requires i < |messages|
    ensures |r| == |messages| - 1
  {
    messages[..i] + messages[i + 1..]
  }

  datatype Receipt = Received(mtext: string) | Failed | Blocked

  /**
   msgrcv without flags: the first message of the type; blocked while there is
   none; failing when the queue is gone or the text is larger than the room
   offered, in which case the message stays.
   */
  function MsgRcv(k: Kernel, id: nat, mtype: MessageType, room: nat): (r: (Kernel, Receipt))
    ensures !r.1.Received? ==> r.0 == k
    ensures r.1.Received? ==> |r.1.mtext| <= room
    ensures !Exists(k, id) ==> r.1.Failed?
  {
    if !Exists(k, id) then (k, Failed)
    else
      var messages := k.queue.value;
      var i := FirstOf(messages, mtype);
      if i == |messages| then (k, Blocked)
      else if |messages[i].mtext| > room then (k, Failed)
      else (k.(queue := Some(Without(messages, i)), taken := k.taken + [messages[i]]),
            Received(messages[i].mtext))
  }

  /** msgctl with IPC_RMID. */
  function MsgRmid(k: Kernel, id: nat): (r: Kernel)
    ensures !Exists(r, id)
    ensures r.generation == k.generation
  {
    if Exists(k, id) then k.(queue := None) else k
  }

  predicate IsFirst(messages: seq<Message>, i: nat, mtype: MessageType) {
    && i < |messages| && messages[i].mtype == mtype
    && forall j :: 0 <= j < i ==> messages[j].mtype != mtype
  }

  /**
   Which message a receive takes, without reference to how it is found: the first of its type
   if that fits, and nothing otherwise; it waits only while the queue exists and holds none.
   */
  lemma ReceivesTheFirst(k: Kernel, id: nat, mtype: MessageType, room: nat, i: nat)
    requires k.queue.Some? && IsFirst(k.queue.value, i, mtype)
    ensures var (k', r) := MsgRcv(k, id, mtype, room);
            var m := k.queue.value[i];
            if Exists(k, id) && |m.mtext| <= room then
              && r == Received(m.mtext)
              && k' == Kernel(k.generation, Some(k.queue.value[..i] + k.queue.value[i + 1..]), k.sent, k.taken + [m])
            else
              r.Failed? && k' == k
  {
  }

  lemma WaitsForItsType(k: Kernel, id: nat, mtype: MessageType, room: nat)
    ensures MsgRcv(k, id, mtype, room).1.Blocked? <==>
      Exists(k, id) && forall j :: 0 <= j < |k.queue.value| ==> k.queue.value[j].mtype != mtype
  {
  }

  // --------------------------------------------------------- conservation

  /** The messages of one type, in order. */
  function OfType(messages: seq<Message>, mtype: MessageType): (r: seq<Message>)
    ensures forall i :: 0 <= i < |r| ==> r[i].mtype == mtype
  {
    if messages == [] then []
    else (if messages[0].mtype == mtype then [messages[0]] else []) + OfType(messages[1..], mtype)
  }

  /** Per type, what was sent is what was taken followed by what still waits, in the same order. */
  ghost predicate Conserved(k: Kernel) {
    k.queue.Some? ==> forall mtype: MessageType ::
      OfType(k.sent, mtype) == OfType(k.taken, mtype) + OfType(k.queue.value, mtype)
  }

  lemma {:induction false} OfTypeConcat(a: seq<Message>, b: seq<Message>, mtype: MessageType)
    ensures OfType(a + b, mtype) == OfType(a, mtype) + OfType(b, mtype)
  {
    if a == [] {
      assert a + b == b;
    } else {
      assert (a + b)[1..] == a[1..] + b;
      OfTypeConcat(a[1..], b, mtype);
    }
  }

  lemma {:induction false} OfTypeNone(messages: seq<Message>, mtype: MessageType)
    requires forall j :: 0 <= j < |messages| ==> messages[j].mtype != mtype
    ensures OfType(messages, mtype) == []
  {
    if messages != [] {
      OfTypeNone(messages[1..], mtype);
    }
  }

  lemma OfTypeThree(a: seq<Message>, m: Message, b: seq<Message>, mtype: MessageType)
    ensures OfType(a + [m] + b, mtype) == OfType(a, mtype) + OfType([m], mtype) + OfType(b, mtype)
  {
    OfTypeConcat(a + [m], b, mtype);
    OfTypeConcat(a, [m], mtype);
  }

  lemma OneSideEmpty(a: seq<Message>, o: seq<Message>, b: seq<Message>)
    requires a == [] || o == []
    ensures a + o + b == o + (a + b)
  {
    if a == [] {
      assert a + o == o && a + b == b;
    } else {
      assert a + o == a && o + (a + b) == a + b;
    }
  }

  /** Taking the first message of a type leaves every type's order intact. */
  lemma TakingFirst(messages: seq<Message>, wanted: MessageType, mtype: MessageType)
    requires FirstOf(messages, wanted) < |messages|
    ensures var i := FirstOf(messages, wanted);
            OfType(messages, mtype) == OfType([messages[i]], mtype) + OfType(Without(messages, i), mtype)
  {
    var i := FirstOf(messages, wanted);
    var before, m, after := messages[..i], messages[i], messages[i + 1..];
    assert messages == before + [m] + after;
    OfTypeThree(before, m, after, mtype);
    OfTypeConcat(before, after, mtype);
    assert OfType(before, mtype) == [] || OfType([m], mtype) == [] by {
      if mtype == wanted {
        OfTypeNone(before, mtype);
      } else {
        OfTypeNone([m], mtype);
      }
    }
    OneSideEmpty(OfType(before, mtype), OfType([m], mtype), OfType(after, mtype));
  }

  lemma SendConserves(k: Kernel, id: nat, m: Message)
    requires Conserved(k)
    ensures Conserved(MsgSnd(k, id, m).0)
  {
    if Exists(k, id) {
      forall mtype: MessageType
        ensures OfType(k.sent + [m], mtype) == OfType(k.taken, mtype) + OfType(k.queue.value + [m], mtype)
      {
        OfTypeConcat(k.sent, [m], mtype);
        OfTypeConcat(k.queue.value, [m], mtype);
      }
    }
  }

  lemma TakeConserves(sent: seq<Message>, taken: seq<Message>, messages: seq<Message>, wanted: MessageType, mtype: MessageType)
    requires OfType(sent, mtype) == OfType(taken, mtype) + OfType(messages, mtype)
    requires FirstOf(messages, wanted) < |messages|
    ensures var i := FirstOf(messages, wanted);
            OfType(sent, mtype) == OfType(taken + [messages[i]], mtype) + OfType(Without(messages, i), mtype)
  {
    TakingFirst(messages, wanted, mtype);
    OfTypeConcat(taken, [messages[FirstOf(messages, wanted)]], mtype);
  }

  lemma ReceiveConserves(k: Kernel, id: nat, wanted: MessageType, room: nat)
    requires Conserved(k)
    ensures Conserved(MsgRcv(k, id, wanted, room).0)
  {
    if MsgRcv(k, id, wanted, room).1.Received? {
      forall mtype: MessageType {
        TakeConserves(k.sent, k.taken, k.queue.value, wanted, mtype);
      }
    }
  }

  /** Each kernel operation keeps, per type, the order and number of messages. */
  lemma OperationsConserve(k: Kernel, id: nat, m: Message, room: nat)
    requires Conserved(k)
    ensures Conserved(MsgGet(k).0)
    ensures Conserved(MsgSnd(k, id, m).0)
    ensures Conserved(MsgRcv(k, id, m.mtype, room).0)
    ensures Conserved(MsgRmid(k, id))
  {
    SendConserves(k, id, m);
    ReceiveConserves(k, id, m.mtype, room);
  }
}
