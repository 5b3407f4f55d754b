/** src/IpcMessageQueue.cc: one process's object for the shared message queue. */
module IpcMessageQueue {
  import opened CText
  import opened Wire
  import opened Kernel

  /** The operating system's state, which every process reaches through its system calls. */
  class SharedKernel {
    var k: Kernel

    constructor ()
      ensures k == BOOTED
    {
      k := BOOTED;
    }
  }

  class IpcMessageQueue {
    const kernel: SharedKernel
    var queueIdentifier: nat
    var removeQueueInDestructor: bool
    var sendType: MessageType            // sendBuffer.mtype
    const sendBuffer: array<char>        // sendBuffer.mtext
    const receiveBuffer: array<char>     // receiveBuffer.mtext

    predicate Valid() {
      && sendBuffer.Length == MESSAGE_TEXT_SIZE && receiveBuffer.Length == MESSAGE_TEXT_SIZE
      && sendBuffer != receiveBuffer
    }

    /** Opens the queue, creating it if the key has none. */
    constructor (kernel: SharedKernel, removeQueueInDestructor: bool)
      modifies kernel
      ensures Valid() && fresh(sendBuffer) && fresh(receiveBuffer)
      ensures this.kernel == kernel && this.removeQueueInDestructor == removeQueueInDestructor
      ensures (kernel.k, queueIdentifier) == MsgGet(old(kernel.k))
    {
      var (k, id) := MsgGet(kernel.k);
      this.kernel := kernel;
      this.removeQueueInDestructor := removeQueueInDestructor;
      this.sendType := RadioServerTypeCmd;
      this.sendBuffer := new char[MESSAGE_TEXT_SIZE];
      this.receiveBuffer := new char[MESSAGE_TEXT_SIZE];
      this.queueIdentifier := id;
      new;
      kernel.k := k;
    }

    /** The destructor: only one process is meant to remove the queue. */
    method Delete()
      modifies kernel
      ensures kernel.k == if removeQueueInDestructor then MsgRmid(old(kernel.k), queueIdentifier) else old(kernel.k)
      ensures removeQueueInDestructor ==> !Exists(kernel.k, queueIdentifier)
    {
      if removeQueueInDestructor {
        kernel.k := MsgRmid(kernel.k, queueIdentifier);
      }
    }

    /** Sends the first bufferLength octets of the buffer; what sendBuffer held before does not matter. */
    method SendData(messageType: MessageType, buffer: array<char>, bufferLength: nat) returns (success: bool)
      requires Valid()
      requires bufferLength <= buffer.Length && bufferLength <= MESSAGE_TEXT_SIZE
      modifies kernel, this`sendType, sendBuffer
      ensures Valid()
      ensures success <==> Exists(old(kernel.k), queueIdentifier)
      ensures kernel.k == MsgSnd(old(kernel.k), queueIdentifier, Message(messageType, old(buffer[..bufferLength]))).0
    {
      ghost var text := buffer[..bufferLength];
      sendType := messageType;
      forall i | 0 <= i < bufferLength {
        sendBuffer[i] := buffer[i];
      }
      assert sendBuffer[..bufferLength] == text;
      var (k, result) := MsgSnd(kernel.k, queueIdentifier, Message(sendType, sendBuffer[..bufferLength]));
      kernel.k := k;
      success := result;
    }

    /**
     Receives the first message of the type. `blocked` says that there is none yet, in
     which case the call has not returned and nothing has changed; a failed msgrcv
     gives the length -1. A zero-length text leaves the caller's buffer alone.
     */
    method ReceiveData(messageType: MessageType, buffer: array<char>)
      returns (success: bool, bufferLength: int, blocked: bool)
      requires Valid() && buffer != receiveBuffer
      requires var r := MsgRcv(kernel.k, queueIdentifier, messageType, MESSAGE_TEXT_SIZE).1;
               r.Received? ==> |r.mtext| <= buffer.Length
      modifies kernel, receiveBuffer, buffer
      ensures Valid()
      ensures kernel.k == MsgRcv(old(kernel.k), queueIdentifier, messageType, MESSAGE_TEXT_SIZE).0
      ensures match MsgRcv(old(kernel.k), queueIdentifier, messageType, MESSAGE_TEXT_SIZE).1
              case Blocked => blocked && !success && buffer[..] == old(buffer[..])
              case Failed => !blocked && !success && bufferLength == -1 && buffer[..] == old(buffer[..])
              case Received(text) =>
                !blocked && success && bufferLength == |text| && buffer[..] == Overwrite(old(buffer[..]), text)
    {
      success, bufferLength, blocked := false, -1, false;
      var (k, receipt) := MsgRcv(kernel.k, queueIdentifier, messageType, MESSAGE_TEXT_SIZE);
      kernel.k := k;
      match receipt {
        case Blocked =>
          blocked := true;
        case Failed =>
        case Received(text) =>
          bufferLength := |text|;
          forall i | 0 <= i < |text| {
            receiveBuffer[i] := text[i];
          }
          if bufferLength != 0 {
            forall i | 0 <= i < bufferLength {
              buffer[i] := receiveBuffer[i];
            }
          }
          success := true;
      }
    }
  }

  lemma {:induction false} FirstOfAppended(messages: seq<Message>, m: Message)
    requires forall j :: 0 <= j < |messages| ==> messages[j].mtype != m.mtype
    ensures FirstOf(messages + [m], m.mtype) == |messages|
  {
    if messages != [] {
      assert (messages + [m])[1..] == messages[1..] + [m];
      FirstOfAppended(messages[1..], m);
    } else {
      assert messages + [m] == [m];
    }
  }

  /** A message sent while none of its type waits is the next one received, unchanged, and the rest stays as it was. */
  lemma SendThenReceive(k: Kernel, id: nat, m: Message, room: nat)
    requires Exists(k, id) && |m.mtext| <= room
    requires forall j :: 0 <= j < |k.queue.value| ==> k.queue.value[j].mtype != m.mtype
    ensures var (k', r) := MsgRcv(MsgSnd(k, id, m).0, id, m.mtype, room);
            r == Received(m.mtext) && k'.queue == k.queue && k'.generation == k.generation
  {
    FirstOfAppended(k.queue.value, m);
    assert Without(k.queue.value + [m], |k.queue.value|) == k.queue.value;
  }
}
