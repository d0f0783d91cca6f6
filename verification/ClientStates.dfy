/** The client's connection status and receive queue as a mutable object. */
module ClientStates {
  import opened Mqtt
  import opened Machine
  import Inbox

  class ClientState {
    var status: Status
    var receivedMessages: seq<Received>
    const capacity: nat

    constructor (capacity: nat)
      ensures status == Status.Disconnected && receivedMessages == [] && this.capacity == capacity
    {
      status, receivedMessages := Status.Disconnected, [];
      this.capacity := capacity;
    }

    method SetConnectionState(next: Status)
      modifies this`status
      ensures status == next
    {
      status := next;
    }

    method AddReceivedMessage(message: Received)
      modifies this`receivedMessages
      ensures receivedMessages == Inbox.Push(old(receivedMessages), capacity, message)
    {
      if |receivedMessages| >= capacity && receivedMessages != [] {
        receivedMessages := receivedMessages[1..];
      }
      receivedMessages := receivedMessages + [message];
    }

    method PopReceivedMessage() returns (message: Option<Received>)
      modifies this`receivedMessages
      ensures old(receivedMessages) == [] ==> message == None && receivedMessages == []
      ensures old(receivedMessages) != [] ==>
                message == Some(old(receivedMessages)[0]) && receivedMessages == old(receivedMessages)[1..]
    {
      if receivedMessages == [] {
        return None;
      }
      message := Some(receivedMessages[0]);
      receivedMessages := receivedMessages[1..];
    }
  }
}
