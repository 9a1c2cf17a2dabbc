/** The link's objects. Every method is one atomic piece of a thread, proved against `Links`. */
module ANTServers {
  import opened CentralTypes
  import opened Messages
  import opened MessageQueues
  import opened Links
  import opened LinkArrivals
  import opened LinkProofs
  import opened LinkTrace

  const FRAME_SIZE := 8
  const HEADER_LENGTH := 2
  const TIMESTAMP_INDEX := 7

  /** The bytes carry the frame; the bytes between payload and timestamp are unspecified. */
  predicate Carries(bytes: seq<byte>, f: Frame) {
    && |bytes| == FRAME_SIZE
    && HEADER_LENGTH + |f.data| <= TIMESTAMP_INDEX
    && bytes[0] == f.conveyor && bytes[1] == f.id && bytes[TIMESTAMP_INDEX] == f.time
    && bytes[HEADER_LENGTH..HEADER_LENGTH + |f.data|] == f.data
  }

  /**
   Lays a message out in an 8-byte buffer whose initial contents are arbitrary.
   The timestamp survives exactly when the payload does not reach its byte.
   */
  method LayOut(m: Message, time: byte) returns (bytes: seq<byte>)
    requires HEADER_LENGTH + |m.data| <= FRAME_SIZE
    ensures |bytes| == FRAME_SIZE && bytes[0] == Low(m.conveyor) && bytes[1] == Low(m.id)
    ensures bytes[HEADER_LENGTH..HEADER_LENGTH + |m.data|] == m.data
    ensures bytes[TIMESTAMP_INDEX] == time <==> |m.data| < 6 || m.data[5] == time
  {
    var arr := new byte[FRAME_SIZE];
    arr[0] := Low(m.conveyor);
    arr[1] := Low(m.id);
    arr[TIMESTAMP_INDEX] := time;
    var i := 0;
    while i < |m.data|
      invariant 0 <= i <= |m.data|
      invariant arr[0] == Low(m.conveyor) && arr[1] == Low(m.id)
      invariant arr[HEADER_LENGTH..HEADER_LENGTH + i] == m.data[..i]
      invariant arr[TIMESTAMP_INDEX] == if i < 6 then time else m.data[5]
    {
      arr[HEADER_LENGTH + i] := m.data[i];
      i := i + 1;
    }
    bytes := arr[..];
  }

  class ANTServerTimer {
    var timerIsRunning: bool
    var timeoutOccured: bool
    var stage: TimerStage

    constructor ()
      ensures !timerIsRunning && !timeoutOccured && stage == WATCHING
    {
      timerIsRunning, timeoutOccured, stage := false, false, WATCHING;
    }

    method StartTimer()
      modifies this`timerIsRunning
      ensures timerIsRunning
    {
      timerIsRunning := true;
    }

    method StopTimer()
      modifies this`timerIsRunning
      ensures !timerIsRunning
    {
      timerIsRunning := false;
    }
  }

  class BackendDriver {
    var timedOut: bool
    var taking: bool
    const currentMsgBuffer: array<byte>

    constructor ()
      ensures !timedOut && !taking && currentMsgBuffer.Length == FRAME_SIZE && fresh(currentMsgBuffer)
    {
      timedOut, taking := false, false;
      currentMsgBuffer := new byte[FRAME_SIZE];
    }

    method SetTimeout()
      modifies this`timedOut
      ensures timedOut
    {
      timedOut := true;
    }

    method SendMessageToANT(msg: seq<byte>)
      requires |msg| == currentMsgBuffer.Length
      modifies currentMsgBuffer
      ensures currentMsgBuffer[..] == msg
    {
      var i := 0;
      while i < |msg|
        invariant 0 <= i <= |msg|
        invariant currentMsgBuffer[..i] == msg[..i]
      {
        currentMsgBuffer[i] := msg[i];
        i := i + 1;
      }
    }
  }

  class ANTQueueHandler {
    const receiveQueue: MessageQueue<Message>
    const sendQueue: MessageQueue<Report>
    var flowControl: Flow
    var popped: Option<Message>  // taken from the queue, not yet handed to the server

    constructor (receiveQueue: MessageQueue<Message>, sendQueue: MessageQueue<Report>)
      ensures this.receiveQueue == receiveQueue && this.sendQueue == sendQueue
      ensures flowControl == CONTINUE && popped == None
    {
      this.receiveQueue, this.sendQueue := receiveQueue, sendQueue;
      flowControl, popped := CONTINUE, None;
    }

    method SetFlowStop()
      modifies this`flowControl
      ensures flowControl == STOP
    {
      flowControl := STOP;
    }

    method SetFlowContinue()
      modifies this`flowControl
      ensures flowControl == CONTINUE
    {
      flowControl := CONTINUE;
    }

    method PushMessage(report: Report)
      modifies sendQueue
      ensures sendQueue.items == old(sendQueue.items) + [report]
    {
      sendQueue.Push(report);
    }
  }

  class ANTServer {
    const queueHandler: ANTQueueHandler
    const timer: ANTServerTimer
    const driver: BackendDriver
    var pendingInputConveyorMsg: Option<Message>
    var checkingInputConveyorReady: bool
    var pendingMsg: Option<Message>
    var waitingForReceive: bool
    var waitingConveyorId: int
    var waitingMsgId: int
    var timestamp: byte
    ghost var log: seq<Note>

    ghost function View(): Link
      reads this, queueHandler, timer, driver, queueHandler.receiveQueue
    {
      Link(queueHandler.receiveQueue.items, queueHandler.popped, queueHandler.flowControl,
           pendingInputConveyorMsg, checkingInputConveyorReady, pendingMsg,
           waitingForReceive, waitingConveyorId, waitingMsgId, timestamp,
           timer.timerIsRunning, timer.timeoutOccured, timer.stage, driver.timedOut, driver.taking, log)
    }

    /** Every message that can still be sent leaves the timestamp byte alone. */
    ghost predicate Valid()
      reads this, queueHandler, driver, queueHandler.receiveQueue
    {
      && driver.currentMsgBuffer.Length == FRAME_SIZE
      && (pendingMsg.Some? ==> |pendingMsg.value.data| <= 3)
      && (pendingInputConveyorMsg.Some? ==> |pendingInputConveyorMsg.value.data| <= 3)
      && (queueHandler.popped.Some? ==> |queueHandler.popped.value.data| <= 3)
      && (forall i :: 0 <= i < |queueHandler.receiveQueue.items| ==> |queueHandler.receiveQueue.items[i].data| <= 3)
    }

    constructor (queueHandler: ANTQueueHandler)
      requires queueHandler.receiveQueue.items == [] && queueHandler.flowControl == CONTINUE
      requires queueHandler.popped == None
      ensures Valid() && View() == INIT && this.queueHandler == queueHandler
      ensures fresh(timer) && fresh(driver) && fresh(driver.currentMsgBuffer)
    {
      this.queueHandler := queueHandler;
      timer := new ANTServerTimer();
      driver := new BackendDriver();
      pendingInputConveyorMsg, checkingInputConveyorReady, pendingMsg := None, false, None;
      waitingForReceive, waitingConveyorId, waitingMsgId := false, EMPTY_CONVEYOR_ID, -1;
      timestamp := 0;
      log := [];
    }

    method WaitForMessage(msgId: int, conveyorId: int)
      modifies this`waitingForReceive, this`waitingConveyorId, this`waitingMsgId
      ensures View() == AwaitReply(old(View()), msgId, conveyorId)
    {
      waitingForReceive := true;
      waitingConveyorId := conveyorId;
      waitingMsgId := msgId;
    }

    method SendMessageToDriver(msg: Message)
      requires Valid() && |msg.data| <= 3
      modifies this`pendingMsg, this`log, timer`timerIsRunning, driver.currentMsgBuffer
      ensures Valid() && View() == Transmit(old(View()), msg)
      ensures Carries(driver.currentMsgBuffer[..], FrameOf(msg, timestamp))
    {
      pendingMsg := Some(msg);
      var bytes := LayOut(msg, timestamp);
      timer.StartTimer();
      driver.SendMessageToANT(bytes);
      log := log + [Sent(FrameOf(msg, timestamp))];
    }

    method SendFreshToDriver(msg: Message)
      requires Valid() && |msg.data| <= 3
      modifies this`pendingMsg, this`log, this`timestamp, timer`timerIsRunning, driver.currentMsgBuffer
      ensures Valid() && View() == SendFresh(old(View()), msg)
      ensures Carries(driver.currentMsgBuffer[..], FrameOf(msg, timestamp))
    {
      timestamp := Low(timestamp + 1);
      SendMessageToDriver(msg);
    }

    method SendConveyorStateRequest(conveyorId: int)
      requires Valid()
      modifies this, timer`timerIsRunning, driver.currentMsgBuffer
      ensures Valid() && View() == RequestState(old(View()), conveyorId)
    {
      WaitForMessage(CONVEYOR_STATE_RESPONSE_ID, conveyorId);
      SendFreshToDriver(Message(CONVEYOR_STATE_ID, conveyorId, []));
    }

    method SendANTMessage(msg: Message)
      requires Valid() && |msg.data| <= 3
      modifies this, timer`timerIsRunning, driver.currentMsgBuffer
      ensures Valid() && View() == SendAnt(old(View()), msg)
    {
      if msg.id == ADD_PACKAGE_ID {
        pendingInputConveyorMsg := Some(msg);
        checkingInputConveyorReady := true;
        SendConveyorStateRequest(msg.conveyor);
      } else if msg.id == CLEAR_BOX_ID {
        WaitForMessage(CLEAR_BOX_RESPONSE_ID, msg.conveyor);
        SendFreshToDriver(msg);
      } else {
        WaitForMessage(msg.id, msg.conveyor);
        SendFreshToDriver(msg);
      }
    }

    method ContinueFlowControl()
      requires Valid()
      modifies queueHandler`flowControl
      ensures Valid() && View() == ContinueFlow(old(View()))
    {
      if !checkingInputConveyorReady {
        queueHandler.SetFlowContinue();
      }
    }

    /** A reply that was waited for: stop the timer and forget the message. */
    method ReplyReceived()
      requires Valid()
      modifies this, timer`timerIsRunning
      ensures Valid() && View() == StopWaiting(old(View()))
    {
      timer.StopTimer();
      waitingForReceive := false;
      waitingMsgId := -1;
      waitingConveyorId := EMPTY_CONVEYOR_ID;
      pendingMsg := None;
    }

    method ReceivedInputConveyorState(conveyorId: int, isAvailable: bool)
      requires Valid()
      modifies this, timer`timerIsRunning, driver.currentMsgBuffer
      ensures Valid() && View() == InputState(old(View()), conveyorId, isAvailable)
    {
      if pendingInputConveyorMsg.Some? {
        if isAvailable {
          checkingInputConveyorReady := false;
          WaitForMessage(ADD_PACKAGE_ID, conveyorId);
          SendFreshToDriver(pendingInputConveyorMsg.value);
          pendingInputConveyorMsg := None;
        } else {
          SendConveyorStateRequest(conveyorId);
        }
      }
    }

    method PendingMessageTimedOut()
      requires Valid()
      modifies this`pendingMsg, this`log, timer`timerIsRunning, driver.currentMsgBuffer
      ensures Valid() && View() == TimedOut(old(View()))
    {
      if pendingMsg.Some? {
        SendMessageToDriver(pendingMsg.value);
      }
    }

    /** A MESSAGE_RECEIVED ends the wait if it names the awaited id and conveyor. */
    method ReceiveAck(id: byte, conveyor: byte)
      requires Valid()
      modifies this, timer`timerIsRunning, queueHandler`flowControl
      ensures Valid() && View() == Receive(old(View()), MessageReceived(id, conveyor))
    {
      if waitingForReceive && waitingMsgId == id && waitingConveyorId == conveyor {
        log := log + [Acked(id)];
        ReplyReceived();
        ContinueFlowControl();
      }
    }

    method ReceiveState(conveyor: byte, available: bool)
      requires Valid()
      modifies this, timer`timerIsRunning, driver.currentMsgBuffer
      ensures Valid() && View() == Receive(old(View()), StateResponse(conveyor, available))
    {
      if waitingForReceive && waitingMsgId == CONVEYOR_STATE_RESPONSE_ID && waitingConveyorId == conveyor {
        timer.StopTimer();
        log := log + [Availability(conveyor, available)];
        ReceivedInputConveyorState(conveyor, available);
      }
    }

    /** A clear-box response ends the wait for one, and is passed on. */
    method ReceiveClear(box: byte, packages: set<int>)
      requires Valid()
      modifies this, timer`timerIsRunning, queueHandler`flowControl, queueHandler.sendQueue
      ensures Valid() && View() == Receive(old(View()), ClearResponse(box, packages))
      ensures queueHandler.sendQueue.items == old(queueHandler.sendQueue.items) +
        if old(waitingForReceive && waitingMsgId == CLEAR_BOX_RESPONSE_ID) then [ReportCleared(box, packages)] else []
    {
      if waitingForReceive && waitingMsgId == CLEAR_BOX_RESPONSE_ID {
        log := log + [Forwarded(ReportCleared(box, packages))];
        ReplyReceived();
        queueHandler.PushMessage(ReportCleared(box, packages));
        ContinueFlowControl();
      }
    }

    /** Handles a response; what it reports upwards is queued for the processing thread. */
    method ReceiveANTMessage(response: Response)
      requires Valid()
      modifies this, timer`timerIsRunning, queueHandler`flowControl, queueHandler.sendQueue, driver.currentMsgBuffer
      ensures Valid() && View() == Step(old(View()), Deliver(response))
      ensures queueHandler.sendQueue.items ==
        old(queueHandler.sendQueue.items) + ReportsIn(NotesOf(old(View()), Deliver(response)))
    {
      match response
      case MessageReceived(id, conveyor) =>
        NoReports(NotesOf(View(), Deliver(response)));
        ReceiveAck(id, conveyor);
      case StateResponse(conveyor, available) =>
        NoReports(NotesOf(View(), Deliver(response)));
        ReceiveState(conveyor, available);
      case ClearResponse(box, packages) =>
        ReceiveClear(box, packages);
      case PackageArrived(box, pkg) =>
        log := log + [Forwarded(ReportArrived(box, pkg))];
        queueHandler.PushMessage(ReportArrived(box, pkg));
      case UnknownResponse(_) =>
    }

    // ---- the queue handler's loop ----

    /** Takes the next message if the flow allows it, and stops the flow. */
    method PopStep()
      requires Valid()
      modifies this`log, queueHandler, queueHandler.receiveQueue
      ensures Valid() && View() == Step(old(View()), Pop)
    {
      var empty := queueHandler.receiveQueue.IsEmpty();
      if !empty && queueHandler.popped.None? && queueHandler.flowControl == CONTINUE {
        var msg := queueHandler.receiveQueue.Pop();
        assert old(queueHandler.receiveQueue.items)[0] == msg;
        assert old(queueHandler.receiveQueue.items)[1..] == queueHandler.receiveQueue.items;
        queueHandler.popped := Some(msg);
        queueHandler.SetFlowStop();
        log := log + [Popped(msg)];
      }
    }

    /** Hands the message taken to the server. */
    method DispatchStep()
      requires Valid()
      modifies this, queueHandler`popped, timer`timerIsRunning, driver.currentMsgBuffer
      ensures Valid() && View() == Step(old(View()), Dispatch)
    {
      if queueHandler.popped.Some? {
        var msg := queueHandler.popped.value;
        queueHandler.popped := None;
        SendANTMessage(msg);
      }
    }

    // ---- the timer's loop ----

    method TimerExpiresStep()
      requires Valid()
      modifies timer
      ensures Valid() && View() == Step(old(View()), TimerExpires)
    {
      if timer.stage == WATCHING && timer.timerIsRunning {
        timer.timeoutOccured := true;
      }
    }

    method TimerCommitsStep()
      requires Valid()
      modifies timer
      ensures Valid() && View() == Step(old(View()), TimerCommits)
    {
      if timer.stage == WATCHING && timer.timeoutOccured && timer.timerIsRunning {
        timer.stage := EXPIRING;
      }
    }

    method TimerClearsStep()
      requires Valid()
      modifies timer
      ensures Valid() && View() == Step(old(View()), TimerClears)
    {
      if timer.stage == EXPIRING {
        timer.timerIsRunning := false;
        timer.timeoutOccured := false;
        timer.stage := RAISING;
      }
    }

    method TimerRaisesStep()
      requires Valid()
      modifies timer, driver`timedOut
      ensures Valid() && View() == Step(old(View()), TimerRaises)
    {
      if timer.stage == RAISING {
        driver.SetTimeout();
        timer.stage := WATCHING;
      }
    }

    // ---- the driver's polling loop ----

    method DriverTakesStep()
      requires Valid()
      modifies driver
      ensures Valid() && View() == Step(old(View()), DriverTakes)
    {
      if driver.timedOut && !driver.taking {
        driver.timedOut := false;
        driver.taking := true;
      }
    }

    method DriverHandlesStep()
      requires Valid()
      modifies this`pendingMsg, this`log, timer`timerIsRunning, driver`taking, driver.currentMsgBuffer
      ensures Valid() && View() == Step(old(View()), DriverHandles)
    {
      if driver.taking {
        driver.taking := false;
        PendingMessageTimedOut();
      }
    }

    /** The processing thread's side of the queue. */
    method EnqueueStep(msg: Message)
      requires Valid() && Queueable(msg)
      modifies queueHandler.receiveQueue
      ensures Valid() && View() == Step(old(View()), Enqueue(msg))
    {
      queueHandler.receiveQueue.Push(msg);
    }

    // ---- whole runs ----

    /** One event, by the thread it belongs to. */
    method TakeStep(e: Event)
      requires Valid() && BuiltByHandler(e)
      modifies this, queueHandler, queueHandler.receiveQueue, queueHandler.sendQueue
      modifies timer, driver, driver.currentMsgBuffer
      ensures Valid() && View() == Step(old(View()), e)
      ensures queueHandler.sendQueue.items == old(queueHandler.sendQueue.items) + ReportsIn(NotesOf(old(View()), e))
    {
      if !e.Deliver? {
        NoReports(NotesOf(View(), e));
      }
      match e
      case Enqueue(msg) => EnqueueStep(msg);
      case Pop => PopStep();
      case Dispatch => DispatchStep();
      case Deliver(response) => ReceiveANTMessage(response);
      case TimerExpires => TimerExpiresStep();
      case TimerCommits => TimerCommitsStep();
      case TimerClears => TimerClearsStep();
      case TimerRaises => TimerRaisesStep();
      case DriverTakes => DriverTakesStep();
      case DriverHandles => DriverHandlesStep();
    }

    /** Any interleaving of the threads' steps is a run of the link, and queues exactly that run's reports. */
    method Interleave(es: seq<Event>)
      requires Valid() && AllBuilt(es)
      modifies this, queueHandler, queueHandler.receiveQueue, queueHandler.sendQueue
      modifies timer, driver, driver.currentMsgBuffer
      ensures Valid() && View() == Run(old(View()), es)
      ensures queueHandler.sendQueue.items == old(queueHandler.sendQueue.items) + ReportsIn(AllNotes(old(View()), es))
      decreases |es|
    {
      if es != [] {
        BuiltTail(es);
        ReportsConcat(NotesOf(View(), es[0]), AllNotes(Step(View(), es[0]), es[1..]));
        TakeStep(es[0]);
        Interleave(es[1..]);
      }
    }
  }
}
