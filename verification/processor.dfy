/** The processor object of real_time_data_processor.py: a sample buffer that
    `process_data` updates in place and a run flag that `start` and `stop`
    set, with the receive loop driven by that flag. Each method is proved
    against the functions of ProcessorSpec. */
module Processor {
  import opened ProcessorSpec

  class RealTimeDataProcessor<T, V> {
    const bufferSize: int
    var dataBuffer: seq<Sample<T, V>>
    var isRunning: bool

    /** The buffer never holds more samples than its size allows. */
    ghost predicate Valid()
      reads this
    {
      |dataBuffer| <= Cap(bufferSize)
    }

    /** A new processor: empty buffer, not running, size 100 unless given. */
    constructor (bufferSize: int := DefaultBufferSize)
      ensures this.bufferSize == bufferSize
      ensures dataBuffer == [] && !isRunning
      ensures Valid()
    {
      this.bufferSize := bufferSize;
      dataBuffer := [];
      isRunning := false;
    }

    /** Handle one raw message whose decoding gave `message`; `now` is the
        clock reading taken once the message decoded. */
    method ProcessData(message: Parsed<V>, now: T) returns (outcome: Outcome)
      modifies this`dataBuffer
      ensures Step(dataBuffer, outcome) == Process(old(dataBuffer), bufferSize, message, now)
      ensures old(Valid()) ==> Valid()
    {
      match message
      case Malformed =>
        outcome := DecodeErrorReported;
      case LoadFailure =>
        outcome := Raised(LoadError);
      case MissingField =>
        outcome := Raised(KeyError);
      case NotAnObject =>
        outcome := Raised(TypeError);
      case Decoded(value) =>
        dataBuffer := dataBuffer + [Sample(now, value)];
        if |dataBuffer| > bufferSize {
          dataBuffer := dataBuffer[1..];
        }
        outcome := Stored;
    }

    /** The receive loop: while the flag is up, wait for the next message
        (calls of `stop` may come in meanwhile) and process it. An exception
        from `process_data` ends the loop, and so does a closed socket. */
    method ConsumeData(inbox: seq<Event<T, V>>) returns (exit: Exit, consumed: nat)
      modifies this`dataBuffer, this`isRunning
      ensures Final(dataBuffer, isRunning, exit, consumed)
                == Run(old(dataBuffer), bufferSize, old(isRunning), inbox)
      ensures old(Valid()) ==> Valid()
    {
      ghost var goal := Run(dataBuffer, bufferSize, isRunning, inbox);
      ghost var valid := Valid();
      if valid {
        RunKeepsBound(dataBuffer, bufferSize, isRunning, inbox);
      }
      consumed := 0;
      while isRunning
        invariant consumed <= |inbox|
        invariant var r := Run(dataBuffer, bufferSize, isRunning, inbox[consumed..]);
          goal == r.(consumed := consumed + r.consumed)
        decreases |inbox| - consumed
      {
        while consumed < |inbox| && inbox[consumed].StopRequested?
          invariant consumed <= |inbox|
          invariant var r := Await(dataBuffer, bufferSize, isRunning, inbox[consumed..]);
            goal == r.(consumed := consumed + r.consumed)
          decreases |inbox| - consumed
        {
          assert inbox[consumed..][1..] == inbox[consumed + 1..];
          Stop();
          consumed := consumed + 1;
        }
        if consumed == |inbox| {
          exit := ConnectionClosed;
          return;
        }
        var event := inbox[consumed];
        assert inbox[consumed..][1..] == inbox[consumed + 1..];
        consumed := consumed + 1;
        var outcome := ProcessData(event.message, event.at);
        if outcome.Raised? {
          exit := Escaped(outcome.fault);
          return;
        }
      }
      exit := Stopped;
    }

    /** Raise the flag, open the connection and run the receive loop until it
        ends. Opening the connection is a suspension point of its own, before
        the first check of the flag: `stoppedDuringConnect` says whether a call
        of `stop` ran while the handshake was pending. */
    method Start(inbox: seq<Event<T, V>>, stoppedDuringConnect: bool) returns (exit: Exit, consumed: nat)
      modifies this`dataBuffer, this`isRunning
      ensures Final(dataBuffer, isRunning, exit, consumed)
                == Run(old(dataBuffer), bufferSize, !stoppedDuringConnect, inbox)
      ensures old(Valid()) ==> Valid()
    {
      isRunning := true;
      if stoppedDuringConnect {
        Stop();
      }
      exit, consumed := ConsumeData(inbox);
    }

    /** Lower the flag; the loop sees it at its next check. */
    method Stop()
      modifies this`isRunning
      ensures !isRunning
    {
      isRunning := false;
    }
  }

  /** A processor of size 3 fed 1, 2, 3, 4 ends holding 2, 3, 4; its
      defaults are an empty buffer of size 100. */
  method Scenario(t1: int, t2: int, t3: int, t4: int)
  {
    var plain := new RealTimeDataProcessor<int, int>();
    assert plain.bufferSize == 100 && plain.dataBuffer == [] && !plain.isRunning;
    var p := new RealTimeDataProcessor<int, int>(3);
    var exit, consumed := p.Start([Receive(Decoded(1), t1), Receive(Decoded(2), t2),
                                   Receive(Decoded(3), t3), Receive(Decoded(4), t4)], false);
    KeepsNewestThree(t1, t2, t3, t4);
    assert p.dataBuffer == [Sample(t2, 2), Sample(t3, 3), Sample(t4, 4)];
    p.Stop();
    var exit2, consumed2 := p.ConsumeData([Receive(Decoded(5), t4)]);
    assert p.dataBuffer == [Sample(t2, 2), Sample(t3, 3), Sample(t4, 4)];
    // a stop during the handshake ends the loop before anything is received
    var exit3, consumed3 := p.Start([Receive(Decoded(5), t4)], true);
    assert exit3 == Stopped && consumed3 == 0;
    assert p.dataBuffer == [Sample(t2, 2), Sample(t3, 3), Sample(t4, 4)];
  }
}
