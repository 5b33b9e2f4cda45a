/**
 * The KUKA_UDP client object: the packet counter it advances once per
 * composed command, the datagrams it hands to the socket, and the public
 * operations get_state, app_start, app_stop, app_enable and app_restart.
 *
 * The clock and the socket are inputs: each operation takes the millisecond
 * timestamp its command is stamped with and the reply the socket delivers
 * (`None` for the 100 ms timeout). Datagrams sent are appended to `outbox`.
 */
module KukaUdpClient {
  import opened Wrappers
  import opened Text
  import opened KukaProtocol

  class KukaUdp {
    /** `packet_sent`: the counter of the last command composed. */
    var packetSent: int
    /** `with_app_enable_supported`. */
    const withAppEnableSupported: bool
    /** `app_enable_set`: whether the App_Enable heartbeat has been asked to run. */
    var appEnableSet: bool
    /** Every datagram passed to `sendto`, oldest first. */
    var outbox: seq<string>
    /** `initial_packet_seq`, as given to the constructor. */
    ghost const initialPacketSeq: int

    /**
     * The packet counter counts the datagrams sent: the k-th one carries
     * counter initial + k + 1, the controller reads it back as such, and the
     * heartbeat flag only exists with App_Enable support.
     */
    ghost predicate Valid()
      reads this
    {
      && packetSent == initialPacketSeq + |outbox|
      && (forall k :: 0 <= k < |outbox| ==>
            ParseCommand(outbox[k]).Some? && ParseCommand(outbox[k]).value.counter == initialPacketSeq + k + 1)
      && (!withAppEnableSupported ==> !appEnableSet)
    }

    constructor (initialPacketSeq: int, withAppEnableSupported: bool)
      ensures Valid()
      ensures packetSent == initialPacketSeq && outbox == []
      ensures this.withAppEnableSupported == withAppEnableSupported && !appEnableSet
    {
      this.withAppEnableSupported := withAppEnableSupported;
      appEnableSet := false;
      packetSent := initialPacketSeq;
      outbox := [];
      this.initialPacketSeq := initialPacketSeq;
    }

    /** __get_packet_num: advances the counter unless `readonly`, and returns it. */
    method GetPacketNum(readonly: bool) returns (n: int)
      modifies this`packetSent
      ensures packetSent == if readonly then old(packetSent) else old(packetSent) + 1
      ensures n == packetSent
    {
      if !readonly {
        packetSent := packetSent + 1;
      }
      n := packetSent;
    }

    /** __compose_cmd: takes the next counter value and writes the four-field command with it. */
    method ComposeCmd(timestamp: nat, signal: InputSignal, value: bool) returns (cmd: string)
      modifies this`packetSent
      ensures packetSent == old(packetSent) + 1
      ensures cmd == ComposeCommand(timestamp, packetSent, signal, value)
    {
      var counter := GetPacketNum(false);
      cmd := ComposeCommand(timestamp, counter, signal, value);
    }

    /** __send. */
    method Send(msg: string)
      modifies this`outbox
      ensures outbox == old(outbox) + [msg]
    {
      outbox := outbox + [msg];
    }

    /** Composes and sends one command, keeping the counter and the datagrams in step. */
    method SendCommand(timestamp: nat, signal: InputSignal, value: bool)
      requires Valid()
      modifies this`packetSent, this`outbox
      ensures Valid()
      ensures packetSent == old(packetSent) + 1
      ensures outbox == old(outbox) + [ComposeCommand(timestamp, packetSent, signal, value)]
    {
      var cmd := ComposeCmd(timestamp, signal, value);
      Send(cmd);
      ParseComposeRoundTrip(timestamp, packetSent, signal, value);
    }

    /** get_state: sends `Get_State;true` and reads the reply. */
    method GetState(timestamp: nat, reply: Option<string>) returns (outcome: RecvOutcome)
      requires Valid()
      modifies this`packetSent, this`outbox
      ensures Valid()
      ensures packetSent == old(packetSent) + 1
      ensures outbox == old(outbox) + [ComposeCommand(timestamp, packetSent, GetStateSignal, true)]
      ensures outcome == Receive(reply)
    {
      SendCommand(timestamp, GetStateSignal, true);
      outcome := Receive(reply);
    }

    /** app_start: starts the heartbeat when App_Enable is supported, then sends `App_Start;true`. */
    method AppStart(timestamp: nat, reply: Option<string>) returns (outcome: RecvOutcome)
      requires Valid()
      modifies this`packetSent, this`outbox, this`appEnableSet
      ensures Valid()
      ensures appEnableSet == (withAppEnableSupported || old(appEnableSet))
      ensures packetSent == old(packetSent) + 1
      ensures outbox == old(outbox) + [ComposeCommand(timestamp, packetSent, AppStartSignal, true)]
      ensures outcome == Receive(reply)
    {
      if withAppEnableSupported {
        appEnableSet := true;
      }
      SendCommand(timestamp, AppStartSignal, true);
      outcome := Receive(reply);
    }

    /**
     * app_stop: without App_Enable support nothing is sent (`None`). With it,
     * `App_Enable;false` is sent, the reply read, and the heartbeat cancelled,
     * unless reading the reply raised first.
     */
    method AppStop(timestamp: nat, reply: Option<string>) returns (outcome: Option<RecvOutcome>)
      requires Valid()
      modifies this`packetSent, this`outbox, this`appEnableSet
      ensures Valid()
      ensures !withAppEnableSupported ==>
        outcome == None && packetSent == old(packetSent) && outbox == old(outbox) && appEnableSet == old(appEnableSet)
      ensures withAppEnableSupported ==>
        && packetSent == old(packetSent) + 1
        && outbox == old(outbox) + [ComposeCommand(timestamp, packetSent, AppEnableSignal, false)]
        && outcome == Some(Receive(reply))
        && appEnableSet == (old(appEnableSet) && Receive(reply).Raised?)
    {
      if !withAppEnableSupported {
        return None;
      }
      SendCommand(timestamp, AppEnableSignal, false);
      var received := Receive(reply);
      outcome := Some(received);
      if !received.Raised? {
        appEnableSet := false;
      }
    }

    /** app_enable: sends `App_Enable;true`, and reads the reply only when asked to show it. */
    method AppEnable(timestamp: nat, showReply: bool, reply: Option<string>) returns (outcome: Option<RecvOutcome>)
      requires Valid()
      modifies this`packetSent, this`outbox
      ensures Valid()
      ensures packetSent == old(packetSent) + 1
      ensures outbox == old(outbox) + [ComposeCommand(timestamp, packetSent, AppEnableSignal, true)]
      ensures outcome == if showReply then Some(Receive(reply)) else None
    {
      SendCommand(timestamp, AppEnableSignal, true);
      outcome := if showReply then Some(Receive(reply)) else None;
    }

    /**
     * app_restart: app_stop then app_start. Without App_Enable support the
     * stop sends nothing, so the counter advances by exactly one; when the
     * stop's reply raises, the start is never reached.
     */
    method AppRestart(stopTimestamp: nat, stopReply: Option<string>, startTimestamp: nat, startReply: Option<string>)
      returns (stopOutcome: Option<RecvOutcome>, startOutcome: Option<RecvOutcome>)
      requires Valid()
      modifies this`packetSent, this`outbox, this`appEnableSet
      ensures Valid()
      ensures !withAppEnableSupported ==>
        && packetSent == old(packetSent) + 1
        && outbox == old(outbox) + [ComposeCommand(startTimestamp, packetSent, AppStartSignal, true)]
        && stopOutcome == None && startOutcome == Some(Receive(startReply))
      ensures withAppEnableSupported && Receive(stopReply).Raised? ==>
        && packetSent == old(packetSent) + 1
        && outbox == old(outbox) + [ComposeCommand(stopTimestamp, packetSent, AppEnableSignal, false)]
        && stopOutcome == Some(Receive(stopReply)) && startOutcome == None
        && appEnableSet == old(appEnableSet)
      ensures withAppEnableSupported && !Receive(stopReply).Raised? ==>
        && packetSent == old(packetSent) + 2
        && outbox == old(outbox) + [ComposeCommand(stopTimestamp, packetSent - 1, AppEnableSignal, false),
                                    ComposeCommand(startTimestamp, packetSent, AppStartSignal, true)]
        && stopOutcome == Some(Receive(stopReply)) && startOutcome == Some(Receive(startReply))
        && appEnableSet
    {
      stopOutcome := AppStop(stopTimestamp, stopReply);
      if stopOutcome.Some? && stopOutcome.value.Raised? {
        return stopOutcome, None;
      }
      var started := AppStart(startTimestamp, startReply);
      startOutcome := Some(started);
    }
  }
}
