/**
 * The message formats of the Sunrise external-control UDP interface as the
 * KUKA_UDP client writes and reads them: the error-code enumeration, the
 * input signals, the four-field control message and the eleven-field status
 * message. Everything here is a pure function of its inputs; the client
 * object that owns the packet counter is in module KukaUdpClient.
 */
module KukaProtocol {
  import opened Wrappers
  import opened Text

  // ---------------------------------------------------------------------
  // KUKA_ERROR_CODE
  // ---------------------------------------------------------------------

  /**
   * The members of the Python enumeration KUKA_ERROR_CODE, in definition
   * order. INCORRECT_CLIENT_IP is declared with the value -1, which
   * NO_ERROR_int_trig already has, so Python makes it an alias of that
   * member rather than a member of its own.
   */
  datatype ErrorCode =
    | NoErrorIntTrig
    | NoError
    | IncorrectMessageStructure
    | IncorrectDataPacketCounter
    | IncorrectTimeStamp
    | IncorrectSignalName
    | IncorrectSignalValue
    | TimeoutError

  /** KUKA_ERROR_CODE.INCORRECT_CLIENT_IP is the same object as NO_ERROR_int_trig. */
  const IncorrectClientIp: ErrorCode := NoErrorIntTrig

  /** The `.value` of a member: zero for NO_ERROR, a negative id for every other. */
  function ErrorValue(e: ErrorCode): (v: int)
    ensures -7 <= v <= 0
    ensures v == 0 <==> e == NoError
  {
    match e
    case NoErrorIntTrig => -1
    case NoError => 0
    case IncorrectMessageStructure => -2
    case IncorrectDataPacketCounter => -3
    case IncorrectTimeStamp => -4
    case IncorrectSignalName => -5
    case IncorrectSignalValue => -6
    case TimeoutError => -7
  }

  /** The `.name` of a member: the first name declared with its value. */
  function ErrorName(e: ErrorCode): (name: string)
    ensures name != "INCORRECT_CLIENT_IP"
  {
    match e
    case NoErrorIntTrig => "NO_ERROR_int_trig"
    case NoError => "NO_ERROR"
    case IncorrectMessageStructure => "INCORRECT_MESSAGE_STRUCTURE"
    case IncorrectDataPacketCounter => "INCORRECT_DATA_PACKET_COUNTER"
    case IncorrectTimeStamp => "INCORRECT_TIME_STAMP"
    case IncorrectSignalName => "INCORRECT_SIGNAL_NAME"
    case IncorrectSignalValue => "INCORRECT_SIGNAL_VALUE"
    case TimeoutError => "TIMEOUT_ERROR"
  }

  /** Iterating over KUKA_ERROR_CODE: the canonical members only, aliases skipped. */
  function ErrorMembers(): (members: seq<ErrorCode>)
    ensures |members| == 8
    ensures forall i, j :: 0 <= i < j < |members| ==> members[i] != members[j]
  {
    [NoErrorIntTrig, NoError, IncorrectMessageStructure, IncorrectDataPacketCounter,
     IncorrectTimeStamp, IncorrectSignalName, IncorrectSignalValue, TimeoutError]
  }

  /** Every member is listed once; the alias INCORRECT_CLIENT_IP adds no entry of its own. */
  lemma ErrorMembersComplete(e: ErrorCode)
    ensures e in ErrorMembers()
    ensures IncorrectClientIp == ErrorMembers()[0]
  {
    match e
    case NoErrorIntTrig =>
    case NoError =>
    case IncorrectMessageStructure =>
    case IncorrectDataPacketCounter =>
    case IncorrectTimeStamp =>
    case IncorrectSignalName =>
    case IncorrectSignalValue =>
    case TimeoutError =>
  }

  /** KUKA_ERROR_CODE(id): lookup by value; `None` is the ValueError Python raises for an unknown id. */
  function ErrorCodeOf(id: int): (r: Option<ErrorCode>)
    ensures r.Some? <==> -7 <= id <= 0
    ensures r.Some? ==> ErrorValue(r.value) == id
  {
    if id == -1 then Some(NoErrorIntTrig)
    else if id == 0 then Some(NoError)
    else if id == -2 then Some(IncorrectMessageStructure)
    else if id == -3 then Some(IncorrectDataPacketCounter)
    else if id == -4 then Some(IncorrectTimeStamp)
    else if id == -5 then Some(IncorrectSignalName)
    else if id == -6 then Some(IncorrectSignalValue)
    else if id == -7 then Some(TimeoutError)
    else None
  }

  /** KUKA_ERROR_CODE[name]: lookup by name, which also finds the alias INCORRECT_CLIENT_IP. */
  function ErrorCodeNamed(name: string): (r: Option<ErrorCode>)
    ensures name == "INCORRECT_CLIENT_IP" ==> r == Some(IncorrectClientIp)
  {
    if name == "INCORRECT_CLIENT_IP" then Some(IncorrectClientIp)
    else if name == "NO_ERROR_int_trig" then Some(NoErrorIntTrig)
    else if name == "NO_ERROR" then Some(NoError)
    else if name == "INCORRECT_MESSAGE_STRUCTURE" then Some(IncorrectMessageStructure)
    else if name == "INCORRECT_DATA_PACKET_COUNTER" then Some(IncorrectDataPacketCounter)
    else if name == "INCORRECT_TIME_STAMP" then Some(IncorrectTimeStamp)
    else if name == "INCORRECT_SIGNAL_NAME" then Some(IncorrectSignalName)
    else if name == "INCORRECT_SIGNAL_VALUE" then Some(IncorrectSignalValue)
    else if name == "TIMEOUT_ERROR" then Some(TimeoutError)
    else None
  }

  /** Looking a member up by its value finds that member: no two members share a value. */
  lemma ErrorCodeOfValue(e: ErrorCode)
    ensures ErrorCodeOf(ErrorValue(e)) == Some(e)
  {
    match e
    case NoErrorIntTrig =>
    case NoError =>
    case IncorrectMessageStructure =>
    case IncorrectDataPacketCounter =>
    case IncorrectTimeStamp =>
    case IncorrectSignalName =>
    case IncorrectSignalValue =>
    case TimeoutError =>
  }

  /** Looking a member up by its name finds that member. */
  lemma ErrorCodeNamedRoundTrip(e: ErrorCode)
    ensures ErrorCodeNamed(ErrorName(e)) == Some(e)
  {
    match e
    case NoErrorIntTrig =>
    case NoError =>
    case IncorrectMessageStructure =>
    case IncorrectDataPacketCounter =>
    case IncorrectTimeStamp =>
    case IncorrectSignalName =>
    case IncorrectSignalValue =>
    case TimeoutError =>
  }

  /**
   * The controller's "incorrect client IP" fault (id -1) is reported under
   * the name NO_ERROR_int_trig, and the alias name leads to the same member.
   */
  lemma ClientIpFaultReportedAsIntTrig()
    ensures ErrorCodeOf(-1) == Some(NoErrorIntTrig)
    ensures ErrorName(ErrorCodeOf(-1).value) == "NO_ERROR_int_trig"
    ensures ErrorCodeNamed("INCORRECT_CLIENT_IP") == ErrorCodeOf(-1)
  {
  }

  // ---------------------------------------------------------------------
  // Control messages (client to controller)
  // ---------------------------------------------------------------------

  /** KUKA_INPUT_SIGNAL. */
  datatype InputSignal = AppStartSignal | AppEnableSignal | GetStateSignal

  /** SIGNAL_NAME_MAP: the name the controller expects for each input signal. */
  function SignalName(signal: InputSignal): (name: string)
    ensures name in {"App_Start", "App_Enable", "Get_State"}
  {
    match signal
    case AppStartSignal => "App_Start"
    case AppEnableSignal => "App_Enable"
    case GetStateSignal => "Get_State"
  }

  /** The inverse of SIGNAL_NAME_MAP, as the controller reads the signal-name field. */
  function SignalNamed(name: string): Option<InputSignal> {
    if name == "App_Start" then Some(AppStartSignal)
    else if name == "App_Enable" then Some(AppEnableSignal)
    else if name == "Get_State" then Some(GetStateSignal)
    else None
  }

  /** CMD_VALUE_TRUE / CMD_VALUE_FALSE. */
  function ValueText(value: bool): (text: string)
    ensures text in {"true", "false"}
    ensures text == "true" <==> value
  {
    if value then "true" else "false"
  }

  /** The signal-value field as the controller reads it: only `true` and `false` are values. */
  function ValueNamed(text: string): Option<bool> {
    if text == "true" then Some(true)
    else if text == "false" then Some(false)
    else None
  }

  /** The mapping from signals to names is one-to-one, and SignalNamed undoes it exactly. */
  lemma SignalNameRoundTrip(signal: InputSignal, name: string)
    ensures SignalNamed(SignalName(signal)) == Some(signal)
    ensures SignalNamed(name) == Some(signal) ==> SignalName(signal) == name
  {
  }

  /** The value field reads `true` exactly when the value is true. */
  lemma ValueTextRoundTrip(value: bool, text: string)
    ensures ValueNamed(ValueText(value)) == Some(value)
    ensures ValueText(value) == "true" <==> value
    ensures ValueNamed(text) == Some(value) ==> ValueText(value) == text
  {
  }

  /** The four fields of a control message, in order. */
  function CommandFields(timestamp: nat, counter: int, signal: InputSignal, value: bool): seq<string> {
    [NatToString(timestamp), IntToString(counter), SignalName(signal), ValueText(value)]
  }

  /**
   * __compose_cmd: `timestamp;counter;signal name;true|false`. None of the
   * four fields contains `;`, so the command splits back into exactly them.
   */
  function ComposeCommand(timestamp: nat, counter: int, signal: InputSignal, value: bool): (cmd: string)
    ensures Split(cmd) == [NatToString(timestamp), IntToString(counter), SignalName(signal), ValueText(value)]
  {
    SplitJoin(CommandFields(timestamp, counter, signal, value));
    Join(CommandFields(timestamp, counter, signal, value))
  }

  /** A control message as the controller reads it. */
  datatype Command = Command(timestamp: int, counter: int, signal: InputSignal, value: bool)

  /** Reads a control message: exactly four fields, two integers, a signal name and a value. */
  function ParseCommand(line: string): Option<Command> {
    var fields := Split(line);
    if |fields| != 4 then None
    else
      match (ParseInt(fields[0]), ParseInt(fields[1]), SignalNamed(fields[2]), ValueNamed(fields[3]))
      case (Some(ts), Some(counter), Some(signal), Some(value)) => Some(Command(ts, counter, signal, value))
      case _ => None
  }

  /** The controller reads back exactly the timestamp, counter, signal and value that were composed. */
  lemma ParseComposeRoundTrip(timestamp: nat, counter: int, signal: InputSignal, value: bool)
    ensures ParseCommand(ComposeCommand(timestamp, counter, signal, value))
         == Some(Command(timestamp, counter, signal, value))
  {
    IntToStringRoundTrip(timestamp);
    IntToStringRoundTrip(counter);
    SignalNameRoundTrip(signal, SignalName(signal));
    ValueTextRoundTrip(value, ValueText(value));
  }

  // ---------------------------------------------------------------------
  // Status messages (controller to client)
  // ---------------------------------------------------------------------

  /** The eleven fields of a status message, typed as __recv reads them. */
  datatype StatusLine = StatusLine(
    timestampMs: int,
    seqKukaSent: int,
    seqKukaRecv: int,
    errorId: int,
    autActive: bool,
    autReady: bool,
    appError: bool,
    stationError: bool,
    appState: string,
    signalAppStart: bool,
    signalAppEnable: bool)

  /** The exceptions __recv does not catch, with the list index or field that raised. */
  datatype RecvError =
    | IndexOutOfRange(index: nat)    // IndexError: the line has too few fields
    | NotAnInteger(field: nat)       // ValueError from int() on one of fields 0 to 3
    | UnknownErrorId(id: int)        // ValueError from KUKA_ERROR_CODE(id)

  /** `int(data[k])`: the index is checked before the text is converted. */
  function IntField(data: seq<string>, k: nat): (r: Result<int, RecvError>)
  {
    if k >= |data| then Failure(IndexOutOfRange(k))
    else match ParseInt(data[k])
      case Some(v) => Success(v)
      case None => Failure(NotAnInteger(k))
  }

  /**
   * The decoding half of __recv: fields 0 to 10 in order, the first failure
   * raising. A line decodes exactly when it has eleven fields or more and
   * its first four are integers.
   */
  function DecodeStatus(line: string): (r: Result<StatusLine, RecvError>)
    ensures r.Success? <==> |Split(line)| >= 11 && forall k :: 0 <= k < 4 ==> ParseInt(Split(line)[k]).Some?
  {
    DecodeFields(Split(line))
  }

  /**
   * Reads the typed fields out of the result of `split(';')`. What it raises
   * is an IndexError past the last field or a ValueError from int() on one
   * of the first four fields that exists and is not an integer; never the
   * error-code lookup's.
   */
  function DecodeFields(data: seq<string>): (r: Result<StatusLine, RecvError>)
    ensures r.Failure? ==>
      || (r.error.IndexOutOfRange? && r.error.index >= |data|)
      || (r.error.NotAnInteger? && r.error.field < 4 && r.error.field < |data| && ParseInt(data[r.error.field]).None?)
  {
    var ts :- IntField(data, 0);
    var seqSent :- IntField(data, 1);
    var seqRecv :- IntField(data, 2);
    var errorId :- IntField(data, 3);
    if |data| < 11 then Failure(IndexOutOfRange(|data|))
    else Success(StatusLine(ts, seqSent, seqRecv, errorId,
                            data[4] == "true", data[5] == "true", data[6] == "true", data[7] == "true",
                            data[8],
                            data[9] == "true", data[10] == "true"))
  }

  /** What one call of __recv amounts to, given what the socket delivered. */
  datatype RecvOutcome =
    | TimedOut                                                    // returns False
    | Received(status: StatusLine, reportedError: Option<ErrorCode>) // returns True
    | Raised(error: RecvError)                                    // the exception propagates

  /**
   * __recv with the socket reply as input: `None` is socket.timeout. A
   * negative error id is reported by its KUKA_ERROR_CODE name, and that
   * lookup raises for an id with no member.
   */
  function Receive(reply: Option<string>): (outcome: RecvOutcome)
    ensures reply.None? ==> outcome == TimedOut
    ensures reply.Some? && DecodeStatus(reply.value).Failure? ==> outcome == Raised(DecodeStatus(reply.value).error)
    ensures outcome.Received? ==> reply.Some? && DecodeStatus(reply.value) == Success(outcome.status)
    ensures outcome.Raised? && outcome.error.UnknownErrorId? ==> outcome.error.id < -7
  {
    match reply
    case None => TimedOut
    case Some(line) =>
      match DecodeStatus(line)
      case Failure(e) => Raised(e)
      case Success(status) =>
        if status.errorId >= 0 then Received(status, None)
        else match ErrorCodeOf(status.errorId)
          case Some(code) => Received(status, Some(code))
          case None => Raised(UnknownErrorId(status.errorId))
  }

  /** The return value of __recv, when it returns at all. */
  function RecvReturns(outcome: RecvOutcome): bool
    requires !outcome.Raised?
  {
    outcome.Received?
  }

  /** The status message as the controller writes it, field by field. */
  function StatusFields(status: StatusLine): seq<string> {
    [IntToString(status.timestampMs), IntToString(status.seqKukaSent), IntToString(status.seqKukaRecv),
     IntToString(status.errorId),
     ValueText(status.autActive), ValueText(status.autReady), ValueText(status.appError),
     ValueText(status.stationError),
     status.appState,
     ValueText(status.signalAppStart), ValueText(status.signalAppEnable)]
  }

  function EncodeStatus(status: StatusLine): string {
    Join(StatusFields(status))
  }

  lemma IntFieldOf(data: seq<string>, k: nat, v: int)
    requires k < |data| && data[k] == IntToString(v)
    ensures IntField(data, k) == Success(v)
  {
    IntToStringRoundTrip(v);
  }

  /** Any field list that starts with a status message's eleven fields decodes to that message. */
  lemma DecodeFieldsOf(status: StatusLine, data: seq<string>)
    requires |data| >= 11 && data[..11] == StatusFields(status)
    ensures DecodeFields(data) == Success(status)
  {
    var fields := StatusFields(status);
    assert forall k :: 0 <= k < 11 ==> data[k] == fields[k];
    IntFieldOf(data, 0, status.timestampMs);
    IntFieldOf(data, 1, status.seqKukaSent);
    IntFieldOf(data, 2, status.seqKukaRecv);
    IntFieldOf(data, 3, status.errorId);
  }

  /** Decoding reads back every field of a well-formed status message. */
  lemma DecodeEncodeStatus(status: StatusLine)
    requires Separator !in status.appState
    ensures DecodeStatus(EncodeStatus(status)) == Success(status)
  {
    var fields := StatusFields(status);
    SplitJoin(fields);
    assert fields[..11] == fields;
    DecodeFieldsOf(status, fields);
  }

  /** Fields after the eleventh are ignored, whatever they hold. */
  lemma DecodeIgnoresTrailingFields(status: StatusLine, extra: string)
    requires Separator !in status.appState
    ensures DecodeStatus(EncodeStatus(status) + [Separator] + extra) == Success(status)
  {
    var fields := StatusFields(status);
    SplitJoinAppend(fields, extra);
    assert (fields + Split(extra))[..11] == fields;
    DecodeFieldsOf(status, fields + Split(extra));
  }

  /**
   * The decoder reads fields by position: a decoded line has at least
   * eleven fields, fields 0 to 3 are the integers written there, each
   * boolean is true exactly when its field is the text `true`, and field 8
   * is kept verbatim.
   */
  lemma DecodeStatusPositional(line: string, status: StatusLine)
    requires DecodeStatus(line) == Success(status)
    ensures |Split(line)| >= 11
    ensures ParseInt(Split(line)[0]) == Some(status.timestampMs)
    ensures ParseInt(Split(line)[1]) == Some(status.seqKukaSent)
    ensures ParseInt(Split(line)[2]) == Some(status.seqKukaRecv)
    ensures ParseInt(Split(line)[3]) == Some(status.errorId)
    ensures status.autActive <==> Split(line)[4] == "true"
    ensures status.autReady <==> Split(line)[5] == "true"
    ensures status.appError <==> Split(line)[6] == "true"
    ensures status.stationError <==> Split(line)[7] == "true"
    ensures status.appState == Split(line)[8]
    ensures status.signalAppStart <==> Split(line)[9] == "true"
    ensures status.signalAppEnable <==> Split(line)[10] == "true"
  {
  }

  /**
   * The first of fields 0 to 3 that is not an integer raises ValueError,
   * however many fields the line has, and __recv lets it propagate.
   */
  lemma DecodeStatusNonInteger(line: string, k: nat)
    requires k < 4 && k < |Split(line)|
    requires forall j :: 0 <= j < k ==> ParseInt(Split(line)[j]).Some?
    requires ParseInt(Split(line)[k]).None?
    ensures DecodeStatus(line) == Failure(NotAnInteger(k))
    ensures Receive(Some(line)) == Raised(NotAnInteger(k))
  {
    var data := Split(line);
    if k > 0 { assert ParseInt(data[0]).Some?; }
    if k > 1 { assert ParseInt(data[1]).Some?; }
    if k > 2 { assert ParseInt(data[2]).Some?; }
  }

  /**
   * A line whose four integer fields are readable fails exactly when it has
   * fewer than eleven fields, and then with an IndexError.
   */
  lemma DecodeStatusShortLine(line: string)
    requires |Split(line)| >= 4
    requires forall k :: 0 <= k < 4 ==> ParseInt(Split(line)[k]).Some?
    ensures DecodeStatus(line).Failure? <==> |Split(line)| < 11
    ensures DecodeStatus(line).Failure? ==> DecodeStatus(line).error == IndexOutOfRange(|Split(line)|)
  {
    var data := Split(line);
    assert ParseInt(data[0]).Some? && ParseInt(data[1]).Some?;
    assert ParseInt(data[2]).Some? && ParseInt(data[3]).Some?;
  }

  /** A timeout makes __recv return False; a decoded reply makes it return True, unless it raised. */
  lemma ReceiveReturns(reply: Option<string>)
    ensures Receive(reply).TimedOut? <==> reply.None?
    ensures reply.Some? && !Receive(reply).Raised? ==> RecvReturns(Receive(reply))
    ensures reply.Some? ==>
      (Receive(reply).Received? <==>
        DecodeStatus(reply.value).Success? && DecodeStatus(reply.value).value.errorId >= -7)
  {
  }

  /**
   * A received reply reports an error member exactly when the id is
   * negative, and the member reported carries that id.
   */
  lemma ReceiveReportsErrorId(line: string)
    requires Receive(Some(line)).Received?
    ensures var o := Receive(Some(line));
      o.reportedError.Some? <==> o.status.errorId < 0
    ensures var o := Receive(Some(line));
      o.reportedError.Some? ==> ErrorValue(o.reportedError.value) == o.status.errorId
  {
  }

  /** A status line reporting id -1 is reported under the name NO_ERROR_int_trig. */
  lemma ReceiveMinusOne(status: StatusLine)
    requires Separator !in status.appState && status.errorId == -1
    ensures Receive(Some(EncodeStatus(status))) == Received(status, Some(NoErrorIntTrig))
    ensures ErrorName(Receive(Some(EncodeStatus(status))).reportedError.value) == "NO_ERROR_int_trig"
  {
    DecodeEncodeStatus(status);
  }

  /** A status line reporting an id below -7 makes __recv raise. */
  lemma ReceiveUnknownErrorId(status: StatusLine)
    requires Separator !in status.appState && status.errorId < -7
    ensures Receive(Some(EncodeStatus(status))) == Raised(UnknownErrorId(status.errorId))
  {
    DecodeEncodeStatus(status);
  }
}
