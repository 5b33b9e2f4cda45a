/**
 * The guards and copies the Python binding puts around the FRI SDK objects:
 * the shape-checked command setters, the joint-vector state getters, the
 * accessors that are not yet exposed, and the ClientApplication wrapper
 * that forwards connect, disconnect and step to the SDK.
 *
 * The SDK objects are modelled by what the binding sees of them: LBRState
 * as read-only buffers of doubles, LBRCommand as the buffers its setters
 * fill, ClientApplication as the sequence of calls it receives. Doubles are
 * modelled as reals.
 */
module FriBinding {
  import opened Wrappers
  import opened Text

  /** LBRState::NUMBER_OF_JOINTS: seven for the LBR arms. */
  const NumberOfJoints: nat := 7

  /** A wrench is [F_x, F_y, F_z, tau_A, tau_B, tau_C]. */
  const WrenchLength: nat := 6

  /** The single-precision value `(float)` yields for a double; the rounding itself is not modelled. */
  datatype Float32 = Narrowed(source: real)

  /** A NumPy array of doubles: its shape and its elements in C order. */
  datatype DoubleArray = DoubleArray(shape: seq<nat>, data: seq<real>)

  function Product(dims: seq<nat>): nat {
    if |dims| == 0 then 1 else dims[0] * Product(dims[1..])
  }

  /** A `py::array_t<double>` always holds as many elements as its shape says. */
  type NdArray = a: DoubleArray | |a.data| == Product(a.shape) witness DoubleArray([0], [])

  /** `values.ndim() == 1 && dims[0] == n`. */
  predicate IsVector(values: NdArray, n: nat) {
    |values.shape| == 1 && values.shape[0] == n
  }

  /** The two kinds of runtime_error the binding throws. */
  datatype BindingError =
    | ShapeError(message: string)      // the caller passed an array of the wrong shape
    | NotYetExposed(message: string)   // the binding does not support this accessor yet

  /** The text every shape-checked setter throws: it always names NUMBER_OF_JOINTS. */
  function ShapeErrorMessage(): string {
    "Input array must have shape (" + NatToString(NumberOfJoints) + ",)!"
  }

  /**
   * The guard and copy of a shape-checked setter: anything but a 1-D array
   * with as many elements as the buffer is rejected before the buffer is
   * touched; otherwise the elements are copied in.
   */
  method CheckedCopy(buffer: array<real>, values: NdArray) returns (r: Outcome<BindingError>)
    modifies buffer
    ensures r.Pass? <==> IsVector(values, buffer.Length)
    ensures r.Fail? ==> r.error == ShapeError(ShapeErrorMessage()) && buffer[..] == old(buffer[..])
    ensures r.Pass? ==> buffer[..] == values.data
  {
    if !IsVector(values, buffer.Length) {
      return Fail(ShapeError(ShapeErrorMessage()));
    }
    assert values.shape[1..] == [] && |values.data| == Product(values.shape) == buffer.Length;
    forall i | 0 <= i < buffer.Length {
      buffer[i] := values.data[i];
    }
    r := Pass;
  }

  /** The wrench setter's rejection names seven elements, though it demands six. */
  lemma WrenchShapeMessageNamesJointCount()
    ensures ShapeErrorMessage() == "Input array must have shape (7,)!"
    ensures ShapeErrorMessage() != "Input array must have shape (" + NatToString(WrenchLength) + ",)!"
  {
    var accepted := "Input array must have shape (" + NatToString(WrenchLength) + ",)!";
    assert accepted[29] == '6';
  }

  // ---------------------------------------------------------------------
  // LBRCommand
  // ---------------------------------------------------------------------

  class LBRCommand {
    const jointPosition: array<real>
    const wrench: array<real>
    const torque: array<real>

    ghost predicate Valid()
      reads this
    {
      && jointPosition.Length == NumberOfJoints
      && wrench.Length == WrenchLength
      && torque.Length == NumberOfJoints
      && jointPosition != torque
    }

    constructor ()
      ensures Valid() && fresh(jointPosition) && fresh(wrench) && fresh(torque)
    {
      jointPosition := new real[NumberOfJoints];
      wrench := new real[WrenchLength];
      torque := new real[NumberOfJoints];
    }

    /** setJointPosition: a 1-D array of NUMBER_OF_JOINTS doubles is copied in; anything else throws first. */
    method SetJointPosition(values: NdArray) returns (r: Outcome<BindingError>)
      requires Valid()
      modifies jointPosition
      ensures r.Pass? <==> IsVector(values, NumberOfJoints)
      ensures r.Fail? ==> r.error == ShapeError(ShapeErrorMessage()) && jointPosition[..] == old(jointPosition[..])
      ensures r.Pass? ==> jointPosition[..] == values.data
    {
      r := CheckedCopy(jointPosition, values);
    }

    /**
     * setWrench: a 1-D array of six doubles is copied in; anything else
     * throws first, with the NUMBER_OF_JOINTS message.
     */
    method SetWrench(values: NdArray) returns (r: Outcome<BindingError>)
      requires Valid()
      modifies wrench
      ensures r.Pass? <==> IsVector(values, WrenchLength)
      ensures r.Fail? ==> r.error == ShapeError(ShapeErrorMessage()) && wrench[..] == old(wrench[..])
      ensures r.Pass? ==> wrench[..] == values.data
    {
      r := CheckedCopy(wrench, values);
    }

    /** setTorque: a 1-D array of NUMBER_OF_JOINTS doubles is copied in; anything else throws first. */
    method SetTorque(values: NdArray) returns (r: Outcome<BindingError>)
      requires Valid()
      modifies torque
      ensures r.Pass? <==> IsVector(values, NumberOfJoints)
      ensures r.Fail? ==> r.error == ShapeError(ShapeErrorMessage()) && torque[..] == old(torque[..])
      ensures r.Pass? ==> torque[..] == values.data
    {
      r := CheckedCopy(torque, values);
    }

    /** setCartesianPose: always throws, whatever the input, and changes nothing. */
    method SetCartesianPose(values: NdArray) returns (r: Outcome<BindingError>)
      ensures r.Fail? && r.error.NotYetExposed?
      ensures r.error.message == "setCartesianPose is not yet exposed."
    {
      r := Fail(NotYetExposed("setCartesianPose is not yet exposed."));
    }

    /** setCartesianPoseAsMatrix: always throws, whatever the input, and changes nothing. */
    method SetCartesianPoseAsMatrix(values: NdArray) returns (r: Outcome<BindingError>)
      ensures r.Fail? && r.error.NotYetExposed?
      ensures r.error.message == "setCartesianPoseAsMatrix is not yet exposed."
    {
      r := Fail(NotYetExposed("setCartesianPoseAsMatrix is not yet exposed."));
    }
  }

  // ---------------------------------------------------------------------
  // LBRState
  // ---------------------------------------------------------------------

  /** The SDK's state snapshot, as far as the binding's own code reads it. */
  class LBRState {
    const measuredJointPosition: array<real>
    const measuredTorque: array<real>
    const commandedTorque: array<real>
    const externalTorque: array<real>
    const ipoJointPosition: array<real>
    /** Version 1 only. */
    const commandedJointPosition: array<real>
    /** Version 2 only: position and orientation of the flange, seven doubles. */
    const measuredCartesianPose: array<real>

    /** Every joint-indexed buffer holds NUMBER_OF_JOINTS doubles. */
    ghost predicate Valid()
      reads this
    {
      && measuredJointPosition.Length == NumberOfJoints
      && measuredTorque.Length == NumberOfJoints
      && commandedTorque.Length == NumberOfJoints
      && externalTorque.Length == NumberOfJoints
      && ipoJointPosition.Length == NumberOfJoints
      && commandedJointPosition.Length == NumberOfJoints
      && measuredCartesianPose.Length == NumberOfJoints
    }

    constructor (measuredJointPosition: array<real>, measuredTorque: array<real>,
                 commandedTorque: array<real>, externalTorque: array<real>,
                 ipoJointPosition: array<real>, commandedJointPosition: array<real>,
                 measuredCartesianPose: array<real>)
      requires measuredJointPosition.Length == NumberOfJoints
      requires measuredTorque.Length == NumberOfJoints
      requires commandedTorque.Length == NumberOfJoints
      requires externalTorque.Length == NumberOfJoints
      requires ipoJointPosition.Length == NumberOfJoints
      requires commandedJointPosition.Length == NumberOfJoints
      requires measuredCartesianPose.Length == NumberOfJoints
      ensures Valid()
      ensures this.measuredJointPosition == measuredJointPosition && this.measuredTorque == measuredTorque
      ensures this.commandedTorque == commandedTorque && this.externalTorque == externalTorque
      ensures this.ipoJointPosition == ipoJointPosition
      ensures this.commandedJointPosition == commandedJointPosition
      ensures this.measuredCartesianPose == measuredCartesianPose
    {
      this.measuredJointPosition := measuredJointPosition;
      this.measuredTorque := measuredTorque;
      this.commandedTorque := commandedTorque;
      this.externalTorque := externalTorque;
      this.ipoJointPosition := ipoJointPosition;
      this.commandedJointPosition := commandedJointPosition;
      this.measuredCartesianPose := measuredCartesianPose;
    }
  }

  /**
   * The body every joint-vector getter shares: copy NUMBER_OF_JOINTS
   * doubles out of the SDK's buffer, then narrow each one to float into
   * the array handed back to Python.
   */
  method NarrowedCopy(buffer: array<real>) returns (values: seq<Float32>)
    requires buffer.Length >= NumberOfJoints
    ensures |values| == NumberOfJoints
    ensures forall i :: 0 <= i < NumberOfJoints ==> values[i] == Narrowed(buffer[i])
  {
    var data := new real[NumberOfJoints];
    forall i | 0 <= i < NumberOfJoints {
      data[i] := buffer[i];
    }
    var dataf := new Float32[NumberOfJoints];
    for i := 0 to NumberOfJoints
      invariant forall k :: 0 <= k < NumberOfJoints ==> data[k] == buffer[k]
      invariant forall k :: 0 <= k < i ==> dataf[k] == Narrowed(data[k])
    {
      dataf[i] := Narrowed(data[i]);
    }
    values := dataf[..];
  }

  method GetMeasuredJointPosition(state: LBRState) returns (values: seq<Float32>)
    requires state.Valid()
    ensures |values| == NumberOfJoints
    ensures forall i :: 0 <= i < NumberOfJoints ==> values[i] == Narrowed(state.measuredJointPosition[i])
  {
    values := NarrowedCopy(state.measuredJointPosition);
  }

  method GetMeasuredTorque(state: LBRState) returns (values: seq<Float32>)
    requires state.Valid()
    ensures |values| == NumberOfJoints
    ensures forall i :: 0 <= i < NumberOfJoints ==> values[i] == Narrowed(state.measuredTorque[i])
  {
    values := NarrowedCopy(state.measuredTorque);
  }

  method GetCommandedTorque(state: LBRState) returns (values: seq<Float32>)
    requires state.Valid()
    ensures |values| == NumberOfJoints
    ensures forall i :: 0 <= i < NumberOfJoints ==> values[i] == Narrowed(state.commandedTorque[i])
  {
    values := NarrowedCopy(state.commandedTorque);
  }

  method GetExternalTorque(state: LBRState) returns (values: seq<Float32>)
    requires state.Valid()
    ensures |values| == NumberOfJoints
    ensures forall i :: 0 <= i < NumberOfJoints ==> values[i] == Narrowed(state.externalTorque[i])
  {
    values := NarrowedCopy(state.externalTorque);
  }

  method GetIpoJointPosition(state: LBRState) returns (values: seq<Float32>)
    requires state.Valid()
    ensures |values| == NumberOfJoints
    ensures forall i :: 0 <= i < NumberOfJoints ==> values[i] == Narrowed(state.ipoJointPosition[i])
  {
    values := NarrowedCopy(state.ipoJointPosition);
  }

  /** Version 1 only. */
  method GetCommandedJointPosition(state: LBRState) returns (values: seq<Float32>)
    requires state.Valid()
    ensures |values| == NumberOfJoints
    ensures forall i :: 0 <= i < NumberOfJoints ==> values[i] == Narrowed(state.commandedJointPosition[i])
  {
    values := NarrowedCopy(state.commandedJointPosition);
  }

  /** Version 2 only: copies NUMBER_OF_JOINTS doubles out of the Cartesian pose. */
  method GetMeasuredCartesianPose(state: LBRState) returns (values: seq<Float32>)
    requires state.Valid()
    ensures |values| == NumberOfJoints
    ensures forall i :: 0 <= i < NumberOfJoints ==> values[i] == Narrowed(state.measuredCartesianPose[i])
  {
    values := NarrowedCopy(state.measuredCartesianPose);
  }

  /** Version 2: always throws. */
  function GetMeasuredCartesianPoseAsMatrix(state: LBRState): (r: Result<seq<seq<real>>, BindingError>)
    ensures r.Failure? && r.error.NotYetExposed?
    ensures r.error.message == "getMeasuredCartesianPoseAsMatrix is not yet exposed (use .getMeasuredCartesianPose instead)."
  {
    Failure(NotYetExposed("getMeasuredCartesianPoseAsMatrix is not yet exposed (use .getMeasuredCartesianPose instead)."))
  }

  /** Version 2: always throws; the Cartesian overlay is not supported by the binding. */
  function GetIpoCartesianPose(state: LBRState): (r: Result<seq<real>, BindingError>)
    ensures r.Failure? && r.error.NotYetExposed?
    ensures r.error.message == "getIpoCartesianPose is not yet exposed."
  {
    Failure(NotYetExposed("getIpoCartesianPose is not yet exposed."))
  }

  /** Version 2: always throws; the Cartesian overlay is not supported by the binding. */
  function GetIpoCartesianPoseAsMatrix(state: LBRState): (r: Result<seq<seq<real>>, BindingError>)
    ensures r.Failure? && r.error.NotYetExposed?
    ensures r.error.message == "getIpoCartesianPoseAsMatrix is not yet exposed."
  {
    Failure(NotYetExposed("getIpoCartesianPoseAsMatrix is not yet exposed."))
  }

  /** Version 2: always throws; the Cartesian overlay is not supported by the binding. */
  function GetIpoRedundancyValue(state: LBRState): (r: Result<real, BindingError>)
    ensures r.Failure? && r.error.NotYetExposed?
    ensures r.error.message == "getIpoRedundancyValue is not yet exposed."
  {
    Failure(NotYetExposed("getIpoRedundancyValue is not yet exposed."))
  }

  // ---------------------------------------------------------------------
  // ClientApplication
  // ---------------------------------------------------------------------

  /** A call the binding makes on the SDK's ClientApplication. */
  datatype SdkCall =
    | ConnectCall(port: int, remoteHost: Option<string>)
    | DisconnectCall
    | StepCall

  /**
   * The SDK's ClientApplication, seen from the binding: the calls it
   * receives, in order. What it does with them is not part of this model,
   * so the answer it gives is an input of each call.
   */
  class SdkClientApplication {
    var calls: seq<SdkCall>

    constructor ()
      ensures calls == []
    {
      calls := [];
    }

    method Connect(port: int, remoteHost: Option<string>, answer: bool) returns (ok: bool)
      modifies this
      ensures calls == old(calls) + [ConnectCall(port, remoteHost)]
      ensures ok == answer
    {
      calls := calls + [ConnectCall(port, remoteHost)];
      ok := answer;
    }

    method Disconnect()
      modifies this
      ensures calls == old(calls) + [DisconnectCall]
    {
      calls := calls + [DisconnectCall];
    }

    method Step(answer: bool) returns (ok: bool)
      modifies this
      ensures calls == old(calls) + [StepCall]
      ensures ok == answer
    {
      calls := calls + [StepCall];
      ok := answer;
    }
  }

  /** PyClientApplication: owns one SDK ClientApplication and forwards to it. */
  class PyClientApplication {
    const app: SdkClientApplication

    constructor ()
      ensures fresh(app) && app.calls == []
    {
      app := new SdkClientApplication();
    }

    /** connect: the port and remote host go to the SDK unchanged, and its answer comes back unchanged. */
    method Connect(port: int, remoteHost: Option<string>, sdkAnswer: bool) returns (ok: bool)
      modifies app
      ensures app.calls == old(app.calls) + [ConnectCall(port, remoteHost)]
      ensures ok == sdkAnswer
    {
      ok := app.Connect(port, remoteHost, sdkAnswer);
    }

    /** disconnect: forwarded to the SDK. */
    method Disconnect()
      modifies app
      ensures app.calls == old(app.calls) + [DisconnectCall]
    {
      app.Disconnect();
    }

    /** step: forwarded to the SDK, whose answer comes back unchanged. */
    method Step(sdkAnswer: bool) returns (ok: bool)
      modifies app
      ensures app.calls == old(app.calls) + [StepCall]
      ensures ok == sdkAnswer
    {
      ok := app.Step(sdkAnswer);
    }
  }
}
