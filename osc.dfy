/**
 * The argument lists of the two OSC messages the engine sends: the VMT tracker message and
 * the VMC bone message. An OSC message is an address and a flat list of typed arguments;
 * the socket that carries it is not modelled, only the datagram handed to it.
 */
module Osc {
  import opened Wrappers
  import opened Vectors

  /** One OSC argument, tagged with its wire type (int32, float32 or string). */
  datatype Arg = Int(i: int) | Float(f: real) | Str(s: string)

  datatype Datagram = Datagram(address: string, args: seq<Arg>)

  const VmtAddress: string := "/VMT/Room/Unity"
  const VmcAddress: string := "/VMC/Ext/Tr/Cal"

  /** The identity quaternion (qx, qy, qz, qw) sent when no orientation is tracked. */
  const Identity: seq<real> := [0.0, 0.0, 0.0, 1.0]

  /** `[float(x) for x in xs]` */
  function Floats(xs: seq<real>): (r: seq<Arg>)
    ensures |r| == |xs|
    ensures forall i :: 0 <= i < |xs| ==> r[i] == Float(xs[i])
  {
    if xs == [] then [] else [Float(xs[0])] + Floats(xs[1..])
  }

  /** `rotation if rotation else [0.0, 0.0, 0.0, 1.0]`: both `None` and `[]` are falsy. */
  function RotationOrIdentity(rotation: Option<seq<real>>): (r: seq<real>)
    ensures r == Identity || rotation == Some(r)
    ensures rotation.Some? && rotation.value != [] ==> r == rotation.value
  {
    match rotation
    case Some(q) => if q != [] then q else Identity
    case None => Identity
  }

  /** The VMT argument list `[int(idx), 1, 0.0] + [float(x) for x in pos] + [float(r) for r in rot]`. */
  function VmtArgs(idx: int, pos: Vec3, rot: seq<real>): seq<Arg> {
    [Int(idx), Int(1), Float(0.0)] + Floats(ToList(pos)) + Floats(rot)
  }

  /** The VMC argument list `[bone_name, 0, *pos, *rotation]`. */
  function VmcArgs(bone: string, pos: Vec3, rot: seq<real>): seq<Arg> {
    [Str(bone), Int(0)] + Floats(ToList(pos)) + Floats(rot)
  }

  /**
   * `send_vmt`: nothing when there is no client, otherwise one datagram, which the receiver
   * reads as tracker `idx`, enabled, time offset 0.0, the position and the quaternion (the
   * identity when none is given). A rotation of any other length than four gives a message
   * the receiver refuses. A socket error inside the `try` is swallowed, so the caller always
   * carries on.
   */
  function VmtSend(hasClient: bool, idx: int, pos: Vec3, rotation: Option<seq<real>>): (r: seq<Datagram>)
    ensures !hasClient ==> r == []
    ensures hasClient ==> |r| == 1 && r[0].address == VmtAddress
    ensures hasClient && |RotationOrIdentity(rotation)| == 4 ==>
              DecodeVmt(r[0].args) == Some(VmtMessage(idx, 1, 0.0, pos, RotationOrIdentity(rotation)))
    ensures hasClient && |RotationOrIdentity(rotation)| != 4 ==> DecodeVmt(r[0].args) == None
  {
    if !hasClient then []
    else
      var rot := RotationOrIdentity(rotation);
      if |rot| == 4 then
        VmtRoundTrip(idx, pos, rot);
        [Datagram(VmtAddress, VmtArgs(idx, pos, rot))]
      else
        VmtWrongRotationRefused(idx, pos, rot);
        [Datagram(VmtAddress, VmtArgs(idx, pos, rot))]
  }

  /**
   * `send_vmc`: as `VmtSend`, for the bone message, which the receiver reads as the bone
   * name, 0, the position and the quaternion.
   */
  function VmcSend(hasClient: bool, bone: string, pos: Vec3, rotation: Option<seq<real>>): (r: seq<Datagram>)
    ensures !hasClient ==> r == []
    ensures hasClient ==> |r| == 1 && r[0].address == VmcAddress
    ensures hasClient && |RotationOrIdentity(rotation)| == 4 ==>
              DecodeVmc(r[0].args) == Some(VmcMessage(bone, 0, pos, RotationOrIdentity(rotation)))
    ensures hasClient && |RotationOrIdentity(rotation)| != 4 ==> DecodeVmc(r[0].args) == None
  {
    if !hasClient then []
    else
      var rot := RotationOrIdentity(rotation);
      if |rot| == 4 then
        VmcRoundTrip(bone, pos, rot);
        [Datagram(VmcAddress, VmcArgs(bone, pos, rot))]
      else
        [Datagram(VmcAddress, VmcArgs(bone, pos, rot))]
  }

  // ---------------------------------------------------------------------------------------
  // The receiving side: a strict parser of the two messages, as the VR runtime reads them.

  datatype VmtMessage = VmtMessage(index: int, enable: int, timeOffset: real, pos: Vec3, rot: seq<real>)
  datatype VmcMessage = VmcMessage(bone: string, reserved: int, pos: Vec3, rot: seq<real>)

  predicate AllFloats(args: seq<Arg>) {
    forall i :: 0 <= i < |args| ==> args[i].Float?
  }

  function FloatValues(args: seq<Arg>): (r: seq<real>)
    requires AllFloats(args)
    ensures |r| == |args|
  {
    if args == [] then [] else [args[0].f] + FloatValues(args[1..])
  }

  /** Reads exactly `[int, int, float, x, y, z, qx, qy, qz, qw]`. */
  function DecodeVmt(args: seq<Arg>): Option<VmtMessage> {
    if |args| == 10 && args[0].Int? && args[1].Int? && AllFloats(args[2..]) then
      Some(VmtMessage(args[0].i, args[1].i, args[2].f, Vec3(args[3].f, args[4].f, args[5].f),
                      FloatValues(args[6..])))
    else None
  }

  /** Reads exactly `[string, int, x, y, z, qx, qy, qz, qw]`. */
  function DecodeVmc(args: seq<Arg>): Option<VmcMessage> {
    if |args| == 9 && args[0].Str? && args[1].Int? && AllFloats(args[2..]) then
      Some(VmcMessage(args[0].s, args[1].i, Vec3(args[2].f, args[3].f, args[4].f), FloatValues(args[5..])))
    else None
  }

  lemma {:induction false} FloatValuesOfFloats(xs: seq<real>)
    ensures AllFloats(Floats(xs)) && FloatValues(Floats(xs)) == xs
  {
    if xs != [] {
      FloatValuesOfFloats(xs[1..]);
      assert Floats(xs)[1..] == Floats(xs[1..]);
    }
  }

  /**
   * Every VMT message the engine builds with a quaternion is parsed back by the strict reader
   * as tracker `idx`, enabled, time offset 0.0, the position and the quaternion.
   */
  lemma VmtRoundTrip(idx: int, pos: Vec3, rot: seq<real>)
    requires |rot| == 4
    ensures DecodeVmt(VmtArgs(idx, pos, rot)) == Some(VmtMessage(idx, 1, 0.0, pos, rot))
  {
    var a := VmtArgs(idx, pos, rot);
    assert a[6..] == Floats(rot);
    FloatValuesOfFloats(rot);
  }

  /** Every VMC message the engine builds with a quaternion is parsed back as bone, 0, position, quaternion. */
  lemma VmcRoundTrip(bone: string, pos: Vec3, rot: seq<real>)
    requires |rot| == 4
    ensures DecodeVmc(VmcArgs(bone, pos, rot)) == Some(VmcMessage(bone, 0, pos, rot))
  {
    var a := VmcArgs(bone, pos, rot);
    assert a[5..] == Floats(rot);
    FloatValuesOfFloats(rot);
  }

  /** A rotation list of any other length than four is refused by the strict reader. */
  lemma VmtWrongRotationRefused(idx: int, pos: Vec3, rot: seq<real>)
    requires |rot| != 4
    ensures DecodeVmt(VmtArgs(idx, pos, rot)) == None
  {}

  /** The worked example: tracker 3 at (1, 2, -0.5) with the default rotation. */
  lemma VmtExample()
    ensures VmtSend(true, 3, Vec3(1.0, 2.0, -0.5), None)
         == [Datagram(VmtAddress, [Int(3), Int(1), Float(0.0), Float(1.0), Float(2.0), Float(-0.5),
                                   Float(0.0), Float(0.0), Float(0.0), Float(1.0)])]
  {
    var a := VmtArgs(3, Vec3(1.0, 2.0, -0.5), Identity);
    assert Floats(Identity) == [Float(0.0), Float(0.0), Float(0.0), Float(1.0)];
    assert Floats([1.0, 2.0, -0.5]) == [Float(1.0), Float(2.0), Float(-0.5)];
    assert RotationOrIdentity(None) == Identity;
    assert ToList(Vec3(1.0, 2.0, -0.5)) == [1.0, 2.0, -0.5];
    assert VmtSend(true, 3, Vec3(1.0, 2.0, -0.5), None) == [Datagram(VmtAddress, a)];
    assert a == [Int(3), Int(1), Float(0.0), Float(1.0), Float(2.0), Float(-0.5),
                 Float(0.0), Float(0.0), Float(0.0), Float(1.0)];
    assert a == [Int(3), Int(1), Float(0.0)] + [Float(1.0), Float(2.0), Float(-0.5)]
              + [Float(0.0), Float(0.0), Float(0.0), Float(1.0)];
  }
}
