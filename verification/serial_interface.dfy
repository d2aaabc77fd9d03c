/**
 * The serial side of the FDC1004Q firmware (Serial_Interface.c): the
 * sensor-check frame sent over the UART. The UART itself is not modelled;
 * a send is the sequence of bytes handed to it.
 */
module SerialInterface {
  import opened FdcDefs

  /** Serial_Error: the serial functions have a single outcome. */
  datatype SerialError = SerialOk

  const PACKET_HEADER: bv8 := 0xA0
  const PACKET_TAIL: bv8 := 0xC0
  const SENSOR_CHECK_TYPE: bv8 := 0x00
  const SENSOR_CHECK_LENGTH: nat := 4

  /** The frame `{header, type, check, tail}`. */
  function SensorCheckPacket(check: bv8): (p: seq<bv8>)
    ensures |p| == SENSOR_CHECK_LENGTH
    ensures p[0] == PACKET_HEADER && p[|p| - 1] == PACKET_TAIL
    ensures p[1] == SENSOR_CHECK_TYPE
    ensures p[2] == check
  {
    [PACKET_HEADER, SENSOR_CHECK_TYPE, check, PACKET_TAIL]
  }

  /**
   * The receiving side's reading of a frame: the check byte of a
   * well-formed sensor-check frame, and nothing for any other byte string.
   */
  function SensorCheckPayload(p: seq<bv8>): (r: Option<bv8>)
    ensures r.Some? <==>
      |p| == SENSOR_CHECK_LENGTH && p[0] == PACKET_HEADER && p[1] == SENSOR_CHECK_TYPE && p[3] == PACKET_TAIL
    ensures r.Some? ==> r.value == p[2]
  {
    if |p| == SENSOR_CHECK_LENGTH && p[0] == PACKET_HEADER && p[1] == SENSOR_CHECK_TYPE && p[3] == PACKET_TAIL
    then Some(p[2])
    else None
  }

  /** Every frame the firmware builds is read back as the check byte it carries. */
  lemma SensorCheckRoundTrip(check: bv8)
    ensures SensorCheckPayload(SensorCheckPacket(check)) == Some(check)
  {
  }

  /**
   * The reader accepts exactly the frames the firmware builds, and distinct
   * check bytes give distinct frames.
   */
  lemma SensorCheckFramesOnly(p: seq<bv8>, a: bv8, b: bv8)
    ensures SensorCheckPayload(p).Some? <==> exists check :: p == SensorCheckPacket(check)
    ensures SensorCheckPacket(a) == SensorCheckPacket(b) <==> a == b
  {
    if SensorCheckPayload(p).Some? {
      var q := SensorCheckPacket(p[2]);
      assert forall i | 0 <= i < 4 :: p[i] == q[i];
      assert p == q;
    }
    if SensorCheckPacket(a) == SensorCheckPacket(b) {
      assert SensorCheckPacket(a)[2] == SensorCheckPacket(b)[2];
    }
  }

  /**
   * Serial_SendSensorCheckPacket: hands the four-byte frame to the UART
   * and reports success whatever the check byte.
   */
  function SendSensorCheckPacket(check: bv8): (r: (SerialError, seq<bv8>))
    ensures r.0 == SerialOk
    ensures |r.1| == SENSOR_CHECK_LENGTH && SensorCheckPayload(r.1) == Some(check)
  {
    (SerialOk, SensorCheckPacket(check))
  }
}
