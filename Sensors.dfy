/** Temperature acquisition: how the one-wire driver's status codes and raw value
    (in 1/16 C) become the temperature of a `SensorData` sample, in tenths of a
    degree or the error sentinel. The driver itself is not modelled; its results
    are inputs. */
module Sensors {
  import opened Config

  /** One sample of the sensors, recreated every cycle. */
  datatype SensorData = SensorData(temp: Int32, waterFlowPerMinute: Int16)

  /** What the DS18B20 driver reports in one acquisition window: the status of
      starting a conversion, the status of reading it back, and the raw value
      read. The last two matter only when the conversion started. */
  datatype TempDriver = TempDriver(convertStatus: Uint8, readStatus: Uint8, raw: Int16)

  /** `(temp_tens_t)raw * 100 / 160`: 1/16 C to 1/10 C. C's `/` truncates toward
      zero, while Dafny's is Euclidean, so a negative product is divided by its
      magnitude and negated. */
  function ScaleRaw(raw: Int16): (t: Int32)
    ensures raw >= 0 ==> 0 <= 16 * t <= 10 * raw < 16 * t + 16
    ensures raw < 0 ==> 16 * t - 16 < 10 * raw <= 16 * t <= 0
  {
    var product := raw * 100;
    if product >= 0 then product / 160 else -((-product) / 160)
  }

  /** `ReadTemp`: the sentinel when the read failed, the scaled value otherwise. */
  function ReadTemp(readStatus: Uint8, raw: Int16): (t: Int32)
    ensures readStatus != 0 ==> t == ErrorTemp
    ensures readStatus == 0 && raw >= 0 ==> 0 <= 16 * t <= 10 * raw < 16 * t + 16
    ensures readStatus == 0 && raw < 0 ==> 16 * t - 16 < 10 * raw <= 16 * t <= 0
  {
    if readStatus != 0 then ErrorTemp else ScaleRaw(raw)
  }

  /** `ReadSensors`: the temperature is read back only when the conversion started;
      the flow, whose float computation is not modelled, is taken as given. */
  function ReadSensors(drv: TempDriver, flow: Int16): (d: SensorData)
    ensures d.waterFlowPerMinute == flow
    ensures drv.convertStatus != 0 || drv.readStatus != 0 ==> d.temp == ErrorTemp
    ensures drv.convertStatus == 0 && drv.readStatus == 0 ==> d.temp == ScaleRaw(drv.raw)
    // A genuine reading of -99.9 C (raw -1599) is indistinguishable from a failure.
    ensures d.temp == ErrorTemp <==>
              drv.convertStatus != 0 || drv.readStatus != 0 || drv.raw == -1599
  {
    var started := drv.convertStatus == 0;
    var temp := if started then ReadTemp(drv.readStatus, drv.raw) else ErrorTemp;
    SensorData(temp, flow)
  }

  /** The only raw value that scales onto the error sentinel is -1599. */
  lemma SentinelCollision(raw: Int16)
    ensures ScaleRaw(raw) == ErrorTemp <==> raw == -1599
  {
  }
}
