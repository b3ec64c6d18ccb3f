/** Unit coefficients of the plugin, as exact reals. */
module Units {

  /** Gauss to Tesla. */
  const GaussToTesla: real := 0.0001
  /** Named "milliTesla to Tesla", and applied to RAW_IMU and SCALED_IMU
      magnetometer fields; its value is 1000.0, kept as the plugin has it. */
  const MilliTToTesla: real := 1000.0
  /** Millirad/s to rad/s. */
  const MilliRsToRadSec: real := 0.001
  /** Milli-g to m/s^2 (standard gravity 9.80665 m/s^2). */
  const MilliGToMs2: real := 9.80665 / 1000.0
  /** Millibar to Pascal. */
  const MillibarToPascal: real := 100.0
}
