/** The arithmetic of the measurement pipeline as functions of the raw ADC
    readings: converting readings to volts, averaging them, converting an
    average to a channel's physical value, and deriving a calibration
    factor; with the properties these promise. */
module AnalogConversion {
  import opened AnalogConfig

  /** One raw ADC reading in volts. */
  function Volts(raw: int): real
  {
    raw as real * ADC_INPUT_RESOLUTION
  }

  /** Sum of the readings converted to volts, accumulated front to back. */
  function SumOfVolts(readings: seq<int>): real
  {
    if readings == [] then 0.0
    else SumOfVolts(readings[..|readings| - 1]) + Volts(readings[|readings| - 1])
  }

  /** The sampler's result: the converted readings' sum divided by the sample count. */
  function AverageOfSamples(readings: seq<int>): real
  {
    SumOfVolts(readings) / SAMPLES_TAKEN as real
  }

  /** Smallest raw reading. */
  function SmallestReading(readings: seq<int>): (m: int)
    requires readings != []
    ensures m in readings
    ensures forall i :: 0 <= i < |readings| ==> m <= readings[i]
  {
    if |readings| == 1 then readings[0]
    else
      var rest := SmallestReading(readings[1..]);
      if readings[0] <= rest then readings[0] else rest
  }

  /** Largest raw reading. */
  function LargestReading(readings: seq<int>): (m: int)
    requires readings != []
    ensures m in readings
    ensures forall i :: 0 <= i < |readings| ==> readings[i] <= m
  {
    if |readings| == 1 then readings[0]
    else
      var rest := LargestReading(readings[1..]);
      if readings[0] >= rest then readings[0] else rest
  }

  /** Temperature in degrees Celsius for an averaged sensor voltage: the sensor
      reads 0.5 V at 0 degrees and rises 10 mV per degree; the result is then
      corrected for ADC gain and for the enclosure. */
  function Celsius(volts: real): real
  {
    (volts - 0.50) * 100.0 * TEMPERATURE_COMPENSATION + ENCLOSURE_DELTA
  }

  /** The sensor voltage that reads as the given temperature. */
  function SensorVoltsFor(celsius: real): real
  {
    (celsius - ENCLOSURE_DELTA) / (100.0 * TEMPERATURE_COMPENSATION) + 0.50
  }

  /** The value the channel processor reports for a pin, given the sampler's
      average and the current calibration factor. */
  function Convert(pin: Pin, average: real, calibrationFactor: real): real
  {
    match ChannelOf(pin)
    case Voltage => average * VOLTAGE_MULTIPLIER * calibrationFactor
    case Temperature => Celsius(average)
    case Reference => average
    case Unsupported => ADC_UNSUPPORTED
  }

  /** The calibration factor that makes the voltage channel report `known`
      for a measured average; undefined when the scaled average is zero. */
  function CalibrationFactorFor(known: real, average: real): real
    requires average * VOLTAGE_MULTIPLIER != 0.0
  {
    known / (average * VOLTAGE_MULTIPLIER)
  }

  // ---------------------------------------------------------------------
  // Sampler

  /** Readings that convert to at least `lo` volts sum to at least |readings| times `lo`. */
  lemma {:induction false} SumOfVoltsAtLeast(readings: seq<int>, lo: real)
    requires forall i :: 0 <= i < |readings| ==> lo <= Volts(readings[i])
    ensures |readings| as real * lo <= SumOfVolts(readings)
  {
    if readings != [] {
      var n := |readings|;
      var prefix := readings[..n - 1];
      assert forall i :: 0 <= i < |prefix| ==> prefix[i] == readings[i];
      SumOfVoltsAtLeast(prefix, lo);
      assert (n - 1) as real * lo + lo == n as real * lo;
    }
  }

  /** Readings that convert to at most `hi` volts sum to at most |readings| times `hi`. */
  lemma {:induction false} SumOfVoltsAtMost(readings: seq<int>, hi: real)
    requires forall i :: 0 <= i < |readings| ==> Volts(readings[i]) <= hi
    ensures SumOfVolts(readings) <= |readings| as real * hi
  {
    if readings != [] {
      var n := |readings|;
      var prefix := readings[..n - 1];
      assert forall i :: 0 <= i < |prefix| ==> prefix[i] == readings[i];
      SumOfVoltsAtMost(prefix, hi);
      assert (n - 1) as real * hi + hi == n as real * hi;
    }
  }

  /** Readings between `lo` and `hi` average to between their converted values. */
  lemma AverageWithin(readings: seq<int>, lo: int, hi: int)
    requires |readings| == SAMPLES_TAKEN
    requires forall i :: 0 <= i < |readings| ==> lo <= readings[i] <= hi
    ensures Volts(lo) <= AverageOfSamples(readings) <= Volts(hi)
  {
    SumOfVoltsAtLeast(readings, Volts(lo));
    SumOfVoltsAtMost(readings, Volts(hi));
    assert |readings| as real == 5.0;
  }

  /** The average of SAMPLES_TAKEN readings lies between the smallest and the
      largest converted reading. */
  lemma AverageBetweenExtremes(readings: seq<int>)
    requires |readings| == SAMPLES_TAKEN
    ensures Volts(SmallestReading(readings)) <= AverageOfSamples(readings)
    ensures AverageOfSamples(readings) <= Volts(LargestReading(readings))
  {
    AverageWithin(readings, SmallestReading(readings), LargestReading(readings));
  }

  /** Non-negative readings average to a non-negative voltage. */
  lemma AverageNonNegative(readings: seq<int>)
    requires |readings| == SAMPLES_TAKEN
    requires forall i :: 0 <= i < |readings| ==> readings[i] >= 0
    ensures AverageOfSamples(readings) >= 0.0
  {
    AverageBetweenExtremes(readings);
  }

  /** SAMPLES_TAKEN identical readings `raw` average to `raw` converted to volts. */
  lemma AverageOfConstant(readings: seq<int>, raw: int)
    requires |readings| == SAMPLES_TAKEN
    requires forall i :: 0 <= i < |readings| ==> readings[i] == raw
    ensures AverageOfSamples(readings) == Volts(raw)
  {
    AverageWithin(readings, raw, raw);
  }

  /** Every 12-bit reading converts to at most 3.276 V, so the average of
      12-bit readings stays below the pins' 3.3 V input limit. */
  lemma TwelveBitAverageBelowInputLimit(readings: seq<int>)
    requires |readings| == SAMPLES_TAKEN
    requires forall i :: 0 <= i < |readings| ==> 0 <= readings[i] <= ADC_MAX_READING
    ensures 0.0 <= AverageOfSamples(readings) <= 3.276 < ADC_MAX_INPUT_VOLTAGE
  {
    AverageWithin(readings, 0, ADC_MAX_READING);
  }

  // ---------------------------------------------------------------------
  // Channel processor

  /** Temperature conversion and SensorVoltsFor are inverse to each other. */
  lemma CelsiusRoundTrip(volts: real, celsius: real)
    ensures SensorVoltsFor(Celsius(volts)) == volts
    ensures Celsius(SensorVoltsFor(celsius)) == celsius
  {
  }

  /** 0.5 V reads as the enclosure offset, and every further 10 mV adds one
      compensated degree. */
  lemma CelsiusTransfer(volts: real)
    ensures Celsius(0.50) == ENCLOSURE_DELTA
    ensures Celsius(volts + 0.01) - Celsius(volts) == TEMPERATURE_COMPENSATION
  {
  }

  /** Each channel's value, and which of them the calibration factor affects. */
  lemma ChannelValues(average: real, factor: real, other: real, pin: Pin)
    ensures Convert(ADC_INPUT_VOLTAGE, average, 1.0) == average * VOLTAGE_MULTIPLIER
    ensures Convert(ADC_INPUT_VOLTAGE, average, factor) == Convert(ADC_INPUT_VOLTAGE, average, 1.0) * factor
    ensures Convert(ADC_INPUT_TEMPERATURE, average, factor) == Convert(ADC_INPUT_TEMPERATURE, average, other)
    ensures Convert(ADC_INPUT_TEMPERATURE, average, factor) == Celsius(average)
    ensures Convert(ADC_REFERENCE_VOLTAGE, average, factor) == average
    ensures ChannelOf(pin) == Unsupported ==> Convert(pin, average, factor) == ADC_UNSUPPORTED
  {
  }

  /** Constant readings of 2048 units with factor 1.0 report 16.384 V. */
  lemma VoltageScenario(readings: seq<int>)
    requires |readings| == SAMPLES_TAKEN
    requires forall i :: 0 <= i < |readings| ==> readings[i] == 2048
    ensures Convert(ADC_INPUT_VOLTAGE, AverageOfSamples(readings), 1.0) == 16.384
  {
    AverageOfConstant(readings, 2048);
  }

  /** An average of 0.55 V reports 4.825 degrees Celsius, whatever the factor. */
  lemma TemperatureScenario(factor: real)
    ensures Convert(ADC_INPUT_TEMPERATURE, 0.55, factor) == 4.825
  {
  }

  // ---------------------------------------------------------------------
  // Calibrator

  /** After calibrating against `known`, the same average on the voltage
      channel reports exactly `known`. */
  lemma CalibrationSelfConsistent(known: real, average: real)
    requires average * VOLTAGE_MULTIPLIER != 0.0
    ensures Convert(ADC_INPUT_VOLTAGE, average, CalibrationFactorFor(known, average)) == known
  {
  }

  /** The factor is the only one with that property. */
  lemma CalibrationFactorUnique(known: real, average: real, factor: real)
    requires average * VOLTAGE_MULTIPLIER != 0.0
    requires Convert(ADC_INPUT_VOLTAGE, average, factor) == known
    ensures factor == CalibrationFactorFor(known, average)
  {
  }

  /** A positive known voltage and a positive measurement give a positive factor;
      a zero known voltage gives factor zero, which then zeroes every voltage
      reading. */
  lemma CalibrationFactorSign(known: real, average: real, later: real)
    requires average * VOLTAGE_MULTIPLIER != 0.0
    ensures known > 0.0 && average > 0.0 ==> CalibrationFactorFor(known, average) > 0.0
    ensures known == 0.0 ==> Convert(ADC_INPUT_VOLTAGE, later, CalibrationFactorFor(known, average)) == 0.0
  {
  }

  /** Known 24.0 V against a measured scaled 23.5 V gives 24.0 / 23.5, about 1.02128. */
  lemma CalibrationScenario()
    ensures CalibrationFactorFor(24.0, 2.35) == 24.0 / 23.5
    ensures 1.02127 < CalibrationFactorFor(24.0, 2.35) < 1.02128
  {
  }
}
