/** The instrument: the class AnalogMeasurement, whose only state is its
    calibration factor. The hardware reads of one sampling pass are given to
    each operation as `readings`, the SAMPLES_TAKEN raw values the ADC
    returns for the pin, in order. */
module AnalogMeasure {
  import opened AnalogConfig
  import opened AnalogConversion

  class AnalogMeasurement {
    /** Multiplier applied to voltage-channel readings. */
    var calibrationFactor: real

    /** A new instrument starts uncalibrated, with factor 1.0. */
    constructor ()
      ensures calibrationFactor == 1.0
    {
      calibrationFactor := 1.0;
    }

    /** Samples the pin, then converts the average as the pin's channel
        demands. It changes no state, and it samples even an unsupported pin. */
    method ProcessAnalogData(pin: Pin, readings: seq<int>) returns (value: real)
      requires |readings| == SAMPLES_TAKEN
      ensures value == Convert(pin, AverageOfSamples(readings), calibrationFactor)
    {
      var average := SampleAndAverageAnalogInput(readings);
      match ChannelOf(pin)
      case Voltage =>
        var converted := average * VOLTAGE_MULTIPLIER;
        converted := converted * calibrationFactor;
        value := converted;
      case Temperature =>
        var celsius := (average - 0.50) * 100.0;
        celsius := celsius * TEMPERATURE_COMPENSATION;
        celsius := celsius + ENCLOSURE_DELTA;
        value := celsius;
      case Reference =>
        value := average;
      case Unsupported =>
        value := ADC_UNSUPPORTED;
    }

    /** Samples the voltage pin and sets the factor so that this measurement
        would read as `knownVoltage`; the previous factor plays no part. */
    method CalibrateAnalogVoltage(knownVoltage: real, readings: seq<int>)
      requires |readings| == SAMPLES_TAKEN
      requires AverageOfSamples(readings) * VOLTAGE_MULTIPLIER != 0.0
      modifies this
      ensures calibrationFactor == CalibrationFactorFor(knownVoltage, AverageOfSamples(readings))
    {
      var average := SampleAndAverageAnalogInput(readings);
      var converted := average * VOLTAGE_MULTIPLIER;
      calibrationFactor := knownVoltage / converted;
    }

    /** Reads SAMPLES_TAKEN values, converts each to volts, and averages them. */
    method SampleAndAverageAnalogInput(readings: seq<int>) returns (average: real)
      requires |readings| == SAMPLES_TAKEN
      ensures average == AverageOfSamples(readings)
    {
      var sum := 0.0;
      for index := 0 to SAMPLES_TAKEN
        invariant sum == SumOfVolts(readings[..index])
      {
        assert readings[..index + 1][..index] == readings[..index];
        sum := sum + readings[index] as real * ADC_INPUT_RESOLUTION;
      }
      assert readings[..SAMPLES_TAKEN] == readings;
      average := sum / SAMPLES_TAKEN as real;
    }
  }

  /** Calibrating and then measuring the voltage channel under the same
      readings reports the known voltage. */
  method CalibrateThenMeasure(m: AnalogMeasurement, knownVoltage: real, readings: seq<int>)
    returns (measured: real)
    requires |readings| == SAMPLES_TAKEN
    requires AverageOfSamples(readings) * VOLTAGE_MULTIPLIER != 0.0
    modifies m
    ensures measured == knownVoltage
  {
    m.CalibrateAnalogVoltage(knownVoltage, readings);
    measured := m.ProcessAnalogData(ADC_INPUT_VOLTAGE, readings);
    CalibrationSelfConsistent(knownVoltage, AverageOfSamples(readings));
  }

  /** Of two calibrations in a row only the second shows in the factor, and
      measuring in between leaves the factor alone. */
  method CalibrateTwice(m: AnalogMeasurement, first: real, firstReadings: seq<int>,
                        pin: Pin, probe: seq<int>, second: real, secondReadings: seq<int>)
    requires |firstReadings| == |probe| == |secondReadings| == SAMPLES_TAKEN
    requires AverageOfSamples(firstReadings) * VOLTAGE_MULTIPLIER != 0.0
    requires AverageOfSamples(secondReadings) * VOLTAGE_MULTIPLIER != 0.0
    modifies m
    ensures m.calibrationFactor == CalibrationFactorFor(second, AverageOfSamples(secondReadings))
  {
    m.CalibrateAnalogVoltage(first, firstReadings);
    var before := m.calibrationFactor;
    var value := m.ProcessAnalogData(pin, probe);
    assert m.calibrationFactor == before;
    m.CalibrateAnalogVoltage(second, secondReadings);
  }
}
