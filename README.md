# AnalogMeasure in Dafny

A model of the AnalogMeasure library for the Particle Argon microcontroller. The library is one class, `AnalogMeasurement`. It turns raw 12-bit ADC readings into calibrated physical values in four steps:

- **Sampler.** `Sample_And_Average_Analog_Input` takes `SAMPLES_TAKEN` (5) readings. It scales each one to volts by `ADC_INPUT_RESOLUTION` (0.0008 V per unit) and returns the mean.
- **Channel processor.** `Process_Analog_Data` samples the requested pin and then dispatches on it:
  - the voltage pin (A1) returns the average × `VOLTAGE_MULTIPLIER` × `calibrationFactor`;
  - the temperature pin (A2) returns `(average − 0.5) × 100 × TEMPERATURE_COMPENSATION + ENCLOSURE_DELTA`, in degrees Celsius;
  - the reference pin (A4) returns the average unchanged;
  - any other pin returns the sentinel `ADC_UNSUPPORTED` (9999.0).
- **Calibrator.** `Calibrate_Analog_Voltage` samples the voltage pin. It then overwrites `calibrationFactor` with `known / (average × VOLTAGE_MULTIPLIER)`.
- **Constructor.** The constructor sets `calibrationFactor` to 1.0.

The project has three files:

- `analog_config.dfy` (module `AnalogConfig`) holds the header's constants, the pins and the pin-to-channel dispatch.
- `analog_conversion.dfy` (module `AnalogConversion`) states the pipeline's arithmetic as functions of the raw readings. It proves what the source promises about them: the bounds of the average, the channel formulas, and that calibration is consistent with itself.
- `analog_measurement.dfy` (module `AnalogMeasure`) holds the class. Its field `calibrationFactor` is updated in place, and each method is proved against the functions.

All arithmetic is over `real`. The hardware read is replaced by an argument, `readings`: the `SAMPLES_TAKEN` raw values the ADC returns for the pin, in order.

Where the comments and the code disagree, the model follows the code:

- The comment at `src/AnalogMeasure.cpp:53` says the temperature channel returns Fahrenheit. The active code at lines 81-86 returns Celsius, and the Fahrenheit line (82) is commented out. The model returns Celsius.
- The processor samples the pin before it dispatches (line 60). So an unsupported pin is still sampled before 9999.0 is returned, and `ProcessAnalogData` demands the readings for every pin.

## Model

| member | source | states |
|---|---|---|
| `AnalogConfig.DispatchSelectsExactlyOne` | src/AnalogMeasure.h:30-40 | The pins A1, A2 and A4 are pairwise distinct. A pin selects the voltage, temperature or reference channel exactly when it is that channel's pin. Every other pin is unsupported. |
| `AnalogConversion.SumOfVoltsAtLeast` | src/AnalogMeasure.cpp:135-145 | If every reading converts to at least lo volts, the accumulated sum is at least n·lo. Proved by induction over the loop's accumulation order. |
| `AnalogConversion.SumOfVoltsAtMost` | src/AnalogMeasure.cpp:135-145 | If every reading converts to at most hi volts, the accumulated sum is at most n·hi. Proved by induction over the loop's accumulation order. |
| `AnalogConversion.AverageWithin` | src/AnalogMeasure.cpp:135-147 | If five raw readings lie in [lo, hi], their average lies between the converted values of lo and hi. |
| `AnalogConversion.AverageBetweenExtremes` | src/AnalogMeasure.cpp:138-146 | The sampler's result lies between the smallest and the largest converted reading. |
| `AnalogConversion.AverageNonNegative` | src/AnalogMeasure.cpp:138-146 | Non-negative raw readings give a non-negative average. |
| `AnalogConversion.AverageOfConstant` | src/AnalogMeasure.cpp:135-147 | Five identical readings r average to exactly r × 0.0008 V. |
| `AnalogConversion.TwelveBitAverageBelowInputLimit` | src/AnalogMeasure.h:26-27 | Readings in 0..4095 average to at most 3.276 V, below the pins' 3.3 V input limit. |
| `AnalogConversion.CelsiusRoundTrip` | src/AnalogMeasure.cpp:81-86 | The temperature formula is invertible. Converting a voltage to degrees and back gives the voltage, and converting degrees to a voltage and back gives the degrees. |
| `AnalogConversion.CelsiusTransfer` | src/AnalogMeasure.cpp:81-86 | 0.5 V reads as the enclosure offset (0 °C). Each further 10 mV adds `TEMPERATURE_COMPENSATION` (0.965) degrees. |
| `AnalogConversion.ChannelValues` | src/AnalogMeasure.cpp:61-96 | Voltage is average × 10 × factor, so it is linear in the factor. Temperature is the Celsius formula and ignores the factor. Reference is the average unchanged. Every unsupported pin gives 9999.0. |
| `AnalogConversion.VoltageScenario` | src/AnalogMeasure.cpp:72-74 | Constant readings of 2048 units with factor 1.0 report 16.384 V. |
| `AnalogConversion.TemperatureScenario` | src/AnalogMeasure.cpp:81-86 | An average of 0.55 V reports 4.825 °C, whatever the calibration factor. |
| `AnalogConversion.CalibrationSelfConsistent` | src/AnalogMeasure.cpp:115-119 | Processing the voltage channel with the factor computed from an average reports exactly the known voltage for that same average. |
| `AnalogConversion.CalibrationFactorUnique` | src/AnalogMeasure.cpp:117-119 | The computed factor is the only factor under which that average reads as the known voltage. |
| `AnalogConversion.CalibrationFactorSign` | src/AnalogMeasure.cpp:119 | A positive known voltage and a positive average give a positive factor. A known voltage of 0 gives factor 0, and every later voltage reading is then 0. |
| `AnalogConversion.CalibrationScenario` | src/AnalogMeasure.cpp:119 | Known 24.0 V against a scaled measurement of 23.5 V gives 24.0/23.5, which lies between 1.02127 and 1.02128. |
| `AnalogMeasure.AnalogMeasurement.constructor` | src/AnalogMeasure.cpp:30-33 | A new instrument has `calibrationFactor == 1.0`. |
| `AnalogMeasure.AnalogMeasurement.SampleAndAverageAnalogInput` | src/AnalogMeasure.cpp:126-148 | The counted loop over exactly `SAMPLES_TAKEN` readings returns the converted sum divided by 5. The loop invariant ties the running sum to the readings consumed so far. |
| `AnalogMeasure.AnalogMeasurement.ProcessAnalogData` | src/AnalogMeasure.cpp:38-98 | Returns the pin's channel value for the sampled average and the current factor. It has no `modifies` clause, so `calibrationFactor` is unchanged. |
| `AnalogMeasure.AnalogMeasurement.CalibrateAnalogVoltage` | src/AnalogMeasure.cpp:100-122 | Sets `calibrationFactor` to known / (average × 10). The previous factor plays no part. |
| `AnalogMeasure.CalibrateThenMeasure` | src/AnalogMeasure.cpp:115-119 | Calibrating against v and then processing the voltage pin with the same readings returns exactly v. |
| `AnalogMeasure.CalibrateTwice` | src/AnalogMeasure.cpp:119 | After two calibrations, with a measurement in between, the factor reflects only the second calibration. The measurement does not change the factor. |

## Left out

- `analogRead` and `delay` are hardware and timing calls from the Particle runtime. The readings become the `readings` argument, and the wait of `ANALOG_SAMPLE_TIME` ms between readings is not modelled.
- IEEE single-precision rounding is not modelled. Every constant and every operation is exact `real` arithmetic, so float accumulation error in the sampler's sum is not captured.
- The `char` truncation of the pin argument and the `uint8_t` loop index are not modelled. Pins are the datatype `Pin`, and the loop counter is an unbounded integer.
- Particle's numeric values of A1, A2 and A4 are not part of this model. The pins are `Analog(1)`, `Analog(2)` and `Analog(4)`.
- `AnalogMeasure.AnalogMeasurement.CalibrateAnalogVoltage` requires the scaled average to be non-zero. The source divides unguarded. With all-zero readings the float result is infinite, or NaN when the known voltage is 0, and every later voltage reading is corrupted. Real arithmetic has no such values, so that outcome is excluded rather than modelled.
- `AnalogMeasure.AnalogMeasurement.SampleAndAverageAnalogInput` is public in the model. Dafny classes have no private members, so the fact that the source's sampler is private is not captured.
- `CALIBRATION_SAMPLES_TAKEN`, `REFERENCE_VOLTAGE` and the commented-out record tags are not modelled, because no code uses them. `#pragma once` and the include guard are build plumbing and are left out too.
