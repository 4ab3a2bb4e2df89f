/** Build-time configuration of the analog measurement library: the sampling
    constants, the conversion constants and the three analog input pins the
    channel processor recognises. All arithmetic is over `real`. */
module AnalogConfig {

  /** Number of ADC readings averaged per measurement. */
  const SAMPLES_TAKEN: nat := 5

  /** Milliseconds waited between two readings (the wait itself is not modelled). */
  const ANALOG_SAMPLE_TIME: nat := 1

  /** Volts per ADC unit, about 3.3 V / 4096 units. */
  const ADC_INPUT_RESOLUTION: real := 0.0008

  /** Largest voltage the microcontroller's analog input pins accept. */
  const ADC_MAX_INPUT_VOLTAGE: real := 3.3

  /** Largest raw value of the 12-bit ADC. */
  const ADC_MAX_READING: int := 4095

  /** Undoes the external voltage divider on the voltage channel. */
  const VOLTAGE_MULTIPLIER: real := 10.0

  /** Gain correction of the temperature channel. */
  const TEMPERATURE_COMPENSATION: real := 0.965

  /** Degrees added for the sensor's placement inside the enclosure. */
  const ENCLOSURE_DELTA: real := 0.0

  /** In-band value returned for a pin that is not a supported channel. */
  const ADC_UNSUPPORTED: real := 9999.0

  /** A pin identifier of the microcontroller, analog (A0, A1, ...) or digital (D0, D1, ...). */
  datatype Pin = Analog(index: nat) | Digital(index: nat)

  const ADC_INPUT_VOLTAGE: Pin := Analog(1)
  const ADC_INPUT_TEMPERATURE: Pin := Analog(2)
  const ADC_REFERENCE_VOLTAGE: Pin := Analog(4)

  /** The measurement a pin selects. */
  datatype Channel = Voltage | Temperature | Reference | Unsupported

  /** The dispatch of the channel processor's `switch` on the pin. */
  function ChannelOf(pin: Pin): Channel
  {
    if pin == ADC_INPUT_VOLTAGE then Voltage
    else if pin == ADC_INPUT_TEMPERATURE then Temperature
    else if pin == ADC_REFERENCE_VOLTAGE then Reference
    else Unsupported
  }

  /** The three supported pins are pairwise distinct, so each pin selects
      exactly one channel and every other pin is unsupported. */
  lemma DispatchSelectsExactlyOne(pin: Pin)
    ensures ADC_INPUT_VOLTAGE != ADC_INPUT_TEMPERATURE
    ensures ADC_INPUT_VOLTAGE != ADC_REFERENCE_VOLTAGE
    ensures ADC_INPUT_TEMPERATURE != ADC_REFERENCE_VOLTAGE
    ensures ChannelOf(pin) == Voltage <==> pin == ADC_INPUT_VOLTAGE
    ensures ChannelOf(pin) == Temperature <==> pin == ADC_INPUT_TEMPERATURE
    ensures ChannelOf(pin) == Reference <==> pin == ADC_REFERENCE_VOLTAGE
    ensures ChannelOf(pin) == Unsupported <==>
              pin !in {ADC_INPUT_VOLTAGE, ADC_INPUT_TEMPERATURE, ADC_REFERENCE_VOLTAGE}
  {
  }
}
