/** The capability names and the supported-device table of the integration's constants file. */
module Const {

  // Capability names common to every device.
  const PROT_ID_DEVICE_LOC := "PROT_ID_DEVICE_LOC"
  const ID_DEVICE_LOC := "ID_DEVICE_LOC"
  const NAME_DEVICE_LOC := "NAME_DEVICE_LOC"
  const PROD_CODE_DEVICE_LOC := "PROD_CODE_DEVICE_LOC"
  const VERSION_CFG := "VERSION_CFG"
  const PING_CMD := "PING_CMD"
  const DEVICE_TYPE_LOC := "DEVICE_TYPE_LOC"

  // Cover.
  const GOTO_POS_CMD := "GOTO_POS_CMD"

  // Sensor measurements.
  const SUN_DIRECTION_MEA := "SUN_DIRECTION_MEA"
  const SUN_HEIGHT_DEG_MEA := "SUN_HEIGHT_DEG_MEA"
  const LIGHT_VAL_LUX_MEA := "LIGHT_VAL_LUX_MEA"
  const WIND_SPEED_MS_MEA := "WIND_SPEED_MS_MEA"
  const TEMP_CURR_DEG_MEA := "TEMP_CURR_DEG_MEA"
  const RAIN_DETECTION_MEA := "RAIN_DETECTION_MEA"
  const SUN_DETECTION_MEA := "SUN_DETECTION_MEA"
  const CLOSE_CONTACT_MEA := "CLOSE_CONTACT_MEA"

  /** Model name per product code (the "name" column of the supported-device table; its "Type" column is unused by the core). */
  const SUPPORTED_DEVICES: map<string, string> :=
    map[
      "35001164" := "DuoFern Switch actuator",
      "35000262" := "DuoFern Universal actuator 2-channel",
      "35000462" := "DuoFern Universal dimming actuator",
      "36500572_A" := "Troll Comfort DuoFern",
      "36500572_S" := "Sun sensor Troll Comfort DuoFern",
      "36501512" := "Troll Comfort DuoFern",
      "35002414" := "Z-Wave Repeater with switching function",
      "35140462" := "DuoFern Universal dimmer",
      "35003064" := "DuoFern Radiator Actuator",
      "35003064_A" := "DuoFern Radiator Actuator",
      "35003064_S" := "Temperature sensor DuoFern Radiator Actuator",
      "32501812_A" := "DuoFern Room Thermostat",
      "32501812_S" := "Temperature sensor DuoFern Room thermostat",
      "35002319" := "Z-Wave radiator actuator",
      "35000662" := "DuoFern tubular motor actuator",
      "35000864" := "DuoFern Connect actuator",
      "36500172" := "Troll Basis DuoFern",
      "31500162" := "DuoFern tubular motor control B50/B55",
      "27601565" := "DuoFern tubular motor",
      "16234511_A" := "RolloTron Comfort DuoFern",
      "16234511_S" := "Sun sensor RolloTron Comfort DuoFern",
      "14236011" := "RolloTron radio beltwinder 60 kg",
      "14234511" := "RolloTron radio beltwinder",
      "45059071" := "RolloPort SX5 DuoFern",
      "32000064_A" := "DuoFern tubular motor actuator environmental sensor",
      "32000064_S" := "Sensor DuoFern Environmental sensor",
      "32501772_A" := "Actuator DuoFern Motion detector (indoor)",
      "32501772_S" := "Sensor DuoFern Motion detector (indoor)",
      "32000069" := "DuoFern Sun Sensor",
      "32001664" := "DuoFern Smoke Alarm Device",
      "32001464" := "DuoFern Awning monitor",
      "32002119" := "Z-Wave window/door contact",
      "32004219" := "HomePilot\U{AE} HD Camera (Indoor)",
      "32004329" := "HomePilot\U{AE} HD Camera (Outdoor)",
      "32004119" := "IP Camera",
      "99999999" := "Android Smartphone (GeoPilot)",
      "99999998" := "iOS Smartphone (GeoPilot)",
      "32003164" := "DuoFern Window/Door Contact",
      "32480366" := "DuoFern Standard manual transmitter 6 groups 48 devices",
      "32480361" := "DuoFern Standard manual transmitter 1 group 48 devices",
      "32010361" := "DuoFern Standard manual transmitter 1 group 1 device",
      "32060366" := "DuoFern Standard manual transmitter 1 group 6 devices",
      "32000062_S" := "Sensor DuoFern Radio transmitter UP",
      "32000062" := "DuoFern radio transmitter UP",
      "32501972_A" := "Actuator DuoFern Multiple Wall Controller 230V",
      "32501972_S" := "Sensor DuoFern Multiple Wall Controller 230V",
      "32501974" := "DuoFern Multiple Wall Controller BAT",
      "32160211" := "DuoFern Wall Controller",
      "34810060" := "DuoFern Central Operating Unit",
      "32501371" := "DuoFern HomeTimer",
      "35140662" := "DuoFern tubular motor actuator",
      "32501973" := "DuoFern Wall Controller 1 channel",
      "23602075" := "RolloTube S-line DuoFern",
      "25782075" := "RolloTube S-line Zip DuoFern",
      "23782076" := "RolloTube S-line Sun DuoFern",
      "35274001" := "addZ White + Colour LED E27",
      "35144001" := "addZ White + Colour LED E14",
      "35104001" := "addZ White + Colour LED GU10",
      "99999973" := "Zigbee White LED",
      "99999974" := "Zigbee tuneable white LED",
      "99999975" := "Zigbee RGBW LED",
      "99999976" := "Zigbee RGB LED",
      "99999950" := "ONVIF Camera",
      "32004464" := "DuoFern Sun/Wind Sensor",
      "32320364" := "DuoFern Standard manual transmitter 4 groups"
    ]

  /** The model reported for a product code that is not in the table. */
  const GENERIC_DEVICE := "Generic Device"
}
