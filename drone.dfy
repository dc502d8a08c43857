/** The simulated drone hardware of the Tornado service: a hexacopter whose
    motor speed decides whether it is turned on, three light-emitting diodes
    with a brightness level each, and an altimeter. Property setters check
    the new value against the class bounds before they assign it; a rejected
    value raises `ValueError`, which is an `Outcome` here, and leaves the
    object as it was. The hardware latencies (`sleep`) are not modelled. */
module Drone {
  import opened Wrappers
  import Text

  /** Python's `ValueError`, with the message it carries. */
  datatype ValueError = ValueError(message: string)

  /** `Hexacopter.MIN_MOTOR_SPEED` and `Hexacopter.MAX_MOTOR_SPEED`. */
  const MinMotorSpeed: int := 0
  const MaxMotorSpeed: int := 500

  /** `LightEmittingDiode.MIN_BRIGHTNESS_LEVEL` and `MAX_BRIGHTNESS_LEVEL`. */
  const MinBrightnessLevel: int := 0
  const MaxBrightnessLevel: int := 255

  /** The range of `randint(0, 3000)`, the altimeter's reading in feet. */
  const MinAltitude: int := 0
  const MaxAltitude: int := 3000

  /** A snapshot of a hexacopter, as `Hexacopter.status` returns it. */
  datatype HexacopterStatus = HexacopterStatus(motorSpeed: int, isTurnedOn: bool)

  class Hexacopter {
    var motorSpeed: int
    var isTurnedOn: bool

    /** The speed lies within the bounds and the hexacopter is on exactly
        when its motors turn. */
    ghost predicate Valid()
      reads this
    {
      MinMotorSpeed <= motorSpeed <= MaxMotorSpeed && isTurnedOn == (motorSpeed != 0)
    }

    /** A new hexacopter stands still and is turned off. */
    constructor ()
      ensures Valid()
      ensures motorSpeed == MinMotorSpeed && !isTurnedOn
    {
      motorSpeed := MinMotorSpeed;
      isTurnedOn := false;
    }

    /** The `motor_speed` setter. The flag is recomputed with `is not 0`,
        which for the integers the setter accepts means `!= 0`. */
    method SetMotorSpeed(value: int) returns (outcome: Outcome<ValueError>)
      requires Valid()
      modifies this
      ensures Valid()
      ensures value < MinMotorSpeed ==>
        outcome == Fail(ValueError("The minimum speed is " + Text.IntToString(MinMotorSpeed)))
      ensures value > MaxMotorSpeed ==>
        outcome == Fail(ValueError("The maximum speed is " + Text.IntToString(MaxMotorSpeed)))
      ensures outcome.Fail? ==> motorSpeed == old(motorSpeed) && isTurnedOn == old(isTurnedOn)
      ensures MinMotorSpeed <= value <= MaxMotorSpeed ==>
        outcome == Pass && motorSpeed == value && (isTurnedOn <==> value != 0)
    {
      if value < MinMotorSpeed {
        return Fail(ValueError("The minimum speed is " + Text.IntToString(MinMotorSpeed)));
      }
      if value > MaxMotorSpeed {
        return Fail(ValueError("The maximum speed is " + Text.IntToString(MaxMotorSpeed)));
      }
      motorSpeed := value;
      isTurnedOn := motorSpeed != 0;
      outcome := Pass;
    }

    /** The `status` property: a snapshot of the current speed and flag,
        taken without changing the hexacopter. */
    method Status() returns (status: HexacopterStatus)
      requires Valid()
      ensures status.motorSpeed == motorSpeed && status.isTurnedOn == isTurnedOn
      ensures MinMotorSpeed <= status.motorSpeed <= MaxMotorSpeed
      ensures status.isTurnedOn <==> status.motorSpeed != 0
    {
      status := HexacopterStatus(motorSpeed, isTurnedOn);
    }
  }

  class LightEmittingDiode {
    /** The id and the description are set once, by the constructor. */
    const id: int
    const description: string
    var brightnessLevel: int

    ghost predicate Valid()
      reads this
    {
      MinBrightnessLevel <= brightnessLevel <= MaxBrightnessLevel
    }

    /** A new LED is dark. */
    constructor (id: int, description: string)
      ensures Valid()
      ensures this.id == id && this.description == description
      ensures brightnessLevel == MinBrightnessLevel
    {
      this.id := id;
      this.description := description;
      brightnessLevel := MinBrightnessLevel;
    }

    /** The `brightness_level` getter: the stored level, which lies within
        the bounds. */
    method BrightnessLevel() returns (level: int)
      requires Valid()
      ensures level == brightnessLevel
      ensures MinBrightnessLevel <= level <= MaxBrightnessLevel
    {
      level := brightnessLevel;
    }

    /** The `brightness_level` setter. */
    method SetBrightnessLevel(value: int) returns (outcome: Outcome<ValueError>)
      requires Valid()
      modifies this
      ensures Valid()
      ensures value < MinBrightnessLevel ==>
        outcome == Fail(ValueError("The minimum brightness level is " + Text.IntToString(MinBrightnessLevel)))
      ensures value > MaxBrightnessLevel ==>
        outcome == Fail(ValueError("The maximum brightness level is " + Text.IntToString(MaxBrightnessLevel)))
      ensures outcome.Fail? ==> brightnessLevel == old(brightnessLevel)
      ensures MinBrightnessLevel <= value <= MaxBrightnessLevel ==>
        outcome == Pass && brightnessLevel == value
    {
      if value < MinBrightnessLevel {
        return Fail(ValueError("The minimum brightness level is " + Text.IntToString(MinBrightnessLevel)));
      }
      if value > MaxBrightnessLevel {
        return Fail(ValueError("The maximum brightness level is " + Text.IntToString(MaxBrightnessLevel)));
      }
      brightnessLevel := value;
      outcome := Pass;
    }
  }

  /** Setting a brightness level and reading it back: an accepted level is
      read back as set, a rejected one leaves the previous level in place. */
  method SetThenReadBrightness(led: LightEmittingDiode, value: int) returns (outcome: Outcome<ValueError>, level: int)
    requires led.Valid()
    modifies led
    ensures outcome.Pass? <==> MinBrightnessLevel <= value <= MaxBrightnessLevel
    ensures outcome.Pass? ==> level == value
    ensures outcome.Fail? ==> level == old(led.brightnessLevel)
  {
    outcome := led.SetBrightnessLevel(value);
    level := led.BrightnessLevel();
  }

  class Altimeter {
    /** The `altitude` property: a reading in feet drawn at random from
        0..3000; here any value in that range may come back. */
    method Altitude() returns (feet: int)
      ensures MinAltitude <= feet <= MaxAltitude
    {
      feet :| MinAltitude <= feet <= MaxAltitude;
    }
  }

  class Drone {
    const hexacopter: Hexacopter
    const altimeter: Altimeter
    const redLed: LightEmittingDiode
    const greenLed: LightEmittingDiode
    const blueLed: LightEmittingDiode
    /** The `leds` dictionary, keyed by each LED's id. */
    const leds: map<int, LightEmittingDiode>

    /** `leds` has exactly the keys 1, 2 and 3, each bound to the LED whose
        id is that key. */
    predicate LedsKeyedById()
    {
      leds.Keys == {1, 2, 3} && forall k :: k in leds ==> leds[k].id == k
    }

    /** The drone's parts are distinct objects, each in a valid state. */
    ghost predicate Valid()
      reads this, hexacopter, redLed, greenLed, blueLed
    {
      && LedsKeyedById()
      && leds == map[1 := redLed, 2 := greenLed, 3 := blueLed]
      && redLed != greenLed && greenLed != blueLed && redLed != blueLed
      && hexacopter.Valid() && redLed.Valid() && greenLed.Valid() && blueLed.Valid()
    }

    constructor ()
      ensures Valid()
      ensures fresh(hexacopter) && fresh(altimeter)
      ensures fresh(redLed) && fresh(greenLed) && fresh(blueLed)
      ensures hexacopter.motorSpeed == MinMotorSpeed && !hexacopter.isTurnedOn
      ensures redLed.description == "Red LED" && greenLed.description == "Green LED"
      ensures blueLed.description == "Blue LED"
      ensures redLed.brightnessLevel == MinBrightnessLevel && greenLed.brightnessLevel == MinBrightnessLevel
      ensures blueLed.brightnessLevel == MinBrightnessLevel
    {
      hexacopter := new Hexacopter();
      altimeter := new Altimeter;
      var red := new LightEmittingDiode(1, "Red LED");
      var green := new LightEmittingDiode(2, "Green LED");
      var blue := new LightEmittingDiode(3, "Blue LED");
      redLed, greenLed, blueLed := red, green, blue;
      leds := map[red.id := red, green.id := green, blue.id := blue];
    }

    /** `leds[id]`: the LED with the given id, or `None` where the
        dictionary raises `KeyError`. */
    function Led(id: int): (r: Option<LightEmittingDiode>)
      requires LedsKeyedById()
      ensures r.Some? <==> 1 <= id <= 3
      ensures r.Some? ==> r.value.id == id
    {
      if id in leds then Some(leds[id]) else None
    }
  }
}
