/**
 * The greeting clock (src/components/ClockWidget.tsx): a digital or analog
 * face, the greeting for the hour, and the user's name, the last two kept in
 * step with the settings events.
 */
module ClockWidget {
  import opened Wrappers
  import opened Storage

  const DigitalKey := "edge-homepage-digital-clock"
  const UserNameKey := "edge-homepage-username"

  /** The wall-clock fields the face reads from `new Date()`. */
  datatype Time = Time(hours: nat, minutes: nat, seconds: nat)

  predicate ValidTime(t: Time) {
    t.hours < 24 && t.minutes < 60 && t.seconds < 60
  }

  /** `getGreeting`: morning before 12, afternoon before 17, evening after. */
  function Greeting(hour: nat): (r: string)
    ensures r == "Good morning" <==> hour < 12
    ensures r == "Good afternoon" <==> 12 <= hour < 17
    ensures r == "Good evening" <==> hour >= 17
  {
    if hour < 12 then "Good morning" else if hour < 17 then "Good afternoon" else "Good evening"
  }

  /** The digital flag read at mount: anything but the exact text "false" means digital. */
  function InitialDigital(items: map<string, Value>): (r: bool)
    ensures !r <==> LookupText(items, DigitalKey) == Some("false")
  {
    LookupText(items, DigitalKey) != Some("false")
  }

  // Angles are in half-degrees, so the hour hand's half degree per minute stays exact.

  /** `seconds * 6 - 90` degrees. */
  function SecondAngle(t: Time): int {
    (t.seconds * 6 - 90) * 2
  }

  /** `minutes * 6 - 90` degrees. */
  function MinuteAngle(t: Time): int {
    (t.minutes * 6 - 90) * 2
  }

  /** `(hours % 12) * 30 + minutes * 0.5 - 90` degrees. */
  function HourAngle(t: Time): int {
    (t.hours % 12) * 60 + t.minutes - 180
  }

  /**
   * The hands point where a clock's should: each stays within one turn from
   * 12 o'clock (-90 degrees), the hour hand reads the same twelve hours apart,
   * and it moves exactly one hour-mark (30 degrees) per hour.
   */
  lemma HandsInRange(t: Time)
    requires ValidTime(t)
    ensures -180 <= SecondAngle(t) < 540 && -180 <= MinuteAngle(t) < 540 && -180 <= HourAngle(t) < 540
    ensures t.hours < 12 ==> HourAngle(t.(hours := t.hours + 12)) == HourAngle(t)
    ensures t.hours % 12 != 11 ==> HourAngle(t.(hours := t.hours + 1)) == HourAngle(t) + 60
  {
  }

  /** The minute hand leads the hour hand by the minutes' share of the hour it is in. */
  lemma HourHandFollowsMinutes(t: Time)
    requires ValidTime(t)
    ensures 12 * (HourAngle(t) + 180) == 720 * (t.hours % 12) + (MinuteAngle(t) + 180)
  {
  }

  class Clock {
    var time: Time
    var isDigital: bool
    var userName: string
    const store: Store

    constructor (store: Store, now: Time)
      ensures this.store == store && time == now
      ensures isDigital == InitialDigital(store.items) && userName == TextOr(store.items, UserNameKey, "User")
    {
      this.store := store;
      time := now;
      isDigital := InitialDigital(store.items);
      userName := TextOr(store.items, UserNameKey, "User");
    }

    /** The one-second timer. */
    method Tick(now: Time)
      modifies this`time
      ensures time == now
    {
      time := now;
    }

    method HandleClockTypeChange(isDigital: bool)
      modifies this`isDigital
      ensures this.isDigital == isDigital
    {
      this.isDigital := isDigital;
    }

    /** The event's name is taken as it is, even when empty. */
    method HandleUserNameChange(userName: string)
      modifies this`userName
      ensures this.userName == userName
    {
      this.userName := userName;
    }
  }
}
