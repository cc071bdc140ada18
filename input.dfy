/** Player input: the keyboard state a frame sees, and the mobile input record
    that the web page's joystick and buttons write and each frame copies. */
module Input {

  /** The keyboard as `player_movement` reads it: W, S, A and D count while
      held; Space and Enter count only in the frame they are pressed. */
  datatype Keys = Keys(w: bool, s: bool, a: bool, d: bool, space: bool, enter: bool)

  /** The four fields of the mobile input record, as a value. */
  datatype MobileSnapshot = MobileSnapshot(joystickX: real, joystickY: real, jump: bool, punch: bool)

  const AtRest: MobileSnapshot := MobileSnapshot(0.0, 0.0, false, false)

  /** The mobile input record. Two instances exist in the game: the shared one
      that the page's setters write, and the per-frame resource that the
      systems read, which is refreshed from the shared one each frame. */
  class MobileInput {
    var joystickX: real
    var joystickY: real
    var jump: bool
    var punch: bool

    function Snapshot(): MobileSnapshot
      reads this
    {
      MobileSnapshot(joystickX, joystickY, jump, punch)
    }

    /** The default record: joystick centred, no button pressed. */
    constructor ()
      ensures Snapshot() == AtRest
    {
      joystickX, joystickY := 0.0, 0.0;
      jump, punch := false, false;
    }

    /** The page reports a joystick deflection; the buttons are untouched. */
    method UpdateJoystick(x: real, y: real)
      modifies this
      ensures Snapshot() == old(Snapshot()).(joystickX := x, joystickY := y)
    {
      joystickX := x;
      joystickY := y;
    }

    /** The page reports the buttons; the joystick is untouched. */
    method UpdateButtons(jumpPressed: bool, punchPressed: bool)
      modifies this
      ensures Snapshot() == old(Snapshot()).(jump := jumpPressed, punch := punchPressed)
    {
      jump := jumpPressed;
      punch := punchPressed;
    }

    /** The per-frame copy: all four fields of the shared record. */
    method SyncFrom(shared: MobileInput)
      modifies this
      ensures Snapshot() == old(shared.Snapshot())
    {
      joystickX := shared.joystickX;
      joystickY := shared.joystickY;
      jump := shared.jump;
      punch := shared.punch;
    }
  }

  /** The two setters write disjoint fields, so whichever order the page calls
      them in, the next frame's copy sees exactly the values last written. */
  method LatestInputReachesFrame(x: real, y: real, jumpPressed: bool, punchPressed: bool, buttonsFirst: bool)
    returns (seen: MobileSnapshot)
    ensures seen == MobileSnapshot(x, y, jumpPressed, punchPressed)
  {
    var shared := new MobileInput();
    var resource := new MobileInput();
    if buttonsFirst {
      shared.UpdateButtons(jumpPressed, punchPressed);
      shared.UpdateJoystick(x, y);
    } else {
      shared.UpdateJoystick(x, y);
      shared.UpdateButtons(jumpPressed, punchPressed);
    }
    resource.SyncFrom(shared);
    seen := resource.Snapshot();
  }
}
