/** The view controller's pan handling as a class whose fields the handler
    updates in place. The camera-orbit node's Euler angles are the fields
    `orbitX` and `orbitY`, in units of pi radians. Each method is specified by the function of
    module PanOrbit that gives the new state from the old one.
 */
module TestingGestures {
  import opened PanOrbit

  class ViewController {
    var lastWidthRatio: real
    var lastHeightRatio: real
    var widthRatio: real
    var heightRatio: real
    var fingersNeededToPan: int
    var maxWidthRatioRight: real
    var maxWidthRatioLeft: real
    var maxHeightRatioXDown: real
    var maxHeightRatioXUp: real
    var lastFingersNumber: int
    var orbitX: real
    var orbitY: real

    /** The pan fields and orbit angles as one value. */
    ghost function State(): PanState
      reads this
    {
      PanState(lastWidthRatio, lastHeightRatio, widthRatio, heightRatio,
               fingersNeededToPan, maxWidthRatioRight, maxWidthRatioLeft,
               maxHeightRatioXDown, maxHeightRatioXUp, lastFingersNumber,
               Angles(orbitX, orbitY))
    }

    /** The field initialisers; a new orbit node is unrotated. */
    constructor ()
      ensures State() == Initial()
    {
      lastWidthRatio := 0.0;
      lastHeightRatio := 0.0;
      widthRatio := 0.0;
      heightRatio := 0.0;
      fingersNeededToPan := 1;
      maxWidthRatioRight := 1.0;
      maxWidthRatioLeft := -1.0;
      maxHeightRatioXDown := -0.3;
      maxHeightRatioXUp := 0.3;
      lastFingersNumber := 0;
      orbitX := 0.0;
      orbitY := 0.0;
      new;
    }

    /** The initial camera set-up: the orbit angles from the committed ratios. */
    method SetUpCameraOrbit()
      modifies this
      ensures State() == old(State()).(orbit := InitialAngles(old(State())))
    {
      orbitY := -2.0 * lastWidthRatio;
      orbitX := -lastHeightRatio;
    }

    /** The pan handler, one reassignment at a time. */
    method Pan(translationX: real, translationY: real, viewWidth: real, viewHeight: real,
               numberOfTouches: int, phase: Phase)
      requires numberOfTouches == fingersNeededToPan ==> viewWidth > 0.0 && viewHeight > 0.0
      modifies this
      ensures State() == Step(old(State()),
                              PanEvent(translationX, translationY, viewWidth, viewHeight,
                                       numberOfTouches, phase))
    {
      if numberOfTouches == fingersNeededToPan {
        FollowTranslation(translationX, translationY, viewWidth, viewHeight);
      }
      lastFingersNumber := if numberOfTouches > 0 then numberOfTouches else lastFingersNumber;
      if phase == Ended && lastFingersNumber == fingersNeededToPan {
        lastWidthRatio := widthRatio;
        lastHeightRatio := heightRatio;
      }
    }

    /** The body of the handler's finger-count test: the translation over the
        view's size, each ratio clamped by two sequential tests, the orbit
        angles from the clamped ratios, and the finger count recorded. */
    method FollowTranslation(translationX: real, translationY: real,
                             viewWidth: real, viewHeight: real)
      requires viewWidth > 0.0 && viewHeight > 0.0
      modifies this
      ensures State() == Track(old(State()),
                               PanEvent(translationX, translationY, viewWidth, viewHeight,
                                        fingersNeededToPan, Changed))
    {
      widthRatio := translationX / viewWidth;
      heightRatio := translationY / viewHeight;
      if heightRatio >= maxHeightRatioXUp {
        heightRatio := maxHeightRatioXUp;
      }
      if heightRatio <= maxHeightRatioXDown {
        heightRatio := maxHeightRatioXDown;
      }
      if widthRatio >= maxWidthRatioRight {
        widthRatio := maxWidthRatioRight;
      }
      if widthRatio <= maxWidthRatioLeft {
        widthRatio := maxWidthRatioLeft;
      }
      orbitY := -2.0 * widthRatio;
      orbitX := -heightRatio;
      lastFingersNumber := fingersNeededToPan;
    }
  }

  /** A one-finger drag across a quarter of a 1000-point-wide view, then the
      fingers lift: the orbit turns by -pi/2, the pitch stays 0, and the
      quarter-width ratio is committed for the next camera set-up. */
  method QuarterTurnGesture() returns (yaw: real, pitch: real, committed: real)
    ensures yaw == -0.5 && pitch == 0.0 && committed == 0.25
  {
    var vc := new ViewController();
    vc.SetUpCameraOrbit();
    var s0 := vc.State();
    assert s0 == Initial();
    var s1 := s0.(widthRatio := 0.25, heightRatio := 0.0,
                  orbit := Angles(0.0, -0.5), lastFingersNumber := 1);
    QuarterTurnAndLift();
    vc.Pan(250.0, 0.0, 1000.0, 800.0, 1, Changed);
    assert vc.State() == s1;
    vc.Pan(250.0, 0.0, 1000.0, 800.0, 0, Ended);
    assert vc.State() == s1.(lastWidthRatio := 0.25, lastHeightRatio := 0.0);
    yaw, pitch, committed := vc.orbitY, vc.orbitX, vc.lastWidthRatio;
  }
}
