/** Wind classification of the surf site (`getWindDirection`): a wind is
    offshore when its direction differs from the beach orientation by at most
    90 degrees, measured on the raw difference of the two angles. */
module Utilities {

  /** The beach orientation assumed when the caller gives none. */
  const DefaultOrientation := 270

  const Offshore := "Offshore"
  const Onshore := "Onshore"

  function Abs(x: int): nat {
    if x < 0 then -x else x
  }

  /** `getWindDirection(degrees, beachOrientation = 270)` on whole degrees. */
  function GetWindDirection(degrees: int, beachOrientation: int := DefaultOrientation): (r: string)
    ensures r == Offshore || r == Onshore
    ensures r == Onshore <==> 90 < Abs(degrees - beachOrientation) < 270
  {
    var difference := Abs(degrees - beachOrientation);
    if difference <= 90 || difference >= 270 then Offshore else Onshore
  }

  /** The classification depends only on how far the wind is from the
      orientation, not on which side. */
  lemma WindSymmetric(beachOrientation: int, d: int)
    ensures GetWindDirection(beachOrientation + d, beachOrientation)
         == GetWindDirection(beachOrientation - d, beachOrientation)
  {
    assert Abs(beachOrientation + d - beachOrientation) == Abs(beachOrientation - d - beachOrientation);
  }

  /** Angle between two compass directions, going the short way round. */
  function AngularDistance(a: int, b: int): (r: nat)
    requires 0 <= a <= 360 && 0 <= b <= 360
    ensures r <= 180
  {
    var d := Abs(a - b);
    if d <= 180 then d else 360 - d
  }

  /** For compass angles in [0, 360] the raw-difference test agrees with the
      geometric rule: offshore exactly when the wind is within 90 degrees of
      the orientation. */
  lemma {:induction false} WindMatchesCompass(degrees: int, beachOrientation: int)
    requires 0 <= degrees <= 360 && 0 <= beachOrientation <= 360
    ensures GetWindDirection(degrees, beachOrientation) == Offshore
        <==> AngularDistance(degrees, beachOrientation) <= 90
  {
    var d := Abs(degrees - beachOrientation);
    assert d <= 360;
    if d <= 180 {
      assert AngularDistance(degrees, beachOrientation) == d;
      assert d >= 270 ==> false;
    } else {
      assert AngularDistance(degrees, beachOrientation) == 360 - d;
    }
  }
}
