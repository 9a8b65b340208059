/** The small converters of lib/utils.ts. */
module Utils {
  import opened Strings
  import opened Model
  import Metrics

  /** `Math.round((alphaPercent / 100) * 255)`: the alpha byte a colour suffix encodes. */
  function Alpha(alphaPercent: real): (a: int)
    ensures 0.0 <= alphaPercent <= 100.0 ==> 0 <= a <= 255
  {
    Metrics.Round((alphaPercent / 100.0) * 255.0)
  }

  /** The suffix `alpha.toString(16).padStart(2, '0').toUpperCase()`. */
  function AlphaSuffix(alphaPercent: real): string
  {
    ToUpper(PadStart(IntToHex(Alpha(alphaPercent)), 2, '0'))
  }

  /** For a percentage in [0, 100] the suffix is two upper-case hex digits spelling the alpha byte. */
  lemma SuffixDigits(alphaPercent: real)
    ensures |AlphaSuffix(alphaPercent)| >= 2
    ensures 0.0 <= alphaPercent <= 100.0 ==>
              var s := AlphaSuffix(alphaPercent);
              |s| == 2 && AllUpperHex(s) && HexValue(s) == Alpha(alphaPercent)
  {
    if 0.0 <= alphaPercent <= 100.0 {
      UpperHexOfNat(Alpha(alphaPercent), 2);
    }
  }

  /**
   * applyHexOpacity: the colour with an alpha suffix appended. For a percentage in
   * [0, 100] the suffix is exactly two upper-case hex digits whose value is the rounded
   * alpha byte.
   */
  function ApplyHexOpacity(hex: string, alphaPercent: real): (r: string)
    ensures |r| >= |hex| + 2 && r[..|hex|] == hex
    ensures 0.0 <= alphaPercent <= 100.0 ==>
              |r| == |hex| + 2 && AllUpperHex(r[|hex|..]) && HexValue(r[|hex|..]) == Alpha(alphaPercent)
  {
    var alpha := AlphaSuffix(alphaPercent);
    SuffixDigits(alphaPercent);
    var r := hex + alpha;
    assert r[|hex|..] == alpha;
    r
  }

  /** Fully transparent is suffix "00". */
  lemma TransparentSuffix(hex: string)
    ensures ApplyHexOpacity(hex, 0.0) == hex + "00"
  {
    assert Alpha(0.0) == 0;
    assert IntToHex(0) == "0";
    assert PadStart("0", 2, '0') == "00";
    assert ToUpper("00") == "00";
  }

  /** Fully opaque is suffix "FF". */
  lemma OpaqueSuffix(hex: string)
    ensures ApplyHexOpacity(hex, 100.0) == hex + "FF"
  {
    assert Alpha(100.0) == 255 by {
      assert (100.0 / 100.0) * 255.0 == 255.0;
      assert Metrics.Round(255.0) == 255;
    }
    assert NatToHex(15) == "f";
    assert NatToHex(255) == "ff" by {
      assert 255 / 16 == 15 && 255 % 16 == 15;
    }
    assert PadStart("ff", 2, '0') == "ff";
    assert ToUpper("ff") == "FF";
  }

  /** A higher opacity never yields a smaller alpha byte. */
  lemma AlphaMonotonic(p: real, q: real)
    requires p <= q
    ensures Alpha(p) <= Alpha(q)
  {
    Metrics.RoundMonotonic((p / 100.0) * 255.0, (q / 100.0) * 255.0);
  }

  /** convertLocationObjectToLocation: the sample a provider location holds, field for field. */
  function ConvertLocationObjectToLocation(location: LocationObject): (l: UncompletedLocation)
    ensures l.latitude == location.coords.latitude && l.longitude == location.coords.longitude
    ensures l.altitudeInMeters == location.coords.altitude && l.timestamp == location.timestamp
  {
    UncompletedLocation(location.coords.latitude, location.coords.longitude,
                        location.coords.altitude, location.timestamp)
  }

  /** The conversion loses nothing: it is injective. */
  lemma ConversionInjective(a: LocationObject, b: LocationObject)
    requires ConvertLocationObjectToLocation(a) == ConvertLocationObjectToLocation(b)
    ensures a == b
  {
  }
}
