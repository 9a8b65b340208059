/** The root-level utils.ts: an older copy of the colour helper of lib/utils.ts. */
module LegacyUtils {
  import opened Strings
  import Metrics
  import Utils

  /** applyHexOpacity as utils.ts writes it. */
  function ApplyHexOpacity(hex: string, alphaPercent: real): (r: string)
    ensures |r| >= |hex| + 2 && r[..|hex|] == hex
    ensures 0.0 <= alphaPercent <= 100.0 ==> |r| == |hex| + 2 && AllUpperHex(r[|hex|..])
  {
    var alpha := ToUpper(PadStart(IntToHex(Metrics.Round((alphaPercent / 100.0) * 255.0)), 2, '0'));
    assert alpha == Utils.AlphaSuffix(alphaPercent);
    Utils.SuffixDigits(alphaPercent);
    var r := hex + alpha;
    assert r[|hex|..] == alpha;
    r
  }

  /** The two copies agree on every input. */
  lemma SameAsLibUtils(hex: string, alphaPercent: real)
    ensures ApplyHexOpacity(hex, alphaPercent) == Utils.ApplyHexOpacity(hex, alphaPercent)
  {
  }
}
