/** The diagnostic checks `app.js` runs before any AR object is made: the
    script-tag order check, the presence check of the THREE / THREEx globals,
    and the existence probes of the camera-parameter and marker-pattern files. */
module Preflight {

  const ThreeSrc := "./libs/three.min.js"
  const ArjsSrc := "./libs/ar.js"
  const AppSrc := "./app.js"

  datatype MissingScript = MissingThree | MissingArjs | MissingApp

  /** The order verdict: not checked when a tag is missing. */
  datatype OrderVerdict = NotChecked | OrderOk | OrderWrong

  /** The warnings for missing tags, in check order, and the order verdict. */
  datatype ScriptReport = ScriptReport(missing: seq<MissingScript>, verdict: OrderVerdict)

  /** `Array.prototype.indexOf`: the first index holding `x`, or -1. */
  function IndexOf(s: seq<string>, x: string): (i: int)
    ensures -1 <= i < |s|
    ensures i == -1 <==> x !in s
    ensures 0 <= i ==> s[i] == x && x !in s[..i]
    decreases |s|
  {
    if s == [] then -1
    else if s[0] == x then 0
    else
      var j := IndexOf(s[1..], x);
      if j == -1 then -1
      else
        assert s[..j + 1] == [s[0]] + s[1..][..j];
        j + 1
  }

  /** `i` is the index of the first occurrence of `x` in `s`. */
  predicate FirstAt(s: seq<string>, i: int, x: string) {
    0 <= i < |s| && s[i] == x && x !in s[..i]
  }

  lemma FirstAtIsIndexOf(s: seq<string>, i: int, x: string)
    requires FirstAt(s, i, x)
    ensures IndexOf(s, x) == i
  {
    var k := IndexOf(s, x);
    assert k != -1;
  }

  /** `checkScriptOrder` over the `src` attributes of the page's script tags. */
  function CheckScriptOrder(scripts: seq<string>): (r: ScriptReport)
    ensures MissingThree in r.missing <==> ThreeSrc !in scripts
    ensures MissingArjs in r.missing <==> ArjsSrc !in scripts
    ensures MissingApp in r.missing <==> AppSrc !in scripts
    ensures |r.missing| == (if ThreeSrc in scripts then 0 else 1) + (if ArjsSrc in scripts then 0 else 1) +
                           (if AppSrc in scripts then 0 else 1)
    ensures r.verdict == NotChecked <==> r.missing != []
  {
    var three := IndexOf(scripts, ThreeSrc);
    var arjs := IndexOf(scripts, ArjsSrc);
    var app := IndexOf(scripts, AppSrc);
    var missing :=
      (if three == -1 then [MissingThree] else []) +
      (if arjs == -1 then [MissingArjs] else []) +
      (if app == -1 then [MissingApp] else []);
    var verdict :=
      if three == -1 || arjs == -1 || app == -1 then NotChecked
      else if three < arjs && arjs < app then OrderOk
      else OrderWrong;
    ScriptReport(missing, verdict)
  }

  /** The missing-tag warnings come in check order: three.min.js, ar.js,
      app.js, one for each tag absent and none other. */
  lemma {:induction false} MissingInCheckOrder(s: seq<string>)
    ensures CheckScriptOrder(s).missing ==
              (if ThreeSrc in s then [] else [MissingThree]) +
              (if ArjsSrc in s then [] else [MissingArjs]) +
              (if AppSrc in s then [] else [MissingApp])
  {
  }

  /** The order is reported OK exactly when the first three.min.js tag comes
      strictly before the first ar.js tag, which comes strictly before the
      first app.js tag. */
  lemma OrderOkIff(s: seq<string>)
    ensures CheckScriptOrder(s).verdict == OrderOk <==>
              exists i, j, k :: FirstAt(s, i, ThreeSrc) && FirstAt(s, j, ArjsSrc) && FirstAt(s, k, AppSrc) && i < j < k
  {
    if CheckScriptOrder(s).verdict == OrderOk {
      var i, j, k := IndexOf(s, ThreeSrc), IndexOf(s, ArjsSrc), IndexOf(s, AppSrc);
      assert FirstAt(s, i, ThreeSrc) && FirstAt(s, j, ArjsSrc) && FirstAt(s, k, AppSrc) && i < j < k;
    }
    if exists i, j, k :: FirstAt(s, i, ThreeSrc) && FirstAt(s, j, ArjsSrc) && FirstAt(s, k, AppSrc) && i < j < k {
      var i, j, k :| FirstAt(s, i, ThreeSrc) && FirstAt(s, j, ArjsSrc) && FirstAt(s, k, AppSrc) && i < j < k;
      FirstAtIsIndexOf(s, i, ThreeSrc);
      FirstAtIsIndexOf(s, j, ArjsSrc);
      FirstAtIsIndexOf(s, k, AppSrc);
    }
  }

  lemma IndexOfPrefix(s: seq<string>, t: seq<string>, x: string)
    requires x in s
    ensures IndexOf(s + t, x) == IndexOf(s, x)
  {
    var i := IndexOf(s, x);
    assert (s + t)[..i] == s[..i];
    FirstAtIsIndexOf(s + t, i, x);
  }

  /** Only first occurrences count: once all three tags are present, further
      tags change neither the warnings nor the verdict. */
  lemma LaterTagsDoNotMatter(s: seq<string>, t: seq<string>)
    requires ThreeSrc in s && ArjsSrc in s && AppSrc in s
    ensures CheckScriptOrder(s + t) == CheckScriptOrder(s)
  {
    IndexOfPrefix(s, t, ThreeSrc);
    IndexOfPrefix(s, t, ArjsSrc);
    IndexOfPrefix(s, t, AppSrc);
  }

  /** How the script continues after the global checks. */
  datatype Startup = AbortNoThree | AbortNoThreex | InitStarted

  /** A missing THREE aborts before THREEx is looked at; a missing THREEx
      aborts; otherwise `init` starts. */
  function CheckGlobals(hasThree: bool, hasThreex: bool): (r: Startup)
    ensures r == InitStarted <==> hasThree && hasThreex
    ensures !hasThree ==> r == AbortNoThree
    ensures hasThree && !hasThreex ==> r == AbortNoThreex
  {
    if !hasThree then AbortNoThree
    else if !hasThreex then AbortNoThreex
    else InitStarted
  }

  /** The two assets probed before initialisation. */
  datatype Asset = CameraParameters | MarkerPattern

  /** How the HEAD request for an asset's url turned out: a response with
      its `ok` flag and status, or a thrown exception. */
  datatype FetchOutcome = Responded(ok: bool, status: int) | Threw

  datatype ProbeReport = Confirmed(asset: Asset) | HttpFailed(asset: Asset, status: int) | FetchThrew(asset: Asset)

  datatype Probe = Probe(passed: bool, report: ProbeReport)

  /** `checkAsset`: true exactly when the request resolved with an ok
      response; a non-ok status and an exception both give false, each with
      its own report. */
  function CheckAsset(asset: Asset, outcome: FetchOutcome): (p: Probe)
    ensures p.passed <==> outcome.Responded? && outcome.ok
    ensures p.report.asset == asset
    ensures p.report.Confirmed? <==> p.passed
    ensures p.report.HttpFailed? <==> outcome.Responded? && !outcome.ok
    ensures p.report.HttpFailed? ==> p.report.status == outcome.status
    ensures p.report.FetchThrew? <==> outcome.Threw?
  {
    match outcome
    case Threw => Probe(false, FetchThrew(asset))
    case Responded(ok, status) =>
      if !ok then Probe(false, HttpFailed(asset, status)) else Probe(true, Confirmed(asset))
  }

  /** The preflight gate of `init`: both probes run, camera parameters first
      and then the pattern, and initialisation may go on only when both pass. */
  function AssetGate(camera: FetchOutcome, pattern: FetchOutcome): (r: (bool, seq<ProbeReport>))
    ensures |r.1| == 2 && r.1[0].asset == CameraParameters && r.1[1].asset == MarkerPattern
    ensures r.0 <==> camera.Responded? && camera.ok && pattern.Responded? && pattern.ok
    ensures r.1 == [CheckAsset(CameraParameters, camera).report, CheckAsset(MarkerPattern, pattern).report]
  {
    var okCamera := CheckAsset(CameraParameters, camera);
    var okPattern := CheckAsset(MarkerPattern, pattern);
    (okCamera.passed && okPattern.passed, [okCamera.report, okPattern.report])
  }
}
