/** Native build numbers derived from a parsed release version. The components are natural numbers. */
module NativeVersion {
  import opened Options

  datatype Version = Version(major: nat, minor: nat, patch: nat, beta: Option<nat>)

  datatype Native = Native(androidVersionCode: nat, iosBuildNumber: nat)

  datatype VersionError = NotCollisionFree | BetaOutOfRange | CodeOutOfRange | BuildNumberOutOfRange

  datatype Abi = ArmeabiV7a | Arm64V8a | X86 | X8664

  const STABLE_IOS_BUILD_SLOT := 999
  const MAX_SAFE_INTEGER := 9_007_199_254_740_991

  function GetNativeReleaseVersion(v: Version): Result<Native, VersionError> {
    if v.minor > 999 || v.patch > 999 then Err(NotCollisionFree)
    else if v.beta.Some? && (v.beta.value < 1 || v.beta.value >= STABLE_IOS_BUILD_SLOT) then Err(BetaOutOfRange)
    else
      var code := v.major * 1_000_000 + v.minor * 1_000 + v.patch;
      if code > MAX_SAFE_INTEGER || code <= 0 || code * 10 + 9 > 2_100_000_000 then Err(CodeOutOfRange)
      else
        var build := code * 1_000 + if v.beta.Some? then v.beta.value else STABLE_IOS_BUILD_SLOT;
        if build > MAX_SAFE_INTEGER then Err(BuildNumberOutOfRange) else Ok(Native(code, build))
  }

  function Suffix(abi: Abi): nat {
    match abi
    case ArmeabiV7a => 1
    case Arm64V8a => 2
    case X86 => 3
    case X8664 => 4
  }

  function FdroidVersionCode(n: Native, abi: Abi): nat {
    n.androidVersionCode * 10 + Suffix(abi)
  }

  predicate Accepted(v: Version) {
    GetNativeReleaseVersion(v).Ok?
  }

  function NativeOf(v: Version): Native
    requires Accepted(v)
  {
    GetNativeReleaseVersion(v).value
  }

  // ----- The order of versions -----

  predicate SameCore(a: Version, b: Version) {
    a.major == b.major && a.minor == b.minor && a.patch == b.patch
  }

  predicate CoreBefore(a: Version, b: Version) {
    || a.major < b.major
    || (a.major == b.major && (a.minor < b.minor || (a.minor == b.minor && a.patch < b.patch)))
  }

  /** Betas come before their stable release. */
  predicate Before(a: Version, b: Version) {
    CoreBefore(a, b) || (SameCore(a, b) && a.beta.Some? && (b.beta.None? || a.beta.value < b.beta.value))
  }

  /** The core of an accepted version can be read back from its Android code. */
  lemma CodeDecodes(v: Version)
    requires Accepted(v)
    ensures var code := NativeOf(v).androidVersionCode;
            code / 1_000_000 == v.major && code / 1_000 % 1_000 == v.minor && code % 1_000 == v.patch
  {
    var code := NativeOf(v).androidVersionCode;
    assert code / 1_000 == v.major * 1_000 + v.minor;
  }

  /** The build number is the code and the number of the beta, or 999. */
  lemma BuildNumberDecodes(v: Version)
    requires Accepted(v)
    ensures var native := NativeOf(v);
            && native.iosBuildNumber / 1_000 == native.androidVersionCode
            && native.iosBuildNumber % 1_000 == if v.beta.Some? then v.beta.value else 999
  {
  }

  /** The four codes of a version, one per ABI. */
  lemma FdroidCodesAre(n: Native)
    ensures FdroidVersionCode(n, ArmeabiV7a) == 10 * n.androidVersionCode + 1
    ensures FdroidVersionCode(n, Arm64V8a) == 10 * n.androidVersionCode + 2
    ensures FdroidVersionCode(n, X86) == 10 * n.androidVersionCode + 3
    ensures FdroidVersionCode(n, X8664) == 10 * n.androidVersionCode + 4
  {
  }

  /** Android codes order the cores. */
  lemma CodesFollowCores(a: Version, b: Version)
    requires Accepted(a) && Accepted(b)
    ensures NativeOf(a).androidVersionCode < NativeOf(b).androidVersionCode <==> CoreBefore(a, b)
    ensures NativeOf(a).androidVersionCode == NativeOf(b).androidVersionCode <==> SameCore(a, b)
  {
    CodeDecodes(a);
    CodeDecodes(b);
  }

  /** iOS build numbers follow the version order exactly. */
  lemma BuildNumbersFollowVersions(a: Version, b: Version)
    requires Accepted(a) && Accepted(b)
    ensures NativeOf(a).iosBuildNumber < NativeOf(b).iosBuildNumber <==> Before(a, b)
    ensures NativeOf(a).iosBuildNumber == NativeOf(b).iosBuildNumber <==> a == b
  {
    CodesFollowCores(a, b);
  }

  /** F-Droid codes tell core and ABI apart, and every code of a lower core is below every code of a
      higher one. */
  lemma FdroidCodesSeparate(a: Version, x: Abi, b: Version, y: Abi)
    requires Accepted(a) && Accepted(b)
    ensures FdroidVersionCode(NativeOf(a), x) == FdroidVersionCode(NativeOf(b), y) <==> SameCore(a, b) && x == y
    ensures CoreBefore(a, b) ==> FdroidVersionCode(NativeOf(a), x) < FdroidVersionCode(NativeOf(b), y)
  {
    CodesFollowCores(a, b);
  }

  /** Which error a version meets: the first that applies. */
  lemma ErrorsAre(v: Version)
    ensures GetNativeReleaseVersion(v) == Err(NotCollisionFree) <==> v.minor > 999 || v.patch > 999
    ensures GetNativeReleaseVersion(v) == Err(BetaOutOfRange)
            <==> v.minor <= 999 && v.patch <= 999 && v.beta.Some? && !(1 <= v.beta.value <= 998)
  {
  }

  /** What is accepted, the bounds of every code, and that the last check never fails. */
  lemma AcceptedIff(v: Version, abi: Abi)
    ensures Accepted(v)
            <==> && v.minor <= 999 && v.patch <= 999 && (v.beta.Some? ==> 1 <= v.beta.value <= 998)
                 && 1 <= v.major * 1_000_000 + v.minor * 1_000 + v.patch <= 209_999_999
    ensures GetNativeReleaseVersion(v) != Err(BuildNumberOutOfRange)
    ensures Accepted(v) ==> 0 < FdroidVersionCode(NativeOf(v), abi) <= 2_100_000_000
    ensures Accepted(v) ==> 0 < NativeOf(v).iosBuildNumber <= MAX_SAFE_INTEGER
  {
  }
}
