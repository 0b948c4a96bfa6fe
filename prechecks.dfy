/** lib/BlackPearl/server/prechecks.py: the Python version check run before the server starts. */
module Prechecks {
  import PyStr

  /** `sys.version_info[:3]`. */
  datatype Version = Version(major: nat, minor: nat, micro: nat)

  /** `MIN_SUPPORTED_VERSION`. */
  const MinSupported: Version := Version(3, 4, 2)

  /** The number `check_python` compares versions by. */
  function VersionNumber(v: Version): nat
  {
    v.major * 1000000 + v.minor * 10000 + v.micro * 10
  }

  function VersionText(v: Version): string
  {
    PyStr.NatToString(v.major) + "." + PyStr.NatToString(v.minor) + "." + PyStr.NatToString(v.micro)
  }

  datatype Check = Passed | Raised(message: string)

  /** `check_python`: raises, naming both versions, when the running version's number is below
      the minimum's. */
  function CheckPython(v: Version): (r: Check)
    ensures r.Raised? <==> VersionNumber(v) < VersionNumber(MinSupported)
  {
    if VersionNumber(v) < VersionNumber(MinSupported) then
      Raised("Min python version supported is '" + VersionText(MinSupported)
             + "', but current version is '" + VersionText(v) + "'")
    else Passed
  }

  /** `check_all` runs only the Python check. */
  function CheckAll(v: Version): (r: Check)
    ensures r == CheckPython(v)
  {
    CheckPython(v)
  }

  /** The minimum itself is accepted. */
  lemma MinimumAccepted()
    ensures CheckPython(MinSupported) == Passed
  {
  }

  /** Lexicographic order on version triples. */
  predicate Below(a: Version, b: Version)
  {
    a.major < b.major
    || (a.major == b.major && a.minor < b.minor)
    || (a.major == b.major && a.minor == b.minor && a.micro < b.micro)
  }

  /** While minor numbers stay below 100 and micro numbers below 1000, comparing the numbers is
      comparing the triples lexicographically, so the check rejects exactly the versions older
      than 3.4.2. */
  lemma NumberOrderIsLexicographic(a: Version, b: Version)
    requires a.minor < 100 && a.micro < 1000 && b.minor < 100 && b.micro < 1000
    ensures VersionNumber(a) < VersionNumber(b) <==> Below(a, b)
  {
    var la := a.minor * 10000 + a.micro * 10;
    var lb := b.minor * 10000 + b.micro * 10;
    assert la < 1000000 && lb < 1000000;
    if a.major < b.major {
      assert a.major * 1000000 + 1000000 <= b.major * 1000000;
    } else if a.major > b.major {
      assert b.major * 1000000 + 1000000 <= a.major * 1000000;
    } else if a.minor < b.minor {
      assert a.minor * 10000 + 10000 <= b.minor * 10000;
    } else if a.minor > b.minor {
      assert b.minor * 10000 + 10000 <= a.minor * 10000;
    }
  }

  lemma CheckRejectsOlder(v: Version)
    requires v.minor < 100 && v.micro < 1000
    ensures CheckPython(v).Raised? <==> Below(v, MinSupported)
  {
    NumberOrderIsLexicographic(v, MinSupported);
  }
}
