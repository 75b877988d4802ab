/**
 * The CMake package descriptor (packages/cmake.py): the constructor splits
 * the version into three integers, the identity is `cmake-<version>` and the
 * download URL is formatted from the three parts.
 */
module CMake {

  import opened Wrappers
  import Strs

  datatype CMake = CMake(version: string, major: int, minor: int, revision: int)

  /** `int(part)` for every part of `version.split('.')`, failing at the first part that is not an integer. */
  function ParseParts(parts: seq<string>): (r: Result<seq<int>>)
    ensures r.Ok? <==> forall k :: 0 <= k < |parts| ==> Strs.ParseInt(parts[k]).Some?
    ensures r.Ok? ==> |r.value| == |parts| && forall k :: 0 <= k < |parts| ==> Strs.ParseInt(parts[k]) == Some(r.value[k])
    ensures r.Err? ==> r.error.ValueError?
  {
    MapInt(Strs.ParseInt, parts)
  }

  /** `map(int, parts)` forced into a list, for an `int` that is the parameter `parse`. */
  function MapInt(parse: string -> Option<int>, parts: seq<string>): (r: Result<seq<int>>)
    ensures r.Ok? <==> forall k :: 0 <= k < |parts| ==> parse(parts[k]).Some?
    ensures r.Ok? ==> |r.value| == |parts| && forall k :: 0 <= k < |parts| ==> parse(parts[k]) == Some(r.value[k])
    ensures r.Err? ==> r.error.ValueError?
  {
    if |parts| == 0 then Ok([])
    else
      var head := parse(parts[0]);
      var tail := MapInt(parse, parts[1..]);
      assert forall k :: 1 <= k < |parts| ==> parts[k] == parts[1..][k - 1];
      if head.None? then Err(ValueError("invalid literal for int() with base 10: '" + parts[0] + "'"))
      else if tail.Err? then tail
      else Ok([head.value] + tail.value)
  }

  /**
   * `CMake(version)`: every dot-separated part is converted first (a bad
   * part is a `ValueError`), then the count is asserted to be three.
   */
  function New(version: string): (r: Result<CMake>)
    ensures var parts := Strs.Split(version, '.');
      r.Ok? <==> |parts| == 3 && forall k :: 0 <= k < 3 ==> Strs.ParseInt(parts[k]).Some?
    ensures var parts := Strs.Split(version, '.');
      r.Ok? ==> && r.value.version == version
                && Strs.ParseInt(parts[0]) == Some(r.value.major)
                && Strs.ParseInt(parts[1]) == Some(r.value.minor)
                && Strs.ParseInt(parts[2]) == Some(r.value.revision)
    ensures var parts := Strs.Split(version, '.');
      r.Err? ==> (r.error == AssertionError <==> forall k :: 0 <= k < |parts| ==> Strs.ParseInt(parts[k]).Some?)
  {
    var parts := Strs.Split(version, '.');
    match ParseParts(parts)
    case Err(e) => Err(e)
    case Ok(vs) =>
      if |vs| != 3 then Err(AssertionError)
      else Ok(CMake(version, vs[0], vs[1], vs[2]))
  }

  /** `ident()`. */
  function Ident(c: CMake): (r: string)
    ensures Strs.StartsWith(r, "cmake-") && r[6..] == c.version
  {
    "cmake-" + c.version
  }

  /** `url.format(s=self)`. */
  function Url(c: CMake): string
  {
    var mm := Strs.IntToString(c.major) + "." + Strs.IntToString(c.minor);
    "https://cmake.org/files/v" + mm + "/cmake-" + mm + "." + Strs.IntToString(c.revision) + ".tar.gz"
  }

  /** The version string `str(major).str(minor).str(revision)`. */
  function VersionOf(major: int, minor: int, revision: int): string
  {
    Strs.IntToString(major) + "." + Strs.IntToString(minor) + "." + Strs.IntToString(revision)
  }

  /**
   * A version printed from three integers is accepted and gives them back,
   * and the URL then names the tarball of exactly that version.
   */
  lemma NewRoundTrip(major: int, minor: int, revision: int)
    ensures var v := VersionOf(major, minor, revision);
      && New(v) == Ok(CMake(v, major, minor, revision))
      && Url(New(v).value) == "https://cmake.org/files/v" + Strs.IntToString(major) + "." + Strs.IntToString(minor)
                              + "/cmake-" + v + ".tar.gz"
  {
    var v := VersionOf(major, minor, revision);
    var a, b, c := Strs.IntToString(major), Strs.IntToString(minor), Strs.IntToString(revision);
    SplitVersion(major, minor, revision);
    ParsePrinted(major, minor, revision);
    assert Strs.Split(v, '.') == [a, b, c];
    assert ParseParts([a, b, c]) == Ok([major, minor, revision]);
    assert New(v) == Ok(CMake(v, major, minor, revision));
    UrlOf(major, minor, revision);
  }

  lemma UrlOf(major: int, minor: int, revision: int)
    ensures Url(CMake(VersionOf(major, minor, revision), major, minor, revision))
            == "https://cmake.org/files/v" + Strs.IntToString(major) + "." + Strs.IntToString(minor)
               + "/cmake-" + VersionOf(major, minor, revision) + ".tar.gz"
  {
  }

  lemma ParsePrinted(major: int, minor: int, revision: int)
    ensures ParseParts([Strs.IntToString(major), Strs.IntToString(minor), Strs.IntToString(revision)])
            == Ok([major, minor, revision])
  {
    var vals := [major, minor, revision];
    var parts := [Strs.IntToString(vals[0]), Strs.IntToString(vals[1]), Strs.IntToString(vals[2])];
    forall k | 0 <= k < 3 ensures Strs.ParseInt(parts[k]) == Some(vals[k]) {
      assert parts[k] == Strs.IntToString(vals[k]);
      Strs.ParseIntRoundTrip(vals[k]);
    }
    ParsePartsOf(parts, vals);
  }

  lemma ParsePartsOf(parts: seq<string>, vals: seq<int>)
    requires |parts| == |vals| && forall k :: 0 <= k < |parts| ==> Strs.ParseInt(parts[k]) == Some(vals[k])
    ensures ParseParts(parts) == Ok(vals)
  {
    var r := ParseParts(parts);
    assert r.value == vals;
  }

  lemma SplitVersion(major: int, minor: int, revision: int)
    ensures Strs.Split(VersionOf(major, minor, revision), '.')
            == [Strs.IntToString(major), Strs.IntToString(minor), Strs.IntToString(revision)]
  {
    var a, b, c := Strs.IntToString(major), Strs.IntToString(minor), Strs.IntToString(revision);
    NoDot(major);
    NoDot(minor);
    NoDot(revision);
    Strs.SplitJoin([a, b, c], '.');
    assert [a, b, c][1..] == [b, c] && [b, c][1..] == [c];
    assert Strs.Join(".", [c]) == c;
    assert Strs.Join(".", [b, c]) == b + "." + c;
    assert Strs.Join(".", [a, b, c]) == a + "." + Strs.Join(".", [b, c]);
    assert VersionOf(major, minor, revision) == Strs.Join(".", [a, b, c]);
  }

  /** A printed integer holds no '.'. */
  lemma NoDot(i: int)
    ensures '.' !in Strs.IntToString(i)
  {
    var d := Strs.NatToString(if i < 0 then -i else i);
    assert forall k :: 0 <= k < |d| ==> Strs.IsDigit(d[k]);
    if i < 0 {
      assert Strs.IntToString(i) == "-" + d;
    }
  }
}
