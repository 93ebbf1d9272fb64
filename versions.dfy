// Server version checks: a table of the DPF server versions the library knows
// by key, and the comparisons of a server's version against one of them.
// Versions are compared as `packaging` compares release numbers: trailing
// zeros do not count, and otherwise the numbers compare lexicographically.
module Versions {
  import opened Common

  /**
   * `_DpfVersionInfo`: a server version, given by its release numbers
   * (`"7.1"` is `[7, 1]`), the Workbench release it shipped with and what it brought.
   */
  datatype DpfVersionInfo = DpfVersionInfo(serverVersion: seq<nat>, wbVersion: string, description: string)

  /**
   * `_DPF_VERSIONS`: the known versions by key. The description of "8.0" keeps
   * the indentation its backslash continuation carries into the string.
   */
  function DpfVersions(): map<string, DpfVersionInfo>
  {
    map[
      "5.0" := DpfVersionInfo([5, 0], "2023 R1", Description50),
      "7.0" := DpfVersionInfo([7, 0], "2024 R1 pre 0", Description70),
      "7.1" := DpfVersionInfo([7, 1], "2024 R1", Description71),
      "8.0" := DpfVersionInfo([8, 0], "2024 R2 pre 0", Description80)]
  }

  const Description50: string := "Initial release of DPF Composites."
  const Description70: string := "DPF Composites plugin with sub-operators."
  const Description71: string := "DPF Composites: layer index starts at 1. Material names."
  const Description80: string := "DPF Composites: reference surface support and                                                    section data from RST"

  /** Release numbers without their trailing zeros: `8.0` and `8` are the same version. */
  function Trim(v: seq<nat>): (r: seq<nat>)
    ensures |r| <= |v| && r == v[..|r|]
    ensures r == [] || r[|r| - 1] != 0
    ensures forall i :: |r| <= i < |v| ==> v[i] == 0
  {
    if v == [] || v[|v| - 1] != 0 then v else Trim(v[..|v| - 1])
  }

  /** Lexicographic order on release numbers; a proper prefix comes first. */
  predicate LexLess(a: seq<nat>, b: seq<nat>)
  {
    b != [] && (a == [] || a[0] < b[0] || (a[0] == b[0] && LexLess(a[1..], b[1..])))
  }

  /** `version.parse(a) < version.parse(b)` on release numbers. */
  predicate Older(a: seq<nat>, b: seq<nat>)
  {
    LexLess(Trim(a), Trim(b))
  }

  /** `_check_key`: a key outside the table raises RuntimeError. */
  function CheckKey(ver: string): (r: Option<Error>)
    ensures r.None? <==> ver in DpfVersions()
    ensures r.Some? ==> r.value == RuntimeError
  {
    if ver in DpfVersions() then None else Some(RuntimeError)
  }

  /** `version_older_than`: the key is checked first, then the server's version is compared with the table's. */
  function VersionOlderThan(server: seq<nat>, ver: string): (r: Result<bool>)
    ensures r.Err? <==> CheckKey(ver).Some?
    ensures r.Err? ==> r.error == RuntimeError
    ensures r.Ok? ==> (r.value <==> Older(server, DpfVersions()[ver].serverVersion))
  {
    if CheckKey(ver).Some? then Err(CheckKey(ver).value)
    else Ok(Older(server, DpfVersions()[ver].serverVersion))
  }

  /** `version_equal_or_later`: the key is checked first, then `>=` on the versions. */
  function VersionEqualOrLater(server: seq<nat>, ver: string): (r: Result<bool>)
    ensures r.Err? <==> CheckKey(ver).Some?
    ensures r.Err? ==> r.error == RuntimeError
    ensures r.Ok? ==> (r.value <==> !Older(server, DpfVersions()[ver].serverVersion))
  {
    if CheckKey(ver).Some? then Err(CheckKey(ver).value)
    else Ok(!LexLess(Trim(server), Trim(DpfVersions()[ver].serverVersion)))
  }

  /** The table holds exactly the keys "5.0", "7.0", "7.1" and "8.0". */
  lemma KnownKeys()
    ensures DpfVersions().Keys == {"5.0", "7.0", "7.1", "8.0"}
  {
  }

  /** Both comparisons reject the same keys, and for a known key exactly one of them holds. */
  lemma OlderXorEqualOrLater(server: seq<nat>, ver: string)
    ensures VersionOlderThan(server, ver).Err? <==> VersionEqualOrLater(server, ver).Err?
    ensures VersionOlderThan(server, ver).Ok? ==>
      VersionOlderThan(server, ver).value != VersionEqualOrLater(server, ver).value
  {
  }

  /** Of two release numbers without trailing zeros, exactly one is smaller, or they are equal. */
  lemma {:induction false} LexTrichotomy(a: seq<nat>, b: seq<nat>)
    ensures LexLess(a, b) || LexLess(b, a) || a == b
    ensures !(LexLess(a, b) && LexLess(b, a))
    ensures !LexLess(a, a)
  {
    if a != [] && b != [] {
      LexTrichotomy(a[1..], b[1..]);
      if a[0] == b[0] && a[1..] == b[1..] {
        assert a == [a[0]] + a[1..] && b == [b[0]] + b[1..];
      }
    } else if a != [] {
      LexTrichotomy(a[1..], a[1..]);
    }
  }

  /** The order is transitive, so a server older than an older version is older than a newer one. */
  lemma {:induction false} LexTransitive(a: seq<nat>, b: seq<nat>, c: seq<nat>)
    requires LexLess(a, b) && LexLess(b, c)
    ensures LexLess(a, c)
  {
    if a != [] && a[0] == b[0] && b[0] == c[0] {
      LexTransitive(a[1..], b[1..], c[1..]);
    }
  }

  /** Trailing zeros do not change the answer: `8` is neither older nor newer than `8.0`. */
  lemma TrailingZerosIgnored(v: seq<nat>)
    ensures !Older(v + [0], v) && !Older(v, v + [0])
  {
    assert (v + [0])[..|v|] == v;
    LexTrichotomy(Trim(v), Trim(v));
  }
}
