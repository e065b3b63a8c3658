/** `Array.prototype.join` over strings, and the split that undoes it. */
module Strings {
  import opened Wrappers

  /** The separator the track records use between artist names. */
  const ArtistSeparator: string := ", "

  /** The summed length of some strings. */
  function TotalLength(parts: seq<string>): nat {
    if parts == [] then 0 else |parts[0]| + TotalLength(parts[1..])
  }

  /** `parts.join(sep)`: the parts in order, with `sep` between neighbours. */
  function Join(parts: seq<string>, sep: string): (r: string)
    ensures parts == [] ==> r == ""
    ensures parts != [] ==> |r| == TotalLength(parts) + (|parts| - 1) * |sep|
    ensures parts != [] ==> r[..|parts[0]|] == parts[0]
    decreases |parts|
  {
    if |parts| == 0 then ""
    else if |parts| == 1 then parts[0]
    else parts[0] + sep + Join(parts[1..], sep)
  }

  /** `sep` occurs in `s` at position `k`. */
  predicate OccursAt(s: string, sep: string, k: int) {
    0 <= k && k + |sep| <= |s| && s[k..k + |sep|] == sep
  }

  /** The first position at or after `from` where `sep` occurs in `s`. */
  function Find(s: string, sep: string, from: nat): (r: Option<nat>)
    ensures r.Some? ==> from <= r.value && OccursAt(s, sep, r.value)
    ensures r.Some? ==> forall j :: from <= j < r.value ==> !OccursAt(s, sep, j)
    ensures r.None? ==> forall j :: from <= j ==> !OccursAt(s, sep, j)
    decreases |s| - from
  {
    if from + |sep| > |s| then None
    else if s[from..from + |sep|] == sep then Some(from)
    else Find(s, sep, from + 1)
  }

  /** `s.split(sep)` for a non-empty separator. */
  function Split(s: string, sep: string): (r: seq<string>)
    requires sep != ""
    ensures |r| >= 1
    decreases |s|
  {
    match Find(s, sep, 0)
    case None => [s]
    case Some(k) => [s[..k]] + Split(s[k + |sep|..], sep)
  }

  /** `sep` does not occur anywhere in `s`. */
  predicate Free(s: string, sep: string) {
    forall j :: 0 <= j <= |s| ==> !OccursAt(s, sep, j)
  }

  /** Splitting the joined artist names gives back the names, provided none of
      them contains the separator itself. */
  lemma {:induction false} SplitJoin(names: seq<string>)
    requires names != []
    requires forall i :: 0 <= i < |names| ==> Free(names[i], ArtistSeparator)
    ensures Split(Join(names, ArtistSeparator), ArtistSeparator) == names
    decreases |names|
  {
    var sep := ArtistSeparator;
    var a := names[0];
    if |names| == 1 {
      assert Find(a, sep, 0).None?;
    } else {
      var rest := Join(names[1..], sep);
      var s := a + sep + rest;
      assert Join(names, sep) == s;
      assert OccursAt(s, sep, |a|) by {
        assert s[|a|..|a| + 2] == sep;
      }
      forall j | 0 <= j < |a| ensures !OccursAt(s, sep, j) {
        if j + 2 <= |a| {
          assert s[j..j + 2] == a[j..j + 2];
          assert !OccursAt(a, sep, j);
        } else {
          assert s[j + 1] == ',';
        }
      }
      assert Find(s, sep, 0) == Some(|a|);
      assert s[..|a|] == a;
      assert s[|a| + |sep|..] == rest;
      forall i | 0 <= i < |names[1..]| ensures Free(names[1..][i], sep) {
        assert names[1..][i] == names[i + 1];
      }
      SplitJoin(names[1..]);
    }
  }

  /** Without that proviso the join loses information: one artist whose name
      contains the separator reads the same as two artists. */
  lemma JoinConflates()
    ensures Join(["Earth, Wind & Fire"], ArtistSeparator) == Join(["Earth", "Wind & Fire"], ArtistSeparator)
  {
    assert Join(["Wind & Fire"], ArtistSeparator) == "Wind & Fire";
  }
}
