/** The parameter identifiers shared by the C++ processor and the web UI (Source/ParameterIDs.h). */
module ParameterIds {
  import opened Text

  const ModuleSelect: string := "module"
  const Drive: string := "drive"
  const Tone: string := "tone"
  const Output: string := "output"
  const Mix: string := "mix"
  const Character: string := "character"
  const Warmth: string := "warmth"
  const Bypass: string := "bypass"

  const CathodeIds: seq<string> := ["cath_ember", "cath_haze", "cath_echo", "cath_drift", "cath_velvet"]
  const FilamentIds: seq<string> := ["fil_fracture", "fil_glisten", "fil_cascade", "fil_phase", "fil_prism"]
  const SteelIds: seq<string> := ["steel_scorch", "steel_rust", "steel_grind", "steel_shred", "steel_snarl"]

  /** The identifiers of the non-effect parameters, in declaration order. */
  const CoreIds: seq<string> := [ModuleSelect, Drive, Tone, Output, Mix, Character, Warmth, Bypass]

  /** Every identifier the header declares, in declaration order. */
  const AllIds: seq<string> := CoreIds + CathodeIds + FilamentIds + SteelIds

  /** Saved sessions carry this version number. */
  const StateVersion: int := 3

  predicate Distinct(ids: seq<string>) {
    forall i, j :: 0 <= i < j < |ids| ==> ids[i] != ids[j]
  }

  /** Every entry of `ids` begins with `prefix`. */
  predicate AllPrefixed(ids: seq<string>, prefix: string) {
    forall i :: 0 <= i < |ids| ==> StartsWith(ids[i], prefix)
  }

  /** Each effect family has five identifiers, all under the family's prefix. */
  lemma FamiliesArePrefixed()
    ensures |CathodeIds| == 5 && AllPrefixed(CathodeIds, "cath_")
    ensures |FilamentIds| == 5 && AllPrefixed(FilamentIds, "fil_")
    ensures |SteelIds| == 5 && AllPrefixed(SteelIds, "steel_")
  {
  }

  lemma {:induction false} DistinctAppend(a: seq<string>, b: seq<string>)
    requires Distinct(a) && Distinct(b)
    requires forall i, j :: 0 <= i < |a| && 0 <= j < |b| ==> a[i] != b[j]
    ensures Distinct(a + b)
  {
    forall i, j | 0 <= i < j < |a + b| ensures (a + b)[i] != (a + b)[j] {
      if j < |a| {
        assert (a + b)[i] == a[i] && (a + b)[j] == a[j];
      } else if i < |a| {
        assert (a + b)[i] == a[i] && (a + b)[j] == b[j - |a|];
      } else {
        assert (a + b)[i] == b[i - |a|] && (a + b)[j] == b[j - |a|];
      }
    }
  }

  /** No entry of `a` occurs in `b`. */
  predicate Apart(a: seq<string>, b: seq<string>) {
    forall i, j :: 0 <= i < |a| && 0 <= j < |b| ==> a[i] != b[j]
  }

  lemma ApartAppend(a: seq<string>, b: seq<string>, c: seq<string>)
    requires Apart(a, b) && Apart(a, c)
    ensures Apart(a, b + c)
  {
    forall i, j | 0 <= i < |a| && 0 <= j < |b + c| ensures a[i] != (b + c)[j] {
      if j < |b| {
        assert (b + c)[j] == b[j];
      } else {
        assert (b + c)[j] == c[j - |b|];
      }
    }
  }

  lemma CoreApart()
    ensures Apart(CoreIds, CathodeIds) && Apart(CoreIds, FilamentIds) && Apart(CoreIds, SteelIds)
  {
  }

  lemma FamiliesApart()
    ensures Apart(CathodeIds, FilamentIds) && Apart(CathodeIds, SteelIds) && Apart(FilamentIds, SteelIds)
  {
  }

  lemma FamiliesInternallyDistinct()
    ensures Distinct(CoreIds) && Distinct(CathodeIds) && Distinct(FilamentIds) && Distinct(SteelIds)
  {
  }

  /** No two of the twenty-three identifiers coincide. */
  lemma AllIdsDistinct()
    ensures |AllIds| == 23 && Distinct(AllIds)
  {
    FamiliesInternallyDistinct();
    CoreApart();
    FamiliesApart();
    var filSteel := FilamentIds + SteelIds;
    DistinctAppend(FilamentIds, SteelIds);
    ApartAppend(CathodeIds, FilamentIds, SteelIds);
    DistinctAppend(CathodeIds, filSteel);
    ApartAppend(CoreIds, FilamentIds, SteelIds);
    ApartAppend(CoreIds, CathodeIds, filSteel);
    DistinctAppend(CoreIds, CathodeIds + filSteel);
    assert AllIds == CoreIds + (CathodeIds + filSteel);
  }
}
