/** The symbolic file-mode grammar noted on the `permissions` field of an AFE
    container: three triplets (owner, group, other), each `r|-`, `w|-`, `x|-`.
    The builder never checks it; it is stated here so that properties of
    particular permission strings can be proved. */
module Permissions {

  /** The permission string a fresh builder starts with. */
  const DefaultPermissions: string := "rwxr-xr-x"

  /** The letter allowed at position `i`: `r`, `w`, `x` repeating. */
  function ModeLetter(i: nat): char
  {
    if i % 3 == 0 then 'r' else if i % 3 == 1 then 'w' else 'x'
  }

  /** Exactly nine characters, each `-` or the letter its position selects. */
  predicate WellFormed(p: string)
  {
    && |p| == 9
    && forall i :: 0 <= i < |p| ==> p[i] == '-' || p[i] == ModeLetter(i)
  }

  /** One triplet of the listing: read, write, execute flags in that order. */
  predicate Triplet(t: string)
  {
    && |t| == 3
    && (t[0] == 'r' || t[0] == '-')
    && (t[1] == 'w' || t[1] == '-')
    && (t[2] == 'x' || t[2] == '-')
  }

  /** The positional rule and the owner/group/other reading agree. */
  lemma WellFormedIffTriplets(p: string)
    ensures WellFormed(p) <==> |p| == 9 && Triplet(p[0..3]) && Triplet(p[3..6]) && Triplet(p[6..9])
  {
    if |p| == 9 && Triplet(p[0..3]) && Triplet(p[3..6]) && Triplet(p[6..9]) {
      forall i | 0 <= i < 9
        ensures p[i] == '-' || p[i] == ModeLetter(i)
      {
        var k := i / 3;
        assert p[3 * k..3 * k + 3][i % 3] == p[i];
      }
    }
  }

  /** The default string has nine characters and obeys the grammar. */
  lemma DefaultPermissionsWellFormed()
    ensures |DefaultPermissions| == 9
    ensures WellFormed(DefaultPermissions)
  {
    WellFormedIffTriplets(DefaultPermissions);
    assert DefaultPermissions[0..3] == "rwx";
    assert DefaultPermissions[3..6] == "r-x";
    assert DefaultPermissions[6..9] == "r-x";
  }

  /** Sample strings on both sides of the grammar: too short, a foreign
      character, and upper case are all rejected. */
  lemma GrammarExamples()
    ensures WellFormed("rw-r--r--")
    ensures WellFormed("---------")
    ensures !WellFormed("rwxrwxrw")
    ensures !WellFormed("rwxrwxrwz")
    ensures !WellFormed("RWXR-XR-X")
  {
    WellFormedIffTriplets("rw-r--r--");
    assert "rw-r--r--"[0..3] == "rw-" && "rw-r--r--"[3..6] == "r--" && "rw-r--r--"[6..9] == "r--";
    WellFormedIffTriplets("---------");
    assert "---------"[0..3] == "---" && "---------"[3..6] == "---" && "---------"[6..9] == "---";
    assert "rwxrwxrwz"[8] == 'z';
    assert "RWXR-XR-X"[0] == 'R';
  }
}
